# A verified model of the `!summarize` Discord bot

The bot listens for chat messages of the form `!summarize <YouTube link>`.
For such a message it works out the video id, acknowledges the request,
fetches up to 20 top-level comments from the YouTube Data API, asks Gemini
to summarise them, and replies with the summary. This project models the
decision logic of that pipeline in Dafny. Every external service is reduced
to the outcome it returns for a given input:

- `wrappers.dfy` (`Wrappers`): `Option` (a value or `null`) and `Result` (a value or a thrown `Error` with its message).
- `text.dfy` (`Text`): the JavaScript string built-ins the bot uses, over `seq<char>`. These are `startsWith`, `includes`, `slice(1)`, `split` on one character and `join`. It also proves the split/join round trip.
- `video_id.dfy` (`VideoId`): `getVideoId`. It takes as input the URL parser's result, which is either a failure or a host, a path and the query parameters.
- `comments.dfy` (`Comments`): `fetchComments`. An HTTP outcome becomes either a newline-joined corpus or the generic error.
- `summarizer.dfy` (`Summarizer`): the prompt, and the fallback text used when generation fails.
- `dispatcher.dfy` (`Dispatcher`): the `messageCreate` handler.
  - `Dispatch` is the ordered list of effects for one message: replies, interleaved with the requests sent to the comment API and to the generator.
  - `Bot.OnMessageCreate` runs the handler step by step, with its early returns, and appends to the bot's `log`. Its contract ties the new log to `Dispatch`.
- `dispatch_properties.dfy` (`DispatchProperties`): what the handler promises, proved about `Dispatch`. This covers the filter, the early exits, the ordering of the acknowledgement and the service calls, the two possible outcomes of a valid link, and four end-to-end scenarios.

Fetch failures and summarise failures are handled differently. If the fetch fails, the pipeline stops with the generic message: "❌ Could not fetch comments. Check the video link or API key.". This also happens when there are no comments. If the generator fails, the fixed fallback text is used instead, and the bot still sends the summary reply.

The model follows these details of the code:
- For a host containing `youtu.be`, the id is the whole path without its first character, not just the first path segment. So `https://youtu.be/abc/def` gives `abc/def`.
- The host test is a substring test, so any host name containing `youtu.be` takes the short-link branch.
- The argument is the second field of splitting on single spaces. Extra fields after it are ignored. A tab or newline after the trigger does not separate fields.
- If the fetch fails, the user sees only the generic rewrapped message, never the underlying error text.

## Model

| member | source | states |
|---|---|---|
| `Text.StartsWith` | index.js:89 | `startsWith`: the prefix is no longer than the string and equals its first characters. `PrefixIsEnough` uses it for the trigger |
| `Text.DropFirst` | index.js:31 | `slice(1)`: everything after the first character, and empty for the empty string. `ShortLinkForm` states that `"/" + id` gives `id` |
| `Text.Join` | index.js:58-60 | `join`: the separator between neighbours and none at the ends. `Split` and `SplitJoin` state that it is undone by splitting |
| `Text.Includes` | index.js:30 | `includes` holds if and only if the marker occurs at some position of the host name |
| `Text.Split` | index.js:91 | splitting gives one more field than there are separators, and no field contains the separator. Joining the fields with the separator gives back the input |
| `Text.SplitWithoutSeparator` | index.js:91-92 | a string without the separator splits into itself alone, so it has no second field |
| `Text.SplitAtFirstSeparator` | index.js:91-92 | the first field ends at the first separator, and the rest is split independently |
| `Text.SplitJoin` | index.js:58-60 | splitting a join of separator-free parts gives back exactly those parts, in order |
| `VideoId.GetVideoId` | index.js:27-37 | `getVideoId` over the parser's result. Its meaning is stated by `ParseFailureHasNoId`, `ShortLinkId`, `ShortLinkForm`, `LongLinkId` and `MissingVideoParamHasNoId` |
| `VideoId.SearchParam` | index.js:33 | the lookup is null exactly when no parameter has the name. Otherwise it is the value of the first parameter with that name |
| `VideoId.ParseFailureHasNoId` | index.js:34-36 | a link the parser rejects gives null |
| `VideoId.ShortLinkId` | index.js:30-31 | a host with `youtu.be` anywhere in it gives the path without its first character, whatever the query holds |
| `VideoId.ShortLinkForm` | index.js:30-31 | `https://youtu.be/{id}` gives exactly `{id}` |
| `VideoId.FirstOccurrenceWins` | index.js:33 | with no earlier parameter of that name, the lookup finds the first occurrence, whatever follows it |
| `VideoId.LongLinkId` | index.js:33 | any other host gives the first `v` parameter, whatever other parameters come before or after it |
| `VideoId.MissingVideoParamHasNoId` | index.js:33 | for any other host with no `v` parameter, there is no id |
| `Comments.Corpus` | index.js:58-60 | the display texts joined by single newlines. `CorpusLines` states that it splits back into the texts, in order, with N - 1 newlines |
| `Comments.FetchAttempt` | index.js:41-60 | the body of the `try`: a request error, or a missing or empty `items` array, raises an error, and otherwise the corpus is returned. `NoCommentsIsRewrapped` and `FetchComments` state what leaves `fetchComments` |
| `Comments.FetchComments` | index.js:54-63 | the fetch succeeds exactly when the response has a non-empty `items` array. The corpus is then those items' texts joined by newlines. Every failure carries the generic message |
| `Comments.NoCommentsIsRewrapped` | index.js:54-63 | a missing or empty `items` array raises "No comments found" inside the `try`. It leaves `fetchComments` as the generic error |
| `Comments.CorpusLines` | index.js:58-60 | for N newline-free texts (N ≥ 1), the corpus splits back into exactly those N lines, in order, with N - 1 newlines |
| `Summarizer.Prompt` | index.js:70 | the prompt is the fixed instruction followed by the unchanged corpus |
| `Summarizer.PromptInjective` | index.js:70 | different corpora give different prompts |
| `Summarizer.SummarizeComments` | index.js:68-80 | never fails. When generation succeeds the result is the generated text verbatim, and when it fails the result is the fallback |
| `Dispatcher.Replies` | index.js:94-105 | a text is a reply exactly when some `Replied` event carries it, and there are no more replies than events |
| `Dispatcher.RepliesOfOne` | index.js:94-105 | a single event contributes its text exactly when it is a reply, and nothing otherwise |
| `Dispatcher.RepliesAppend` | index.js:94-105 | the replies of consecutive effects are the replies of each part, in order. With `RepliesOfOne` this fixes the order and multiplicity of the reply texts |
| `Dispatcher.FailureReply` | index.js:104-105 | the error reply is `❌ ` followed by the error's message unchanged |
| `Dispatcher.SummaryReply` | index.js:103 | the success reply is the fixed header `📊 **Summary:**` and a newline, followed by the summary unchanged |
| `Dispatcher.Accepted` | index.js:89 | the filter: the content starts with `!summarize` and the author is not a bot. `IgnoredMessageHasNoEffect` and `PrefixIsEnough` state its effect |
| `Dispatcher.Truthy` | index.js:94-96 | JavaScript truthiness of the argument and of the id: present and non-empty. `MissingUrlGetsUsage` and `InvalidLinkGetsWarning` state its effect |
| `Dispatcher.UrlArgument` | index.js:91-92 | `args[1]`. `NoSpaceNoArgument`, `ArgumentIsSecondField` and `MissingArgumentExamples` state what it yields |
| `Dispatcher.Dispatch` | index.js:88-107 | the ordered effects of one message. The `DispatchProperties` lemmas state what they are, and `Bot.OnMessageCreate` is proved to produce exactly them |
| `Dispatcher.Bot.Reply` | index.js:94 | a reply appends exactly one `Replied` event to the log |
| `Dispatcher.Bot.OnMessageCreate` | index.js:88-107 | handling a message appends exactly `Dispatch` of that message to the log and changes nothing else |
| `DispatchProperties.NoSpaceNoArgument` | index.js:91-92 | content without a space has no `args[1]` |
| `DispatchProperties.NoSpaceGetsUsage` | index.js:89-94 | an accepted message without a space gets only the usage warning, with no fetch and no summarise |
| `DispatchProperties.ArgumentIsSecondField` | index.js:91-92 | the argument is exactly the text between the first space and the next space (or the end). Anything after it is ignored |
| `DispatchProperties.MissingArgumentExamples` | index.js:91-94 | `!summarize` has no argument, and in `!summarize  x` the argument is empty |
| `DispatchProperties.IgnoredMessageHasNoEffect` | index.js:89 | content without the trigger prefix, or a bot author, gives no reply and no service request |
| `DispatchProperties.PrefixIsEnough` | index.js:89 | any continuation of the trigger, such as `!summarizeX`, is accepted, and the first effect is a reply |
| `DispatchProperties.MissingUrlGetsUsage` | index.js:94 | a missing or empty argument gives only the usage warning, with no fetch and no summarise |
| `DispatchProperties.InvalidLinkGetsWarning` | index.js:95-96 | a null or empty id gives only the invalid-link warning, with no fetch |
| `DispatchProperties.EmptyShortLinkIsInvalid` | index.js:95-96 | `https://youtu.be/` gives the empty id, which is answered with the invalid-link warning |
| `DispatchProperties.ServicesNeedValidId` | index.js:94-102 | the comment API is asked only for the non-empty id that the message's argument names. The generator is asked only for the prompt built from a successfully fetched corpus |
| `DispatchProperties.AcknowledgementFirst` | index.js:98-101 | a service request is never the first effect, and when any request is made, the acknowledgement comes first |
| `DispatchProperties.ReplySequences` | index.js:98-105 | for a valid id the replies are exactly `[ack, header + summary]` when the fetch succeeds, and `[ack, generic fetch error]` otherwise |
| `DispatchProperties.FetchFailureAborts` | index.js:100-105 | after a failed fetch the effects are the acknowledgement, the one fetch and the generic error reply. The generator is never asked |
| `DispatchProperties.NoCommentsNeverShown` | index.js:55-63 | no message and no service outcome ever makes the bot reply "No comments found" |
| `DispatchProperties.FetchSuccessCompletes` | index.js:101-103 | a fetch that returned items always ends in the summary reply. The generator is asked with the prompt over those items. The reply carries the generated text verbatim when generation succeeds, and the fallback when it fails |
| `DispatchProperties.DispatchShapes` | index.js:88-107 | every effect sequence is one of five shapes: nothing, the usage warning, the invalid-link warning, ack + fetch + error, or ack + fetch + generate + summary |
| `DispatchProperties.ShortLinkScenario` | index.js:88-107 | `!summarize https://youtu.be/abc123` with two comments and a working generator gives the acknowledgement, then the summary reply with the generated text |
| `DispatchProperties.NoLinkScenario` | index.js:94 | `!summarize` alone gives only the usage warning |
| `DispatchProperties.NotAUrlScenario` | index.js:95-96 | `!summarize not-a-url`, which the parser rejects, gives only the invalid-link warning |
| `DispatchProperties.NoCommentsScenario` | index.js:98-105 | a valid link whose video has no comments gives the acknowledgement and the generic fetch error. The generator is never asked |

## Left out

- Discord client construction, gateway intents, the `ready` event and `login` (index.js:14-20, 83-85, 110): network plumbing with no decision logic.
- The HTTP request to the commentThreads endpoint and its query parameters, including the page size of 20 (index.js:42-52). Only the outcome of the request is modelled: a request error, or a response whose `items` array is missing or holds the display texts.
- Items that lack `snippet`, `topLevelComment` or the inner `snippet` (index.js:59). In the code, `map` then throws and the error is rewrapped into the generic one. The modelled response holds the texts directly, so this case is not represented. An item that lacks only `textDisplay` is represented: `map` yields `undefined`, `join` renders it as an empty line, and the model holds it as the text `""`.
- The Gemini SDK setup and the `generateContent` call (index.js:23-24, 73-75). Only the outcome for a prompt is modelled: generated text, or an error.
- The WHATWG URL parser (index.js:29). Its result is an input: a failure, or a host name, a path and the decoded query parameters in order.
- Environment credentials and dotenv (index.js:6-11), and the `console.error` logging (index.js:62, 77). These are configuration and logging with no observable effect on replies.
- Failure of `message.reply` itself. A rejected acknowledgement (awaited at index.js:98) would end the handler before the fetch. The model treats every reply as delivered.
- Interleaving of handlers for different messages, and the absence of timeouts. These are scheduling questions. Within one handler the model is sequential, and each message's effects are appended as a block.
- JavaScript strings are sequences of UTF-16 code units, and comment text may hold lone surrogates. The model's strings are sequences of Unicode scalar values. No decision depends on this, because the only offsets used are on the ASCII trigger and on the path.
