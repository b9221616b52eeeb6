/** The `messageCreate` handler (index.js:88-107): turns one inbound chat
    message into replies and the service calls made on its behalf. */
module Dispatcher {
  import opened Wrappers
  import opened Text
  import opened VideoId
  import opened Comments
  import opened Summarizer

  const Trigger: string := "!summarize"
  const UsageWarning: string := "⚠️ Please provide a YouTube URL."
  const InvalidLinkWarning: string := "⚠️ Invalid YouTube link."
  const Acknowledgement: string := "⏳ Fetching and summarizing comments..."
  const SummaryHeader: string := "📊 **Summary:**\n"

  /** The reply relaying an error thrown by the fetch-and-summarise block. */
  function FailureReply(message: string): (r: string)
    ensures StartsWith(r, "❌ ") && r[2..] == message
  {
    "❌ " + message
  }

  /** The reply carrying a summary. */
  function SummaryReply(summary: string): (r: string)
    ensures StartsWith(r, SummaryHeader) && r[|SummaryHeader|..] == summary
  {
    SummaryHeader + summary
  }

  /** The parts of a Discord message the handler reads. */
  datatype Message = Message(content: string, authorIsBot: bool)

  /** The collaborators, each reduced to its outcome for a given input: the
      URL parser, the comment API for a video id, the generator for a prompt. */
  datatype Services = Services(
    parse: string -> Option<Url>,
    fetch: string -> CommentsResponse,
    generate: string -> Generation)

  /** One observable effect: a reply in the channel, or a request to a service. */
  datatype Event = Replied(text: string) | CommentsRequested(videoId: string) | SummaryRequested(prompt: string)

  /** JavaScript truthiness of a string-or-null: present and non-empty. */
  predicate Truthy(v: Option<string>) {
    v.Some? && v.value != ""
  }

  /** The message passes the filter: it starts with the trigger and a human wrote it. */
  predicate Accepted(msg: Message) {
    StartsWith(msg.content, Trigger) && !msg.authorIsBot
  }

  /** `args[1]` of `content.split(" ")`, `None` when there is no second field. */
  function UrlArgument(content: string): Option<string> {
    var args := Split(content, ' ');
    if |args| >= 2 then Some(args[1]) else None
  }

  /** The effects the handler has for a message, in order. */
  function Dispatch(msg: Message, env: Services): seq<Event> {
    if !Accepted(msg) then []
    else
      var url := UrlArgument(msg.content);
      if !Truthy(url) then [Replied(UsageWarning)]
      else
        var videoId := GetVideoId(env.parse(url.value));
        if !Truthy(videoId) then [Replied(InvalidLinkWarning)]
        else
          [Replied(Acknowledgement), CommentsRequested(videoId.value)] +
          match FetchComments(env.fetch(videoId.value))
          case Err(message) => [Replied(FailureReply(message))]
          case Ok(comments) =>
            [SummaryRequested(Prompt(comments)), Replied(SummaryReply(SummarizeComments(comments, env.generate)))]
  }

  /** The texts of the replies among `events`, in order. */
  function Replies(events: seq<Event>): (texts: seq<string>)
    ensures |texts| <= |events|
    ensures forall t :: t in texts <==> Replied(t) in events
    decreases |events|
  {
    if events == [] then []
    else
      var rest := Replies(events[1..]);
      assert events == [events[0]] + events[1..];
      if events[0].Replied? then [events[0].text] + rest else rest
  }

  /** A single event contributes its text exactly when it is a reply. */
  lemma RepliesOfOne(e: Event)
    ensures Replies([e]) == if e.Replied? then [e.text] else []
  {
    assert [e][1..] == [];
  }

  /** Replies of a concatenation are the concatenated replies: together with
      `RepliesOfOne` this fixes the order and the multiplicity of the texts. */
  lemma {:induction false} RepliesAppend(a: seq<Event>, b: seq<Event>)
    ensures Replies(a + b) == Replies(a) + Replies(b)
    decreases |a|
  {
    if a == [] {
      assert a + b == b;
    } else {
      assert (a + b)[0] == a[0];
      assert (a + b)[1..] == a[1..] + b;
      RepliesAppend(a[1..], b);
      if a[0].Replied? {
        assert [a[0].text] + Replies(a[1..]) + Replies(b) == [a[0].text] + (Replies(a[1..]) + Replies(b));
      }
    }
  }

  /** The bot's observable history: everything it said and asked for. */
  class Bot {
    var log: seq<Event>

    constructor ()
      ensures log == []
    {
      log := [];
    }

    /** `message.reply(text)` */
    method Reply(text: string)
      modifies this
      ensures log == old(log) + [Replied(text)]
    {
      log := log + [Replied(text)];
    }

    /** The `messageCreate` handler, step by step with early returns. */
    method OnMessageCreate(msg: Message, env: Services)
      modifies this
      ensures log == old(log) + Dispatch(msg, env)
    {
      if !StartsWith(msg.content, Trigger) || msg.authorIsBot {
        return;
      }
      var url := UrlArgument(msg.content);
      if !Truthy(url) {
        Reply(UsageWarning);
        return;
      }
      var videoId := GetVideoId(env.parse(url.value));
      if !Truthy(videoId) {
        Reply(InvalidLinkWarning);
        return;
      }
      Reply(Acknowledgement);
      log := log + [CommentsRequested(videoId.value)];
      var comments := FetchComments(env.fetch(videoId.value));
      if comments.Err? {
        Reply(FailureReply(comments.message));
        return;
      }
      log := log + [SummaryRequested(Prompt(comments.value))];
      var summary := SummarizeComments(comments.value, env.generate);
      Reply(SummaryReply(summary));
    }
  }
}
