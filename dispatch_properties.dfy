/** What the `messageCreate` handler promises, proved about `Dispatch`. */
module DispatchProperties {
  import opened Wrappers
  import opened Text
  import opened VideoId
  import opened Comments
  import opened Summarizer
  import opened Dispatcher

  // ----- the URL argument -----

  /** Without a space there is no second field. */
  lemma NoSpaceNoArgument(content: string)
    requires ' ' !in content
    ensures UrlArgument(content) == None
  {
    SplitWithoutSeparator(content, ' ');
  }

  /** An accepted message without a space gets only the usage warning. */
  lemma NoSpaceGetsUsage(msg: Message, env: Services)
    requires Accepted(msg) && ' ' !in msg.content
    ensures Dispatch(msg, env) == [Replied(UsageWarning)]
  {
    NoSpaceNoArgument(msg.content);
  }

  /** The argument is exactly the text between the first and the second space
      (or the end): nothing after it matters. */
  lemma ArgumentIsSecondField(head: string, arg: string, tail: string)
    requires ' ' !in head && ' ' !in arg
    ensures UrlArgument(head + " " + arg) == Some(arg)
    ensures UrlArgument(head + " " + arg + " " + tail) == Some(arg)
  {
    SplitAtFirstSeparator(head, ' ', arg);
    SplitWithoutSeparator(arg, ' ');
    assert head + " " + arg + " " + tail == head + [' '] + (arg + [' '] + tail);
    SplitAtFirstSeparator(head, ' ', arg + [' '] + tail);
    SplitAtFirstSeparator(arg, ' ', tail);
  }

  /** `!summarize` alone has no argument, and `!summarize  x` has the empty one. */
  lemma MissingArgumentExamples(bare: string, doubled: string)
    requires bare == "!summarize" && doubled == "!summarize  x"
    ensures UrlArgument(bare) == None
    ensures UrlArgument(doubled) == Some("")
  {
    NoSpaceNoArgument(bare);
    assert doubled == bare + " " + "" + " " + "x";
    ArgumentIsSecondField(bare, "", "x");
  }

  // ----- the filter and the early exits -----

  /** A message without the trigger prefix, or from a bot, has no effect at all. */
  lemma IgnoredMessageHasNoEffect(msg: Message, env: Services)
    requires !StartsWith(msg.content, Trigger) || msg.authorIsBot
    ensures Dispatch(msg, env) == []
  {
  }

  /** The filter is a prefix test: any continuation of the trigger, such as
      `!summarizeX`, is accepted, and an accepted message always starts with a reply. */
  lemma PrefixIsEnough(suffix: string, env: Services)
    ensures Accepted(Message(Trigger + suffix, false))
    ensures |Dispatch(Message(Trigger + suffix, false), env)| >= 1
    ensures Dispatch(Message(Trigger + suffix, false), env)[0].Replied?
  {
    assert (Trigger + suffix)[..|Trigger|] == Trigger;
  }

  /** A missing or empty argument: the usage warning and nothing else. */
  lemma MissingUrlGetsUsage(msg: Message, env: Services)
    requires Accepted(msg)
    requires !Truthy(UrlArgument(msg.content))
    ensures Dispatch(msg, env) == [Replied(UsageWarning)]
  {
  }

  /** No id (null or empty): the invalid-link warning and nothing else. */
  lemma InvalidLinkGetsWarning(msg: Message, env: Services)
    requires Accepted(msg) && Truthy(UrlArgument(msg.content))
    requires !Truthy(GetVideoId(env.parse(UrlArgument(msg.content).value)))
    ensures Dispatch(msg, env) == [Replied(InvalidLinkWarning)]
  {
  }

  /** `https://youtu.be/` names the empty id, which is an invalid link. */
  lemma EmptyShortLinkIsInvalid(msg: Message, env: Services, query: seq<(string, string)>)
    requires Accepted(msg) && Truthy(UrlArgument(msg.content))
    requires env.parse(UrlArgument(msg.content).value) == Some(Url(ShortLinkHost, "/", query))
    ensures Dispatch(msg, env) == [Replied(InvalidLinkWarning)]
  {
    ShortLinkForm("", query);
  }

  // ----- services are contacted only for a valid id, and after the acknowledgement -----

  /** The comment API is asked only for the non-empty id of the message's
      argument, and the generator only for the prompt of a fetched corpus. */
  lemma ServicesNeedValidId(msg: Message, env: Services)
    ensures forall v :: CommentsRequested(v) in Dispatch(msg, env) ==>
      Accepted(msg) && Truthy(UrlArgument(msg.content)) &&
      GetVideoId(env.parse(UrlArgument(msg.content).value)) == Some(v) && v != ""
    ensures forall p :: SummaryRequested(p) in Dispatch(msg, env) ==>
      exists v :: (CommentsRequested(v) in Dispatch(msg, env) &&
        FetchComments(env.fetch(v)).Ok? && p == Prompt(FetchComments(env.fetch(v)).value))
  {
  }

  /** Every service request comes after the acknowledgement, which is the first effect. */
  lemma AcknowledgementFirst(msg: Message, env: Services)
    ensures forall k :: 0 <= k < |Dispatch(msg, env)| && !Dispatch(msg, env)[k].Replied? ==>
      0 < k && Dispatch(msg, env)[0] == Replied(Acknowledgement)
  {
  }

  // ----- the two outcomes of a valid link -----

  /** For a valid id the replies are exactly one of two sequences, and which
      one is decided by the fetch alone. */
  lemma ReplySequences(msg: Message, env: Services)
    requires Accepted(msg) && Truthy(UrlArgument(msg.content))
    requires Truthy(GetVideoId(env.parse(UrlArgument(msg.content).value)))
    ensures var id := GetVideoId(env.parse(UrlArgument(msg.content).value)).value;
      var replies := Replies(Dispatch(msg, env));
      if FetchComments(env.fetch(id)).Ok? then
        exists summary :: replies == [Acknowledgement, SummaryReply(summary)]
      else
        replies == [Acknowledgement, FailureReply(CouldNotFetch)]
  {
    var id := GetVideoId(env.parse(UrlArgument(msg.content).value)).value;
    var head := [Replied(Acknowledgement), CommentsRequested(id)];
    RepliesAppend(head, Dispatch(msg, env)[2..]);
    assert Dispatch(msg, env) == head + Dispatch(msg, env)[2..];
    assert Replies(head) == [Acknowledgement] by {
      assert head[1..] == [CommentsRequested(id)];
      assert head[1..][1..] == [];
    }
    match FetchComments(env.fetch(id))
    case Err(message) =>
      var tail := [Replied(FailureReply(message))];
      assert tail[1..] == [];
    case Ok(comments) =>
      var summary := SummarizeComments(comments, env.generate);
      var tail := [SummaryRequested(Prompt(comments)), Replied(SummaryReply(summary))];
      assert tail[1..][1..] == [];
      assert Replies(Dispatch(msg, env)) == [Acknowledgement, SummaryReply(summary)];
  }

  /** A failed fetch (request error, missing or empty `items`) ends the
      pipeline with the generic message; the generator is never asked. */
  lemma FetchFailureAborts(msg: Message, env: Services)
    requires Accepted(msg) && Truthy(UrlArgument(msg.content))
    requires Truthy(GetVideoId(env.parse(UrlArgument(msg.content).value)))
    requires FetchComments(env.fetch(GetVideoId(env.parse(UrlArgument(msg.content).value)).value)).Err?
    ensures var id := GetVideoId(env.parse(UrlArgument(msg.content).value)).value;
      Dispatch(msg, env) == [Replied(Acknowledgement), CommentsRequested(id), Replied(FailureReply(CouldNotFetch))]
    ensures forall p :: SummaryRequested(p) !in Dispatch(msg, env)
  {
  }

  /** "No comments found" never reaches the user, whatever the message and services. */
  lemma NoCommentsNeverShown(msg: Message, env: Services)
    ensures Replied(FailureReply(NoCommentsFound)) !in Dispatch(msg, env)
  {
    assert |FailureReply(NoCommentsFound)| != |FailureReply(CouldNotFetch)|;
    assert FailureReply(NoCommentsFound)[0] != SummaryHeader[0];
    assert forall s :: SummaryReply(s)[0] == SummaryHeader[0];
  }

  /** A fetch that returned items always ends in a summary reply: the
      generator is asked with the prompt over those items' corpus and the
      reply carries its text verbatim or the fallback. */
  lemma FetchSuccessCompletes(msg: Message, env: Services, items: seq<string>)
    requires Accepted(msg) && Truthy(UrlArgument(msg.content))
    requires Truthy(GetVideoId(env.parse(UrlArgument(msg.content).value)))
    requires env.fetch(GetVideoId(env.parse(UrlArgument(msg.content).value)).value) == Received(Some(items))
    requires |items| > 0
    ensures SummaryRequested(Prompt(Corpus(items))) in Dispatch(msg, env)
    ensures var events := Dispatch(msg, env);
      |events| == 4 && events[3].Replied?
    ensures env.generate(Prompt(Corpus(items))).Generated? ==>
      Dispatch(msg, env)[3] == Replied(SummaryReply(env.generate(Prompt(Corpus(items))).text))
    ensures env.generate(Prompt(Corpus(items))).GenerationFailed? ==>
      Dispatch(msg, env)[3] == Replied(SummaryReply(SummaryFallback))
  {
    var events := Dispatch(msg, env);
    assert events[3] == Replied(SummaryReply(SummarizeComments(Corpus(items), env.generate)));
  }

  /** Every possible effect sequence has one of five shapes. */
  lemma DispatchShapes(msg: Message, env: Services)
    ensures var events := Dispatch(msg, env);
      events == [] ||
      events == [Replied(UsageWarning)] ||
      events == [Replied(InvalidLinkWarning)] ||
      exists id :: id != "" && (
        events == [Replied(Acknowledgement), CommentsRequested(id), Replied(FailureReply(CouldNotFetch))] ||
        exists comments, summary :: events ==
          [Replied(Acknowledgement), CommentsRequested(id), SummaryRequested(Prompt(comments)), Replied(SummaryReply(summary))])
  {
    if Accepted(msg) && Truthy(UrlArgument(msg.content)) {
      var id := GetVideoId(env.parse(UrlArgument(msg.content).value));
      if Truthy(id) {
        match FetchComments(env.fetch(id.value))
        case Err(_) =>
        case Ok(comments) =>
          var summary := SummarizeComments(comments, env.generate);
          assert Dispatch(msg, env) ==
            [Replied(Acknowledgement), CommentsRequested(id.value), SummaryRequested(Prompt(comments)), Replied(SummaryReply(summary))];
      }
    }
  }

  // ----- end-to-end scenarios -----

  /** `!summarize <url>` from a human is accepted and has `<url>` as its argument. */
  lemma CommandWithLink(msg: Message, url: string)
    requires ' ' !in url
    requires msg == Message(Trigger + " " + url, false)
    ensures Accepted(msg) && UrlArgument(msg.content) == Some(url)
  {
    ArgumentIsSecondField(Trigger, url, "");
  }

  /** The parse of `https://youtu.be/abc123` names the id `abc123`. */
  lemma ExampleShortLink(env: Services, url: string)
    requires env.parse(url) == Some(Url(ShortLinkHost, "/abc123", []))
    ensures GetVideoId(env.parse(url)) == Some("abc123")
  {
    ShortLinkForm("abc123", []);
    assert "/abc123" == "/" + "abc123";
  }

  /** The two example comments make a two-line corpus. */
  lemma ExampleCorpus(items: seq<string>, corpus: string)
    requires items == ["Great video!", "Thanks!"] && corpus == "Great video!\nThanks!"
    ensures Corpus(items) == corpus
  {
    assert items[1..] == ["Thanks!"];
    assert Join(items[1..], "\n") == "Thanks!";
    assert Corpus(items) == "Great video!" + "\n" + "Thanks!";
  }

  /** `!summarize https://youtu.be/abc123`: the video has two comments and the
      generator answers; the bot acknowledges, then replies with the summary. */
  lemma ShortLinkScenario(msg: Message, env: Services, url: string, items: seq<string>, corpus: string)
    requires url == "https://youtu.be/abc123"
    requires items == ["Great video!", "Thanks!"] && corpus == "Great video!\nThanks!"
    requires msg == Message(Trigger + " " + url, false)
    requires env.parse(url) == Some(Url(ShortLinkHost, "/abc123", []))
    requires env.fetch("abc123") == Received(Some(items))
    requires env.generate(Prompt(corpus)) == Generated("- Viewers enjoyed it")
    ensures Dispatch(msg, env) ==
      [Replied(Acknowledgement), CommentsRequested("abc123"),
       SummaryRequested(Prompt(corpus)), Replied(SummaryReply("- Viewers enjoyed it"))]
  {
    CommandWithLink(msg, url);
    ExampleShortLink(env, url);
    ExampleCorpus(items, corpus);
    assert FetchComments(env.fetch("abc123")) == Ok(corpus);
  }

  /** `!summarize` with no link: the usage warning, no service is contacted. */
  lemma NoLinkScenario(msg: Message, env: Services)
    requires msg == Message("!summarize", false)
    ensures Dispatch(msg, env) == [Replied(UsageWarning)]
  {
    NoSpaceNoArgument(msg.content);
    MissingUrlGetsUsage(msg, env);
  }

  /** `!summarize not-a-url`, which the parser rejects: the invalid-link
      warning, no service is contacted. */
  lemma NotAUrlScenario(msg: Message, env: Services, url: string)
    requires url == "not-a-url"
    requires msg == Message(Trigger + " " + url, false)
    requires env.parse(url) == None
    ensures Dispatch(msg, env) == [Replied(InvalidLinkWarning)]
  {
    CommandWithLink(msg, url);
    InvalidLinkGetsWarning(msg, env);
  }

  /** A valid link whose video has no comments: the generic fetch error, and
      the generator is never asked. */
  lemma NoCommentsScenario(msg: Message, env: Services, url: string)
    requires url == "https://youtu.be/abc123"
    requires msg == Message(Trigger + " " + url, false)
    requires env.parse(url) == Some(Url(ShortLinkHost, "/abc123", []))
    requires env.fetch("abc123") == Received(Some([]))
    ensures Replies(Dispatch(msg, env)) ==
      [Acknowledgement, FailureReply(CouldNotFetch)]
    ensures forall p :: SummaryRequested(p) !in Dispatch(msg, env)
  {
    CommandWithLink(msg, url);
    ExampleShortLink(env, url);
    FetchFailureAborts(msg, env);
    ReplySequences(msg, env);
  }
}
