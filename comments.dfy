/** `fetchComments` (index.js:40-65): turns the comment API's answer into one
    newline-separated corpus. The HTTP request is not modelled; its outcome is
    the input. */
module Comments {
  import opened Wrappers
  import opened Text

  /** What the `axios.get` call to the commentThreads endpoint produced: a
      response whose `items` array is missing (`None`) or holds the
      `textDisplay` of each item in response order, or a thrown request error. */
  datatype CommentsResponse = Received(items: Option<seq<string>>) | RequestFailed(message: string)

  /** The error raised inside the `try` block when there are no comments. */
  const NoCommentsFound: string := "No comments found for this video."

  /** The only error `fetchComments` lets out. */
  const CouldNotFetch: string := "Could not fetch comments. Check the video link or API key."

  /** The corpus: the display texts joined by single newlines. */
  function Corpus(texts: seq<string>): string {
    Join(texts, "\n")
  }

  /** The body of the `try` block: fails on a request error and on a missing
      or empty `items` array, and joins the texts otherwise. */
  function FetchAttempt(response: CommentsResponse): Result<string> {
    match response
    case RequestFailed(message) => Err(message)
    case Received(items) =>
      if items.None? || |items.value| == 0 then Err(NoCommentsFound)
      else Ok(Corpus(items.value))
  }

  /** `fetchComments`: any failure of the attempt is rethrown as the generic error. */
  function FetchComments(response: CommentsResponse): (r: Result<string>)
    ensures r.Ok? <==> response.Received? && response.items.Some? && |response.items.value| > 0
    ensures r.Ok? ==> r.value == Corpus(response.items.value)
    ensures r.Err? ==> r.message == CouldNotFetch
  {
    match FetchAttempt(response)
    case Ok(comments) => Ok(comments)
    case Err(_) => Err(CouldNotFetch)
  }

  /** "No comments found" never leaves `fetchComments`: an empty or missing
      `items` array is reported as the generic error. */
  lemma NoCommentsIsRewrapped(response: CommentsResponse)
    requires response == Received(None) || response == Received(Some([]))
    ensures FetchAttempt(response) == Err(NoCommentsFound)
    ensures FetchComments(response) == Err(CouldNotFetch)
  {
  }

  /** For N >= 1 newline-free texts the corpus splits back into exactly those
      N lines, in order, with N - 1 newlines between them. */
  lemma CorpusLines(texts: seq<string>)
    requires |texts| >= 1
    requires forall k :: 0 <= k < |texts| ==> '\n' !in texts[k]
    ensures Split(Corpus(texts), '\n') == texts
    ensures Occurrences(Corpus(texts), '\n') == |texts| - 1
  {
    SplitJoin(texts, '\n');
  }
}
