/** `getVideoId` (index.js:27-37): the video id named by a YouTube link.
    The WHATWG URL parser itself is not modelled; its result is the input. */
module VideoId {
  import opened Wrappers
  import opened Text

  /** What `new URL(...)` exposes to `getVideoId`: the host name, the path and
      the decoded query parameters in their order of appearance. */
  datatype Url = Url(hostname: string, pathname: string, searchParams: seq<(string, string)>)

  /** The host-name marker of a short link. */
  const ShortLinkHost: string := "youtu.be"

  /** The query parameter that carries the id of a long link. */
  const VideoParam: string := "v"

  /** Parameter `k` is the first one called `name`. */
  predicate FirstNamed(params: seq<(string, string)>, name: string, k: int) {
    0 <= k < |params| && params[k].0 == name &&
    forall j :: 0 <= j < k ==> params[j].0 != name
  }

  /** `searchParams.get(name)`: the value of the first parameter called `name`,
      or `null` when there is none. */
  function SearchParam(params: seq<(string, string)>, name: string): (value: Option<string>)
    ensures value.None? <==> forall k :: 0 <= k < |params| ==> params[k].0 != name
    ensures value.Some? ==> exists k :: FirstNamed(params, name, k) && params[k].1 == value.value
    decreases |params|
  {
    if params == [] then
      None
    else if params[0].0 == name then
      assert FirstNamed(params, name, 0);
      Some(params[0].1)
    else
      assert forall k :: FirstNamed(params[1..], name, k) ==> FirstNamed(params, name, k + 1);
      SearchParam(params[1..], name)
  }

  /** `getVideoId`, given what parsing the link produced (`None`: the parser threw). */
  function GetVideoId(parsed: Option<Url>): Option<string> {
    match parsed
    case None => None
    case Some(url) =>
      if Includes(url.hostname, ShortLinkHost) then Some(DropFirst(url.pathname))
      else SearchParam(url.searchParams, VideoParam)
  }

  /** A link the parser rejects has no id. */
  lemma ParseFailureHasNoId()
    ensures GetVideoId(None) == None
  {
  }

  /** A host containing `youtu.be` anywhere yields the path without its first
      character, whatever the query says. */
  lemma ShortLinkId(url: Url, i: int)
    requires OccursAt(url.hostname, ShortLinkHost, i)
    ensures GetVideoId(Some(url)) == Some(DropFirst(url.pathname))
  {
  }

  /** `https://youtu.be/{id}` yields exactly `{id}`. */
  lemma ShortLinkForm(id: string, query: seq<(string, string)>)
    ensures GetVideoId(Some(Url(ShortLinkHost, "/" + id, query))) == Some(id)
  {
    assert OccursAt(ShortLinkHost, ShortLinkHost, 0);
  }

  /** A parameter list without `name` before an occurrence of it: the lookup
      finds that occurrence, whatever follows. */
  lemma {:induction false} FirstOccurrenceWins(before: seq<(string, string)>, name: string, value: string, after: seq<(string, string)>)
    requires forall k :: 0 <= k < |before| ==> before[k].0 != name
    ensures SearchParam(before + [(name, value)] + after, name) == Some(value)
    decreases |before|
  {
    var params := before + [(name, value)] + after;
    if before != [] {
      assert params[1..] == before[1..] + [(name, value)] + after;
      FirstOccurrenceWins(before[1..], name, value, after);
    }
  }

  /** Any other host: the id is the first `v` parameter, whatever precedes or
      follows it. */
  lemma LongLinkId(host: string, path: string, before: seq<(string, string)>, id: string, after: seq<(string, string)>)
    requires !exists i :: OccursAt(host, ShortLinkHost, i)
    requires forall k :: 0 <= k < |before| ==> before[k].0 != VideoParam
    ensures GetVideoId(Some(Url(host, path, before + [(VideoParam, id)] + after))) == Some(id)
  {
    FirstOccurrenceWins(before, VideoParam, id, after);
  }

  /** Any other host without a `v` parameter has no id. */
  lemma MissingVideoParamHasNoId(url: Url)
    requires !exists i :: OccursAt(url.hostname, ShortLinkHost, i)
    requires forall k :: 0 <= k < |url.searchParams| ==> url.searchParams[k].0 != VideoParam
    ensures GetVideoId(Some(url)) == None
  {
  }
}
