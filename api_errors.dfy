/**
 * How the client pages turn a failed service call into the message they show
 * (the `catch` blocks of client/src/pages/CreatePost.jsx and
 * client/src/pages/Login.jsx): a server answer, no answer, or anything else.
 */
module ApiErrors {
  import opened Wrappers
  import opened Text

  /** `error.response`: its status and `data?.message`. */
  datatype ServerResponse = ServerResponse(status: nat, message: Option<string>)

  /** What is caught: `error.response`, whether `error.request` is set, and
      `error.message`. */
  datatype RequestError = RequestError(response: Option<ServerResponse>, requestSent: bool, message: Option<string>)

  const NoResponse := "No response from server. Please check your connection."

  /** The three-way classification, as `"<statusPrefix><status>"` when the
      server's answer has no message and `fallback` when nothing else helps. */
  function Describe(e: RequestError, statusPrefix: string, fallback: string): (r: string)
    ensures e.response.Some? && Truthy(e.response.value.message) ==> r == e.response.value.message.value
    ensures e.response.Some? && !Truthy(e.response.value.message) ==> r == statusPrefix + Decimal(e.response.value.status)
    ensures e.response.None? && e.requestSent ==> r == NoResponse
    ensures e.response.None? && !e.requestSent ==> r == if Truthy(e.message) then e.message.value else fallback
    ensures fallback != "" ==> r != ""
  {
    if e.response.Some? then
      if Truthy(e.response.value.message) then e.response.value.message.value
      else statusPrefix + Decimal(e.response.value.status)
    else if e.requestSent then NoResponse
    else if Truthy(e.message) then e.message.value
    else fallback
  }

  /** A server answer without a message shows its status, and the status can
      be read back from the text after the prefix. */
  lemma StatusReadable(e: RequestError, statusPrefix: string, fallback: string)
    requires e.response.Some? && !Truthy(e.response.value.message)
    ensures var r := Describe(e, statusPrefix, fallback);
      && StartsWith(r, statusPrefix)
      && (forall i :: |statusPrefix| <= i < |r| ==> IsDigit(r[i]))
      && DigitsValue(r[|statusPrefix|..]) == e.response.value.status
  {
    var r := Describe(e, statusPrefix, fallback);
    var d := Decimal(e.response.value.status);
    assert r[|statusPrefix|..] == d;
    assert r[..|statusPrefix|] == statusPrefix;
    DecimalRoundTrip(e.response.value.status);
  }

  /** Different statuses give different messages when the server sends none. */
  lemma StatusesDistinguished(s1: nat, s2: nat, statusPrefix: string, fallback: string)
    requires s1 != s2
    ensures Describe(RequestError(Some(ServerResponse(s1, None)), true, None), statusPrefix, fallback) !=
            Describe(RequestError(Some(ServerResponse(s2, None)), true, None), statusPrefix, fallback)
  {
    var e1 := RequestError(Some(ServerResponse(s1, None)), true, None);
    var e2 := RequestError(Some(ServerResponse(s2, None)), true, None);
    StatusReadable(e1, statusPrefix, fallback);
    StatusReadable(e2, statusPrefix, fallback);
  }
}
