/** The response records the service answers with, and the HTTP status they travel with. */
module Response {
  import opened Wrappers
  import opened Native

  const StatusOk: nat := 200
  const StatusRequestTimeout: nat := 408
  const StatusConflict: nat := 409
  const StatusServiceUnavailable: nat := 503

  const ServiceUnavailableMessage := "Service temporarily unavailable"
  const TimedOutMessage := "Request timed out"
  const FirstPartyWelcome := "Welcome! (first party)"
  const SecondPartyWelcome := "Welcome! (second party)"
  const ConflictMessage := "Only 2 parties allowed at a time"

  datatype ResponseStatus = Success | Timeout | Error

  /** The JSON body; `timeoutDurationSec` is left out of the JSON when it is `None`. */
  datatype ApiResponse = ApiResponse(status: ResponseStatus, message: string, timeoutDurationSec: Option<u64>)
  {
    /** A welcome for one party, tagged with the key it arrived under. */
    static function Success(message: string, uniqueId: string): (r: ApiResponse)
      ensures r.status.Success? && r.timeoutDurationSec.None?
      ensures r.message == Tagged(uniqueId, message)
      ensures ']' !in uniqueId ==> Untag(r.message) == Some((uniqueId, message))
    {
      var r := ApiResponse(ResponseStatus.Success, Tagged(uniqueId, message), None);
      if ']' in uniqueId then r else UntagTagged(uniqueId, message); r
    }

    /** The answer to a first party nobody joined: carries the configured wait, in whole seconds. */
    static function Timeout(durationSecs: u64, uniqueId: string): (r: ApiResponse)
      ensures r.status.Timeout? && r.timeoutDurationSec == Some(durationSecs)
      ensures r.message == Tagged(uniqueId, TimedOutMessage)
      ensures ']' !in uniqueId ==> Untag(r.message) == Some((uniqueId, TimedOutMessage))
    {
      var r := ApiResponse(ResponseStatus.Timeout, Tagged(uniqueId, TimedOutMessage), Some(durationSecs));
      if ']' in uniqueId then r else UntagTagged(uniqueId, TimedOutMessage); r
    }

    /** An error carrying its message verbatim and no key. */
    static function Error(message: string): (r: ApiResponse)
      ensures r.status.Error? && r.message == message && r.timeoutDurationSec.None?
    {
      ApiResponse(ResponseStatus.Error, message, None)
    }
  }

  /** `Custom<Json<ApiResponse>>`: an HTTP status code and the body. */
  datatype Reply = Reply(code: nat, body: ApiResponse)

  /** The error type the `AppState` routes raise; how it is rendered is not part of this model. */
  datatype ApiError = LockError(reason: string) | TimeoutError(seconds: u64)

  /** Only a timeout response carries `timeout_duration_sec`. */
  predicate TimeoutFieldOnlyOnTimeout(r: ApiResponse) {
    r.timeoutDurationSec.Some? <==> r.status.Timeout?
  }

  /** A reply whose HTTP status agrees with its body's status. */
  predicate Classified(reply: Reply) {
    && TimeoutFieldOnlyOnTimeout(reply.body)
    && (reply.code == StatusOk <==> reply.body.status.Success?)
    && (reply.code == StatusRequestTimeout <==> reply.body.status.Timeout?)
    && (reply.body.status.Error? <==> reply.code in {StatusConflict, StatusServiceUnavailable})
  }

  /** The 503 answer for a lock that could not be taken. */
  function ServiceUnavailable(): (r: Reply)
    ensures r.code == StatusServiceUnavailable && Classified(r)
    ensures r.body == ApiResponse.Error(ServiceUnavailableMessage)
  {
    Reply(StatusServiceUnavailable, ApiResponse.Error(ServiceUnavailableMessage))
  }

  /** The message format "[key] message". */
  function Tagged(uniqueId: string, message: string): string {
    "[" + uniqueId + "] " + message
  }

  /** The first position of `c` in `s`, if any. */
  function IndexOf(s: string, c: char): (r: Option<nat>)
    ensures r.Some? ==> r.value < |s| && s[r.value] == c && c !in s[..r.value]
    ensures r.None? ==> c !in s
  {
    if s == [] then None
    else if s[0] == c then Some(0)
    else match IndexOf(s[1..], c)
      case None => None
      case Some(i) =>
        assert s[..i + 1] == [s[0]] + s[1..][..i];
        Some(i + 1)
  }

  /** Reads a tagged message back into its key and its text. */
  function Untag(s: string): (r: Option<(string, string)>)
    ensures r.Some? ==> ']' !in r.value.0 && Tagged(r.value.0, r.value.1) == s
  {
    if |s| == 0 || s[0] != '[' then None
    else match IndexOf(s[1..], ']')
      case None => None
      case Some(i) =>
        if i + 2 < |s| && s[i + 2] == ' ' then
          assert s == "[" + s[1..i + 1] + "] " + s[i + 3..];
          Some((s[1..i + 1], s[i + 3..]))
        else None
  }

  /** A key without ']' is recovered, with the text, from its tagged message. */
  lemma {:induction false} UntagTagged(uniqueId: string, message: string)
    requires ']' !in uniqueId
    ensures Untag(Tagged(uniqueId, message)) == Some((uniqueId, message))
  {
    var s := Tagged(uniqueId, message);
    var rest := s[1..];
    assert rest == uniqueId + "] " + message;
    assert rest[|uniqueId|] == ']';
    match IndexOf(rest, ']')
    case None =>
      assert false;
    case Some(i) =>
      assert i == |uniqueId|;
      assert s[1..i + 1] == uniqueId;
      assert s[i + 3..] == message;
  }

  /** Two welcomes with the same text are told apart by their keys, whatever the keys hold. */
  lemma SuccessIdentifiesKey(message: string, id1: string, id2: string)
    requires ApiResponse.Success(message, id1).message == ApiResponse.Success(message, id2).message
    ensures id1 == id2
  {
    var s1, s2 := Tagged(id1, message), Tagged(id2, message);
    assert |id1| == |id2| by {
      assert |s1| == |id1| + |message| + 3 && |s2| == |id2| + |message| + 3;
    }
    assert s1[1..|id1| + 1] == id1;
    assert s2[1..|id2| + 1] == id2;
  }
}
