/**
 * Normalisation of whatever a failed call threw into a `{message, status}`
 * record (lib/api-error.ts).
 */
module ApiErrors {
  import opened Wrappers

  /**
   * A thrown value, as getApiError tells them apart: an axios transport
   * error (with the response status and the body's `error` text when a
   * response arrived), any other `Error`, or anything else at all.
   */
  datatype Thrown =
    | AxiosErr(status: Option<int>, bodyError: Option<string>, message: string)
    | PlainErr(message: string)
    | Other

  /** The normalised error handed to the screens. */
  datatype ApiError = ApiError(message: string, status: int)

  const FallbackStatus: int := 500
  const TransportFallbackMessage: string := "Something went wrong"
  const UnexpectedMessage: string := "An unexpected error occurred"

  /** JavaScript `a || b` on strings: an absent or empty string is falsy. */
  function OrString(a: Option<string>, b: string): string
  {
    if a.Some? && a.value != "" then a.value else b
  }

  /** JavaScript `a || b` on numbers: an absent status or status 0 is falsy. */
  function OrStatus(a: Option<int>, b: int): int
  {
    if a.Some? && a.value != 0 then a.value else b
  }

  /** An optional text read as a string, absent meaning empty. */
  function TextOf(a: Option<string>): string
  {
    if a.Some? then a.value else ""
  }

  /**
   * Reference definition of a chain of `||` fallbacks: the first non-empty
   * candidate, or "" when every candidate is empty.
   */
  function FirstNonEmpty(candidates: seq<string>): (r: string)
    ensures r == "" <==> forall i :: 0 <= i < |candidates| ==> candidates[i] == ""
    ensures r != "" ==>
      exists i :: 0 <= i < |candidates| && candidates[i] == r &&
        forall j :: 0 <= j < i ==> candidates[j] == ""
  {
    if candidates == [] then ""
    else if candidates[0] != "" then candidates[0]
    else
      var r := FirstNonEmpty(candidates[1..]);
      assert forall i :: 1 <= i < |candidates| ==> candidates[i] == candidates[1..][i - 1];
      if r != "" then
        var k :| 0 <= k < |candidates[1..]| && candidates[1..][k] == r &&
          forall j :: 0 <= j < k ==> candidates[1..][j] == "";
        assert candidates[k + 1] == r;
        r
      else r
  }

  /** A chain of three `||` fallbacks picks the first non-empty of the three. */
  lemma FirstOfThree(a: string, b: string, c: string)
    ensures FirstNonEmpty([a, b, c]) == OrString(Some(OrString(Some(a), b)), c)
  {
    assert [a, b, c][1..] == [b, c];
    assert [b, c][1..] == [c];
    assert [c][1..] == [];
    assert FirstNonEmpty([c]) == c by {
      if c == "" { assert FirstNonEmpty([c]) == FirstNonEmpty([]); }
    }
  }

  /** The candidates a transport error's message is chosen from, in order. */
  function TransportCandidates(e: Thrown): seq<string>
    requires e.AxiosErr?
  {
    [TextOf(e.bodyError), e.message, TransportFallbackMessage]
  }

  /**
   * getApiError: a transport error keeps its response status (500 when no
   * response or status 0) and the first non-empty of the body's error, its
   * own message and a fixed fallback; a plain Error keeps its message with
   * status 500; anything else gets a fixed message with status 500.
   */
  function GetApiError(e: Thrown): (r: ApiError)
    ensures e.AxiosErr? ==> r.message == FirstNonEmpty(TransportCandidates(e))
    ensures e.AxiosErr? && e.status.Some? && e.status.value != 0 ==> r.status == e.status.value
    ensures e.AxiosErr? && (e.status.None? || e.status.value == 0) ==> r.status == FallbackStatus
    ensures e.PlainErr? ==> r == ApiError(e.message, FallbackStatus)
    ensures e.Other? ==> r == ApiError(UnexpectedMessage, FallbackStatus)
  {
    match e
    case AxiosErr(status, bodyError, message) =>
      var s := OrStatus(status, FallbackStatus);
      var m := OrString(Some(OrString(bodyError, message)), TransportFallbackMessage);
      FirstOfThree(TextOf(bodyError), message, TransportFallbackMessage);
      ApiError(m, s)
    case PlainErr(message) =>
      ApiError(message, FallbackStatus)
    case Other =>
      ApiError(UnexpectedMessage, FallbackStatus)
  }

  /** The three-way precedence of a transport error's message. */
  lemma TransportMessagePrecedence(status: Option<int>, bodyError: Option<string>, message: string)
    ensures var r := GetApiError(AxiosErr(status, bodyError, message));
      && (bodyError.Some? && bodyError.value != "" ==> r.message == bodyError.value)
      && ((bodyError.None? || bodyError.value == "") && message != "" ==> r.message == message)
      && ((bodyError.None? || bodyError.value == "") && message == "" ==> r.message == TransportFallbackMessage)
  {
    var e := AxiosErr(status, bodyError, message);
    var c := TransportCandidates(e);
    if TextOf(bodyError) == "" && message == "" {
      assert c[2] != "";
    }
  }

  /** The returned status is never 0; outside the transport branch it is exactly 500. */
  lemma StatusNeverZero(e: Thrown)
    ensures GetApiError(e).status != 0
    ensures !e.AxiosErr? ==> GetApiError(e).status == FallbackStatus
  {
  }

  /**
   * The message is non-empty in the transport and fallback branches; only a
   * plain Error with an empty message yields an empty one.
   */
  lemma MessageNonEmpty(e: Thrown)
    ensures GetApiError(e).message == "" <==> e.PlainErr? && e.message == ""
  {
    if e.AxiosErr? {
      var c := TransportCandidates(e);
      assert c[2] != "";
    }
  }

  /**
   * The transport branch is tried before the Error branch: an axios error,
   * although it is also an Error, keeps any non-zero response status, where
   * the Error branch would always have given 500.
   */
  lemma TransportBranchFirst(status: int, bodyError: Option<string>, message: string)
    requires status != 0
    ensures GetApiError(AxiosErr(Some(status), bodyError, message)).status == status
    ensures GetApiError(PlainErr(message)).status == FallbackStatus
  {
  }
}
