// The shared handler for failed API calls: it always throws, with a fixed
// message for 401, 403, 404 and server errors and otherwise with the
// server's (or the client's) message, tagged with the calling context and
// the status code.
module ApiError {
  import opened Wrappers
  import opened Strings

  /**
   * What the handler reads from a failed request: `error.response.data.message`,
   * `error.message` and `error.response.status` (absent when there was no response).
   */
  datatype RequestError = RequestError(responseMessage: Option<string>, message: string, status: Option<nat>)

  const UNKNOWN_ERROR := "An unknown error occurred"
  const AUTH_REQUIRED := "Authentication required. Please log in again."
  const FORBIDDEN := "You do not have permission to perform this action."
  const NOT_FOUND := "The requested resource was not found."
  const SERVER_ERROR := "A server error occurred. Please try again later."

  /** The first non-empty of the server's message, the client's message and a generic text. */
  function BaseMessage(error: RequestError): (r: string)
    ensures r != ""
    ensures error.responseMessage.Some? && error.responseMessage.value != "" ==> r == error.responseMessage.value
    ensures (error.responseMessage.None? || error.responseMessage.value == "") && error.message != "" ==> r == error.message
  {
    if error.responseMessage.Some? && error.responseMessage.value != "" then error.responseMessage.value
    else if error.message != "" then error.message
    else UNKNOWN_ERROR
  }

  /** `[context] ` when a context is given. */
  function ContextPrefix(context: string): string {
    if context != "" then "[" + context + "] " else ""
  }

  /** ` (Status: n)` when the status is present and not 0. */
  function StatusSuffix(status: Option<nat>): string {
    if status.Some? && status.value != 0 then " (Status: " + NatToString(status.value) + ")" else ""
  }

  /** The formatted message `${contextPrefix}${baseMessage}${statusSuffix}`. */
  function FormattedMessage(error: RequestError, context: string): string {
    ContextPrefix(context) + BaseMessage(error) + StatusSuffix(error.status)
  }

  /** `handleApiError`: the message of the error it throws. */
  function HandleApiError(error: RequestError, context: string): (thrown: string)
    ensures error.status == Some(401) ==> thrown == AUTH_REQUIRED
    ensures error.status == Some(403) ==> thrown == FORBIDDEN
    ensures error.status == Some(404) ==> thrown == NOT_FOUND
    ensures error.status.Some? && error.status.value >= 500 ==> thrown == SERVER_ERROR
  {
    if error.status == Some(401) then AUTH_REQUIRED
    else if error.status == Some(403) then FORBIDDEN
    else if error.status == Some(404) then NOT_FOUND
    else if error.status.Some? && error.status.value >= 500 then SERVER_ERROR
    else FormattedMessage(error, context)
  }

  /** Statuses for which the handler passes on the underlying message. */
  predicate PassesMessageOn(status: Option<nat>) {
    status.None? || (status.value !in {401, 403, 404} && status.value < 500)
  }

  /**
   * For every other status the thrown message is the context tag, then the
   * underlying message, then the status tag; the underlying message can be
   * read back from it.
   */
  lemma PassedOnMessage(error: RequestError, context: string)
    requires PassesMessageOn(error.status)
    ensures var thrown := HandleApiError(error, context);
            var pre, post := ContextPrefix(context), StatusSuffix(error.status);
            |pre| + |post| < |thrown| && pre <= thrown &&
            thrown[|pre|..|thrown| - |post|] == BaseMessage(error) &&
            thrown[|thrown| - |post|..] == post
  {
    var thrown := HandleApiError(error, context);
    var pre, post := ContextPrefix(context), StatusSuffix(error.status);
    assert thrown == pre + BaseMessage(error) + post;
  }

  /** The thrown message opens with the context tag, or with the underlying message when there is no context. */
  lemma ContextTagged(error: RequestError, context: string)
    requires PassesMessageOn(error.status)
    ensures context != "" ==> "[" + context + "] " <= HandleApiError(error, context)
    ensures context == "" ==> BaseMessage(error) <= HandleApiError(error, context)
  {
    var thrown := HandleApiError(error, context);
    assert thrown == ContextPrefix(context) + BaseMessage(error) + StatusSuffix(error.status);
  }

  /** The status tag carries the status code, which reads back with `parseInt`. */
  lemma StatusTagReadsBack(status: nat)
    requires status != 0
    ensures var post := StatusSuffix(Some(status));
            |post| > 11 && post[..10] == " (Status: " && ParseInt(post[10..]) == Some(status)
  {
    var post := StatusSuffix(Some(status));
    var digits := NatToString(status);
    assert post[10..] == digits + ")";
    ParseIntDigitsThenClose(digits);
    ParseIntOfNatToString(status);
  }

  /** A closing parenthesis after the digits does not change what `parseInt` reads. */
  lemma ParseIntDigitsThenClose(ds: string)
    requires ds != [] && forall k :: 0 <= k < |ds| ==> IsDigit(ds[k])
    ensures ParseInt(ds + ")") == ParseInt(ds)
  {
    var s := ds + ")";
    assert TrimStart(s) == s by { assert !IsSpace(s[0]); }
    assert TrimStart(ds) == ds by { assert !IsSpace(ds[0]); }
    assert StripSign(s) == s && StripSign(ds) == ds;
    DigitPrefixStops(ds, ")");
    DigitPrefixOfDigits(ds);
  }

  lemma {:induction false} DigitPrefixStops(ds: string, tail: string)
    requires forall k :: 0 <= k < |ds| ==> IsDigit(ds[k])
    requires tail == [] || !IsDigit(tail[0])
    ensures DigitPrefix(ds + tail) == ds
  {
    if ds != [] {
      DigitPrefixStops(ds[1..], tail);
      assert (ds + tail)[1..] == ds[1..] + tail;
    } else {
      assert ds + tail == tail;
    }
  }
}
