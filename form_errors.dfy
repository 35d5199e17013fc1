// The error records the console's forms keep beside their fields: an object
// with at most one message per field, where a key that is present holds a
// message (shown while it is non-empty) and a missing key means no error.
// A record is modelled as a datatype with one `Option<string>` per key.
module FormErrors {
  import opened Wrappers

  /**
   * The typing handlers' clean-up of one key: a shown message becomes `''`
   * and the key stays present; a missing key or an empty message is left
   * as it is.
   */
  function Cleared(message: Option<string>): (r: Option<string>)
    ensures r.Some? <==> message.Some?
    ensures r.Some? ==> r.value == ""
    ensures message.Some? && message.value == "" ==> r == message
  {
    if message.Some? && message.value != "" then Some("") else message
  }
}
