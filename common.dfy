/** Shared vocabulary of the storefront model: optional values, handler
    results in place of HTTP status codes, and document identifiers. */
module Common {

  datatype Option<T> = None | Some(value: T) {
    function GetOr(default: T): T {
      if Some? then value else default
    }
  }

  /** What a request handler answers: a value (2xx) or an error (4xx/5xx). */
  datatype Result<T, E> = Ok(value: T) | Err(error: E)

  /** MongoDB ObjectIds of the collections; a fresh one is the next counter value. */
  type ProductId = nat
  type CategoryId = nat
  type UserId = nat
  type InvoiceId = nat

  /** Every id of a collection was handed out before the counter value `next`. */
  ghost predicate IdsBelow<T>(docs: map<nat, T>, next: nat) {
    forall id :: id in docs ==> id < next
  }

  /** `Date.now()`, milliseconds; the clock is a parameter of the model. */
  type Time = nat

  /** JavaScript truthiness of an optional string field of a request body:
      present and not the empty string. */
  predicate Truthy(s: Option<string>) {
    s.Some? && s.value != ""
  }

  /** `if (x) update.x = x`: the new value when supplied and truthy, else the old one. */
  function Pick(supplied: Option<string>, current: string): (r: string)
    ensures Truthy(supplied) ==> r == supplied.value
    ensures !Truthy(supplied) ==> r == current
  {
    if Truthy(supplied) then supplied.value else current
  }
}
