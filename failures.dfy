/** The exceptions the client raises or lets through, as values. */
module Failures {

  datatype Failure =
    | ValueError                      // bad hex string, wrong triple length
    | TypeError                       // `Colour(*short_slice)` in the draft, `len()` of a number
    | IndexError                      // Colour channel index out of range
    | KeyError                        // a missing dictionary key (header or JSON field)
    | JsonDecodeError                 // `response.json()` on a body that is not JSON
    | NetworkError                    // transport failure (connection refused, timeout, ...)
    | HTTPError(status: int)          // `raise_for_status()` or "Bad response from endpoint"
    | RatelimitError(status: int)     // HTTP 429 (section 4 of RFC 6585); a subclass of HTTPError
    | ActivationError(cause: Failure) // "Failed to access endpoint", raised from `cause`

  /** Whether `except requests.HTTPError` catches `f`: the class itself and its
      two subclasses used here. */
  predicate IsHTTPError(f: Failure) {
    f.HTTPError? || f.RatelimitError? || f.ActivationError?
  }
}
