/**
 The status classifier of the link checker and the Python truthiness test the
 checker applies to a probe's status before classifying it.
 */
module Status {
  import opened Wrappers

  /** The standard classes of HTTP status codes (section 15 of RFC 9110),
      plus every integer outside 100..599. */
  datatype StatusClass =
    | Informational   // 1xx
    | Successful      // 2xx
    | Redirection     // 3xx
    | ClientError     // 4xx
    | ServerError     // 5xx
    | Unrecognized    // anything else

  /** Reference classification by the hundreds digit, independent of the checker. */
  function ClassOf(code: int): StatusClass
  {
    if 100 <= code < 600 then
      var hundreds := code / 100;
      if hundreds == 1 then Informational
      else if hundreds == 2 then Successful
      else if hundreds == 3 then Redirection
      else if hundreds == 4 then ClientError
      else ServerError
    else Unrecognized
  }

  /** The checker's policy: a code is valid exactly when it is a success or a
      redirect; every other code, server errors included, is not valid. */
  function IsValidStatus(status: int): (valid: bool)
    ensures valid <==> ClassOf(status) == Successful || ClassOf(status) == Redirection
  {
    status >= 200 && status < 400
  }

  /** Python truthiness of a probe status: `None` and `0` are both falsy. */
  predicate IsTruthy(status: Option<int>)
  {
    status.Some? && status.value != 0
  }

  /** Every 1xx, 4xx and 5xx code, and every unrecognized code, is not valid:
      the checker marks server errors dead as well as client errors. */
  lemma ErrorsAndInformationalAreNotValid(code: int)
    requires ClassOf(code) in {Informational, ClientError, ServerError, Unrecognized}
    ensures !IsValidStatus(code)
  {
  }

  /** The boundaries of the valid range. */
  lemma ValidBoundaries()
    ensures !IsValidStatus(199) && IsValidStatus(200)
    ensures IsValidStatus(399) && !IsValidStatus(400)
  {
  }

  /** A status of zero is treated exactly like a missing status. */
  lemma ZeroIsFalsy()
    ensures !IsTruthy(Some(0)) && !IsTruthy(None)
  {
  }
}
