/** Shared vocabulary: optional values, results, the controller's error
    responses, and the "first matching record" choice the document store makes. */
module Common {

  datatype Option<+T> = None | Some(value: T)

  datatype Result<+R, +E> = Success(value: R) | Failure(error: E)

  /** Handlers that answer with an empty body on success. */
  datatype Outcome<+E> = Pass | Fail(error: E)

  const BAD_REQUEST: nat := 400
  const UNAUTHORIZED: nat := 401
  const NOT_FOUND: nat := 404
  const CONFLICT: nat := 409
  const INTERNAL_ERROR: nat := 500

  /** The message each `ApiError` of the controller carries. */
  datatype Reason =
    | AllFieldsRequired        // registration and account-details checks
    | UserAlreadyExists
    | AvatarFileRequired
    | UsernameOrEmailRequired  // login
    | UserDoesNotExist
    | InvalidCredentials
    | UnauthorizedRequest      // refresh without a token
    | TokenRejected            // the message of the token verifier (bad signature, malformed, expired)
    | InvalidRefreshToken      // the token's subject is not a user
    | RefreshTokenExpiredOrUsed
    | TokenGenerationFailed
    | InvalidOldPassword
    | AvatarFileMissing
    | AvatarUploadFailed
    | CoverImageFileMissing
    | CoverImageUploadFailed
    | UsernameMissing          // channel profile
    | ChannelDoesNotExist
    | RuntimeTypeError         // a property read on a null value, passed on as a 500
    | RecordRejected           // the store refused to create an incomplete record

  datatype ApiError = ApiError(status: nat, reason: Reason)

  predicate IsLeast(m: nat, s: set<nat>)
  {
    m in s && forall x :: x in s ==> m <= x
  }

  /** There is always a least element in a non-empty finite set of naturals. */
  lemma {:induction false} LeastExists(s: set<nat>)
    requires s != {}
    ensures exists m :: IsLeast(m, s)
    decreases |s|
  {
    var y :| y in s;
    var rest := s - {y};
    if rest == {} {
      forall x | x in s ensures y <= x {
        assert x !in rest;
      }
      assert IsLeast(y, s);
    } else {
      LeastExists(rest);
      var m :| IsLeast(m, rest);
      var least := if y < m then y else m;
      forall x | x in s ensures least <= x {
        if x != y { assert x in rest; }
      }
      assert IsLeast(least, s);
    }
  }

  /** The least element of a non-empty set of naturals. Store ids grow with
      creation time, so this is the earliest-created of several matches. */
  function Least(s: set<nat>): (m: nat)
    requires s != {}
    ensures m in s
    ensures forall x :: x in s ==> m <= x
  {
    LeastExists(s);
    var m :| IsLeast(m, s);
    m
  }
}
