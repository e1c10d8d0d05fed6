/** The client's error classes: a generic error, and rate-limit and authentication errors
    that a generic handler also catches. An error carries its message (`msg`) and an
    optional HTTP status (`error_code`). */
module Exceptions {
  import opened Wrappers

  /** The three classes, `TumblpyError`, `TumblpyRateLimitError`, `TumblpyAuthError`. */
  datatype Kind = Generic | RateLimit | Auth

  datatype TumblpyError = TumblpyError(kind: Kind, msg: string, errorCode: Option<int>)

  /** Python exceptions that are not the client's own and escape from it. */
  datatype Builtin = AttributeError | TypeError | KeyError | UnicodeDecodeError | RequestException

  /** What a call raises. */
  datatype Raised = Tumblpy(error: TumblpyError) | Python(builtin: Builtin)

  type Outcome<T> = Result<T, Raised>

  /** `except <handler>` catches an error of class `raised`: both subclasses derive from
      the generic class. */
  predicate Catches(handler: Kind, raised: Kind) {
    handler == Generic || handler == raised
  }

  /** The error that `raise cls(msg, error_code)` raises, as the legacy classes behave and
      as the packaged ones are meant to: the generic class escalates 503 to the rate-limit
      class and 401 to the authentication class; the subclasses do not escalate again. */
  function Construct(cls: Kind, msg: string, errorCode: Option<int>): (e: TumblpyError)
    ensures e.msg == msg && e.errorCode == errorCode
    ensures cls != Generic ==> e.kind == cls
    ensures cls == Generic && errorCode == Some(503) ==> e.kind == RateLimit
    ensures cls == Generic && errorCode == Some(401) ==> e.kind == Auth
    ensures cls == Generic && errorCode != Some(503) && errorCode != Some(401) ==> e.kind == Generic
    ensures Catches(cls, e.kind)
  {
    var kind :=
      if cls != Generic then cls
      else if errorCode == Some(503) then RateLimit
      else if errorCode == Some(401) then Auth
      else Generic;
    TumblpyError(kind, msg, errorCode)
  }

  /** `TumblpyAuthError(msg)` without a status, as the authentication steps raise it. */
  lemma AuthWithoutStatus(msg: string)
    ensures Construct(Auth, msg, None) == TumblpyError(Auth, msg, None)
  {
  }

  // The packaged classes as written

  /** What `raise cls(msg, error_code)` does with the packaged classes, where the two
      subclasses inherit the escalating `__init__`: escalating constructs the subclass,
      whose `__init__` escalates again. `frames` is the interpreter stack still available;
      when it runs out, Python raises `RecursionError`. */
  datatype Construction = Thrown(e: TumblpyError) | StackExhausted

  function PackagedConstruct(cls: Kind, msg: string, errorCode: Option<int>, frames: nat): (c: Construction)
    ensures c.Thrown? ==> frames > 0 && errorCode != Some(503) && errorCode != Some(401)
    ensures c.Thrown? ==> c.e == TumblpyError(cls, msg, errorCode)
    decreases frames
  {
    if frames == 0 then StackExhausted
    else if errorCode == Some(503) then PackagedConstruct(RateLimit, msg, errorCode, frames - 1)
    else if errorCode == Some(401) then PackagedConstruct(Auth, msg, errorCode, frames - 1)
    else Thrown(TumblpyError(cls, msg, errorCode))
  }

  /** With status 503 or 401 the packaged construction never returns an error, however
      deep the stack: it always ends in stack exhaustion. */
  lemma {:induction false} PackagedEscalationExhausts(cls: Kind, msg: string, errorCode: Option<int>, frames: nat)
    requires errorCode == Some(503) || errorCode == Some(401)
    ensures PackagedConstruct(cls, msg, errorCode, frames) == StackExhausted
    decreases frames
  {
    if frames > 0 {
      var next := if errorCode == Some(503) then RateLimit else Auth;
      PackagedEscalationExhausts(next, msg, errorCode, frames - 1);
    }
  }

  /** For every other status the packaged construction raises exactly what `Construct`
      gives, the class that was asked for. */
  lemma PackagedAgreesOtherwise(cls: Kind, msg: string, errorCode: Option<int>, frames: nat)
    requires errorCode != Some(503) && errorCode != Some(401) && frames > 0
    ensures PackagedConstruct(cls, msg, errorCode, frames) == Thrown(Construct(cls, msg, errorCode))
    ensures Construct(cls, msg, errorCode).kind == cls
  {
  }
}
