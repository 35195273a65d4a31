/**
 * Thrown values, the error objects the framework creates, and the
 * "log at most once" discipline of `logError`: the first time an error
 * object is logged it is marked, and a marked error is never printed again.
 */
module Errors {

  /** Where an error object comes from. */
  datatype Origin =
    | UserCode                       // thrown by a user hook or user file
    | UsageError(what: string)       // `assertUsage` failed
    | AssertionFailure(what: string) // an internal `assert` failed
    | TypeError(what: string)        // the JavaScript runtime rejected an operation
    | WrappedPrimitive               // `new Error(err)` around a thrown non-object

  /** An error object; its one mutable field is the `_wasAlreadyConsoleLogged` marker. */
  class ErrorObject {
    const origin: Origin
    const hasStack: bool
    var wasAlreadyConsoleLogged: bool

    constructor (origin: Origin, hasStack: bool)
      ensures this.origin == origin && this.hasStack == hasStack && !wasAlreadyConsoleLogged
    {
      this.origin := origin;
      this.hasStack := hasStack;
      wasAlreadyConsoleLogged := false;
    }
  }

  /** A value that was thrown: an object, or a primitive such as a string. */
  datatype Thrown = ThrownObject(obj: ErrorObject) | ThrownPrimitive(text: string)

  /** How a specification names a thrown value without allocating it: the
      very value some code threw, or a new error object of a given origin. */
  datatype Expected = Rethrow(thrown: Thrown) | NewError(origin: Origin)

  predicate Matches(actual: Thrown, expected: Expected) {
    match expected
    case Rethrow(t) => actual == t
    case NewError(o) => actual.ThrownObject? && actual.obj.origin == o
  }

  /** A step that either completes with a value or throws. */
  datatype Completion<T> = Normal(value: T) | Threw(thrown: Thrown)

  /** The same, as a specification states it. */
  datatype Outcome<T> = Returns(value: T) | Raises(error: Expected)

  predicate Realizes<T(==)>(c: Completion<T>, o: Outcome<T>) {
    match o
    case Returns(v) => c == Normal(v)
    case Raises(e) => c.Threw? && Matches(c.thrown, e)
  }

  /** Throwing what a specification names: the same value, or a new error object. */
  method Raise(e: Expected) returns (t: Thrown)
    ensures Matches(t, e)
    ensures e.NewError? ==> fresh(t.obj) && !t.obj.wasAlreadyConsoleLogged
  {
    match e
    case Rethrow(x) =>
      t := x;
    case NewError(origin) =>
      var obj := new ErrorObject(origin, true);
      t := ThrownObject(obj);
  }

  const PRIMITIVE_THROWN: string := "source code threw a primitive value as error"

  /** The server's error console: the error objects printed so far. */
  class Console {
    var printed: seq<ErrorObject>

    /** Every printed error is marked, and none is printed twice. */
    ghost predicate Valid()
      reads this, printed
    {
      (forall i :: 0 <= i < |printed| ==> printed[i].wasAlreadyConsoleLogged) &&
      (forall i, j :: 0 <= i < j < |printed| ==> printed[i] != printed[j])
    }

    constructor ()
      ensures Valid() && printed == []
    {
      printed := [];
    }
  }

  /** `hasAlreadyLogged(err)`: reports the marker and sets it. */
  method HasAlreadyLogged(err: ErrorObject) returns (r: bool)
    modifies err
    ensures r == old(err.wasAlreadyConsoleLogged)
    ensures err.wasAlreadyConsoleLogged
  {
    r := err.wasAlreadyConsoleLogged;
    err.wasAlreadyConsoleLogged := true;
  }

  /** `logError(err)` in production: a primitive is a usage error; an object
      is printed unless it was already marked, and is marked afterwards. */
  method LogError(t: Thrown, console: Console) returns (c: Completion<()>)
    requires console.Valid()
    modifies console, if t.ThrownObject? then {t.obj} else {}
    ensures console.Valid()
    ensures t.ThrownPrimitive? ==>
      c.Threw? && Matches(c.thrown, NewError(UsageError(PRIMITIVE_THROWN))) && fresh(c.thrown.obj) &&
      !c.thrown.obj.wasAlreadyConsoleLogged && console.printed == old(console.printed)
    ensures t.ThrownObject? ==>
      c == Normal(()) && t.obj.wasAlreadyConsoleLogged &&
      console.printed == old(console.printed) + (if old(t.obj.wasAlreadyConsoleLogged) then [] else [t.obj])
  {
    if t.ThrownPrimitive? {
      var e := new ErrorObject(UsageError(PRIMITIVE_THROWN), true);
      return Threw(ThrownObject(e));
    }
    var err := t.obj;
    var logged := HasAlreadyLogged(err);
    if logged {
      return Normal(());
    }
    assert err !in console.printed;
    console.printed := console.printed + [err];
    c := Normal(());
  }
}
