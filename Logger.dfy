/** The basic, thread-unsafe lazy singleton of package Types. Java's static
    field `instance` lives in an object of its own, LoggerClass, that stands
    for the class's static state; it starts null, as the field does when the
    class is loaded. Every run of Logger's private constructor is recorded in
    a ghost counter on that state, so that "constructed at most once" can be
    stated. */
module Types {

  /** The static state of class Logger. */
  class LoggerClass {
    var instance: Logger?
    /** How many times the private constructor has run. */
    ghost var constructions: nat

    /** The field is set exactly when a Logger has been constructed, and at
        most one ever is. */
    ghost predicate Valid()
      reads this
    {
      constructions <= 1 && (instance == null <==> constructions == 0)
    }

    /** The state when the class is loaded: no instance yet. */
    constructor ()
      ensures Valid()
      ensures instance == null && constructions == 0
    {
      instance := null;
      constructions := 0;
    }

    /** Returns the one Logger, constructing it on the first call only. */
    method GetInstance() returns (r: Logger)
      requires Valid()
      modifies this
      ensures Valid()
      ensures instance == r
      ensures old(instance) == null ==> fresh(r) && constructions == old(constructions) + 1
      ensures old(instance) != null ==> r == old(instance) && constructions == old(constructions)
    {
      if instance == null {
        instance := new Logger(this);
      }
      r := instance;
    }

    /** A sequential run of `n` calls: every call returns the same object,
        and the constructor runs at most once over the whole run, not at all
        when the instance already existed. */
    method GetInstanceRepeatedly(n: nat) returns (loggers: seq<Logger>)
      requires Valid()
      modifies this
      ensures Valid()
      ensures |loggers| == n
      ensures forall i :: 0 <= i < n ==> loggers[i] == instance
      ensures n > 0 ==> instance != null
      ensures old(instance) != null ==> instance == old(instance) && constructions == old(constructions)
      ensures constructions <= old(constructions) + 1
      ensures n > 0 && old(instance) == null ==> constructions == 1
    {
      loggers := [];
      while |loggers| < n
        invariant Valid()
        invariant |loggers| <= n
        invariant forall i :: 0 <= i < |loggers| ==> loggers[i] == instance
        invariant |loggers| > 0 ==> instance != null
        invariant constructions <= old(constructions) + 1
        invariant |loggers| > 0 && old(instance) == null ==> constructions == 1
        invariant old(instance) != null ==> instance == old(instance) && constructions == old(constructions)
        decreases n - |loggers|
      {
        var r := GetInstance();
        loggers := loggers + [r];
      }
    }
  }

  /** The logger itself; it carries no state. */
  class Logger {
    /** Private: only `GetInstance` calls it. It records its own run. */
    constructor (home: LoggerClass)
      modifies home
      ensures home.constructions == old(home.constructions) + 1
      ensures home.instance == old(home.instance)
    {
      new;
      home.constructions := home.constructions + 1;
    }
  }
}
