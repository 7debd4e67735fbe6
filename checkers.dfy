/**
  The checker abstraction and its global registry (lib/packwerk/checker.rb).
  A checker class registers itself by including the module; `find` looks a
  checker up by its violation type through a map that is built once.
 */
module Checkers {
  import opened Wrappers
  import opened Packages
  import opened Offenses
  import PrivacyChecking
  import CheckerInterface

  /**
    A checker, given by the four operations `ReferenceChecker` and the
    offense collection dispatch over: its violation type, whether it flags a
    reference, the message for a flagged reference, and the level of one of
    its offenses.
   */
  datatype Checker = Checker(
    kind: string,
    flags: Reference -> bool,
    describe: Reference -> string,
    levelFor: Offense -> Option<string>)
  {
    function ViolationType(): string {
      kind
    }

    predicate InvalidReference(r: Reference) {
      flags(r)
    }

    function Message(r: Reference): string {
      describe(r)
    }

    /** `violation_level(offense)`, which the source only asks about reference offenses. */
    function ViolationLevel(o: Offense): Option<string>
      requires o.ReferenceOffense?
    {
      levelFor(o)
    }
  }

  /** The privacy checker's `violation_level`, for the reference offenses it is asked about. */
  function PrivacyLevel(o: Offense): Option<string> {
    if o.ReferenceOffense? then PrivacyChecking.ViolationLevel(o) else None
  }

  /** `PrivacyChecker.new`. */
  const PrivacyChecker: Checker :=
    Checker(PrivacyChecking.ViolationType, PrivacyChecking.InvalidReference, PrivacyChecking.Message, PrivacyLevel)

  /** `Packwerk::Checker#violation_level(offense)` when a checker does not override it: the interface's default for the offense's reference. */
  function DefaultViolationLevel(o: Offense): Option<string>
  {
    if o.ReferenceOffense? then CheckerInterface.DefaultViolationLevel(o.reference) else None
  }

  /** A checker that keeps the default level, as the test suite's stub checker does. */
  function WithDefaultLevel(kind: string, flags: Reference -> bool, describe: Reference -> string): (c: Checker)
    ensures c.ViolationType() == kind
    ensures forall r :: c.InvalidReference(r) == flags(r) && c.Message(r) == describe(r)
    ensures forall o: Offense | o.ReferenceOffense? :: c.ViolationLevel(o) == None
  {
    Checker(kind, flags, describe, DefaultViolationLevel)
  }

  /** The errors `find` can raise: `fetch`'s KeyError, or NoMethodError when no class was ever registered. */
  datatype LookupError = KeyError(key: string) | NoCheckersIncluded

  /** `Checker.all.to_h { |checker| [checker.violation_type, checker] }`: later entries overwrite earlier ones. */
  function TypeMap(cs: seq<Checker>): map<string, Checker> {
    if cs == [] then map[]
    else TypeMap(cs[..|cs| - 1])[cs[|cs| - 1].ViolationType() := cs[|cs| - 1]]
  }

  /** The map's keys are exactly the registered violation types, each mapped to a checker of that type. */
  lemma {:induction false} TypeMapKeys(cs: seq<Checker>, t: string)
    ensures t in TypeMap(cs) <==> exists i :: 0 <= i < |cs| && cs[i].ViolationType() == t
    ensures t in TypeMap(cs) ==> TypeMap(cs)[t].ViolationType() == t
  {
    if cs != [] {
      var init := cs[..|cs| - 1];
      TypeMapKeys(init, t);
      if exists i :: 0 <= i < |init| && init[i].ViolationType() == t {
        var i :| 0 <= i < |init| && init[i].ViolationType() == t;
        assert cs[i] == init[i];
      }
      if exists i :: 0 <= i < |cs| && cs[i].ViolationType() == t {
        var i :| 0 <= i < |cs| && cs[i].ViolationType() == t;
        if i < |init| { assert init[i] == cs[i]; }
      }
    }
  }

  /** With duplicate violation types, the last registered checker of that type wins. */
  lemma {:induction false} TypeMapLastWins(cs: seq<Checker>, t: string)
    requires t in TypeMap(cs)
    ensures exists i :: 0 <= i < |cs| && TypeMap(cs)[t] == cs[i]
                      && forall j :: i < j < |cs| ==> cs[j].ViolationType() != t
  {
    var last := cs[|cs| - 1];
    var init := cs[..|cs| - 1];
    if last.ViolationType() == t {
      assert TypeMap(cs)[t] == cs[|cs| - 1];
    } else {
      TypeMapLastWins(init, t);
      var i :| 0 <= i < |init| && TypeMap(init)[t] == init[i]
               && forall j :: i < j < |init| ==> init[j].ViolationType() != t;
      assert TypeMap(cs)[t] == cs[i];
      forall j | i < j < |cs| ensures cs[j].ViolationType() != t {
        if j < |init| { assert cs[j] == init[j]; }
      }
    }
  }

  /** The process-wide registry: `@checkers` (nil until the first inclusion) and the memoised `@checker_by_violation_type`. */
  class Registry {
    var included: Option<seq<Checker>>
    var byType: Option<map<string, Checker>>

    /** The memoised map only holds checkers under their own violation type. */
    ghost predicate Valid()
      reads this
    {
      byType.Some? ==> forall t :: t in byType.value ==> byType.value[t].ViolationType() == t
    }

    constructor ()
      ensures Valid() && included == None && byType == None
    {
      included := None;
      byType := None;
    }

    /** `Checker.included(base)`: appends the including class, in inclusion order; the memoised map is left as it is. */
    method Included(c: Checker)
      requires Valid()
      modifies this`included
      ensures Valid()
      ensures included == Some((if old(included).Some? then old(included).value else []) + [c])
      ensures byType == old(byType)
      ensures old(byType).Some? ==> forall t :: Lookup(t) == old(Lookup(t))
    {
      var registered := if included.Some? then included.value else [];
      included := Some(registered + [c]);
    }

    /** `Checker.all`: one checker per registered class, in registration order; NoMethodError before any inclusion. */
    method All() returns (r: Result<seq<Checker>, LookupError>)
      ensures included.None? ==> r == Failure(NoCheckersIncluded)
      ensures included.Some? ==> r == Success(included.value)
    {
      if included.None? {
        r := Failure(NoCheckersIncluded);
      } else {
        r := Success(included.value);
      }
    }

    /** What `find(t)` answers in the current state: through the memoised map if it exists, else through a map built now. */
    function Lookup(t: string): Result<Checker, LookupError>
      reads this
    {
      var m := if byType.Some? then Some(byType.value)
               else if included.Some? then Some(TypeMap(included.value))
               else None;
      if m.None? then Failure(NoCheckersIncluded)
      else if t in m.value then Success(m.value[t])
      else Failure(KeyError(t))
    }

    /**
      `Checker.find(t)`: builds the type map on first use and keeps it, so
      classes included afterwards are not found; raises KeyError on a miss.
     */
    method Find(t: string) returns (r: Result<Checker, LookupError>)
      requires Valid()
      modifies this`byType
      ensures Valid()
      ensures r == old(Lookup(t))
      ensures r.Success? ==> r.value.ViolationType() == t
      ensures old(byType).Some? ==> byType == old(byType)
      ensures old(byType).None? && included.Some? ==> byType == Some(TypeMap(included.value))
      ensures old(byType).None? && included.None? ==> byType == None
      ensures forall t' :: Lookup(t') == old(Lookup(t'))
    {
      if byType.None? {
        var all := All();
        if all.Failure? {
          return Failure(all.error);
        }
        forall t' | t' in TypeMap(all.value)
          ensures TypeMap(all.value)[t'].ViolationType() == t'
        {
          TypeMapKeys(all.value, t');
        }
        byType := Some(TypeMap(all.value));
      }
      var m := byType.value;
      if t in m {
        r := Success(m[t]);
      } else {
        r := Failure(KeyError(t));
      }
    }
  }
}
