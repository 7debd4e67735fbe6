/**
  The reference checker (lib/packwerk/reference_checking/reference_checker.rb):
  runs every checker over one reference, reports each outcome to a reference
  collector, and emits one offense per checker that flags the reference,
  unless the violation filter ignores it.
 */
module ReferenceChecking {
  import opened Wrappers
  import opened Strings
  import opened Packages
  import opened Offenses
  import opened Checkers
  import PrivacyChecking
  import Sequences

  /** One `collect_reference(reference:, violation_type:, valid:)` call. */
  datatype Collected = Collected(reference: Reference, violationType: string, valid: bool)

  /**
    A reference collector, seen through the calls it receives: a recording
    collector keeps every call in order, the no-op collector keeps nothing.
   */
  class ReferenceCollector {
    const recording: bool
    var collected: seq<Collected>
    var stopped: bool

    /** `NoOpReferenceCollector.new`. */
    constructor NoOp()
      ensures !recording && collected == [] && !stopped
    {
      recording := false;
      collected := [];
      stopped := false;
    }

    /** A configured collector. */
    constructor Recording()
      ensures recording && collected == [] && !stopped
    {
      recording := true;
      collected := [];
      stopped := false;
    }

    method CollectReference(reference: Reference, violationType: string, valid: bool)
      modifies this`collected
      ensures collected == old(collected) + (if recording then [Collected(reference, violationType, valid)] else [])
    {
      if recording {
        collected := collected + [Collected(reference, violationType, valid)];
      }
    }

    /** `stop`: the end-of-run hook. */
    method Stop()
      modifies this`stopped
      ensures stopped
    {
      stopped := true;
    }
  }

  /** `NoOpViolationFilter#ignore_violation?`: always false. */
  predicate NeverIgnore(r: Reference) {
    false
  }

  /** A violation filter; `consulted` records every reference it was asked about. */
  class ViolationFilter {
    const ignores: Reference -> bool
    ghost var consulted: seq<Reference>

    /** A configured filter. */
    constructor (ignores: Reference -> bool)
      ensures this.ignores == ignores && consulted == []
    {
      this.ignores := ignores;
      consulted := [];
    }

    /** `NoOpViolationFilter.new`: never ignores a violation. */
    constructor NoOp()
      ensures ignores == NeverIgnore && consulted == []
    {
      ignores := NeverIgnore;
      consulted := [];
    }

    /** `ignore_violation?(reference)`. */
    method IgnoreViolation(r: Reference) returns (ignored: bool)
      modifies this`consulted
      ensures ignored == ignores(r)
      ensures consulted == old(consulted) + [r]
    {
      ignored := ignores(r);
      consulted := consulted + [r];
    }
  }

  /** The offense `call` builds when checker `c` flags `r`. */
  function OffenseFor(c: Checker, r: Reference): Offense {
    NewReferenceOffense(r, c.ViolationType(), c.Message(r), r.sourceLocation)
  }

  /** What one checker contributes to `call`'s result. */
  function Emitted(c: Checker, r: Reference, ignores: Reference -> bool): seq<Offense> {
    if c.InvalidReference(r) && !ignores(r) then [OffenseFor(c, r)] else []
  }

  /** The offenses `call(r)` returns, checker by checker. */
  function Check(cs: seq<Checker>, r: Reference, ignores: Reference -> bool): seq<Offense> {
    if cs == [] then []
    else Check(cs[..|cs| - 1], r, ignores) + Emitted(cs[|cs| - 1], r, ignores)
  }

  /** The calls `call(r)` makes on the reference collector. */
  function Observations(cs: seq<Checker>, r: Reference): seq<Collected> {
    if cs == [] then []
    else Observations(cs[..|cs| - 1], r)
         + [Collected(r, cs[|cs| - 1].ViolationType(), !cs[|cs| - 1].InvalidReference(r))]
  }

  /** The questions `call(r)` puts to the violation filter. */
  function FilterQueries(cs: seq<Checker>, r: Reference): seq<Reference> {
    if cs == [] then []
    else FilterQueries(cs[..|cs| - 1], r) + (if cs[|cs| - 1].InvalidReference(r) then [r] else [])
  }

  /** The number of checkers that flag `r`. */
  function CountInvalid(cs: seq<Checker>, r: Reference): nat {
    if cs == [] then 0
    else CountInvalid(cs[..|cs| - 1], r) + (if cs[|cs| - 1].InvalidReference(r) then 1 else 0)
  }

  /** Checking against a list of checkers is checking against each part in turn: offenses follow checker order. */
  lemma {:induction false} CheckAppend(a: seq<Checker>, b: seq<Checker>, r: Reference, ignores: Reference -> bool)
    ensures Check(a + b, r, ignores) == Check(a, r, ignores) + Check(b, r, ignores)
  {
    if b == [] {
      assert a + b == a;
    } else {
      var b', last := b[..|b| - 1], b[|b| - 1];
      CheckAppend(a, b', r, ignores);
      assert (a + b)[..|a + b| - 1] == a + b' && (a + b)[|a + b| - 1] == last;
      assert Check(a + b, r, ignores) == Check(a + b', r, ignores) + Emitted(last, r, ignores);
      Sequences.ConcatAssociative(Check(a, r, ignores), Check(b', r, ignores), Emitted(last, r, ignores));
    }
  }

  /** A single checker contributes an offense iff it flags the reference and the filter does not ignore it. */
  lemma CheckOne(c: Checker, r: Reference, ignores: Reference -> bool)
    ensures Check([c], r, ignores) == Emitted(c, r, ignores)
    ensures |Check([c], r, ignores)| == 1 <==> c.InvalidReference(r) && !ignores(r)
  {
    assert [c][..0] == [];
  }

  /**
    Every offense comes from a checker that flagged the reference and was not
    ignored, and carries the reference, its location and file, and that
    checker's violation type and message.
   */
  lemma {:induction false} CheckSound(cs: seq<Checker>, r: Reference, ignores: Reference -> bool, k: nat)
    requires k < |Check(cs, r, ignores)|
    ensures exists i :: 0 <= i < |cs| && cs[i].InvalidReference(r) && !ignores(r)
                      && Check(cs, r, ignores)[k] == OffenseFor(cs[i], r)
    ensures var o := Check(cs, r, ignores)[k];
            o.ReferenceOffense? && o.reference == r && o.file == r.relativePath && o.location == r.sourceLocation
  {
    var init := cs[..|cs| - 1];
    var i: nat;
    if k < |Check(init, r, ignores)| {
      CheckSound(init, r, ignores, k);
      i :| 0 <= i < |init| && init[i].InvalidReference(r) && !ignores(r)
           && Check(init, r, ignores)[k] == OffenseFor(init[i], r);
      assert cs[i] == init[i];
    } else {
      i := |cs| - 1;
    }
    var o := OffenseFor(cs[i], r);
    assert Check(cs, r, ignores)[k] == o;
    assert o.ReferenceOffense? && o.reference == r && o.file == r.relativePath && o.location == r.sourceLocation;
  }

  /** Every checker that flags the reference yields its offense, unless the filter ignores the reference. */
  lemma {:induction false} CheckComplete(cs: seq<Checker>, r: Reference, ignores: Reference -> bool, i: nat)
    requires i < |cs| && cs[i].InvalidReference(r) && !ignores(r)
    ensures OffenseFor(cs[i], r) in Check(cs, r, ignores)
  {
    var init := cs[..|cs| - 1];
    if i < |init| {
      CheckComplete(init, r, ignores, i);
      assert cs[i] == init[i];
    }
  }

  /** At most one offense per checker; exactly one per flagging checker when nothing is ignored. */
  lemma {:induction false} CheckCount(cs: seq<Checker>, r: Reference, ignores: Reference -> bool)
    ensures |Check(cs, r, ignores)| <= CountInvalid(cs, r) <= |cs|
    ensures !ignores(r) ==> |Check(cs, r, ignores)| == CountInvalid(cs, r)
    ensures ignores(r) ==> Check(cs, r, ignores) == []
  {
    if cs != [] {
      CheckCount(cs[..|cs| - 1], r, ignores);
    }
  }

  /** The collector hears about every checker exactly once, in order, with `valid == !invalid_reference?`. */
  lemma {:induction false} ObservationsAt(cs: seq<Checker>, r: Reference, i: nat)
    requires i < |cs|
    ensures |Observations(cs, r)| == |cs|
    ensures Observations(cs, r)[i] == Collected(r, cs[i].ViolationType(), !cs[i].InvalidReference(r))
  {
    var init := cs[..|cs| - 1];
    if i < |init| {
      ObservationsAt(init, r, i);
      assert cs[i] == init[i];
    } else if init != [] {
      ObservationsAt(init, r, 0);
    }
  }

  /** The filter is asked once per flagging checker and never for a checker that finds the reference valid. */
  lemma {:induction false} FilterQueriesCount(cs: seq<Checker>, r: Reference)
    ensures |FilterQueries(cs, r)| == CountInvalid(cs, r)
    ensures forall q :: q in FilterQueries(cs, r) ==> q == r
  {
    if cs != [] {
      FilterQueriesCount(cs[..|cs| - 1], r);
    }
  }

  /** A reference from one package to a private constant of a package enforcing privacy, with no exemptions. */
  predicate UnexemptedPrivateReference(r: Reference) {
    var pkg := r.constant.package;
    && !r.constant.isPublic
    && pkg.enforcePrivacy == Flag(true)
    && pkg.explicitlyPrivateConstants == []
    && r.constant.name !in pkg.publicConstants
  }

  lemma UnexemptedIsInvalid(r: Reference)
    requires UnexemptedPrivateReference(r)
    ensures PrivacyChecker.InvalidReference(r)
  {
    PrivacyChecking.InvalidReferenceIff(r);
  }

  /** The privacy offense's message suggests each public constant of the constant's package. */
  lemma PrivacyOffenseSuggests(r: Reference, k: nat)
    requires k < |r.constant.package.publicConstants|
    ensures IsInfix(r.constant.package.publicConstants[k], OffenseFor(PrivacyChecker, r).message)
  {
    assert OffenseFor(PrivacyChecker, r).message == PrivacyChecking.Message(r);
    PrivacyChecking.MessageSuggestsPublicConstants(r, k);
  }

  /**
    Such a reference gives exactly one offense, of violation type "privacy",
    whose message suggests the package's public constants.
   */
  lemma PrivacyScenario(r: Reference, ignores: Reference -> bool)
    requires UnexemptedPrivateReference(r) && !ignores(r)
    ensures Check([PrivacyChecker], r, ignores) == [OffenseFor(PrivacyChecker, r)]
    ensures OffenseFor(PrivacyChecker, r).violationType == "privacy"
  {
    UnexemptedIsInvalid(r);
    CheckOne(PrivacyChecker, r, ignores);
  }

  /** The same reference to an explicitly public constant gives no offense. */
  lemma PublicConstantScenario(r: Reference, ignores: Reference -> bool)
    requires r.constant.name in r.constant.package.publicConstants
    ensures Check([PrivacyChecker], r, ignores) == []
  {
    CheckOne(PrivacyChecker, r, ignores);
  }

  /** `ReferenceChecker`: its checkers, collector and filter. */
  class ReferenceChecker {
    const checkers: seq<Checker>
    const collector: ReferenceCollector
    const filter: ViolationFilter

    constructor (checkers: seq<Checker>, collector: ReferenceCollector, filter: ViolationFilter)
      ensures this.checkers == checkers && this.collector == collector && this.filter == filter
    {
      this.checkers := checkers;
      this.collector := collector;
      this.filter := filter;
    }

    /** `ReferenceChecker.new(checkers)`: a fresh no-op collector and a fresh no-op filter. */
    constructor WithDefaults(checkers: seq<Checker>)
      ensures this.checkers == checkers
      ensures fresh(collector) && !collector.recording && collector.collected == []
      ensures fresh(filter) && filter.ignores == NeverIgnore && filter.consulted == []
    {
      this.checkers := checkers;
      collector := new ReferenceCollector.NoOp();
      filter := new ViolationFilter.NoOp();
    }

    /**
      `call(reference)`: returns one offense per flagging, non-ignored
      checker, in checker order; reports every checker's outcome to the
      collector and asks the filter only about flagged references.
     */
    method Call(reference: Reference) returns (violations: seq<Offense>)
      modifies collector`collected, filter`consulted
      ensures violations == Check(checkers, reference, filter.ignores)
      ensures collector.collected == old(collector.collected)
                                     + (if collector.recording then Observations(checkers, reference) else [])
      ensures filter.consulted == old(filter.consulted) + FilterQueries(checkers, reference)
    {
      violations := [];
      var i := 0;
      while i < |checkers|
        invariant 0 <= i <= |checkers|
        invariant violations == Check(checkers[..i], reference, filter.ignores)
        invariant collector.collected == old(collector.collected)
                                         + (if collector.recording then Observations(checkers[..i], reference) else [])
        invariant filter.consulted == old(filter.consulted) + FilterQueries(checkers[..i], reference)
      {
        var checker := checkers[i];
        ghost var done, next := checkers[..i], checkers[..i + 1];
        assert next[..|next| - 1] == done && next[|next| - 1] == checker;
        assert Check(next, reference, filter.ignores) == Check(done, reference, filter.ignores) + Emitted(checker, reference, filter.ignores);
        var invalidReference := checker.InvalidReference(reference);
        Sequences.ConcatAssociative(old(collector.collected), Observations(checkers[..i], reference),
                                    [Collected(reference, checker.ViolationType(), !invalidReference)]);
        collector.CollectReference(reference, checker.ViolationType(), !invalidReference);
        if invalidReference {
          Sequences.ConcatAssociative(old(filter.consulted), FilterQueries(checkers[..i], reference), [reference]);
          var ignored := filter.IgnoreViolation(reference);
          if !ignored {
            violations := violations + [OffenseFor(checker, reference)];
          } else {
            assert Check(done, reference, filter.ignores) + [] == Check(done, reference, filter.ignores);
          }
        } else {
          assert Check(done, reference, filter.ignores) + [] == Check(done, reference, filter.ignores);
        }
        i := i + 1;
      }
      assert checkers[..i] == checkers;
    }
  }
}
