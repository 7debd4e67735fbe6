/**
  The run context (lib/packwerk/run_context.rb): holds the checkers, the
  configured reference collector and violation filter, and the package set
  of a run, and turns one file into its offenses.
 */
module RunContexts {
  import opened Wrappers
  import opened Packages
  import opened Offenses
  import opened Checkers
  import opened ReferenceChecking
  import opened Sequences

  /** What parsing one file and resolving its constants yields: the file's own offenses and its resolved references. */
  datatype ProcessedFile = ProcessedFile(offenses: seq<Offense>, references: seq<Reference>)

  /** `DEFAULT_CHECKERS`: the dependency checker, then the privacy checker. */
  function DefaultCheckers(dependencyChecker: Checker): (cs: seq<Checker>)
    ensures |cs| == 2 && cs[0] == dependencyChecker && cs[1] == PrivacyChecker
  {
    [dependencyChecker, PrivacyChecker]
  }

  /** `references.flat_map { |reference| reference_checker.call(reference) }`. */
  function CheckAll(refs: seq<Reference>, cs: seq<Checker>, ignores: Reference -> bool): seq<Offense> {
    FlatMap(refs, r => Check(cs, r, ignores))
  }

  /** The collector calls made while checking all references. */
  function ObservationsAll(refs: seq<Reference>, cs: seq<Checker>): seq<Collected> {
    FlatMap(refs, r => Observations(cs, r))
  }

  /** The filter questions asked while checking all references. */
  function FilterQueriesAll(refs: seq<Reference>, cs: seq<Checker>): seq<Reference> {
    FlatMap(refs, r => FilterQueries(cs, r))
  }

  /** What `process_file` returns: the file's own offenses, then the checkers' offenses for each reference in turn. */
  function FileOffenses(processed: ProcessedFile, cs: seq<Checker>, ignores: Reference -> bool): seq<Offense> {
    processed.offenses + CheckAll(processed.references, cs, ignores)
  }

  /** The checkers' offenses for a list of references are those for each part in turn, in reference order. */
  lemma CheckAllAppend(a: seq<Reference>, b: seq<Reference>, cs: seq<Checker>, ignores: Reference -> bool)
    ensures CheckAll(a + b, cs, ignores) == CheckAll(a, cs, ignores) + CheckAll(b, cs, ignores)
  {
    FlatMapAppend(a, b, r => Check(cs, r, ignores));
  }

  /** At most one offense per reference and checker, and each is a reference offense for one of the file's references. */
  lemma CheckAllBounded(refs: seq<Reference>, cs: seq<Checker>, ignores: Reference -> bool)
    ensures |CheckAll(refs, cs, ignores)| <= |refs| * |cs|
    ensures forall o :: o in CheckAll(refs, cs, ignores) ==> o.ReferenceOffense? && o.reference in refs
  {
    var f := r => Check(cs, r, ignores);
    forall r | r in refs
      ensures |f(r)| <= |cs|
    {
      CheckCount(cs, r, ignores);
    }
    FlatMapLength(refs, f, |cs|);
    forall o | o in CheckAll(refs, cs, ignores)
      ensures o.ReferenceOffense? && o.reference in refs
    {
      var r := FlatMapOrigin(refs, f, o);
      var k :| 0 <= k < |Check(cs, r, ignores)| && Check(cs, r, ignores)[k] == o;
      CheckSound(cs, r, ignores, k);
    }
  }

  /** The file's own offenses come first, unchanged. */
  lemma FileOffensesStartWithOwn(processed: ProcessedFile, cs: seq<Checker>, ignores: Reference -> bool)
    ensures FileOffenses(processed, cs, ignores)[..|processed.offenses|] == processed.offenses
    ensures |FileOffenses(processed, cs, ignores)| <= |processed.offenses| + |processed.references| * |cs|
  {
    CheckAllBounded(processed.references, cs, ignores);
  }

  /**
    The `flat_map` in `process_file`: runs the reference checker over each
    reference in turn.
   */
  method CheckReferences(referenceChecker: ReferenceChecker, refs: seq<Reference>) returns (offenses: seq<Offense>)
    modifies referenceChecker.collector`collected, referenceChecker.filter`consulted
    ensures offenses == CheckAll(refs, referenceChecker.checkers, referenceChecker.filter.ignores)
    ensures referenceChecker.collector.collected == old(referenceChecker.collector.collected)
      + (if referenceChecker.collector.recording then ObservationsAll(refs, referenceChecker.checkers) else [])
    ensures referenceChecker.filter.consulted == old(referenceChecker.filter.consulted)
      + FilterQueriesAll(refs, referenceChecker.checkers)
  {
    var checkers, collector, filter := referenceChecker.checkers, referenceChecker.collector, referenceChecker.filter;
    offenses := [];
    var i := 0;
    while i < |refs|
      invariant 0 <= i <= |refs|
      invariant offenses == CheckAll(refs[..i], checkers, filter.ignores)
      invariant collector.collected == old(collector.collected)
        + (if collector.recording then ObservationsAll(refs[..i], checkers) else [])
      invariant filter.consulted == old(filter.consulted) + FilterQueriesAll(refs[..i], checkers)
    {
      FlatMapSnoc(refs, i, r => Check(checkers, r, filter.ignores));
      FlatMapSnoc(refs, i, r => Observations(checkers, r));
      FlatMapSnoc(refs, i, r => FilterQueries(checkers, r));
      ConcatAssociative(old(collector.collected), ObservationsAll(refs[..i], checkers), Observations(checkers, refs[i]));
      ConcatAssociative(old(filter.consulted), FilterQueriesAll(refs[..i], checkers), FilterQueries(checkers, refs[i]));
      var violations := referenceChecker.Call(refs[i]);
      offenses := offenses + violations;
      i := i + 1;
    }
    assert refs[..i] == refs;
  }

  /** `RunContext`: the run's checkers, collector, filter, file processing and package set. */
  class RunContext {
    const rootPath: string
    const checkers: seq<Checker>
    const referenceCollector: ReferenceCollector
    const violationFilter: ViolationFilter
    /** Parsing a file and resolving its references. */
    const processFile: string -> ProcessedFile
    /** What `PackageSet.load_all_from` finds under the root. */
    const packagesOnDisk: seq<Package>
    var packageSetCache: Option<seq<Package>>
    ghost var packageSetLoads: nat

    /** The package set is loaded at most once, and the cache holds what was loaded. */
    ghost predicate Valid()
      reads this
    {
      && packageSetLoads == (if packageSetCache.Some? then 1 else 0)
      && (packageSetCache.Some? ==> packageSetCache.value == packagesOnDisk)
    }

    /**
      `RunContext.new(...)`: the checkers default to `DEFAULT_CHECKERS`; a nil
      collector or filter is replaced by the no-op one.
     */
    constructor (
      rootPath: string,
      processFile: string -> ProcessedFile,
      packagesOnDisk: seq<Package>,
      dependencyChecker: Checker,
      checkers: seq<Checker> := DefaultCheckers(dependencyChecker),
      referenceCollector: ReferenceCollector? := null,
      violationFilter: ViolationFilter? := null)
      ensures Valid() && packageSetCache == None
      ensures this.rootPath == rootPath && this.processFile == processFile
      ensures this.packagesOnDisk == packagesOnDisk && this.checkers == checkers
      ensures referenceCollector != null ==> this.referenceCollector == referenceCollector
      ensures referenceCollector == null ==>
        fresh(this.referenceCollector) && !this.referenceCollector.recording && this.referenceCollector.collected == []
      ensures violationFilter != null ==> this.violationFilter == violationFilter
      ensures violationFilter == null ==>
        fresh(this.violationFilter) && this.violationFilter.ignores == NeverIgnore && this.violationFilter.consulted == []
    {
      this.rootPath := rootPath;
      this.processFile := processFile;
      this.packagesOnDisk := packagesOnDisk;
      this.checkers := checkers;
      if referenceCollector != null {
        this.referenceCollector := referenceCollector;
      } else {
        this.referenceCollector := new ReferenceCollector.NoOp();
      }
      if violationFilter != null {
        this.violationFilter := violationFilter;
      } else {
        this.violationFilter := new ViolationFilter.NoOp();
      }
      packageSetCache := None;
      packageSetLoads := 0;
    }

    /**
      `process_file(relative_file:, collect_references:, filter_violations:)`:
      the configured collector and filter are used only when asked for, the
      no-op ones otherwise. Resolving the file's constants needs the package
      set, so the first file processed loads it.
     */
    method ProcessFile(relativeFile: string, collectReferences: bool := false, filterViolations: bool := false)
      returns (offenses: seq<Offense>)
      requires Valid()
      modifies referenceCollector`collected, violationFilter`consulted, this`packageSetCache, this`packageSetLoads
      ensures Valid() && packageSetCache == Some(packagesOnDisk)
      ensures offenses == FileOffenses(processFile(relativeFile), checkers,
                                       if filterViolations then violationFilter.ignores else NeverIgnore)
      ensures referenceCollector.collected == old(referenceCollector.collected)
        + (if collectReferences && referenceCollector.recording
           then ObservationsAll(processFile(relativeFile).references, checkers) else [])
      ensures violationFilter.consulted == old(violationFilter.consulted)
        + (if filterViolations then FilterQueriesAll(processFile(relativeFile).references, checkers) else [])
    {
      var _ := PackageSet();
      var processed := processFile(relativeFile);
      var collector: ReferenceCollector;
      if collectReferences {
        collector := referenceCollector;
      } else {
        collector := new ReferenceCollector.NoOp();
      }
      var filter: ViolationFilter;
      if filterViolations {
        filter := violationFilter;
      } else {
        filter := new ViolationFilter.NoOp();
      }
      var referenceChecker := new ReferenceChecker(checkers, collector, filter);
      var checked := CheckReferences(referenceChecker, processed.references);
      offenses := processed.offenses + checked;
    }

    /** `package_set`: loaded on the first call, reused afterwards. */
    method PackageSet() returns (packages: seq<Package>)
      requires Valid()
      modifies this`packageSetCache, this`packageSetLoads
      ensures Valid()
      ensures packages == packagesOnDisk && packageSetCache == Some(packagesOnDisk)
      ensures packageSetLoads == old(packageSetLoads) + (if old(packageSetCache).None? then 1 else 0)
    {
      if packageSetCache.None? {
        packageSetCache := Some(packagesOnDisk);
        packageSetLoads := packageSetLoads + 1;
      }
      packages := packageSetCache.value;
    }

    /** `stop_collector`: forwards `stop` to the run's collector. */
    method StopCollector()
      modifies referenceCollector`stopped
      ensures referenceCollector.stopped
    {
      referenceCollector.Stop();
    }
  }
}
