# Packwerk reference checking, modelled in Dafny

Packwerk enforces boundaries between the packages of a Ruby application.
This project models the engine that runs once constants have been parsed
and resolved:

- a **reference checker** runs an ordered list of **checkers** over one
  resolved reference. It reports every outcome to a **reference collector**
  and emits one **reference offense** per checker that flags the reference,
  unless the **violation filter** ignores it;
- the **privacy checker** flags references to private constants of packages
  that enforce privacy. It also builds the violation message and the
  violation level (`enforce_privacy` stringified);
- the **checker registry** (`Packwerk::Checker`) keeps the checker classes in
  inclusion order. It answers `find(violation_type)` through a type map that
  is built once;
- an **offense** is an immutable record with a two-form `to_s`;
- the **offense collection** sorts each offense into errors, new violations
  or relaxed violations. It absorbs violations the source package's todo
  file already recorded when it was loaded, records every reference
  violation among that todo's entries for this run, and chooses which todo
  files to write or delete;
- the **run context** combines a file's own parser offenses with the
  checkers' offenses for each of its references. It picks the configured or
  the no-op collector and filter, and loads the package set once.

Modules follow the source files:

| file | module | source |
|---|---|---|
| wrappers.dfy | `Wrappers` | `Option` and `Result` |
| sequences.dfy | `Sequences` | Ruby's `flat_map` and concatenation facts |
| strings.dfy | `Strings` | Ruby's `chomp`, `join`, `Integer#to_s`, prefix/suffix/infix |
| packages.dfy | `Packages` | the package, constant and reference values the core reads |
| offense.dfy | `Offenses` | lib/packwerk/offense.rb |
| checker_interface.dfy | `CheckerInterface` | lib/packwerk/reference_checking/checkers/checker.rb |
| privacy_checker.dfy | `PrivacyChecking` | lib/packwerk/reference_checking/checkers/privacy_checker.rb |
| checkers.dfy | `Checkers` | lib/packwerk/checker.rb |
| reference_checker.dfy | `ReferenceChecking` | lib/packwerk/reference_checking/reference_checker.rb, and the collector and filter hooks |
| package_todo.dfy | `PackageTodos` | the package todo store, seen abstractly |
| offense_collection.dfy | `OffenseCollections` | lib/packwerk/offense_collection.rb |
| run_context.dfy | `RunContexts` | lib/packwerk/run_context.rb |

Stateful code is written as classes, and each class method is proved
against a specification function:

- `ReferenceChecker.Call` is proved against `Check`;
- `OffenseCollection.AddOffense` against `Added`;
- `RunContext.ProcessFile` against `FileOffenses`;
- `Registry.Find` against `Registry.Lookup` and `TypeMap`.

The lemmas next to these functions state the properties of the source.

Behaviour the model takes from the code as it stands:

- **Duplicate violation types.** Registering two checkers with the same
  violation type is not rejected. `find` builds its map with `to_h`, which
  keeps the checker registered last, and `TypeMapLastWins` states that.
- **One help footer.** `Packwerk::Checker#standard_help_message`
  (lib/packwerk/checker.rb:56-64) produces the same text as the
  reference-checking interface's, so it is modelled once, by
  `CheckerInterface.StandardHelpMessage`.
- **Collector interface.** The abstract `ReferenceCollector` and
  `NoOpReferenceCollector` declare only `collect_invalid`/`collect_valid`
  (lib/packwerk/reference_collector.rb:12-15). `ReferenceChecker#call` calls
  `collect_reference(valid:)` and `RunContext#stop_collector` calls `stop`.
  The model follows the call sites, which is also the interface the test
  suite's stub collector implements
  (test/unit/reference_checking/reference_checker_test.rb:40-46).

Values whose classes are not part of this model are built from the fields
the core reads:

- `Package`, `ConstantContext` and `Reference` keep only those fields.
- A package prints as its name.
- A `ReferenceOffense` takes its file from the reference's relative path and
  has no level (test/unit/reference_checking/reference_checker_test.rb:62).
- A package todo holds two sets of entries (constant package, constant name,
  file, violation type): those its file recorded when loaded, which
  `listed?` consults, and those `add_entries` recorded during this run. It
  also has an uninterpreted staleness query. A violation first reported
  during a run is therefore reported again each time it recurs.

## Model

| member | source | states |
|---|---|---|
| Offenses.NewOffense | lib/packwerk/offense.rb:23-32 | builds a plain offense that stores `file`, `message`, `location` and `level` unchanged; `location` and `level` default to nil |
| Offenses.NewReferenceOffense | lib/packwerk/reference_checking/reference_checker.rb:43-48 | the offense `call` builds carries the reference, the violation type, the message and the location; its file is the reference's relative path and it has no level |
| Offenses.ToString | lib/packwerk/offense.rb:34-48 | `to_s` starts with the styled file name and ends with a newline, the message and a final newline |
| Offenses.ToStringShape | lib/packwerk/offense.rb:37-47 | `to_s` is exactly styled file name, then `:line:column` only when there is a location, then newline, message, newline |
| Offenses.PositionPartInjective | lib/packwerk/offense.rb:39 | distinct locations print distinct `:line:column` parts, and a missing location prints none |
| Offenses.ToStringDeterminesLocation | lib/packwerk/offense.rb:34-48 | two offenses with the same file and message print the same only if their locations are equal |
| CheckerInterface.StandardHelpMessage | lib/packwerk/reference_checking/checkers/checker.rb:27-35 | the help footer begins with "Inference details: this is a reference to " + name + " which seems to be defined in " + location, ends with the troubleshooting URL, and has no trailing newline after the chomp |
| CheckerInterface.DefaultViolationLevel | lib/packwerk/reference_checking/checkers/checker.rb:19-22 | the interface's default level, which takes a reference, is nil |
| Checkers.WithDefaultLevel | lib/packwerk/checker.rb:42-54 | a checker that supplies the abstract `violation_type`, `invalid_reference?` and `message` and inherits the level has exactly those answers and a nil level |
| Checkers.TypeMapKeys | lib/packwerk/checker.rb:34-38 | the type map has a key exactly when some registered checker has that violation type, and maps each key to a checker of that type |
| Checkers.TypeMapLastWins | lib/packwerk/checker.rb:35-37 | with duplicate violation types, the map holds the last registered checker of that type |
| Checkers.Registry.constructor | lib/packwerk/checker.rb:16-17 | before any inclusion, both the class list and the memoised map are nil |
| Checkers.Registry.Included | lib/packwerk/checker.rb:15-19 | inclusion appends the class after those already registered and leaves the memoised map as it is, so an already built map answers every lookup as before |
| Checkers.Registry.All | lib/packwerk/checker.rb:22-24 | `all` yields the registered checkers in registration order, and fails before any inclusion |
| Checkers.Registry.Find | lib/packwerk/checker.rb:27-39 | `find(t)` answers what the memoised map (or a map built now) holds for `t`: a checker whose violation type is `t`, or KeyError; the map is built on first use only, and no later lookup changes |
| PrivacyChecking.AnyNestedUnderIff | lib/packwerk/reference_checking/checkers/privacy_checker.rb:87 | the `any?` holds exactly when some entry + "::" is a prefix of the name |
| PrivacyChecking.PrivacyOptionString | lib/packwerk/reference_checking/checkers/privacy_checker.rb:44 | `enforce_privacy.to_s`: nil gives "", true gives "true", false gives "false", and a string setting such as "strict" or "relaxed" gives itself |
| PrivacyChecking.ViolationLevel | lib/packwerk/reference_checking/checkers/privacy_checker.rb:42-45 | the privacy checker's level is never nil |
| PrivacyChecking.ViolationLevelRelaxedIff | lib/packwerk/reference_checking/checkers/privacy_checker.rb:42-45 | the level is "relaxed" exactly when the owning package sets `enforce_privacy: "relaxed"` |
| PrivacyChecking.Message | lib/packwerk/reference_checking/checkers/privacy_checker.rb:52-64 | the message starts with the "Privacy violation" headline, contains the public-constants suggestion, ends with a blank line then the standard help message, and has no trailing newline |
| PrivacyChecking.MessageNamesParties | lib/packwerk/reference_checking/checkers/privacy_checker.rb:56 | the message names the constant, its owning package and the referencing package |
| PrivacyChecking.MessageSuggestsPublicConstants | lib/packwerk/reference_checking/checkers/privacy_checker.rb:57-58 | every public constant of the owning package appears in the message |
| PrivacyChecking.PublicConstantNeverInvalid | lib/packwerk/reference_checking/checkers/privacy_checker.rb:28 | a reference to a public constant is never invalid |
| PrivacyChecking.DisabledEnforcementNeverInvalid | lib/packwerk/reference_checking/checkers/privacy_checker.rb:30-32 | with `enforce_privacy` false or nil the reference is never invalid |
| PrivacyChecking.ExplicitlyPrivateNeverInvalid | lib/packwerk/reference_checking/checkers/privacy_checker.rb:32-33 | a constant equal to an explicitly private entry, or nested under one, is not invalid |
| PrivacyChecking.NestingIsBySegment | lib/packwerk/reference_checking/checkers/privacy_checker.rb:84-88 | `Foo::BarBaz` is not nested under the entry `Foo::Bar` |
| PrivacyChecking.ExplicitlyPublicNeverInvalid | lib/packwerk/reference_checking/checkers/privacy_checker.rb:35-37 | a constant listed in `public_constants` is not invalid |
| PrivacyChecking.InvalidReferenceIff | lib/packwerk/reference_checking/checkers/privacy_checker.rb:27-40 | a reference is invalid exactly when it is private, enforcement is on (any setting but false or nil), no explicitly private entry equals or encloses it, and it is not listed public |
| ReferenceChecking.ReferenceCollector.NoOp | lib/packwerk/no_op_reference_collector.rb:5-12 | the no-op collector starts with nothing recorded, not stopped, and never records (see `CollectReference`) |
| ReferenceChecking.ReferenceCollector.CollectReference | lib/packwerk/reference_checking/reference_checker.rb:34-38 | a recording collector appends the call it receives; the no-op collector is unchanged |
| ReferenceChecking.ReferenceCollector.Stop | lib/packwerk/run_context.rb:110-112 | the collector is stopped |
| ReferenceChecking.ViolationFilter.NoOp | lib/packwerk/no_op_violation_filter.rb:8-11 | the no-op filter's verdict is `NeverIgnore`, false for every reference, and it has not been asked yet |
| ReferenceChecking.ViolationFilter.IgnoreViolation | lib/packwerk/violation_filter.rb:12-14 | answers the filter's verdict on the reference and records that it was asked |
| ReferenceChecking.CheckAppend | lib/packwerk/reference_checking/reference_checker.rb:32-50 | the offenses of a checker list are those of each part in turn, in checker order |
| ReferenceChecking.CheckOne | lib/packwerk/reference_checking/reference_checker.rb:40-41 | one checker yields an offense exactly when it flags the reference and the filter does not ignore it |
| ReferenceChecking.CheckSound | lib/packwerk/reference_checking/reference_checker.rb:40-49 | every emitted offense comes from a checker that flagged the reference and was not ignored, and carries the reference, its location, its file and that checker's type and message |
| ReferenceChecking.CheckComplete | lib/packwerk/reference_checking/reference_checker.rb:40-49 | every flagging checker's offense is emitted unless the filter ignores the reference |
| ReferenceChecking.CheckCount | lib/packwerk/reference_checking/reference_checker.rb:32-50 | at most one offense per checker; with a filter that does not ignore the reference, exactly one per flagging checker; none if it is ignored |
| ReferenceChecking.ObservationsAt | lib/packwerk/reference_checking/reference_checker.rb:33-38 | the collector hears once per checker, in order, with `valid == !invalid_reference?` |
| ReferenceChecking.FilterQueriesCount | lib/packwerk/reference_checking/reference_checker.rb:40-41 | the filter is asked once per flagging checker, only about the reference, and never for a checker that finds it valid |
| ReferenceChecking.UnexemptedIsInvalid | lib/packwerk/reference_checking/checkers/privacy_checker.rb:27-40 | a private constant of a package with `enforce_privacy: true` and no exemptions is flagged by the privacy checker |
| ReferenceChecking.PrivacyOffenseSuggests | lib/packwerk/reference_checking/reference_checker.rb:43-48 | the privacy offense's message suggests every public constant of the package |
| ReferenceChecking.PrivacyScenario | lib/packwerk/reference_checking/reference_checker.rb:32-50 | such a reference gives exactly one offense, of type "privacy" |
| ReferenceChecking.PublicConstantScenario | lib/packwerk/reference_checking/checkers/privacy_checker.rb:35-37 | a reference to an explicitly public constant gives no privacy offense |
| ReferenceChecking.ReferenceChecker.constructor | lib/packwerk/reference_checking/reference_checker.rb:16-24 | keeps the checkers, the collector and the filter it is given |
| ReferenceChecking.ReferenceChecker.WithDefaults | lib/packwerk/reference_checking/reference_checker.rb:16-20 | without a collector or a filter, fresh no-op ones are used |
| ReferenceChecking.ReferenceChecker.Call | lib/packwerk/reference_checking/reference_checker.rb:31-51 | `call` returns `Check` of its checkers, appends `Observations` to a recording collector, and asks the filter exactly `FilterQueries` |
| PackageTodos.AddEntries | lib/packwerk/offense_collection.rb:56 | `add_entries` answers whether the todo file already listed the violation, adds exactly that entry to this run's entries, and leaves what is listed unchanged |
| PackageTodos.AddEntriesAgain | lib/packwerk/offense_collection.rb:56 | recording the same violation a second time leaves the todo as the first time left it and gives the same answer |
| OffenseCollections.FileJoin | lib/packwerk/offense_collection.rb:112 | the joined path starts with the first part and ends with the second, or with the second minus the leading separator it brings |
| OffenseCollections.FileJoinJunction | lib/packwerk/offense_collection.rb:112 | the joined path is the first part without its trailing separator, exactly one separator, then the second part without its leading separator |
| OffenseCollections.FileJoinEndsWith | lib/packwerk/offense_collection.rb:112 | joining a part with no leading separator ends the path with "/" and that part |
| OffenseCollections.TodoFileFor | lib/packwerk/offense_collection.rb:111-113 | a package's todo file path ends in "/package_todo.yml" |
| OffenseCollections.TodoFileForPlain | lib/packwerk/offense_collection.rb:111-113 | without stray separators, the path is root + "/" + package name + "/package_todo.yml" |
| OffenseCollections.WithTodoFor | lib/packwerk/offense_collection.rb:103-108 | `package_todo_for` adds the package's todo, loaded from its todo file, only if absent, and keeps every existing todo |
| OffenseCollections.Outstanding | lib/packwerk/offense_collection.rb:79-81 | outstanding offenses are the errors followed by the new violations; relaxed violations are left out |
| OffenseCollections.AddedPlain | lib/packwerk/offense_collection.rb:38-52 | an offense that is not a reference offense goes to errors and changes nothing else, and is never listed |
| OffenseCollections.AddedLookupFirst | lib/packwerk/offense_collection.rb:53-56 | the checker lookup comes before the todo check, so an unknown violation type fails even for a listed offense |
| OffenseCollections.AddedReference | lib/packwerk/offense_collection.rb:53-62 | a reference offense leaves errors alone; it is absorbed if listed, otherwise goes to relaxed violations iff the level is exactly "relaxed" and to new violations otherwise; afterwards the source package's todo has it among this run's entries, lists what it listed before, and no other todo changes |
| OffenseCollections.AddedTwice | lib/packwerk/offense_collection.rb:48-63 | a second add of the same reference offense keeps the todos and errors; a listed offense changes nothing, an unlisted one is appended again to the same violation list |
| OffenseCollections.RelaxedPrivacyScenario | lib/packwerk/offense_collection.rb:57-58 | a new privacy violation in a package with `enforce_privacy: "relaxed"` is relaxed, not new |
| OffenseCollections.AddedStep | lib/packwerk/offense_collection.rb:48-63 | one add grows errors by a plain offense, and the violation lists by at most one reference offense |
| OffenseCollections.AddedAllPartition | lib/packwerk/offense_collection.rb:48-63 | over a run, errors receive exactly the plain offenses in order, and the two violation lists grow by at most the number of reference offenses |
| OffenseCollections.WithoutTodosMembers | lib/packwerk/offense_collection.rb:87 | cleanup selects exactly the packages of the set that have no todo |
| OffenseCollections.OffenseCollection.constructor | lib/packwerk/offense_collection.rb:17-23 | starts with three empty lists and the given todo map, which defaults to empty |
| OffenseCollections.OffenseCollection.PackageTodoFor | lib/packwerk/offense_collection.rb:103-108 | loads the package's todo into the map if absent and returns it |
| OffenseCollections.OffenseCollection.IsListed | lib/packwerk/offense_collection.rb:38-43 | `listed?` is false for a plain offense; otherwise it asks the source package's todo, loading it if absent |
| OffenseCollections.OffenseCollection.AddOffense | lib/packwerk/offense_collection.rb:48-63 | the new state is `Added` of the old one, with the registry's answer for the violation type; on a lookup failure the error is returned and nothing changes; every later `find` answers as it did before |
| OffenseCollections.OffenseCollection.StaleViolations | lib/packwerk/offense_collection.rb:66-70 | true exactly when some loaded todo reports stale violations for the files, and false for an empty map |
| OffenseCollections.OffenseCollection.OutstandingOffenses | lib/packwerk/offense_collection.rb:79-81 | equals `Outstanding` of the current state |
| OffenseCollections.OffenseCollection.CleanupTargets | lib/packwerk/offense_collection.rb:86-95 | the deleted todo files are those of the packages without a todo, in package-set order |
| OffenseCollections.OffenseCollection.PersistPackageTodoFiles | lib/packwerk/offense_collection.rb:73-76 | every loaded todo is written, and the todo files of the other packages are deleted |
| RunContexts.DefaultCheckers | lib/packwerk/run_context.rb:11-14 | the default checkers are the dependency checker, then the privacy checker |
| Sequences.FlatMapAppend | lib/packwerk/run_context.rb:101 | `flat_map` over a concatenation is the concatenation of the parts' results |
| RunContexts.CheckAllAppend | lib/packwerk/run_context.rb:101 | a file's checker offenses follow reference order |
| RunContexts.CheckAllBounded | lib/packwerk/run_context.rb:99-101 | at most one offense per reference and checker, each a reference offense about one of the file's references |
| RunContexts.FileOffensesStartWithOwn | lib/packwerk/run_context.rb:101 | the file's own offenses come first, unchanged, and the total is bounded by them plus references times checkers |
| RunContexts.CheckReferences | lib/packwerk/run_context.rb:99-101 | running the reference checker over each reference returns `CheckAll`, with the collector and filter traces of every reference in turn |
| RunContexts.RunContext.constructor | lib/packwerk/run_context.rb:55-87 | checkers default to the default checkers; a nil collector or filter is replaced by a fresh no-op one; the package set is not loaded yet |
| RunContexts.RunContext.ProcessFile | lib/packwerk/run_context.rb:90-102 | returns the file's offenses followed by each reference's checker offenses; the configured collector and filter are used (and change) only when `collect_references` or `filter_violations` is set; the package set is loaded |
| RunContexts.RunContext.PackageSet | lib/packwerk/run_context.rb:105-107 | the package set is loaded on first use and reused afterwards, so it is loaded at most once |
| RunContexts.RunContext.StopCollector | lib/packwerk/run_context.rb:110-112 | the context's own collector is stopped |

## Left out

- lib/packwerk/configuration.rb and `RunContext.from_configuration`: YAML and file loading, path expansion and extension discovery by reflection are I/O and runtime reflection.
- `FileProcessor`, `Cache`, `ConstantResolver`, `ConstantDiscovery`, `ReferenceExtractor`, the inflector and the private memoised `file_processor`/`context_provider`/`resolver` of `RunContext`: parsing and constant resolution are modelled as the `processFile` function from a file to its offenses and resolved references. Its dependence on the package set is not modelled.
- `PackageSet.load_all_from`: its result is the `packagesOnDisk` parameter.
- `PackageTodo#dump`, `PackageTodo#delete_if_exists` and the todo file format: file I/O. `PersistPackageTodoFiles` returns which todos are written and which paths are deleted instead of writing.
- `PackageTodo#stale_violations?` is uninterpreted: the todo class is not part of this model.
- PackageTodos.AddEntries: this run's entries are a set of whole entries, not the per-constant hash of violation and file lists the todo class keeps, so repeated additions are not counted. The todo class is not part of this model; `listed?` consulting only the loaded file and `add_entries` answering it follow how the offense collection uses them.
- `DependencyChecker` is not part of this model: it appears as a `Checker` value given by its own type, predicate, message and level. Every checker is such a record of its four operations, and `PrivacyChecker` is the one built from the privacy-checking functions.
- `OutputStyle`: the styles' `filename` and `reset` strings are parameters.
- Object identity: `Checker.all` creates new instances on every call. The model returns the registered checker values, so identity and per-instance state are not captured.
- The registry is one process-wide global in the source; the model passes a `Registry` object to the offense collection.
- `Find` before any inclusion returns `NoCheckersIncluded`, for the NoMethodError Ruby raises on nil; a raised KeyError is returned as `Failure(KeyError(t))`.
- OffenseCollections.FileJoin: models `File.join` of two parts by the separator rules at the junction only. It drops at most one separator from each side of the junction; how Ruby treats several separators there, or repeated separators inside a part, is not modelled.
- The reference collector is seen through the calls it records; what a real collector does with them is outside the core.
- The filter's question log `consulted` is ghost state: it exists to state which references the filter was asked about.
- Parallel execution and cross-worker synchronisation: a single sequential run is modelled.
