/**
  The package todo (baseline) store of one package, as the offense collection
  uses it: the violations its file records, the violations recorded during
  this run, and a staleness query. Its file format, loading and writing are
  not part of this model.
 */
module PackageTodos {
  import opened Packages

  /** What a todo records about one violation: the constant (with its package), the file it was found in, the violation type. */
  datatype Entry = Entry(constantPackage: string, constantName: string, file: string, violationType: string)

  function EntryFor(r: Reference, violationType: string): Entry {
    Entry(r.constant.package.name, r.constant.name, r.relativePath, violationType)
  }

  /**
    A package's todo: the package, its file, the entries recorded in that file
    when it was loaded, the entries this run has added, and an uninterpreted
    `stale_violations?(files)`.
   */
  datatype PackageTodo = PackageTodo(
    package: Package,
    path: string,
    listed: set<Entry>,
    newEntries: set<Entry>,
    stale: set<string> -> bool)

  /** `listed?(reference, violation_type:)`: asks the entries recorded in the todo file, not this run's additions. */
  predicate Listed(todo: PackageTodo, r: Reference, violationType: string) {
    EntryFor(r, violationType) in todo.listed
  }

  /**
    `add_entries(reference, violation_type)`: records the violation among
    this run's entries and answers whether the todo file already listed it.
   */
  function AddEntries(todo: PackageTodo, r: Reference, violationType: string): (result: (PackageTodo, bool))
    ensures result.1 == Listed(todo, r, violationType)
    ensures result.0.newEntries == todo.newEntries + {EntryFor(r, violationType)}
    ensures result.0.listed == todo.listed
    ensures result.0.package == todo.package && result.0.path == todo.path && result.0.stale == todo.stale
  {
    (todo.(newEntries := todo.newEntries + {EntryFor(r, violationType)}), Listed(todo, r, violationType))
  }

  /**
    Recording is idempotent and never changes what the todo file lists: adding
    the same violation again leaves the todo as the first add left it, and
    gives the same answer.
   */
  lemma AddEntriesAgain(todo: PackageTodo, r: Reference, violationType: string)
    ensures var once := AddEntries(todo, r, violationType);
      AddEntries(once.0, r, violationType) == once
  {
    var once := AddEntries(todo, r, violationType).0;
    assert once.newEntries + {EntryFor(r, violationType)} == once.newEntries;
  }

  /** `stale_violations?(for_files)`. */
  predicate StaleViolations(todo: PackageTodo, files: set<string>) {
    todo.stale(files)
  }
}
