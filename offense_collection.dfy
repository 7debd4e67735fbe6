/**
  The offense collection (lib/packwerk/offense_collection.rb): gathers the
  offenses of a run into errors, new violations and relaxed violations,
  absorbs violations already recorded in the source package's todo, and
  decides which todo files to write and which to delete.
 */
module OffenseCollections {
  import opened Wrappers
  import opened Strings
  import opened Packages
  import opened Offenses
  import opened Checkers
  import opened PackageTodos
  import opened Sequences

  /** `s` without the separator it ends with, if any. */
  function WithoutTrailingSeparator(s: string): string {
    if |s| > 0 && s[|s| - 1] == '/' then s[..|s| - 1] else s
  }

  /** `s` without the separator it starts with, if any. */
  function WithoutLeadingSeparator(s: string): string {
    if |s| > 0 && s[0] == '/' then s[1..] else s
  }

  /**
    `path` is `a` and `b` joined by the single separator at index `k`: left of
    it is `a` without its own trailing separator, right of it `b` without its
    own leading one.
   */
  predicate JoinsAt(a: string, b: string, path: string, k: int) {
    && 0 <= k < |path| && path[k] == '/'
    && path[..k] == WithoutTrailingSeparator(a)
    && path[k + 1..] == WithoutLeadingSeparator(b)
  }

  /** Ruby's `File.join` of two parts: one separator between them, whether either side, both or neither supplies it. */
  function FileJoin(a: string, b: string): (path: string)
    ensures IsPrefix(a, path)
    ensures IsSuffix(b, path) || (|b| > 0 && IsSuffix(b[1..], path))
  {
    if |a| > 0 && a[|a| - 1] == '/' && |b| > 0 && b[0] == '/' then a + b[1..]
    else if (|a| > 0 && a[|a| - 1] == '/') || (|b| > 0 && b[0] == '/') then a + b
    else a + "/" + b
  }

  /** `File.join` puts exactly one separator at the junction, and returns where it is. */
  lemma FileJoinJunction(a: string, b: string) returns (k: nat)
    ensures JoinsAt(a, b, FileJoin(a, b), k)
  {
    var path := FileJoin(a, b);
    k := |WithoutTrailingSeparator(a)|;
    if |a| > 0 && a[|a| - 1] == '/' {
      assert path[..k] == WithoutTrailingSeparator(a);
    } else {
      assert path[..k] == a;
    }
    assert path[k + 1..] == WithoutLeadingSeparator(b);
  }

  /** Joining a part that brings no separator of its own ends the path with a separator and that part. */
  lemma FileJoinEndsWith(a: string, b: string)
    requires |b| > 0 && b[0] != '/'
    ensures IsSuffix("/" + b, FileJoin(a, b))
  {
    var path := FileJoin(a, b);
    if |a| > 0 && a[|a| - 1] == '/' {
      assert path == a + b;
      assert path[|path| - |b| - 1..] == "/" + b;
    } else {
      assert path == a + "/" + b;
      Sequences.ConcatAssociative(a, "/", b);
      SuffixOfConcat(a, "/" + b);
    }
  }

  const TodoFileName: string := "package_todo.yml"

  /** `package_todo_file_for(package)`: `<root>/<package name>/package_todo.yml`. */
  function TodoFileFor(root: string, p: Package): (path: string)
    ensures IsSuffix("/" + TodoFileName, path)
  {
    var dir := FileJoin(root, p.name);
    FileJoinEndsWith(dir, TodoFileName);
    FileJoin(dir, TodoFileName)
  }

  /** With a root and a package name that bring no separators of their own, the path is their plain concatenation. */
  lemma TodoFileForPlain(root: string, p: Package)
    requires |root| > 0 && root[|root| - 1] != '/'
    requires |p.name| > 0 && p.name[0] != '/' && p.name[|p.name| - 1] != '/'
    ensures TodoFileFor(root, p) == root + "/" + p.name + "/" + TodoFileName
  {
    var dir := FileJoin(root, p.name);
    assert dir == root + "/" + p.name;
    assert dir[|dir| - 1] == p.name[|p.name| - 1];
  }

  /** The state of a collection: the three lists and the todo map. */
  datatype Tally = Tally(
    errors: seq<Offense>,
    newViolations: seq<Offense>,
    relaxedViolations: seq<Offense>,
    todos: map<Package, PackageTodo>)

  /** `package_todo_for(package)`: the todo map with the package's todo loaded if it was absent. */
  function WithTodoFor(todos: map<Package, PackageTodo>, p: Package, root: string, load: (Package, string) -> PackageTodo): (m: map<Package, PackageTodo>)
    ensures m.Keys == todos.Keys + {p}
    ensures forall q :: q in todos ==> m[q] == todos[q]
    ensures p !in todos ==> m[p] == load(p, TodoFileFor(root, p))
  {
    if p in todos then todos else todos[p := load(p, TodoFileFor(root, p))]
  }

  /**
    `add_offense(offense)` on a collection in state `t`, where `found` is
    what `Checker.find(offense.violation_type)` answers.
   */
  function Added(t: Tally, o: Offense, found: Result<Checker, LookupError>, root: string, load: (Package, string) -> PackageTodo): Result<Tally, LookupError> {
    if !o.ReferenceOffense? then Success(t.(errors := t.errors + [o]))
    else if found.Failure? then Failure(found.error)
    else
      var level := found.value.ViolationLevel(o);
      var src := o.reference.sourcePackage;
      var todos := WithTodoFor(t.todos, src, root, load);
      var added := AddEntries(todos[src], o.reference, o.violationType);
      var t' := t.(todos := todos[src := added.0]);
      if added.1 then Success(t')
      else if level == Some("relaxed") then Success(t'.(relaxedViolations := t.relaxedViolations + [o]))
      else Success(t'.(newViolations := t.newViolations + [o]))
  }

  /** `listed?(offense)` in state `t`, with the todo map it leaves behind. */
  function ListedIn(t: Tally, o: Offense, root: string, load: (Package, string) -> PackageTodo): (result: (bool, map<Package, PackageTodo>)) {
    if !o.ReferenceOffense? then (false, t.todos)
    else
      var src := o.reference.sourcePackage;
      var todos := WithTodoFor(t.todos, src, root, load);
      (Listed(todos[src], o.reference, o.violationType), todos)
  }

  /** `outstanding_offenses`: errors, then new violations; relaxed violations are left out. */
  function Outstanding(t: Tally): (r: seq<Offense>)
    ensures |r| == |t.errors| + |t.newViolations|
    ensures r[..|t.errors|] == t.errors && r[|t.errors|..] == t.newViolations
  {
    t.errors + t.newViolations
  }

  /** An offense that is not a reference offense goes to errors and changes nothing else; it is never listed. */
  lemma AddedPlain(t: Tally, o: Offense, found: Result<Checker, LookupError>, root: string, load: (Package, string) -> PackageTodo)
    requires !o.ReferenceOffense?
    ensures Added(t, o, found, root, load) == Success(t.(errors := t.errors + [o]))
    ensures !ListedIn(t, o, root, load).0 && ListedIn(t, o, root, load).1 == t.todos
  {
  }

  /** The checker lookup comes first: an unknown violation type fails even for an offense the todo already lists. */
  lemma AddedLookupFirst(t: Tally, o: Offense, found: Result<Checker, LookupError>, root: string, load: (Package, string) -> PackageTodo)
    requires o.ReferenceOffense? && found.Failure?
    ensures Added(t, o, found, root, load) == Failure(found.error)
  {
  }

  /**
    A reference offense leaves errors alone and grows at most one of the two
    violation lists, by the offense itself: absorbed if the todo already
    listed it, relaxed iff its level is exactly "relaxed", new otherwise.
    Afterwards the source package's todo has it among this run's entries and
    lists exactly what it listed before, and no other todo changes.
   */
  lemma AddedReference(t: Tally, o: Offense, c: Checker, root: string, load: (Package, string) -> PackageTodo)
    requires o.ReferenceOffense?
    ensures var result := Added(t, o, Success(c), root, load);
      var src := o.reference.sourcePackage;
      var wasListed := ListedIn(t, o, root, load).0;
      && result.Success?
      && result.value.errors == t.errors
      && (wasListed ==>
            result.value.newViolations == t.newViolations && result.value.relaxedViolations == t.relaxedViolations)
      && (!wasListed && c.ViolationLevel(o) == Some("relaxed") ==>
            result.value.newViolations == t.newViolations && result.value.relaxedViolations == t.relaxedViolations + [o])
      && (!wasListed && c.ViolationLevel(o) != Some("relaxed") ==>
            result.value.newViolations == t.newViolations + [o] && result.value.relaxedViolations == t.relaxedViolations)
      && result.value.todos.Keys == t.todos.Keys + {src}
      && EntryFor(o.reference, o.violationType) in result.value.todos[src].newEntries
      && result.value.todos[src].listed == WithTodoFor(t.todos, src, root, load)[src].listed
      && (forall q :: q in t.todos && q != src ==> result.value.todos[q] == t.todos[q])
  {
  }

  /**
    Adding the same reference offense a second time leaves the todos and the
    errors as the first add left them. A listed offense is absorbed again, so
    the second add changes nothing; an unlisted one is reported again, in the
    same list as the first time.
   */
  lemma AddedTwice(t: Tally, o: Offense, c: Checker, root: string, load: (Package, string) -> PackageTodo)
    requires o.ReferenceOffense?
    ensures var once := Added(t, o, Success(c), root, load);
      var twice := Added(once.value, o, Success(c), root, load);
      var wasListed := ListedIn(t, o, root, load).0;
      && once.Success? && twice.Success?
      && twice.value.todos == once.value.todos && twice.value.errors == once.value.errors
      && (wasListed ==> twice == once)
      && (!wasListed && c.ViolationLevel(o) == Some("relaxed") ==>
            twice.value.newViolations == once.value.newViolations
            && twice.value.relaxedViolations == once.value.relaxedViolations + [o])
      && (!wasListed && c.ViolationLevel(o) != Some("relaxed") ==>
            twice.value.newViolations == once.value.newViolations + [o]
            && twice.value.relaxedViolations == once.value.relaxedViolations)
  {
    var once := Added(t, o, Success(c), root, load).value;
    var src := o.reference.sourcePackage;
    AddedReference(t, o, c, root, load);
    AddedReference(once, o, c, root, load);
    assert src in once.todos;
    assert WithTodoFor(once.todos, src, root, load) == once.todos;
    assert ListedIn(once, o, root, load).0 == ListedIn(t, o, root, load).0;
    var first := WithTodoFor(t.todos, src, root, load)[src];
    AddEntriesAgain(first, o.reference, o.violationType);
    assert once.todos[src] == AddEntries(first, o.reference, o.violationType).0;
    assert once.todos[src := once.todos[src]] == once.todos;
  }

  /** A newly introduced privacy violation in a package with `enforce_privacy: "relaxed"` is relaxed, not new. */
  lemma RelaxedPrivacyScenario(t: Tally, o: Offense, root: string, load: (Package, string) -> PackageTodo)
    requires o.ReferenceOffense? && o.reference.constant.package.enforcePrivacy == Setting("relaxed")
    requires !ListedIn(t, o, root, load).0
    ensures var result := Added(t, o, Success(PrivacyChecker), root, load);
      result.Success? && result.value.newViolations == t.newViolations
      && result.value.relaxedViolations == t.relaxedViolations + [o]
  {
    AddedReference(t, o, PrivacyChecker, root, load);
  }

  /** How `find` answers once its type map `types` is built. */
  function FoundIn(types: map<string, Checker>, violationType: string): Result<Checker, LookupError> {
    if violationType in types then Success(types[violationType]) else Failure(KeyError(violationType))
  }

  /** Adding a sequence of offenses in order, stopping at the first lookup failure. */
  function AddedAll(t: Tally, os: seq<Offense>, types: map<string, Checker>, root: string, load: (Package, string) -> PackageTodo): Result<Tally, LookupError>
    decreases |os|
  {
    if os == [] then Success(t)
    else
      var found := if os[0].ReferenceOffense? then FoundIn(types, os[0].violationType) else Failure(NoCheckersIncluded);
      match Added(t, os[0], found, root, load)
      case Failure(e) => Failure(e)
      case Success(t') => AddedAll(t', os[1..], types, root, load)
  }

  /** The offenses of `os` that are not reference offenses, in order. */
  function PlainOffenses(os: seq<Offense>): seq<Offense> {
    if os == [] then [] else (if os[0].ReferenceOffense? then [] else [os[0]]) + PlainOffenses(os[1..])
  }

  /** The number of reference offenses in `os`. */
  function ReferenceCount(os: seq<Offense>): nat {
    if os == [] then 0 else (if os[0].ReferenceOffense? then 1 else 0) + ReferenceCount(os[1..])
  }

  /** One successful `add_offense`, counted: errors grow by a plain offense, the violation lists by at most one reference offense. */
  lemma AddedStep(t: Tally, o: Offense, found: Result<Checker, LookupError>, root: string, load: (Package, string) -> PackageTodo)
    requires Added(t, o, found, root, load).Success?
    ensures var t' := Added(t, o, found, root, load).value;
      && t'.errors == t.errors + (if o.ReferenceOffense? then [] else [o])
      && |t'.newViolations| + |t'.relaxedViolations| <= |t.newViolations| + |t.relaxedViolations| + (if o.ReferenceOffense? then 1 else 0)
      && |t.newViolations| <= |t'.newViolations| && |t.relaxedViolations| <= |t'.relaxedViolations|
  {
    if o.ReferenceOffense? {
      AddedReference(t, o, found.value, root, load);
    }
  }

  /** Unfolds a successful run by its first offense. */
  lemma AddedAllFirst(t: Tally, os: seq<Offense>, types: map<string, Checker>, root: string, load: (Package, string) -> PackageTodo)
    returns (t1: Tally)
    requires os != [] && AddedAll(t, os, types, root, load).Success?
    ensures var found := if os[0].ReferenceOffense? then FoundIn(types, os[0].violationType) else Failure(NoCheckersIncluded);
      && Added(t, os[0], found, root, load) == Success(t1)
      && AddedAll(t1, os[1..], types, root, load) == AddedAll(t, os, types, root, load)
  {
    var found := if os[0].ReferenceOffense? then FoundIn(types, os[0].violationType) else Failure(NoCheckersIncluded);
    t1 := Added(t, os[0], found, root, load).value;
  }

  /**
    Over a whole run, errors receive exactly the plain offenses, in order, and
    the two violation lists together grow by at most the number of reference
    offenses: every offense ends in at most one list.
   */
  lemma {:induction false} AddedAllPartition(t: Tally, os: seq<Offense>, types: map<string, Checker>, root: string, load: (Package, string) -> PackageTodo)
    requires AddedAll(t, os, types, root, load).Success?
    ensures var t' := AddedAll(t, os, types, root, load).value;
      && t'.errors == t.errors + PlainOffenses(os)
      && |t'.newViolations| + |t'.relaxedViolations| <= |t.newViolations| + |t.relaxedViolations| + ReferenceCount(os)
      && |t.newViolations| <= |t'.newViolations| && |t.relaxedViolations| <= |t'.relaxedViolations|
    decreases |os|
  {
    if os != [] {
      var o := os[0];
      var found := if o.ReferenceOffense? then FoundIn(types, o.violationType) else Failure(NoCheckersIncluded);
      var t1 := AddedAllFirst(t, os, types, root, load);
      AddedStep(t, o, found, root, load);
      AddedAllPartition(t1, os[1..], types, root, load);
      var head := if o.ReferenceOffense? then [] else [o];
      assert PlainOffenses(os) == head + PlainOffenses(os[1..]);
      assert ReferenceCount(os) == (if o.ReferenceOffense? then 1 else 0) + ReferenceCount(os[1..]);
      var rest := PlainOffenses(os[1..]);
      assert t1.errors == t.errors + head;
      ConcatAssociative(t.errors, head, rest);
    }
  }

  /** `package_set.packages.values - @package_todo.keys`: the packages without a todo, in package-set order. */
  function WithoutTodos(ps: seq<Package>, withTodo: set<Package>): seq<Package> {
    if ps == [] then []
    else WithoutTodos(ps[..|ps| - 1], withTodo) + (if ps[|ps| - 1] in withTodo then [] else [ps[|ps| - 1]])
  }

  /** Cleanup selects exactly the packages of the set that have no todo. */
  lemma {:induction false} WithoutTodosMembers(ps: seq<Package>, withTodo: set<Package>, p: Package)
    ensures p in WithoutTodos(ps, withTodo) <==> p in ps && p !in withTodo
  {
    if ps != [] {
      WithoutTodosMembers(ps[..|ps| - 1], withTodo, p);
      assert ps == ps[..|ps| - 1] + [ps[|ps| - 1]];
    }
  }

  /** `OffenseCollection`: the lists, the todo map, and what it needs to load todos and find checkers. */
  class OffenseCollection {
    const rootPath: string
    const registry: Registry
    const loadTodo: (Package, string) -> PackageTodo
    var packageTodo: map<Package, PackageTodo>
    var newViolations: seq<Offense>
    var relaxedViolations: seq<Offense>
    var errors: seq<Offense>

    function State(): Tally
      reads this
    {
      Tally(errors, newViolations, relaxedViolations, packageTodo)
    }

    /** `OffenseCollection.new(root_path, package_todo = {})`. */
    constructor (rootPath: string, registry: Registry, loadTodo: (Package, string) -> PackageTodo, packageTodo: map<Package, PackageTodo> := map[])
      ensures this.rootPath == rootPath && this.registry == registry && this.loadTodo == loadTodo
      ensures State() == Tally([], [], [], packageTodo)
    {
      this.rootPath := rootPath;
      this.registry := registry;
      this.loadTodo := loadTodo;
      this.packageTodo := packageTodo;
      newViolations := [];
      relaxedViolations := [];
      errors := [];
    }

    /** `package_todo_for(package)`: loads the package's todo into the map if absent. */
    method PackageTodoFor(p: Package) returns (todo: PackageTodo)
      modifies this`packageTodo
      ensures packageTodo == WithTodoFor(old(packageTodo), p, rootPath, loadTodo)
      ensures todo == packageTodo[p]
    {
      if p !in packageTodo {
        packageTodo := packageTodo[p := loadTodo(p, TodoFileFor(rootPath, p))];
      }
      todo := packageTodo[p];
    }

    /** `listed?(offense)`: asks the todo of the reference's source package, loading it if needed. */
    method IsListed(o: Offense) returns (listed: bool)
      modifies this`packageTodo
      ensures (listed, packageTodo) == ListedIn(old(State()), o, rootPath, loadTodo)
    {
      if !o.ReferenceOffense? {
        return false;
      }
      var todo := PackageTodoFor(o.reference.sourcePackage);
      listed := Listed(todo, o.reference, o.violationType);
    }

    /** `add_offense(offense)`; a failed checker lookup is the KeyError it raises, and then nothing changes. */
    method AddOffense(o: Offense) returns (outcome: Result<(), LookupError>)
      requires registry.Valid()
      modifies this`packageTodo, this`newViolations, this`relaxedViolations, this`errors, registry`byType
      ensures registry.Valid()
      ensures forall t :: registry.Lookup(t) == old(registry.Lookup(t))
      ensures var expected := Added(old(State()), o, if o.ReferenceOffense? then old(registry.Lookup(o.violationType)) else Failure(NoCheckersIncluded), rootPath, loadTodo);
        && (outcome.Success? <==> expected.Success?)
        && (expected.Success? ==> State() == expected.value)
        && (expected.Failure? ==> outcome == Failure(expected.error) && State() == old(State()))
    {
      if !o.ReferenceOffense? {
        errors := errors + [o];
        return Success(());
      }
      var found := registry.Find(o.violationType);
      if found.Failure? {
        return Failure(found.error);
      }
      var checker := found.value;
      var level := checker.ViolationLevel(o);
      var todo := PackageTodoFor(o.reference.sourcePackage);
      var added := AddEntries(todo, o.reference, o.violationType);
      packageTodo := packageTodo[o.reference.sourcePackage := added.0];
      if !added.1 {
        if level == Some("relaxed") {
          relaxedViolations := relaxedViolations + [o];
        } else {
          newViolations := newViolations + [o];
        }
      }
      outcome := Success(());
    }

    /** `stale_violations?(for_files)`: whether any loaded todo reports stale violations for the files. */
    method StaleViolations(files: set<string>) returns (stale: bool)
      ensures stale <==> exists p :: p in packageTodo && PackageTodos.StaleViolations(packageTodo[p], files)
    {
      var remaining := packageTodo.Keys;
      stale := false;
      while remaining != {} && !stale
        invariant remaining <= packageTodo.Keys
        invariant stale ==> exists p :: p in packageTodo && PackageTodos.StaleViolations(packageTodo[p], files)
        invariant !stale ==> forall p :: p in packageTodo && p !in remaining ==> !PackageTodos.StaleViolations(packageTodo[p], files)
        decreases remaining
      {
        var p :| p in remaining;
        stale := PackageTodos.StaleViolations(packageTodo[p], files);
        remaining := remaining - {p};
      }
    }

    /** `outstanding_offenses`. */
    function OutstandingOffenses(): (r: seq<Offense>)
      reads this
      ensures r == Outstanding(State())
    {
      errors + newViolations
    }

    /** The todo files `cleanup_extra_package_todo_files` deletes: those of packages in the set without a todo. */
    method CleanupTargets(packageSet: seq<Package>) returns (paths: seq<string>)
      ensures |paths| == |WithoutTodos(packageSet, packageTodo.Keys)|
      ensures forall i :: 0 <= i < |paths| ==> paths[i] == TodoFileFor(rootPath, WithoutTodos(packageSet, packageTodo.Keys)[i])
    {
      paths := [];
      var i := 0;
      while i < |packageSet|
        invariant 0 <= i <= |packageSet|
        invariant |paths| == |WithoutTodos(packageSet[..i], packageTodo.Keys)|
        invariant forall k :: 0 <= k < |paths| ==> paths[k] == TodoFileFor(rootPath, WithoutTodos(packageSet[..i], packageTodo.Keys)[k])
      {
        assert packageSet[..i + 1][..i] == packageSet[..i];
        var p := packageSet[i];
        if p !in packageTodo {
          paths := paths + [TodoFileFor(rootPath, p)];
        }
        i := i + 1;
      }
      assert packageSet[..i] == packageSet;
    }

    /**
      `persist_package_todo_files(package_set)`: every loaded todo is written,
      and the todo files of the other packages in the set are deleted.
     */
    method PersistPackageTodoFiles(packageSet: seq<Package>) returns (written: set<Package>, deleted: seq<string>)
      ensures written == packageTodo.Keys
      ensures |deleted| == |WithoutTodos(packageSet, packageTodo.Keys)|
      ensures forall i :: 0 <= i < |deleted| ==> deleted[i] == TodoFileFor(rootPath, WithoutTodos(packageSet, packageTodo.Keys)[i])
    {
      written := packageTodo.Keys;
      deleted := CleanupTargets(packageSet);
    }
  }
}
