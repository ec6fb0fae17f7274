/** Extracting the trusted dependency closure (scripts/verify_delivery_test_evidence.py). */
module TrustedBundle {
  import opened Alphabets
  import opened Wrappers

  /** A file at the trusted commit: its blob id as git reports it and as its bytes hash, and the
      paths that its imports name; none if a relative import escapes the package. */
  datatype Blob = Blob(id: string, computed: string, imports: Option<seq<string>>)

  type Tree = map<string, Blob>

  const Roots: seq<string> := [
    "tools/test_impact/core.py", "tools/test_impact/git_input.py",
    "scripts/plan_affected_tests.py", "scripts/run_test_plan.py",
    "tools/test_impact/source_binding.py", "scripts/test_plan_worker.py",
    "scripts/run_bounded_stable_tests.py", "deploy/test-impact/entrypoint.sh"]

  predicate StartsWith(path: string, prefix: string) {
    prefix <= path
  }

  /** The length of the first component of a path. */
  function FirstSlash(path: string): (n: nat)
    ensures n <= |path| && (n < |path| ==> path[n] == '/') && '/' !in path[..n]
  {
    if path == [] || path[0] == '/' then 0
    else
      var n := 1 + FirstSlash(path[1..]);
      assert path[..n] == [path[0]] + path[1..][..n - 1];
      n
  }

  /** Some component of the path is `..`. */
  predicate HasParent(path: string) {
    var n := FirstSlash(path);
    path[..n] == ".." || (n < |path| && HasParent(path[n + 1..]))
  }

  predicate SafePath(path: string) {
    && (StartsWith(path, "tools/test_impact/") || StartsWith(path, "scripts/")
        || StartsWith(path, "deploy/test-impact/"))
    && !HasParent(path) && '\\' !in path
  }

  function EndsInPy(path: string): bool {
    |path| >= 3 && path[|path| - 3..] == ".py"
  }

  /** The path has `..` between two slashes, or between a slash and one of its ends. */
  ghost predicate Climbs(path: string) {
    exists before, after :: ClimbsBetween(path, before, after)
  }

  predicate ClimbsBetween(path: string, before: string, after: string) {
    && path == before + ".." + after
    && (before == "" || before[|before| - 1] == '/') && (after == "" || after[0] == '/')
  }

  lemma {:induction false} FirstSlashAtMost(path: string, i: nat)
    requires i < |path| && path[i] == '/'
    ensures FirstSlash(path) <= i
  {
    if i > 0 && path[0] != '/' { FirstSlashAtMost(path[1..], i - 1); }
  }

  lemma {:induction false} FirstSlashIs(first: string, rest: string)
    requires '/' !in first && (rest == "" || rest[0] == '/')
    ensures FirstSlash(first + rest) == |first|
  {
    if first == "" {
      assert first + rest == rest;
    } else {
      assert (first + rest)[1..] == first[1..] + rest;
      assert first[0] in first;
      FirstSlashIs(first[1..], rest);
    }
  }

  lemma ClimbsFirst(path: string, n: nat)
    requires n <= |path| && path[..n] == ".." && (n < |path| ==> path[n] == '/')
    ensures Climbs(path)
  {
    assert path == path[..n] + path[n..];
    assert path == "" + ".." + path[n..];
    assert ClimbsBetween(path, "", path[n..]);
  }

  lemma ClimbsEarlier(path: string, n: nat)
    requires n < |path| && path[n] == '/' && Climbs(path[n + 1..])
    ensures Climbs(path)
  {
    var before, after :| ClimbsBetween(path[n + 1..], before, after);
    var longer := path[..n + 1] + before;
    assert path == path[..n + 1] + path[n + 1..] == longer + ".." + after;
    assert ClimbsBetween(path, longer, after);
  }

  lemma CutFront(before: string, mid: string, after: string, n: nat)
    requires n <= |before|
    ensures (before + mid + after)[n..] == before[n..] + mid + after
  {}

  lemma LastIsSlash(before: string, mid: string, after: string)
    requires before != "" && before[|before| - 1] == '/'
    ensures FirstSlash(before + mid + after) < |before|
  {
    FirstSlashAtMost(before + mid + after, |before| - 1);
  }

  /** Dropping the first component, unless it is the climbing one itself. */
  lemma ClimbsLater(path: string, n: nat)
    requires Climbs(path) && n == FirstSlash(path)
    ensures path[..n] == ".." || (n < |path| && Climbs(path[n + 1..]))
  {
    hide FirstSlash;
    var before, after :| ClimbsBetween(path, before, after);
    if before == "" {
      assert path == ".." + after;
      FirstSlashIs("..", after);
    } else {
      LastIsSlash(before, "..", after);
      CutFront(before, "..", after, n + 1);
      LastStays(before, n + 1);
      assert ClimbsBetween(path[n + 1..], before[n + 1..], after);
    }
  }

  lemma LastStays(s: string, n: nat)
    requires n <= |s|
    ensures s[n..] != "" ==> s[n..][|s[n..]| - 1] == s[|s| - 1]
  {}

  /** `HasParent` finds exactly the paths that climb. */
  lemma {:induction false} HasParentMeans(path: string)
    ensures HasParent(path) <==> Climbs(path)
  {
    hide Climbs;
    var n := FirstSlash(path);
    if path[..n] == ".." { ClimbsFirst(path, n); }
    if n < |path| {
      HasParentMeans(path[n + 1..]);
      if Climbs(path[n + 1..]) { ClimbsEarlier(path, n); }
    }
    if Climbs(path) { ClimbsLater(path, n); }
  }

  /** What makes a path safe: it stays under one of three directories. */
  lemma SafePathMeans(path: string)
    ensures SafePath(path) <==>
              && (exists name :: path == "tools/test_impact/" + name || path == "scripts/" + name
                                 || path == "deploy/test-impact/" + name)
              && !Climbs(path) && forall c | c in path :: c != '\\'
  {
    HasParentMeans(path);
    hide HasParent, Climbs;
    PrefixMeans(path, "tools/test_impact/");
    PrefixMeans(path, "scripts/");
    PrefixMeans(path, "deploy/test-impact/");
    hide StartsWith;
  }

  lemma PrefixMeans(path: string, prefix: string)
    ensures StartsWith(path, prefix) <==> exists name :: path == prefix + name
  {
    if prefix <= path { assert path == prefix + path[|prefix|..]; }
  }

  lemma EndsInPyMeans(path: string)
    ensures EndsInPy(path) <==> exists stem :: path == stem + ".py"
  {
    if |path| >= 3 { assert path == path[..|path| - 3] + path[|path| - 3..]; }
    if stem :| path == stem + ".py" { assert path[|path| - 3..] == ".py"; }
  }

  /** Everything that is checked of one file: a safe path, a file of the trusted commit whose bytes
      are its blob, the same blob among the controls, and imports that stay inside. */
  predicate Passes(tree: Tree, controls: map<string, string>, path: string) {
    && SafePath(path) && path in tree
    && tree[path].id == tree[path].computed
    && path in controls && controls[path] == tree[path].id
    && (EndsInPy(path) ==> tree[path].imports.Some?)
  }

  /** The files that a file depends on; only Python files have any. */
  function Dependencies(tree: Tree, path: string): set<string> {
    if path in tree && EndsInPy(path) && tree[path].imports.Some?
    then set p | p in tree[path].imports.value else {}
  }

  /** A chain of imports from a root. */
  ghost predicate Chain(tree: Tree, roots: seq<string>, chain: seq<string>) {
    && chain != [] && chain[0] in roots
    && forall i | 0 <= i < |chain| - 1 :: chain[i + 1] in Dependencies(tree, chain[i])
  }

  ghost predicate Reachable(tree: Tree, roots: seq<string>, path: string) {
    exists chain :: Chain(tree, roots, chain) && chain[|chain| - 1] == path
  }

  lemma RootIsReachable(tree: Tree, roots: seq<string>, path: string)
    requires path in roots
    ensures Reachable(tree, roots, path)
  {
    assert Chain(tree, roots, [path]);
  }

  lemma DependencyIsReachable(tree: Tree, roots: seq<string>, path: string, next: string)
    requires Reachable(tree, roots, path) && next in Dependencies(tree, path)
    ensures Reachable(tree, roots, next)
  {
    var chain :| Chain(tree, roots, chain) && chain[|chain| - 1] == path;
    var longer := chain + [next];
    assert Chain(tree, roots, longer) && longer[|longer| - 1] == next;
  }

  /** A set that contains the roots and what its members import contains everything reachable. */
  ghost predicate Closed(tree: Tree, roots: seq<string>, files: set<string>) {
    && (forall path | path in roots :: path in files)
    && forall path, next | path in files && next in Dependencies(tree, path) :: next in files
  }

  lemma {:induction false} ClosedHasChain(tree: Tree, roots: seq<string>, files: set<string>, chain: seq<string>)
    requires Closed(tree, roots, files) && Chain(tree, roots, chain)
    ensures chain[|chain| - 1] in files
  {
    if |chain| > 1 {
      var front := chain[..|chain| - 1];
      assert forall i | 0 <= i < |front| - 1 :: front[i + 1] in Dependencies(tree, front[i]);
      ClosedHasChain(tree, roots, files, front);
      assert chain[|chain| - 2 + 1] in Dependencies(tree, chain[|chain| - 2]);
    }
  }

  lemma ReachableIsLeast(tree: Tree, roots: seq<string>, files: set<string>, path: string)
    requires Closed(tree, roots, files) && Reachable(tree, roots, path)
    ensures path in files
  {
    var chain :| Chain(tree, roots, chain) && chain[|chain| - 1] == path;
    ClosedHasChain(tree, roots, files, chain);
  }

  /** What the bundle says of a file. */
  datatype Entry = Entry(blob: string, dependencies: set<string>)

  /** The files of the bundle are exactly what the roots reach, and each one passed its checks. */
  ghost predicate IsClosure(tree: Tree, controls: map<string, string>, roots: seq<string>, files: map<string, Entry>) {
    && (forall path :: path in files <==> Reachable(tree, roots, path))
    && (forall path | path in files ::
          && Passes(tree, controls, path)
          && files[path] == Entry(controls[path], Dependencies(tree, path)))
  }

  /** The members of a set, each once; in which order they are visited does not matter. */
  method Listing(s: set<string>) returns (q: seq<string>)
    ensures forall p :: p in q <==> p in s
    ensures |q| == |s|
  {
    q := [];
    var rest := s;
    while rest != {}
      invariant rest <= s && forall p :: p in q <==> p in s && p !in rest
      invariant |q| + |rest| == |s|
      decreases |rest|
    {
      var p :| p in rest;
      q, rest := q + [p], rest - {p};
    }
  }

  /** What is known while paths are pending. */
  ghost predicate Exploring(tree: Tree, controls: map<string, string>, roots: seq<string>,
                            pending: seq<string>, files: map<string, Entry>)
  {
    && (forall path | path in pending :: Reachable(tree, roots, path))
    && (forall path | path in files ::
          && Reachable(tree, roots, path) && Passes(tree, controls, path)
          && files[path] == Entry(controls[path], Dependencies(tree, path)))
    && (forall path | path in roots :: path in files || path in pending)
    && (forall path, next | path in files && next in Dependencies(tree, path) :: next in files || next in pending)
  }

  lemma ExploredStep(tree: Tree, controls: map<string, string>, roots: seq<string>,
                     pending: seq<string>, files: map<string, Entry>, more: seq<string>)
    requires pending != [] && Exploring(tree, controls, roots, pending, files)
    requires pending[0] !in files && Passes(tree, controls, pending[0])
    requires forall p :: p in more <==> p in Dependencies(tree, pending[0]) && p !in files && p != pending[0]
    ensures var path := pending[0];
      Exploring(tree, controls, roots, pending[1..] + more,
                files[path := Entry(controls[path], Dependencies(tree, path))])
  {
    hide Passes, Dependencies, Reachable;
    var path := pending[0];
    assert pending == [path] + pending[1..];
    assert path in pending;
    forall p | p in more ensures Reachable(tree, roots, p) {
      DependencyIsReachable(tree, roots, path, p);
    }
    assert forall p :: p in pending[1..] + more <==> p in pending[1..] || p in more;
    assert forall p :: p in pending <==> p == path || p in pending[1..];
  }

  lemma ExploredSkip(tree: Tree, controls: map<string, string>, roots: seq<string>,
                     pending: seq<string>, files: map<string, Entry>)
    requires pending != [] && Exploring(tree, controls, roots, pending, files) && pending[0] in files
    ensures Exploring(tree, controls, roots, pending[1..], files)
  {
    hide Passes, Dependencies, Reachable;
    assert forall p :: p in pending <==> p == pending[0] || p in pending[1..];
  }

  lemma Explored(tree: Tree, controls: map<string, string>, roots: seq<string>, files: map<string, Entry>)
    requires Exploring(tree, controls, roots, [], files)
    ensures IsClosure(tree, controls, roots, files)
  {
    hide Passes, Dependencies;
    assert Closed(tree, roots, files.Keys);
    forall path | Reachable(tree, roots, path) ensures path in files {
      ReachableIsLeast(tree, roots, files.Keys, path);
    }
  }

  lemma StartExploring(tree: Tree, controls: map<string, string>, roots: seq<string>)
    ensures Exploring(tree, controls, roots, roots, map[])
  {
    forall path | path in roots ensures Reachable(tree, roots, path) {
      RootIsReachable(tree, roots, path);
    }
  }

  /** The checks of one file, as far as its imports. */
  method CheckFile(tree: Tree, controls: map<string, string>, path: string) returns (r: Result<Entry, string>)
    ensures r.Ok? <==> Passes(tree, controls, path)
    ensures r.Ok? ==> r.value == Entry(controls[path], Dependencies(tree, path))
  {
    hide SafePath;
    if !SafePath(path) { return Err("unsafe trusted dependency"); }
    if path !in tree { return Err("path does not exist in the trusted commit"); }
    var blob := tree[path];
    if blob.id != blob.computed || path !in controls || controls[path] != blob.id {
      return Err("trusted dependency/protocol mismatch");
    }
    if EndsInPy(path) && blob.imports.None? { return Err("escaping trusted relative import"); }
    return Ok(Entry(blob.id, if EndsInPy(path) then set p | p in blob.imports.value else {}));
  }

  /** `extract_trusted_bundle` over a finite commit: it ends, it succeeds exactly when everything
      reachable from the roots passes, and then it returns exactly what is reachable. */
  method Extract(tree: Tree, controls: map<string, string>, roots: seq<string>)
    returns (r: Result<map<string, Entry>, string>)
    ensures r.Ok? <==> forall path | Reachable(tree, roots, path) :: Passes(tree, controls, path)
    ensures r.Ok? ==> IsClosure(tree, controls, roots, r.value)
  {
    hide Passes, Dependencies, Reachable, Exploring, IsClosure;
    var pending := roots;
    var files: map<string, Entry> := map[];
    StartExploring(tree, controls, roots);
    while pending != []
      invariant Exploring(tree, controls, roots, pending, files)
      invariant files.Keys <= tree.Keys
      decreases |tree.Keys - files.Keys|, |pending|
    {
      var path := pending[0];
      HeadIsReachable(tree, controls, roots, pending, files);
      if path in files {
        ExploredSkip(tree, controls, roots, pending, files);
        pending := pending[1..];
      } else {
        var checked := CheckFile(tree, controls, path);
        if checked.Err? { return Err(checked.error); }
        PassingIsPresent(tree, controls, path);
        var more := Listing(checked.value.dependencies - files.Keys - {path});
        ExploredStep(tree, controls, roots, pending, files, more);
        ghost var unseen := tree.Keys - files.Keys;
        pending, files := pending[1..] + more, files[path := checked.value];
        assert tree.Keys - files.Keys == unseen - {path};
      }
    }
    Explored(tree, controls, roots, files);
    ClosurePasses(tree, controls, roots, files);
    return Ok(files);
  }

  predicate ExactSha(sha: string) {
    |sha| == 40 && forall i | 0 <= i < 40 :: '0' <= sha[i] <= '9' || 'a' <= sha[i] <= 'f'
  }

  lemma ExactShaMeans(sha: string)
    ensures ExactSha(sha) <==> |sha| == 40 && forall c | c in sha :: c in HexDigits
  {
    hide HexDigits;
    assert forall i | 0 <= i < |sha| :: sha[i] in sha;
    forall c ensures c in HexDigits <==> '0' <= c <= '9' || 'a' <= c <= 'f' { HexDigitsAre(c); }
  }

  /** What an extracted bundle says of each of its files. */
  lemma BundleIsChecked(tree: Tree, controls: map<string, string>, roots: seq<string>, files: map<string, Entry>,
                        path: string)
    requires IsClosure(tree, controls, roots, files) && path in files
    ensures exists name :: path == "tools/test_impact/" + name || path == "scripts/" + name
                           || path == "deploy/test-impact/" + name
    ensures !Climbs(path) && '\\' !in path
    ensures path in tree && path in controls && files[path].blob == controls[path] == tree[path].id
            && tree[path].computed == controls[path]
    ensures (exists stem :: path == stem + ".py") ==>
              tree[path].imports.Some?
              && forall next :: next in files[path].dependencies <==> next in tree[path].imports.value
    ensures !(exists stem :: path == stem + ".py") ==> files[path].dependencies == {}
    ensures files[path].dependencies <= files.Keys
  {
    SafePathMeans(path);
    EndsInPyMeans(path);
    hide SafePath, Climbs, EndsInPy, Reachable;
    assert Passes(tree, controls, path);
    forall next | next in Dependencies(tree, path) ensures next in files {
      DependencyIsReachable(tree, roots, path, next);
    }
  }

  /** The bundle of one exact commit, from the fixed roots. */
  method ExtractTrustedBundle(sha: string, tree: Tree, controls: map<string, string>)
    returns (r: Result<map<string, Entry>, string>)
    ensures r.Ok? <==>
              ExactSha(sha) && forall path | Reachable(tree, Roots, path) :: Passes(tree, controls, path)
    ensures r.Ok? ==> IsClosure(tree, controls, Roots, r.value)
  {
    hide Passes, Reachable, Roots;
    if !ExactSha(sha) { return Err("exact trusted bundle SHA required"); }
    r := Extract(tree, controls, Roots);
  }

  lemma HeadIsReachable(tree: Tree, controls: map<string, string>, roots: seq<string>,
                        pending: seq<string>, files: map<string, Entry>)
    requires pending != [] && Exploring(tree, controls, roots, pending, files)
    ensures Reachable(tree, roots, pending[0])
  {
    assert pending[0] in pending;
  }

  lemma PassingIsPresent(tree: Tree, controls: map<string, string>, path: string)
    requires Passes(tree, controls, path)
    ensures path in tree && path in controls
  {}

  lemma ClosurePasses(tree: Tree, controls: map<string, string>, roots: seq<string>, files: map<string, Entry>)
    requires IsClosure(tree, controls, roots, files)
    ensures forall path | Reachable(tree, roots, path) :: Passes(tree, controls, path)
  {
    hide Reachable, Passes;
  }
}
