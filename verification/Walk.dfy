/** Measuring the build context: a walk that prunes excluded directories against the flat sum over
    all files that survive the ignore rules, and the dirty-workspace check built on it. */
module Walk {
  import opened Sequences
  import opened Ignore

  datatype File = File(name: string, size: nat)

  datatype Dir = Dir(files: seq<File>, subs: seq<Sub>)

  datatype Sub = Sub(name: string, dir: Dir)

  /** A file by its path relative to the context root. */
  datatype Entry = Entry(path: string, size: nat)

  function Join(rel: string, name: string): string {
    if rel == "" then name else rel + "/" + name
  }

  /** File systems have no empty names and no slashes in names. */
  predicate GoodName(name: string) {
    name != "" && '/' !in name
  }

  predicate WellNamed(d: Dir)
    decreases d
  {
    && (forall f <- d.files :: GoodName(f.name))
    && (forall s <- d.subs :: GoodName(s.name) && WellNamed(s.dir))
  }

  // ---- every file with its path ----

  function Listed(rel: string): File -> Entry {
    (f: File) => Entry(Join(rel, f.name), f.size)
  }

  function Entries(d: Dir, rel: string): seq<Entry>
    decreases d, 1
  {
    Image(d.files, Listed(rel)) + SubEntries(d.subs, rel)
  }

  function SubEntries(subs: seq<Sub>, rel: string): seq<Entry>
    decreases subs, 0
  {
    if subs == [] then []
    else Entries(subs[0].dir, Join(rel, subs[0].name)) + SubEntries(subs[1..], rel)
  }

  /** The flat reference: the bytes of all files neither excluded nor under an excluded directory. */
  function Kept(g: Glob, lines: seq<string>, es: seq<Entry>): nat {
    Sum(es, Weight(g, lines))
  }

  function Weight(g: Glob, lines: seq<string>): Entry -> nat {
    (e: Entry) => if ExcludesOrAncestor(g, lines, e.path) then 0 else e.size
  }

  // ---- the pruning walk ----

  function FileBytes(g: Glob, lines: seq<string>, files: seq<File>, rel: string): nat {
    if files == [] then 0
    else (if Excludes(g, lines, Join(rel, files[0].name)) then 0 else files[0].size)
         + FileBytes(g, lines, files[1..], rel)
  }

  function Pruned(g: Glob, lines: seq<string>, d: Dir, rel: string): nat
    decreases d, 1
  {
    FileBytes(g, lines, d.files, rel) + PrunedSubs(g, lines, d.subs, rel)
  }

  function PrunedSubs(g: Glob, lines: seq<string>, subs: seq<Sub>, rel: string): nat
    decreases subs, 0
  {
    if subs == [] then 0
    else
      var below := Join(rel, subs[0].name);
      (if Excludes(g, lines, below) then 0 else Pruned(g, lines, subs[0].dir, below))
      + PrunedSubs(g, lines, subs[1..], rel)
  }

  // ---- ancestors of a joined path ----

  /** A directory reached by the walk: neither it nor a directory above it is excluded. */
  ghost predicate Open(g: Glob, lines: seq<string>, rel: string) {
    rel == "" || !ExcludesOrAncestor(g, lines, rel)
  }

  lemma JoinAncestors(rel: string, name: string, a: string)
    requires GoodName(name)
    ensures a in Ancestors(Join(rel, name)) <==> rel != "" && (a == rel || a in Ancestors(rel))
  {
    var path := Join(rel, name);
    AncestorsAre(path, a);
    AncestorsAre(rel, a);
    if rel != "" {
      assert forall i :: 0 <= i < |rel| ==> path[i] == rel[i];
      assert path[|rel|] == '/';
      assert forall i :: |rel| < i < |path| ==> path[i] == name[i - |rel| - 1];
      assert path[..|rel|] == rel;
      if IsAncestor(a, path) && |a| < |rel| {
        assert rel[..|a|] == path[..|a|];
      }
      if IsAncestor(a, rel) {
        assert path[..|a|] == rel[..|a|];
      }
    }
  }

  lemma JoinVerdict(g: Glob, lines: seq<string>, rel: string, name: string)
    requires GoodName(name)
    ensures ExcludesOrAncestor(g, lines, Join(rel, name)) <==>
            Excludes(g, lines, Join(rel, name)) || !Open(g, lines, rel)
  {
    var path := Join(rel, name);
    forall a ensures a in Ancestors(path) <==> rel != "" && (a == rel || a in Ancestors(rel)) {
      JoinAncestors(rel, name, a);
    }
    if ExcludesOrAncestor(g, lines, path) && !Excludes(g, lines, path) {
      var a :| a in Ancestors(path) && Excludes(g, lines, a);
    }
    if !Open(g, lines, rel) {
      if Excludes(g, lines, rel) {
        assert rel in Ancestors(path);
      } else {
        var a :| a in Ancestors(rel) && Excludes(g, lines, a);
        assert a in Ancestors(path);
      }
    }
  }

  // ---- the walk equals the flat sum ----

  lemma {:induction false} FilesKept(g: Glob, lines: seq<string>, files: seq<File>, rel: string)
    requires forall f <- files :: GoodName(f.name)
    ensures Kept(g, lines, Image(files, Listed(rel))) == if Open(g, lines, rel) then FileBytes(g, lines, files, rel) else 0
  {
    if files != [] {
      FilesKept(g, lines, files[1..], rel);
      JoinVerdict(g, lines, rel, files[0].name);
      assert Image(files, Listed(rel))[1..] == Image(files[1..], Listed(rel));
    }
  }

  lemma {:induction false} DirKept(g: Glob, lines: seq<string>, d: Dir, rel: string)
    requires WellNamed(d)
    ensures Kept(g, lines, Entries(d, rel)) == if Open(g, lines, rel) then Pruned(g, lines, d, rel) else 0
    decreases d, 1
  {
    FilesKept(g, lines, d.files, rel);
    SubsKept(g, lines, d.subs, rel);
    SumAppend(Image(d.files, Listed(rel)), SubEntries(d.subs, rel), Weight(g, lines));
  }

  lemma {:induction false} SubsKept(g: Glob, lines: seq<string>, subs: seq<Sub>, rel: string)
    requires forall s <- subs :: GoodName(s.name) && WellNamed(s.dir)
    ensures Kept(g, lines, SubEntries(subs, rel)) == if Open(g, lines, rel) then PrunedSubs(g, lines, subs, rel) else 0
    decreases subs, 0
  {
    if subs != [] {
      var below := Join(rel, subs[0].name);
      assert subs[0] in subs;
      DirKept(g, lines, subs[0].dir, below);
      SubsKept(g, lines, subs[1..], rel);
      JoinVerdict(g, lines, rel, subs[0].name);
      JoinNotEmpty(rel, subs[0].name);
      SumAppend(Entries(subs[0].dir, below), SubEntries(subs[1..], rel), Weight(g, lines));
    }
  }

  lemma JoinNotEmpty(rel: string, name: string)
    requires GoodName(name)
    ensures Join(rel, name) != ""
  {}

  /** For every tree and every pattern list, negations included, the pruning walk counts exactly the
      files that are neither excluded nor under an excluded directory. */
  lemma WalkEqualsFlatSum(g: Glob, lines: seq<string>, root: Dir)
    requires WellNamed(root)
    ensures Pruned(g, lines, root, "") == Kept(g, lines, Entries(root, ""))
  {
    DirKept(g, lines, root, "");
  }

  // ---- the dirty-workspace check ----

  /** Seeding markers changes the measured size by exactly the bytes of the markers that leak. */
  lemma SeedDelta(g: Glob, lines: seq<string>, clean: Dir, dirty: Dir, markers: seq<Entry>)
    requires WellNamed(clean) && WellNamed(dirty)
    requires multiset(Entries(dirty, "")) == multiset(Entries(clean, "")) + multiset(markers)
    ensures Pruned(g, lines, dirty, "") == Pruned(g, lines, clean, "") + Kept(g, lines, markers)
  {
    WalkEqualsFlatSum(g, lines, clean);
    WalkEqualsFlatSum(g, lines, dirty);
    assert multiset(Entries(clean, "") + markers) == multiset(Entries(dirty, ""));
    SumPermutes(Entries(dirty, ""), Entries(clean, "") + markers, Weight(g, lines));
    SumAppend(Entries(clean, ""), markers, Weight(g, lines));
  }

  /** The leak check and the size check agree: non-empty markers leave the measured size alone exactly
      when none of them leaks. */
  lemma SizeUnchangedIffNoLeak(g: Glob, lines: seq<string>, clean: Dir, dirty: Dir, markers: seq<Entry>)
    requires WellNamed(clean) && WellNamed(dirty)
    requires multiset(Entries(dirty, "")) == multiset(Entries(clean, "")) + multiset(markers)
    requires forall m <- markers :: m.size > 0
    ensures Pruned(g, lines, dirty, "") == Pruned(g, lines, clean, "")
        <==> forall m <- markers :: ExcludesOrAncestor(g, lines, m.path)
  {
    SeedDelta(g, lines, clean, dirty, markers);
    SumZero(markers, Weight(g, lines));
  }

  // ---- the walk as it runs: directories still to visit, pruned as they are listed ----

  function Count(d: Dir): nat
    decreases d, 1
  {
    1 + CountAll(d.subs)
  }

  function CountAll(subs: seq<Sub>): nat
    decreases subs, 0
  {
    if subs == [] then 0 else Count(subs[0].dir) + CountAll(subs[1..])
  }

  /** Directories waiting for their visit, each named by its whole relative path. */
  function Waiting(g: Glob, lines: seq<string>, todo: seq<Sub>): nat {
    if todo == [] then 0 else Pruned(g, lines, todo[0].dir, todo[0].name) + Waiting(g, lines, todo[1..])
  }

  method SumFiles(g: Glob, lines: seq<string>, files: seq<File>, rel: string) returns (total: nat)
    ensures total == FileBytes(g, lines, files, rel)
  {
    total := 0;
    for k := 0 to |files|
      invariant total + FileBytes(g, lines, files[k..], rel) == FileBytes(g, lines, files, rel)
    {
      assert files[k..][1..] == files[k + 1..];
      var excluded := RunExcludes(g, lines, Join(rel, files[k].name));
      if !excluded {
        total := total + files[k].size;
      }
    }
  }

  /** Keeps the subdirectories that are not excluded. */
  method KeepDirs(g: Glob, lines: seq<string>, subs: seq<Sub>, rel: string) returns (kept: seq<Sub>)
    ensures Waiting(g, lines, kept) == PrunedSubs(g, lines, subs, rel)
    ensures CountAll(kept) <= CountAll(subs)
    decreases subs
  {
    if subs == [] {
      return [];
    }
    var below := Join(rel, subs[0].name);
    kept := KeepDirs(g, lines, subs[1..], rel);
    var excluded := RunExcludes(g, lines, below);
    if !excluded {
      kept := [Sub(below, subs[0].dir)] + kept;
    }
  }

  lemma {:induction false} WaitingAppend(g: Glob, lines: seq<string>, a: seq<Sub>, b: seq<Sub>)
    ensures Waiting(g, lines, a + b) == Waiting(g, lines, a) + Waiting(g, lines, b)
    ensures CountAll(a + b) == CountAll(a) + CountAll(b)
  {
    if a == [] {
      assert a + b == b;
    } else {
      assert (a + b)[1..] == a[1..] + b;
      WaitingAppend(g, lines, a[1..], b);
    }
  }

  method MeasureContext(g: Glob, lines: seq<string>, root: Dir) returns (total: nat)
    ensures total == Pruned(g, lines, root, "")
  {
    total := 0;
    var todo := [Sub("", root)];
    assert todo[1..] == [];
    while todo != []
      invariant total + Waiting(g, lines, todo) == Pruned(g, lines, root, "")
      decreases CountAll(todo)
    {
      var here, rest := todo[0], todo[1..];
      var kept := KeepDirs(g, lines, here.dir.subs, here.name);
      var bytes := SumFiles(g, lines, here.dir.files, here.name);
      total := total + bytes;
      WaitingAppend(g, lines, kept, rest);
      assert CountAll(todo) == Count(here.dir) + CountAll(rest) && Count(here.dir) == 1 + CountAll(here.dir.subs);
      todo := kept + rest;
    }
  }
}
