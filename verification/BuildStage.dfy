/**
 The staged copy of the core's sources (build.rs): the worklist that walks a directory tree, the
 recursive mirror, and the pruning of what upstream no longer has.
 */
module BuildStage {
  import opened Common

  type Path = seq<string>

  /** Content, length, and when it was last written. */
  datatype Meta = Meta(data: nat, len: nat, mtime: nat)

  /** A directory lists its entries, unless it cannot be read. */
  datatype Node = File(meta: Meta) | Dir(readable: bool, entries: seq<Entry>)

  datatype Entry = Entry(name: string, node: Node)

  // ---- which files are sources ----

  function LastDot(name: string): (i: int)
    ensures -1 <= i < |name|
    ensures i >= 0 ==> name[i] == '.'
    ensures forall j :: i < j < |name| ==> name[j] != '.'
  {
    if name == [] then -1
    else if name[|name| - 1] == '.' then |name| - 1
    else LastDot(name[..|name| - 1])
  }

  /** `Path::extension`: nothing before the dot, or the name `..`, means no extension. */
  function Extension(name: string): Option<string>
  {
    var i := LastDot(name);
    if i <= 0 || name == ".." then None else Some(name[i + 1..])
  }

  predicate IsSourceName(name: string)
  {
    Extension(name) == Some("c") || Extension(name) == Some("h")
  }

  predicate IsSource(p: Path)
  {
    p != [] && IsSourceName(p[|p| - 1])
  }

  /** A `.c` or `.h` file by its name's ending, with something before it. */
  predicate NamedAsSource(p: Path)
  {
    && p != []
    && var name := p[|p| - 1];
       |name| > 2 && name[|name| - 2] == '.' && (name[|name| - 1] == 'c' || name[|name| - 1] == 'h')
  }

  lemma {:induction false} LastDotIs(name: string, i: nat)
    requires i < |name| && name[i] == '.' && forall j :: i < j < |name| ==> name[j] != '.'
    ensures LastDot(name) == i
    decreases |name|
  {
    if name[|name| - 1] != '.' { LastDotIs(name[..|name| - 1], i); }
  }

  /** The extension test accepts exactly the names that end in `.c` or `.h` after something else. */
  lemma SourcesByEnding(p: Path)
    ensures IsSource(p) <==> NamedAsSource(p)
  {
    if p != [] {
      var name := p[|p| - 1];
      if NamedAsSource(p) {
        LastDotIs(name, |name| - 2);
        assert name[|name| - 1..] == [name[|name| - 1]];
      }
      if IsSource(p) {
        var i := LastDot(name);
        assert |name[i + 1..]| == 1 && name[i + 1..][0] == name[i + 1];
      }
    }
  }

  /** Whatever comes before it. */
  lemma EndingsAreSources(dir: Path, stem: string)
    requires stem != ""
    ensures IsSource(dir + [stem + ".c"]) && IsSource(dir + [stem + ".h"])
    ensures !IsSource(dir + [stem + ".o"]) && !IsSource(dir + [".c"]) && !IsSource(dir + [".h"])
  {
    SourcesByEnding(dir + [stem + ".c"]);
    SourcesByEnding(dir + [stem + ".h"]);
    SourcesByEnding(dir + [stem + ".o"]);
    SourcesByEnding(dir + [".c"]);
    SourcesByEnding(dir + [".h"]);
  }

  // ---- the walk ----

  /** Every file a walk can reach under `entries`, in listing order. */
  function FilesIn(dir: Path, entries: seq<Entry>): seq<Path>
    decreases entries, 0
  {
    if entries == [] then []
    else FilesAt(dir + [entries[0].name], entries[0].node) + FilesIn(dir, entries[1..])
  }

  function FilesAt(p: Path, n: Node): seq<Path>
    decreases n, 1
  {
    match n
    case File(_) => [p]
    case Dir(readable, entries) => if readable then FilesIn(p, entries) else []
  }

  function Weight(entries: seq<Entry>): nat
    decreases entries, 0
  {
    if entries == [] then 0 else WeightAt(entries[0].node) + Weight(entries[1..])
  }

  function WeightAt(n: Node): nat
    decreases n, 1
  {
    match n
    case File(_) => 1
    case Dir(_, entries) => 1 + Weight(entries)
  }

  /** A directory waiting to be listed. */
  type Waiting = (Path, Node)

  function FilesOf(dirs: seq<Waiting>): seq<Path>
  {
    if dirs == [] then [] else FilesOf(dirs[..|dirs| - 1]) + FilesAt(dirs[|dirs| - 1].0, dirs[|dirs| - 1].1)
  }

  function WeightOf(dirs: seq<Waiting>): nat
  {
    if dirs == [] then 0 else WeightOf(dirs[..|dirs| - 1]) + WeightAt(dirs[|dirs| - 1].1)
  }

  lemma Pushed(dirs: seq<Waiting>, w: Waiting)
    ensures FilesOf(dirs + [w]) == FilesOf(dirs) + FilesAt(w.0, w.1)
    ensures WeightOf(dirs + [w]) == WeightOf(dirs) + WeightAt(w.1)
  {
    assert (dirs + [w])[..|dirs|] == dirs;
  }

  /** What has been visited, what waits, and what is left of the directory being listed. */
  ghost function Total(visited: seq<Path>, dirs: seq<Waiting>, dir: Path, rest: seq<Entry>): multiset<Path>
  {
    multiset(visited) + multiset(FilesOf(dirs)) + multiset(FilesIn(dir, rest))
  }

  lemma PushKeeps(visited: seq<Path>, dirs: seq<Waiting>, dir: Path, rest: seq<Entry>)
    requires rest != []
    ensures var w := (dir + [rest[0].name], rest[0].node);
      && Total(visited, dirs + [w], dir, rest[1..]) == Total(visited, dirs, dir, rest)
      && WeightOf(dirs + [w]) + Weight(rest[1..]) == WeightOf(dirs) + Weight(rest)
  {
    var w := (dir + [rest[0].name], rest[0].node);
    Pushed(dirs, w);
    assert FilesIn(dir, rest) == FilesAt(w.0, w.1) + FilesIn(dir, rest[1..]);
  }

  lemma VisitKeeps(visited: seq<Path>, dirs: seq<Waiting>, dir: Path, rest: seq<Entry>)
    requires rest != [] && rest[0].node.File?
    ensures Total(visited + [dir + [rest[0].name]], dirs, dir, rest[1..]) == Total(visited, dirs, dir, rest)
  {
    var p := dir + [rest[0].name];
    assert FilesIn(dir, rest) == [p] + FilesIn(dir, rest[1..]);
  }

  /** The inner loop: directories join the worklist, anything else is visited. */
  method ListDirectory(dir: Path, entries: seq<Entry>, visited0: seq<Path>, dirs0: seq<Waiting>)
    returns (visited: seq<Path>, dirs: seq<Waiting>)
    requires forall i :: 0 <= i < |dirs0| ==> dirs0[i].1.Dir?
    ensures forall i :: 0 <= i < |dirs| ==> dirs[i].1.Dir?
    ensures Total(visited, dirs, dir, []) == Total(visited0, dirs0, dir, entries)
    ensures WeightOf(dirs) <= WeightOf(dirs0) + Weight(entries)
  {
    visited, dirs := visited0, dirs0;
    assert entries[0..] == entries;
    for i := 0 to |entries|
      invariant forall j :: 0 <= j < |dirs| ==> dirs[j].1.Dir?
      invariant Total(visited, dirs, dir, entries[i..]) == Total(visited0, dirs0, dir, entries)
      invariant WeightOf(dirs) + Weight(entries[i..]) <= WeightOf(dirs0) + Weight(entries)
    {
      var path := dir + [entries[i].name];
      assert entries[i..][1..] == entries[i + 1..];
      if entries[i].node.Dir? {
        PushKeeps(visited, dirs, dir, entries[i..]);
        dirs := dirs + [(path, entries[i].node)];
      } else {
        VisitKeeps(visited, dirs, dir, entries[i..]);
        visited := visited + [path];
      }
    }
    assert entries[|entries|..] == [];
  }

  lemma Popped(visited: seq<Path>, dirs: seq<Waiting>)
    requires dirs != [] && dirs[|dirs| - 1].1.Dir?
    ensures var (p, n), rest := dirs[|dirs| - 1], dirs[..|dirs| - 1];
      && multiset(visited) + multiset(FilesOf(dirs)) ==
         (if n.readable then Total(visited, rest, p, n.entries) else multiset(visited) + multiset(FilesOf(rest)))
      && WeightOf(dirs) == WeightOf(rest) + 1 + Weight(n.entries)
  {}

  lemma Listed(visited: seq<Path>, dirs: seq<Waiting>, dir: Path)
    ensures Total(visited, dirs, dir, []) == multiset(visited) + multiset(FilesOf(dirs))
  {}

  /** `walk`: the order is the worklist's, but each file that can be reached is visited as often as it is listed. */
  method Walk(root: Path, tree: Node) returns (visited: seq<Path>)
    requires tree.Dir?
    ensures multiset(visited) == multiset(FilesAt(root, tree))
  {
    var dirs: seq<Waiting> := [(root, tree)];
    visited := [];
    Pushed([], (root, tree));
    assert [] + [(root, tree)] == dirs;
    while dirs != []
      invariant forall i :: 0 <= i < |dirs| ==> dirs[i].1.Dir?
      invariant multiset(visited) + multiset(FilesOf(dirs)) == multiset(FilesAt(root, tree))
      decreases WeightOf(dirs)
    {
      var dir := dirs[|dirs| - 1];
      Popped(visited, dirs);
      dirs := dirs[..|dirs| - 1];
      if dir.1.readable {
        visited, dirs := ListDirectory(dir.0, dir.1.entries, visited, dirs);
        Listed(visited, dirs, dir.0);
      }
    }
  }

  // ---- each file once ----

  /** No directory lists a name twice. */
  predicate Proper(n: Node)
    decreases n, 1
  {
    n.Dir? ==> ProperList(n.entries)
  }

  predicate ProperList(entries: seq<Entry>)
    decreases entries, 0
  {
    entries != [] ==>
      && Proper(entries[0].node) && ProperList(entries[1..])
      && forall i :: 1 <= i < |entries| ==> entries[i].name != entries[0].name
  }

  predicate NoDuplicates(ps: seq<Path>)
  {
    forall i, j :: 0 <= i < j < |ps| ==> ps[i] != ps[j]
  }

  lemma {:induction false} FilesUnder(dir: Path, entries: seq<Entry>)
    ensures forall p :: p in FilesIn(dir, entries) ==>
      |p| > |dir| && dir <= p && exists i :: 0 <= i < |entries| && p[|dir|] == entries[i].name
    decreases entries, 0
  {
    if entries != [] {
      FilesAtUnder(dir + [entries[0].name], entries[0].node);
      FilesUnder(dir, entries[1..]);
      forall p | p in FilesIn(dir, entries)
        ensures |p| > |dir| && dir <= p && exists i :: 0 <= i < |entries| && p[|dir|] == entries[i].name
      {
        if p in FilesAt(dir + [entries[0].name], entries[0].node) {
          assert p[|dir|] == entries[0].name;
        } else {
          var i :| 0 <= i < |entries| - 1 && p[|dir|] == entries[1..][i].name;
          assert p[|dir|] == entries[i + 1].name;
        }
      }
    }
  }

  lemma {:induction false} FilesAtUnder(top: Path, n: Node)
    ensures forall p :: p in FilesAt(top, n) ==> top <= p
    decreases n, 1
  {
    if n.Dir? && n.readable { FilesUnder(top, n.entries); }
  }

  lemma JoinedOnce(a: seq<Path>, b: seq<Path>)
    requires NoDuplicates(a) && NoDuplicates(b) && forall p :: p in a ==> p !in b
    ensures NoDuplicates(a + b)
  {
    forall i, j | 0 <= i < j < |a + b| ensures (a + b)[i] != (a + b)[j] {
      if i < |a| <= j { assert (a + b)[i] in a && (a + b)[j] in b; }
    }
  }

  lemma {:induction false} ListedOnce(dir: Path, entries: seq<Entry>)
    requires ProperList(entries)
    ensures NoDuplicates(FilesIn(dir, entries))
    decreases entries, 0
  {
    if entries != [] {
      var top := dir + [entries[0].name];
      var here, rest := FilesAt(top, entries[0].node), FilesIn(dir, entries[1..]);
      ListedOnceAt(top, entries[0].node);
      ListedOnce(dir, entries[1..]);
      FilesAtUnder(top, entries[0].node);
      FilesUnder(dir, entries[1..]);
      forall p | p in here ensures p !in rest {
        assert p[|dir|] == entries[0].name;
        assert forall i :: 0 <= i < |entries| - 1 ==> entries[1..][i].name != entries[0].name;
      }
      JoinedOnce(here, rest);
    }
  }

  lemma {:induction false} ListedOnceAt(top: Path, n: Node)
    requires Proper(n)
    ensures NoDuplicates(FilesAt(top, n))
    decreases n, 1
  {
    if n.Dir? && n.readable { ListedOnce(top, n.entries); }
  }

  /** A walk's visits, being the tree's files as a multiset, name no file twice. */
  lemma VisitedOnce(root: Path, tree: Node, visited: seq<Path>)
    requires Proper(tree) && multiset(visited) == multiset(FilesAt(root, tree))
    ensures NoDuplicates(visited)
    ensures forall p :: p in visited <==> p in FilesAt(root, tree)
  {
    var files := FilesAt(root, tree);
    ListedOnceAt(root, tree);
    forall p ensures p in visited <==> p in files {
      assert p in multiset(visited) <==> p in multiset(files);
    }
    forall i, j | 0 <= i < j < |visited| ensures visited[i] != visited[j] {
      if visited[i] == visited[j] {
        TwiceCounts(visited, i, j);
        OnceCounts(files, visited[i]);
      }
    }
  }

  lemma TwiceCounts(s: seq<Path>, i: nat, j: nat)
    requires i < j < |s| && s[i] == s[j]
    ensures multiset(s)[s[i]] >= 2
  {
    assert s == s[..j] + [s[j]] + s[j + 1..];
    assert s[i] in s[..j];
    assert s[..j][i] == s[i];
    assert multiset(s) == multiset(s[..j]) + multiset{s[j]} + multiset(s[j + 1..]);
  }

  lemma {:induction false} OnceCounts(s: seq<Path>, p: Path)
    requires NoDuplicates(s)
    ensures multiset(s)[p] <= 1
    decreases |s|
  {
    if s != [] {
      OnceCounts(s[1..], p);
      assert s == [s[0]] + s[1..];
      assert forall k :: 0 <= k < |s| - 1 ==> s[1..][k] == s[k + 1];
      assert s[0] !in s[1..];
    }
  }

  // ---- what a tree holds, without walking it ----

  /** The tree has a file at `rel`. */
  predicate Holds(n: Node, rel: Path)
    decreases n
  {
    match n
    case File(_) => rel == []
    case Dir(_, entries) =>
      rel != [] && exists i :: 0 <= i < |entries| && entries[i].name == rel[0] && Holds(entries[i].node, rel[1..])
  }

  /** A directory on the way to `rel` cannot be read. */
  predicate Blocked(n: Node, rel: Path)
    decreases n
  {
    match n
    case File(_) => false
    case Dir(readable, entries) =>
      || !readable
      || (rel != [] &&
          exists i :: 0 <= i < |entries| && entries[i].name == rel[0] && Blocked(entries[i].node, rel[1..]))
  }

  lemma {:induction false} EntryAt(dir: Path, entries: seq<Entry>, i: nat)
    requires i < |entries|
    ensures forall p :: p in FilesAt(dir + [entries[i].name], entries[i].node) ==> p in FilesIn(dir, entries)
    decreases |entries|
  {
    if i > 0 { EntryAt(dir, entries[1..], i - 1); }
  }

  lemma {:induction false} EntryOf(dir: Path, entries: seq<Entry>, p: Path) returns (i: nat)
    requires p in FilesIn(dir, entries)
    ensures i < |entries| && p in FilesAt(dir + [entries[i].name], entries[i].node)
    decreases |entries|
  {
    if p in FilesAt(dir + [entries[0].name], entries[0].node) {
      i := 0;
    } else {
      var j := EntryOf(dir, entries[1..], p);
      i := j + 1;
    }
  }

  lemma {:induction false} NamesApart(entries: seq<Entry>, i: nat, j: nat)
    requires ProperList(entries) && i < |entries| && j < |entries| && entries[i].name == entries[j].name
    ensures i == j && Proper(entries[i].node)
    decreases |entries|
  {
    if i > 0 && j > 0 { NamesApart(entries[1..], i - 1, j - 1); }
  }

  /** The walk visits a file of the tree exactly if every directory on the way to it can be read. */
  lemma {:induction false} ReachedExactly(root: Path, n: Node, rel: Path)
    requires Proper(n)
    ensures root + rel in FilesAt(root, n) <==> Holds(n, rel) && !Blocked(n, rel)
    decreases n
  {
    if n.File? {
      assert root + rel == root ==> rel == [];
    } else if n.readable {
      var p := root + rel;
      if p in FilesAt(root, n) {
        var i := EntryOf(root, n.entries, p);
        FilesAtUnder(root + [n.entries[i].name], n.entries[i].node);
        assert p[|root|] == n.entries[i].name;
        NamesApart(n.entries, i, i);
        assert p == root + [rel[0]] + rel[1..];
        ReachedExactly(root + [rel[0]], n.entries[i].node, rel[1..]);
        forall j | 0 <= j < |n.entries| && n.entries[j].name == rel[0] ensures j == i {
          NamesApart(n.entries, i, j);
        }
      } else if Holds(n, rel) && !Blocked(n, rel) {
        var i :| 0 <= i < |n.entries| && n.entries[i].name == rel[0] && Holds(n.entries[i].node, rel[1..]);
        NamesApart(n.entries, i, i);
        assert p == root + [rel[0]] + rel[1..];
        ReachedExactly(root + [rel[0]], n.entries[i].node, rel[1..]);
        EntryAt(root, n.entries, i);
      }
    }
  }

  lemma {:induction false} ReadableUnblocked(n: Node, rel: Path)
    requires Readable(n)
    ensures !Blocked(n, rel)
    decreases n
  {
    if n.Dir? && rel != [] {
      forall i | 0 <= i < |n.entries| ensures !Blocked(n.entries[i].node, rel[1..]) {
        ReadableAt(n.entries, i);
        ReadableUnblocked(n.entries[i].node, rel[1..]);
      }
    }
  }

  lemma {:induction false} ReadableAt(entries: seq<Entry>, i: nat)
    requires ReadableList(entries) && i < |entries|
    ensures Readable(entries[i].node)
    decreases |entries|
  {
    if i > 0 { ReadableAt(entries[1..], i - 1); }
  }

  /** `tree` is what is on disk under `root`. */
  ghost predicate Lists(root: Path, tree: Node, files: map<Path, Meta>)
  {
    && tree.Dir? && Proper(tree)
    && forall rel: Path :: root + rel in files <==> Holds(tree, rel)
  }

  // ---- the mirror ----

  /** Every directory can be listed; otherwise `mirror` panics and the build stops. */
  predicate Readable(n: Node)
    decreases n, 1
  {
    n.Dir? ==> n.readable && ReadableList(n.entries)
  }

  predicate ReadableList(entries: seq<Entry>)
    decreases entries, 0
  {
    entries != [] ==> Readable(entries[0].node) && ReadableList(entries[1..])
  }

  /** Upstream's sources by the path each is staged at. */
  function SourcesIn(dir: Path, entries: seq<Entry>): map<Path, Meta>
    decreases entries, 0
  {
    if entries == [] then map[]
    else SourcesAt(dir + [entries[0].name], entries[0].node) + SourcesIn(dir, entries[1..])
  }

  function SourcesAt(p: Path, n: Node): map<Path, Meta>
    decreases n, 1
  {
    match n
    case File(meta) => if IsSource(p) then map[p := meta] else map[]
    case Dir(_, entries) => SourcesIn(p, entries)
  }

  lemma {:induction false} SourcesAreFiles(dir: Path, entries: seq<Entry>)
    requires ReadableList(entries)
    ensures forall p :: p in SourcesIn(dir, entries) <==> p in FilesIn(dir, entries) && IsSource(p)
    decreases entries, 0
  {
    if entries != [] {
      SourcesAtAreFiles(dir + [entries[0].name], entries[0].node);
      SourcesAreFiles(dir, entries[1..]);
    }
  }

  lemma {:induction false} SourcesAtAreFiles(top: Path, n: Node)
    requires Readable(n)
    ensures forall p :: p in SourcesAt(top, n) <==> p in FilesAt(top, n) && IsSource(p)
    decreases n, 1
  {
    if n.Dir? { SourcesAreFiles(top, n.entries); }
  }

  /** What is mirrored, by ending: upstream's `.c` and `.h` files, all of them. */
  lemma MirroredByEnding(dir: Path, entries: seq<Entry>, p: Path)
    requires ReadableList(entries)
    ensures p in SourcesIn(dir, entries) <==> p in FilesIn(dir, entries) && NamedAsSource(p)
  {
    SourcesAreFiles(dir, entries);
    SourcesByEnding(p);
  }

  /** `is_current`: as new as its source, and as long. */
  predicate IsCurrent(from: Meta, to: Meta)
  {
    to.mtime >= from.mtime && to.len == from.len
  }

  function CopyOf(files: map<Path, Meta>, to: Path, from: Meta, now: nat): Meta
  {
    if to in files && IsCurrent(from, files[to]) then files[to] else Meta(from.data, from.len, now)
  }

  /** The staged tree once everything in `up` has been copied where it was not current. */
  function Mirrored(files: map<Path, Meta>, up: map<Path, Meta>, now: nat): map<Path, Meta>
  {
    files + map p | p in up :: CopyOf(files, p, up[p], now)
  }

  lemma MirroredNone(files: map<Path, Meta>, now: nat)
    ensures Mirrored(files, map[], now) == files
  {}

  lemma MirroredPaths(files: map<Path, Meta>, up: map<Path, Meta>, now: nat)
    ensures var m := Mirrored(files, up, now);
      && m.Keys == files.Keys + up.Keys
      && forall p :: p in m ==> m[p] == if p in up then CopyOf(files, p, up[p], now) else files[p]
  {}

  lemma MirroredTwice(files: map<Path, Meta>, a: map<Path, Meta>, b: map<Path, Meta>, now: nat)
    requires a.Keys !! b.Keys
    ensures Mirrored(Mirrored(files, a, now), b, now) == Mirrored(files, a + b, now)
  {
    var first := Mirrored(files, a, now);
    var twice, once := Mirrored(first, b, now), Mirrored(files, a + b, now);
    MirroredPaths(files, a, now);
    MirroredPaths(first, b, now);
    MirroredPaths(files, a + b, now);
    assert twice.Keys == once.Keys;
    forall p | p in once ensures twice[p] == once[p] {
      if p in b { assert p !in a; }
    }
  }

  /** Different entries of a directory are staged at different paths. */
  lemma EntriesApart(dir: Path, entries: seq<Entry>)
    requires entries != [] && ProperList(entries) && ReadableList(entries)
    ensures SourcesAt(dir + [entries[0].name], entries[0].node).Keys !! SourcesIn(dir, entries[1..]).Keys
  {
    var top := dir + [entries[0].name];
    SourcesAtAreFiles(top, entries[0].node);
    SourcesAreFiles(dir, entries[1..]);
    FilesAtUnder(top, entries[0].node);
    FilesUnder(dir, entries[1..]);
    forall p | p in FilesAt(top, entries[0].node) ensures p !in FilesIn(dir, entries[1..]) {
      assert p[|dir|] == entries[0].name;
      assert forall i :: 0 <= i < |entries| - 1 ==> entries[1..][i].name != entries[0].name;
    }
  }

  lemma EntryMirrored(files: map<Path, Meta>, dir: Path, entries: seq<Entry>, now: nat)
    requires entries != [] && ProperList(entries) && ReadableList(entries)
    ensures var here := SourcesAt(dir + [entries[0].name], entries[0].node);
      Mirrored(Mirrored(files, here, now), SourcesIn(dir, entries[1..]), now) ==
      Mirrored(files, SourcesIn(dir, entries), now)
  {
    EntriesApart(dir, entries);
    MirroredTwice(files, SourcesAt(dir + [entries[0].name], entries[0].node), SourcesIn(dir, entries[1..]), now);
  }

  // ---- pruning ----

  /** What the loop over the visits removes. */
  function Swept(files: map<Path, Meta>, staged: set<Path>, visited: seq<Path>, stuck: set<Path>): map<Path, Meta>
  {
    map p | p in files && !(p in visited && IsSource(p) && p !in staged && p !in stuck) :: files[p]
  }

  /** A source under `root` that upstream no longer has, that can be reached and can be deleted. */
  predicate Prunable(staged: set<Path>, root: Path, tree: Node, stuck: set<Path>, p: Path)
  {
    root <= p && IsSource(p) && p !in staged && p !in stuck && !Blocked(tree, p[|root|..])
  }

  function Pruned(files: map<Path, Meta>, staged: set<Path>, root: Path, tree: Node, stuck: set<Path>): map<Path, Meta>
  {
    map p | p in files && !Prunable(staged, root, tree, stuck, p) :: files[p]
  }

  /** Sweeping what the walk visits prunes the tree that is on disk. */
  lemma SweepPrunes(files: map<Path, Meta>, staged: set<Path>, root: Path, tree: Node, visited: seq<Path>,
                    stuck: set<Path>)
    requires Lists(root, tree, files) && multiset(visited) == multiset(FilesAt(root, tree))
    ensures Swept(files, staged, visited, stuck) == Pruned(files, staged, root, tree, stuck)
  {
    VisitedOnce(root, tree, visited);
    FilesAtUnder(root, tree);
    forall p | p in files ensures p in visited <==> root <= p && !Blocked(tree, p[|root|..]) {
      if root <= p {
        assert p == root + p[|root|..];
        ReachedExactly(root, tree, p[|root|..]);
      }
    }
  }

  lemma RootsApart()
    ensures SRC[0] != INCLUDE[0] && SRC[0] != MAKEFILE[0] && INCLUDE[0] != MAKEFILE[0]
  {
    assert |SRC[0]| == 3 && |INCLUDE[0]| == 7 && |MAKEFILE[0]| == 8;
  }

  /** Pruning one root leaves what is listed under the other alone. */
  lemma PrunedElsewhere(files: map<Path, Meta>, staged: set<Path>, root: Path, tree: Node, stuck: set<Path>,
                        other: Path, otherTree: Node)
    requires Lists(other, otherTree, files) && !(root <= other) && |root| <= |other|
    ensures Lists(other, otherTree, Pruned(files, staged, root, tree, stuck))
  {
    forall rel: Path ensures !(root <= other + rel) {
      assert (other + rel)[..|root|] == other[..|root|];
    }
  }

  // ---- staging ----

  const SRC: Path := ["src"]
  const INCLUDE: Path := ["include"]
  const MAKEFILE: Path := ["Makefile"]

  /** Upstream: the makefile and the two trees that are mirrored. */
  datatype Upstream = Upstream(makefile: Meta, headers: Node, src: Node)

  /** The sources of both trees, by the path each is staged at. */
  function Wanted(up: Upstream): map<Path, Meta>
    requires up.headers.Dir? && up.src.Dir?
  {
    SourcesIn(INCLUDE, up.headers.entries) + SourcesIn(SRC, up.src.entries)
  }

  predicate InRoots(p: Path)
  {
    SRC <= p || INCLUDE <= p
  }

  /** Upstream has a source at `p`. */
  predicate Upstreams(up: Upstream, p: Path)
  {
    NamedAsSource(p) && ((SRC <= p && Holds(up.src, p[1..])) || (INCLUDE <= p && Holds(up.headers, p[1..])))
  }

  /** Staged sources, under `src` or `include`, that upstream does not have. */
  predicate Stale(files: map<Path, Meta>, up: Upstream, p: Path)
  {
    InRoots(p) && NamedAsSource(p) && p in files && !Upstreams(up, p)
  }

  /** `p` lies behind a staged directory that cannot be read. */
  predicate Hidden(srcTree: Node, includeTree: Node, p: Path)
  {
    (SRC <= p && Blocked(srcTree, p[1..])) || (INCLUDE <= p && Blocked(includeTree, p[1..]))
  }

  /** Everything upstream has, copied where it was not current. */
  function AllMirrored(files: map<Path, Meta>, up: Upstream, now: nat): map<Path, Meta>
    requires up.headers.Dir? && up.src.Dir?
  {
    Mirrored(files, map[MAKEFILE := up.makefile] + Wanted(up), now)
  }

  /** `stage_core`: both roots pruned after everything is mirrored. */
  function Staged(files: map<Path, Meta>, up: Upstream, srcTree: Node, includeTree: Node, stuck: set<Path>, now: nat):
      map<Path, Meta>
    requires up.headers.Dir? && up.src.Dir?
  {
    var staged := {MAKEFILE} + Wanted(up).Keys;
    Pruned(Pruned(AllMirrored(files, up, now), staged, SRC, srcTree, stuck), staged, INCLUDE, includeTree, stuck)
  }

  /** Every source staged lies under its root and upstream has it there. */
  lemma WantedPaths(up: Upstream)
    requires up.headers.Dir? && up.src.Dir? && Readable(up.headers) && Readable(up.src)
    ensures forall p :: p in Wanted(up) <==>
      IsSource(p) && (p in FilesAt(INCLUDE, up.headers) || p in FilesAt(SRC, up.src))
    ensures forall p :: p in Wanted(up) ==> InRoots(p)
    ensures SourcesIn(INCLUDE, up.headers.entries).Keys !! SourcesIn(SRC, up.src.entries).Keys
    ensures MAKEFILE !in Wanted(up)
  {
    SourcesAreFiles(INCLUDE, up.headers.entries);
    SourcesAreFiles(SRC, up.src.entries);
    FilesUnder(INCLUDE, up.headers.entries);
    FilesUnder(SRC, up.src.entries);
    forall p | p in SourcesIn(INCLUDE, up.headers.entries) ensures p !in SourcesIn(SRC, up.src.entries) {
      assert p[0] == "include";
    }
  }

  lemma MirroredThrice(files: map<Path, Meta>, up: Upstream, now: nat)
    requires up.headers.Dir? && up.src.Dir? && Readable(up.headers) && Readable(up.src)
    ensures var headers, src := SourcesIn(INCLUDE, up.headers.entries), SourcesIn(SRC, up.src.entries);
      Mirrored(Mirrored(Mirrored(files, map[MAKEFILE := up.makefile], now), headers, now), src, now) ==
      Mirrored(files, map[MAKEFILE := up.makefile] + Wanted(up), now)
  {
    WantedPaths(up);
    var make := map[MAKEFILE := up.makefile];
    var headers, src := SourcesIn(INCLUDE, up.headers.entries), SourcesIn(SRC, up.src.entries);
    MirroredTwice(Mirrored(files, make, now), headers, src, now);
    MirroredTwice(files, make, Wanted(up), now);
  }

  // ---- the script ----

  class Store {
    var files: map<Path, Meta>
    var staged: set<Path>

    constructor (files: map<Path, Meta>)
      ensures this.files == files && staged == {}
    {
      this.files, staged := files, {};
    }

    method CopyIfStale(from: Meta, to: Path, now: nat)
      modifies this
      ensures staged == old(staged) + {to}
      ensures files == Mirrored(old(files), map[to := from], now)
      ensures to in files && forall p :: p != to ==> (p in files <==> p in old(files))
      ensures forall p :: p != to && p in files ==> files[p] == old(files)[p]
      ensures to in old(files) && old(files)[to].mtime >= from.mtime && old(files)[to].len == from.len ==>
        files[to] == old(files)[to]
      ensures !(to in old(files) && old(files)[to].mtime >= from.mtime && old(files)[to].len == from.len) ==>
        files[to] == Meta(from.data, from.len, now)
    {
      staged := staged + {to};
      if to in files && IsCurrent(from, files[to]) { return; }
      files := files[to := Meta(from.data, from.len, now)];
    }

    /** `mirror`; false stands for its panic on a directory that cannot be read. */
    method Mirror(dir: Path, up: Node, now: nat) returns (ok: bool)
      requires up.Dir? && Proper(up)
      modifies this
      ensures ok <==> Readable(up)
      ensures ok ==> staged == old(staged) + SourcesIn(dir, up.entries).Keys
      ensures ok ==> files == Mirrored(old(files), SourcesIn(dir, up.entries), now)
      decreases up, 0
    {
      if !up.readable { return false; }
      var entries := up.entries;
      assert entries[0..] == entries;
      for i := 0 to |entries|
        invariant ProperList(entries[i..])
        invariant ReadableList(entries) <==> ReadableList(entries[i..])
        invariant staged + SourcesIn(dir, entries[i..]).Keys == old(staged) + SourcesIn(dir, entries).Keys
        invariant ReadableList(entries) ==>
          Mirrored(files, SourcesIn(dir, entries[i..]), now) == Mirrored(old(files), SourcesIn(dir, entries), now)
      {
        ghost var rest, before := entries[i..], files;
        assert rest[1..] == entries[i + 1..];
        var below := MirrorEntry(dir + [entries[i].name], entries[i].node, now);
        if !below { return false; }
        if ReadableList(entries) { EntryMirrored(before, dir, rest, now); }
      }
      assert entries[|entries|..] == [];
      MirroredNone(files, now);
      ok := true;
    }

    /** One entry: a directory is mirrored, a source copied, anything else passed over. */
    method MirrorEntry(to: Path, node: Node, now: nat) returns (ok: bool)
      requires Proper(node) && to != []
      modifies this
      ensures ok <==> Readable(node)
      ensures ok ==> staged == old(staged) + SourcesAt(to, node).Keys
      ensures ok ==> files == Mirrored(old(files), SourcesAt(to, node), now)
      decreases node, 1
    {
      if node.Dir? {
        ok := Mirror(to, node, now);
      } else {
        ok := true;
        if IsSource(to) { CopyIfStale(node.meta, to, now); } else { MirroredNone(files, now); }
      }
    }

    /** The walk of one root, removing as it goes. */
    method Sweep(root: Path, tree: Node, stuck: set<Path>) returns (visited: seq<Path>)
      requires tree.Dir?
      modifies `files
      ensures multiset(visited) == multiset(FilesAt(root, tree))
      ensures files == Swept(old(files), staged, visited, stuck)
    {
      visited := Walk(root, tree);
      for i := 0 to |visited|
        invariant files == Swept(old(files), staged, visited[..i], stuck)
      {
        var p := visited[i];
        if IsSource(p) && p !in staged && p !in stuck { files := files - {p}; }
      }
      assert visited[..|visited|] == visited;
    }

    /** `prune_stale` for one root; `tree` is what is on disk there, `stuck` what cannot be deleted. */
    method Prune(root: Path, tree: Node, stuck: set<Path>)
      requires Lists(root, tree, files)
      modifies `files
      ensures files == Pruned(old(files), staged, root, tree, stuck)
    {
      var visited := Sweep(root, tree, stuck);
      SweepPrunes(old(files), staged, root, tree, visited, stuck);
    }

    /** Everything upstream has, copied where it was not current. */
    method MirrorAll(up: Upstream, now: nat) returns (ok: bool)
      requires up.headers.Dir? && up.src.Dir? && Proper(up.headers) && Proper(up.src)
      modifies this
      ensures ok <==> Readable(up.headers) && Readable(up.src)
      ensures ok ==> staged == old(staged) + {MAKEFILE} + Wanted(up).Keys
      ensures ok ==> files == AllMirrored(old(files), up, now)
    {
      CopyIfStale(up.makefile, MAKEFILE, now);
      ok := Mirror(INCLUDE, up.headers, now);
      if ok {
        ok := Mirror(SRC, up.src, now);
        if ok { MirroredThrice(old(files), up, now); }
      }
    }

    /**
     `stage_core` on a fresh set; the trees are what is on disk once everything is mirrored. The staged
     sources are then upstream's exactly if no stale one is stuck or lies where the walk cannot go.
     */
    method Stage(up: Upstream, srcTree: Node, includeTree: Node, stuck: set<Path>, now: nat) returns (ok: bool)
      requires up.headers.Dir? && up.src.Dir? && Proper(up.headers) && Proper(up.src) && staged == {}
      requires Lists(SRC, srcTree, AllMirrored(files, up, now))
      requires Lists(INCLUDE, includeTree, AllMirrored(files, up, now))
      modifies this
      ensures ok <==> Readable(up.headers) && Readable(up.src)
      ensures ok ==> files == Staged(old(files), up, srcTree, includeTree, stuck, now)
      ensures ok ==>
        ((forall p :: InRoots(p) && NamedAsSource(p) ==> (p in files <==> Upstreams(up, p)))
         <==> (forall p :: Stale(old(files), up, p) ==> p !in stuck && !Hidden(srcTree, includeTree, p)))
    {
      ok := MirrorAll(up, now);
      if ok {
        assert staged == {MAKEFILE} + Wanted(up).Keys;
        RootsApart();
        PrunedElsewhere(files, staged, SRC, srcTree, stuck, INCLUDE, includeTree);
        Prune(SRC, srcTree, stuck);
        Prune(INCLUDE, includeTree, stuck);
        StagedExactly(old(files), up, srcTree, includeTree, stuck, now);
      }
    }
  }

  lemma WantedExactly(up: Upstream, p: Path)
    requires up.headers.Dir? && up.src.Dir? && Readable(up.headers) && Readable(up.src)
    requires Proper(up.headers) && Proper(up.src)
    ensures p in Wanted(up) <==> Upstreams(up, p)
  {
    WantedPaths(up);
    SourcesByEnding(p);
    FilesUnder(INCLUDE, up.headers.entries);
    FilesUnder(SRC, up.src.entries);
    if SRC <= p {
      assert p == SRC + p[1..];
      ReachedExactly(SRC, up.src, p[1..]);
      ReadableUnblocked(up.src, p[1..]);
    }
    if INCLUDE <= p {
      assert p == INCLUDE + p[1..];
      ReachedExactly(INCLUDE, up.headers, p[1..]);
      ReadableUnblocked(up.headers, p[1..]);
    }
  }

  /** Which staged sources there are, one by one. */
  lemma StagedAt(files: map<Path, Meta>, up: Upstream, srcTree: Node, includeTree: Node, stuck: set<Path>, now: nat,
                 p: Path)
    requires up.headers.Dir? && up.src.Dir? && Readable(up.headers) && Readable(up.src)
    requires Proper(up.headers) && Proper(up.src) && InRoots(p) && NamedAsSource(p)
    ensures p in Staged(files, up, srcTree, includeTree, stuck, now) <==>
            Upstreams(up, p) || (p in files && (p in stuck || Hidden(srcTree, includeTree, p)))
  {
    WantedExactly(up, p);
    SourcesByEnding(p);
    RootsApart();
    if SRC <= p { assert p[0] == SRC[0]; } else { assert p[0] == INCLUDE[0]; }
  }

  /**
   After staging, the `.c` and `.h` files under staged `src` and `include` are exactly upstream's, if
   and only if no stale one is undeletable or behind a directory that cannot be read.
   */
  lemma StagedExactly(files: map<Path, Meta>, up: Upstream, srcTree: Node, includeTree: Node, stuck: set<Path>,
                      now: nat)
    requires up.headers.Dir? && up.src.Dir? && Readable(up.headers) && Readable(up.src)
    requires Proper(up.headers) && Proper(up.src)
    ensures var after := Staged(files, up, srcTree, includeTree, stuck, now);
      (forall p :: InRoots(p) && NamedAsSource(p) ==> (p in after <==> Upstreams(up, p)))
      <==> (forall p :: Stale(files, up, p) ==> p !in stuck && !Hidden(srcTree, includeTree, p))
  {
    forall p | InRoots(p) && NamedAsSource(p)
      ensures p in Staged(files, up, srcTree, includeTree, stuck, now) <==>
              Upstreams(up, p) || (p in files && (p in stuck || Hidden(srcTree, includeTree, p)))
    {
      StagedAt(files, up, srcTree, includeTree, stuck, now, p);
    }
  }

  /** So with every staged directory readable, it comes down to deletions alone. */
  lemma StagedReadably(files: map<Path, Meta>, up: Upstream, srcTree: Node, includeTree: Node, stuck: set<Path>,
                       now: nat)
    requires up.headers.Dir? && up.src.Dir? && Readable(up.headers) && Readable(up.src)
    requires Proper(up.headers) && Proper(up.src) && Readable(srcTree) && Readable(includeTree)
    ensures var after := Staged(files, up, srcTree, includeTree, stuck, now);
      (forall p :: InRoots(p) && NamedAsSource(p) ==> (p in after <==> Upstreams(up, p)))
      <==> (forall p :: Stale(files, up, p) ==> p !in stuck)
  {
    StagedExactly(files, up, srcTree, includeTree, stuck, now);
    forall p ensures !Hidden(srcTree, includeTree, p) {
      if InRoots(p) {
        ReadableUnblocked(srcTree, p[1..]);
        ReadableUnblocked(includeTree, p[1..]);
      }
    }
  }

  lemma MirroredAt(files: map<Path, Meta>, up: Upstream, now: nat, p: Path)
    requires up.headers.Dir? && up.src.Dir? && Readable(up.headers) && Readable(up.src)
    ensures var mirrored, wanted := AllMirrored(files, up, now), Wanted(up);
      && (p in wanted ==> p in mirrored && mirrored[p] == CopyOf(files, p, wanted[p], now))
      && (p !in wanted && p != MAKEFILE ==> (p in mirrored <==> p in files) && (p in files ==> mirrored[p] == files[p]))
      && (p in wanted ==> IsSource(p))
      && (p == MAKEFILE ==> p in mirrored && mirrored[p] == CopyOf(files, p, up.makefile, now))
  {
    WantedPaths(up);
  }

  lemma PrunedAt(files: map<Path, Meta>, staged: set<Path>, root: Path, tree: Node, stuck: set<Path>, p: Path)
    requires p in staged || !IsSource(p)
    ensures var after := Pruned(files, staged, root, tree, stuck);
      (p in after <==> p in files) && (p in files ==> after[p] == files[p])
  {}

  /**
   Staging touches nothing but sources and the makefile, so what was built in place survives; and a
   staged source has upstream's content unless an edit left its length alone and its time in the past.
   */
  lemma StagedContents(files: map<Path, Meta>, up: Upstream, srcTree: Node, includeTree: Node, stuck: set<Path>,
                       now: nat, p: Path)
    requires up.headers.Dir? && up.src.Dir? && Readable(up.headers) && Readable(up.src)
    ensures var after := Staged(files, up, srcTree, includeTree, stuck, now);
      var wanted := Wanted(up)[MAKEFILE := up.makefile];
      && (!NamedAsSource(p) && p != MAKEFILE ==>
            (p in after <==> p in files) && (p in files ==> after[p] == files[p]))
      && (p in wanted ==> p in after)
      && (p in wanted ==>
            (after[p].data != wanted[p].data <==>
               p in files && files[p].mtime >= wanted[p].mtime && files[p].len == wanted[p].len &&
               files[p].data != wanted[p].data))
  {
    var mirrored, staged := AllMirrored(files, up, now), {MAKEFILE} + Wanted(up).Keys;
    MirroredAt(files, up, now, p);
    SourcesByEnding(p);
    if p in staged || !IsSource(p) {
      PrunedAt(mirrored, staged, SRC, srcTree, stuck, p);
      PrunedAt(Pruned(mirrored, staged, SRC, srcTree, stuck), staged, INCLUDE, includeTree, stuck, p);
    }
  }
}
