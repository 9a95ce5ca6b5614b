/** The file-tree store: a flat map from path to file contents. The
    `{file: {contents}}` wrapper of each entry is left implicit. */
module FileTree {
  import opened Wrappers

  type Path = string

  /** path -> contents */
  type Tree = map<Path, string>

  /** `{...tree, [path]: {file: {contents}}}`: one path is created or
      overwritten and nothing else changes. */
  function Upsert(tree: Tree, path: Path, contents: string): (r: Tree)
    ensures r.Keys == tree.Keys + {path}
    ensures r[path] == contents
    ensures forall p :: p in tree && p != path ==> r[p] == tree[p]
  {
    tree[path := contents]
  }

  /** `{...tree, ...incoming}`: the key-wise union, incoming values winning. */
  function Merge(tree: Tree, incoming: Tree): (r: Tree)
    ensures r.Keys == tree.Keys + incoming.Keys
    ensures forall p :: p in incoming ==> r[p] == incoming[p]
    ensures forall p :: p in tree && p !in incoming ==> r[p] == tree[p]
  {
    tree + incoming
  }

  /** `received || {}`: a tree that arrives wholesale replaces the store, and
      a missing one empties it. */
  function Received(received: Option<Tree>): (r: Tree)
    ensures received.Some? ==> r == received.value
    ensures received.None? ==> r == map[]
  {
    if received.Some? then received.value else map[]
  }

  /** A tree as a JSON object arrives: its entries in the order
      `Object.keys` enumerates them. */
  type Entries = seq<(Path, string)>

  /** The entry at `i` is the last one for its path. */
  predicate LastFor(entries: Entries, i: int)
    requires 0 <= i < |entries|
  {
    forall j :: i < j < |entries| ==> entries[j].0 != entries[i].0
  }

  /** The paths the entries name. */
  function Paths(entries: Entries): set<Path>
  {
    set i | 0 <= i < |entries| :: entries[i].0
  }

  /** The object the entries describe, each entry written in turn. */
  function ToTree(entries: Entries): Tree
    decreases |entries|
  {
    if |entries| == 0 then map[]
    else
      var last := entries[|entries| - 1];
      ToTree(entries[..|entries| - 1])[last.0 := last.1]
  }

  /** The object has exactly the paths the entries name. */
  lemma {:induction false} ToTreeKeys(entries: Entries)
    ensures ToTree(entries).Keys == Paths(entries)
    decreases |entries|
  {
    if |entries| > 0 {
      var init := entries[..|entries| - 1];
      var last := entries[|entries| - 1];
      ToTreeKeys(init);
      assert forall i :: 0 <= i < |init| ==> init[i] == entries[i];
      assert Paths(entries) == Paths(init) + {last.0};
    }
  }

  /** A repeated path keeps the value of its last entry. */
  lemma {:induction false} ToTreeLastWins(entries: Entries)
    ensures forall i :: 0 <= i < |entries| && LastFor(entries, i) ==>
      entries[i].0 in ToTree(entries) && ToTree(entries)[entries[i].0] == entries[i].1
    decreases |entries|
  {
    if |entries| > 0 {
      var n := |entries| - 1;
      var init := entries[..n];
      ToTreeLastWins(init);
      forall i | 0 <= i < n && LastFor(entries, i)
        ensures entries[i].0 in ToTree(entries) && ToTree(entries)[entries[i].0] == entries[i].1
      {
        assert init[i] == entries[i];
        assert LastFor(init, i);
        assert entries[n].0 != entries[i].0;
      }
    }
  }

  /** The three ways the store changes. */
  datatype Update =
    | Write(path: Path, contents: string)   // local edit or new file
    | MergeIn(files: Tree)                 // generated-UI merge
    | ReplaceWith(files: Tree)             // backend fetch or agent tree

  function Apply(tree: Tree, u: Update): Tree
  {
    match u
    case Write(p, c) => Upsert(tree, p, c)
    case MergeIn(m) => Merge(tree, m)
    case ReplaceWith(m) => m
  }

  /** The store after a sequence of updates, oldest first. */
  function ApplyAll(tree: Tree, updates: seq<Update>): Tree
    decreases |updates|
  {
    if |updates| == 0 then tree
    else Apply(ApplyAll(tree, updates[..|updates| - 1]), updates[|updates| - 1])
  }

  /** An independent account of one path: the value written by the most
      recent update that mentions it, unless a wholesale replacement that
      omits it came later; the initial value when no update touched it. */
  function LatestWrite(tree: Tree, updates: seq<Update>, p: Path): Option<string>
    decreases |updates|
  {
    if |updates| == 0 then (if p in tree then Some(tree[p]) else None)
    else
      var earlier := updates[..|updates| - 1];
      match updates[|updates| - 1]
      case Write(q, c) => if q == p then Some(c) else LatestWrite(tree, earlier, p)
      case MergeIn(m) => if p in m then Some(m[p]) else LatestWrite(tree, earlier, p)
      case ReplaceWith(m) => if p in m then Some(m[p]) else None
  }

  /** Last writer wins, path by path: after any sequence of updates the
      store holds exactly the paths with a latest write, each with that
      value. */
  lemma {:induction false} ApplyAllIsLatestWrite(tree: Tree, updates: seq<Update>, p: Path)
    ensures p in ApplyAll(tree, updates) <==> LatestWrite(tree, updates, p).Some?
    ensures p in ApplyAll(tree, updates) ==>
      ApplyAll(tree, updates)[p] == LatestWrite(tree, updates, p).value
    decreases |updates|
  {
    if |updates| > 0 {
      ApplyAllIsLatestWrite(tree, updates[..|updates| - 1], p);
    }
  }

  /** Replacing with the same tree twice leaves what replacing once does. */
  lemma ReplaceIdempotent(tree: Tree, m: Tree)
    ensures ApplyAll(tree, [ReplaceWith(m), ReplaceWith(m)]) == ApplyAll(tree, [ReplaceWith(m)])
  {
  }
}
