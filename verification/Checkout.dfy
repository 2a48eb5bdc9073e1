/** The last check before a checkout is released: nothing that only it holds is left unpreserved. */
module Checkout {
  import opened Wrappers

  type Path = seq<string>

  type Bytes = seq<bv8>

  /** A file system node as lstat shows it; a sealed directory cannot be listed. */
  datatype Node = File(regular: bool, content: Bytes) | Dir(entries: seq<Entry>) | Sealed

  datatype Entry = Entry(name: string, node: Node)

  predicate Directory(node: Node) {
    node.Dir? || node.Sealed?
  }

  function Named(entries: seq<Entry>, name: string): Option<Node> {
    if entries == [] then None
    else if entries[0].name == name then Some(entries[0].node)
    else Named(entries[1..], name)
  }

  function Find(node: Node, path: Path): Option<Node>
    decreases |path|
  {
    if path == [] then Some(node)
    else if !node.Dir? then None
    else
      match Named(node.entries, path[0])
      case None => None
      case Some(child) => Find(child, path[1..])
  }

  lemma {:induction false} NamedIsEntry(entries: seq<Entry>, name: string)
    ensures Named(entries, name).Some? ==>
      exists i :: 0 <= i < |entries| && entries[i].name == name && entries[i].node == Named(entries, name).value
  {
    if entries != [] && entries[0].name != name && Named(entries, name).Some? {
      NamedIsEntry(entries[1..], name);
      var i :| 0 <= i < |entries| - 1 && entries[1..][i].name == name &&
            entries[1..][i].node == Named(entries, name).value;
      assert entries[i + 1] == entries[1..][i];
    }
  }

  // ------------------------------------------------------ empty trees

  const VISITS := 256

  /** The directories of a tree, itself included. */
  function Dirs(node: Node): nat {
    match node
    case File(_, _) => 0
    case Sealed => 1
    case Dir(entries) => 1 + DirsOf(entries)
  }

  function DirsOf(entries: seq<Entry>): nat {
    if entries == [] then 0 else Dirs(entries[0].node) + DirsOf(entries[1..])
  }

  /** A tree of listable directories and nothing else. */
  predicate Bare(node: Node) {
    node.Dir? && forall i :: 0 <= i < |node.entries| ==> Bare(node.entries[i].node)
  }

  /** Nodes in the tree: what a worklist has left to do. */
  function Size(node: Node): nat {
    if node.Dir? then 1 + SizeOf(node.entries) else 1
  }

  function SizeOf(entries: seq<Entry>): nat {
    if entries == [] then 0 else Size(entries[0].node) + SizeOf(entries[1..])
  }

  lemma {:induction false} DirsAppend(a: seq<Entry>, b: seq<Entry>)
    ensures DirsOf(a + b) == DirsOf(a) + DirsOf(b) && SizeOf(a + b) == SizeOf(a) + SizeOf(b)
  {
    if a == [] {
      assert a + b == b;
    } else {
      DirsAppend(a[1..], b);
      assert (a + b)[1..] == a[1..] + b;
    }
  }

  lemma DirsOne(entry: Entry)
    ensures DirsOf([entry]) == Dirs(entry.node) && SizeOf([entry]) == Size(entry.node)
  {
    assert [entry][1..] == [];
  }

  predicate AllBare(entries: seq<Entry>) {
    forall i :: 0 <= i < |entries| ==> Bare(entries[i].node)
  }

  lemma BareAppend(a: seq<Entry>, b: seq<Entry>)
    ensures AllBare(a + b) <==> AllBare(a) && AllBare(b)
  {
    assert forall i :: 0 <= i < |a| ==> (a + b)[i] == a[i];
    assert forall i :: 0 <= i < |b| ==> (a + b)[|a| + i] == b[i];
  }

  /** What taking the last node off a worklist and adding its entries does to its measures. */
  lemma Expand(rest: seq<Entry>, last: Entry)
    requires last.node.Dir?
    ensures var before, after := rest + [last], rest + last.node.entries;
            && DirsOf(before) == 1 + DirsOf(after) && SizeOf(before) == 1 + SizeOf(after)
            && (AllBare(before) <==> AllBare(after))
  {
    DirsAppend(rest, [last]);
    DirsAppend(rest, last.node.entries);
    DirsOne(last);
    BareAppend(rest, [last]);
    BareAppend(rest, last.node.entries);
    assert AllBare([last]) <==> Bare(last.node) by { assert [last][0] == last; }
  }

  lemma LastCounts(rest: seq<Entry>, last: Entry)
    ensures DirsOf(rest + [last]) >= Dirs(last.node) && SizeOf(rest + [last]) == SizeOf(rest) + Size(last.node)
    ensures AllBare(rest + [last]) ==> Bare(last.node)
  {
    DirsAppend(rest, [last]);
    DirsOne(last);
    BareAppend(rest, [last]);
    if AllBare(rest + [last]) { assert Bare([last][0].node); }
  }

  ghost predicate AllDirectories(entries: seq<Entry>) {
    forall i :: 0 <= i < |entries| ==> Directory(entries[i].node)
  }

  /** A directory's entries join the worklist unless one of them is no directory. */
  method PushAll(rest: seq<Entry>, entries: seq<Entry>) returns (ok: bool, pending: seq<Entry>)
    ensures ok <==> AllDirectories(entries)
    ensures ok ==> pending == rest + entries
  {
    pending := rest;
    for i := 0 to |entries|
      invariant pending == rest + entries[..i] && AllDirectories(entries[..i])
    {
      if !Directory(entries[i].node) {
        return false, pending;
      }
      pending := pending + [entries[i]];
      assert entries[..i + 1] == entries[..i] + [entries[i]];
    }
    assert entries[..|entries|] == entries;
    ok := true;
  }

  /** The worklist finds a tree empty exactly when it holds only directories, at most 256 of them. */
  method EmptyTree(root: Node) returns (empty: bool)
    requires Directory(root)
    ensures empty <==> Bare(root) && Dirs(root) <= VISITS
  {
    var pending, visited := [Entry("", root)], 0;
    DirsOne(pending[0]);
    while pending != []
      invariant visited <= VISITS && visited + DirsOf(pending) == Dirs(root)
      invariant (AllBare(pending) <==> Bare(root)) && AllDirectories(pending)
      decreases SizeOf(pending)
    {
      var last, rest := pending[|pending| - 1], pending[..|pending| - 1];
      assert pending == rest + [last];
      LastCounts(rest, last);
      visited := visited + 1;
      if visited > VISITS || last.node.Sealed? {
        return false;
      }
      Expand(rest, last);
      var ok;
      ok, pending := PushAll(rest, last.node.entries);
      if !ok {
        return false;
      }
    }
    empty := true;
  }

  // -------------------------------------------------- one listed path

  /** The preserved sources, the directories above them, and what may be thrown away. */
  datatype Scope = Scope(sources: set<Path>, covered: set<Path>, disposable: set<Path>)

  /** Nothing at this path or below it keeps the checkout. */
  predicate Clear(scope: Scope, path: Path, node: Node)
    decreases node
  {
    path in scope.disposable ||
    match node
    case File(_, _) => path in scope.sources
    case Sealed => false
    case Dir(entries) =>
      if path !in scope.covered then Bare(node) && Dirs(node) <= VISITS
      else forall i :: 0 <= i < |entries| ==> ChildClear(scope, path, entries[i])
  }

  predicate ChildClear(scope: Scope, path: Path, entry: Entry)
    decreases entry
  {
    var below := path + [entry.name];
    if Directory(entry.node) then below in scope.covered && Clear(scope, below, entry.node)
    else below in scope.sources
  }

  /** No path from the first `from` components on is disposable. */
  ghost predicate Wanted(scope: Scope, path: Path, from: nat) {
    forall k :: from <= k <= |path| ==> path[..k] !in scope.disposable
  }

  lemma {:induction false} BareHoldsNoFile(node: Node, below: Path)
    requires Bare(node)
    ensures Find(node, below).Some? ==> Find(node, below).value.Dir?
    decreases |below|
  {
    if below != [] && Named(node.entries, below[0]).Some? {
      NamedIsEntry(node.entries, below[0]);
      BareHoldsNoFile(Named(node.entries, below[0]).value, below[1..]);
    }
  }

  /** A file below a clear path and outside disposable roots is a preserved source. */
  lemma {:induction false} ClearFileIsPreserved(scope: Scope, path: Path, node: Node, below: Path)
    requires Clear(scope, path, node) && Find(node, below).Some? && Find(node, below).value.File?
    requires Wanted(scope, path + below, |path|)
    ensures path + below in scope.sources
    decreases |below|
  {
    assert (path + below)[..|path|] == path;
    if below == [] {
      assert path + below == path;
    } else if path !in scope.covered {
      BareHoldsNoFile(node, below);
    } else {
      NamedIsEntry(node.entries, below[0]);
      var i :| 0 <= i < |node.entries| && node.entries[i].name == below[0] &&
            node.entries[i].node == Named(node.entries, below[0]).value;
      var next := path + [below[0]];
      assert ChildClear(scope, path, node.entries[i]);
      assert next + below[1..] == path + below;
      if Directory(node.entries[i].node) {
        ClearFileIsPreserved(scope, next, node.entries[i].node, below[1..]);
      } else {
        assert next + below[1..] == next;
      }
    }
  }

  // ---------------------------------------------------- the whole check

  datatype Flagged = Flagged(flag: char, path: Path)

  predicate Hides(record: Flagged) {
    'a' <= record.flag <= 'z' || record.flag == 'S'
  }

  /** What the check reads: Git's answers, the checkout's tree, and the retained copies. */
  datatype Inputs = Inputs(sameRepository: bool, index: seq<Flagged>, checkout: Node, listing: seq<Path>,
                           preserved: Option<seq<(Path, Path)>>, retained: map<Path, Node>, disposable: set<Path>,
                           digest: Bytes -> string)

  predicate Intact(inputs: Inputs, pair: (Path, Path)) {
    match Find(inputs.checkout, pair.0)
    case Some(File(true, content)) =>
      (pair.1 in inputs.retained &&
       match inputs.retained[pair.1]
       case File(true, copy) => inputs.digest(content) == inputs.digest(copy)
       case _ => false)
    case _ => false
  }

  function Above(path: Path): set<Path> {
    set k | 0 <= k < |path| :: path[..k]
  }

  function ScopeOf(pairs: seq<(Path, Path)>, disposable: set<Path>): Scope {
    Scope(set i | 0 <= i < |pairs| :: pairs[i].0, CoveredBy(pairs), disposable)
  }

  function CoveredBy(pairs: seq<(Path, Path)>): set<Path> {
    if pairs == [] then {} else CoveredBy(pairs[..|pairs| - 1]) + Above(pairs[|pairs| - 1].0)
  }

  ghost predicate Listed(inputs: Inputs, scope: Scope, path: Path) {
    path in scope.disposable ||
    match Find(inputs.checkout, path)
    case None => false
    case Some(node) => Clear(scope, path, node)
  }

  /** When the check finds no obstacle. */
  ghost predicate Releasable(inputs: Inputs) {
    && inputs.sameRepository
    && (forall i :: 0 <= i < |inputs.index| ==>
          inputs.index[i].flag != 'S' && !('a' <= inputs.index[i].flag && inputs.index[i].flag <= 'z'))
    && (inputs.preserved.Some? ==>
          && (forall i :: 0 <= i < |inputs.preserved.value| ==> Intact(inputs, inputs.preserved.value[i]))
          && forall i :: 0 <= i < |inputs.listing| ==>
               Listed(inputs, ScopeOf(inputs.preserved.value, inputs.disposable), inputs.listing[i]))
  }

  /** A retained copy of this path is the same file. */
  ghost predicate HasCopy(inputs: Inputs, path: Path, file: Node)
    requires inputs.preserved.Some?
  {
    exists pair :: pair in inputs.preserved.value && pair.0 == path &&
      pair.1 in inputs.retained && inputs.retained[pair.1] == file
  }

  /** A releasable checkout: every file below a listed path and outside disposable roots has a retained
      copy with the same contents. */
  lemma ReleaseIsComplete(inputs: Inputs, listed: Path, below: Path)
    requires Releasable(inputs) && inputs.preserved.Some?
    requires forall a, b :: inputs.digest(a) == inputs.digest(b) ==> a == b
    requires listed in inputs.listing && Find(inputs.checkout, listed).Some?
    requires Find(Find(inputs.checkout, listed).value, below).Some? &&
             Find(Find(inputs.checkout, listed).value, below).value.File?
    requires Wanted(ScopeOf(inputs.preserved.value, inputs.disposable), listed + below, |listed|)
    ensures HasCopy(inputs, listed + below, Find(Find(inputs.checkout, listed).value, below).value)
  {
    var pairs := inputs.preserved.value;
    var scope, node := ScopeOf(pairs, inputs.disposable), Find(inputs.checkout, listed).value;
    var j :| 0 <= j < |inputs.listing| && inputs.listing[j] == listed;
    assert Listed(inputs, scope, inputs.listing[j]);
    assert (listed + below)[..|listed|] == listed;
    ClearFileIsPreserved(scope, listed, node, below);
    var i :| 0 <= i < |pairs| && pairs[i].0 == listed + below;
    FindThrough(inputs.checkout, listed, below);
    assert Intact(inputs, pairs[i]) && pairs[i] in pairs;
  }

  lemma {:induction false} FindThrough(node: Node, path: Path, below: Path)
    requires Find(node, path).Some?
    ensures Find(node, path + below) == Find(Find(node, path).value, below)
    decreases |path|
  {
    if path == [] {
      assert path + below == below;
    } else {
      assert (path + below)[1..] == path[1..] + below;
      FindThrough(Named(node.entries, path[0]).value, path[1..], below);
    }
  }

  // ------------------------------------------------- the code's own form

  datatype Item = Item(path: Path, node: Node)

  datatype Verdict = Released | Kept(path: Path) | Failed

  function Work(items: seq<Item>): nat {
    if items == [] then 0 else Size(items[0].node) + Work(items[1..])
  }

  ghost predicate AllClear(scope: Scope, items: seq<Item>) {
    forall i :: 0 <= i < |items| ==> Clear(scope, items[i].path, items[i].node)
  }

  lemma {:induction false} WorkAppend(a: seq<Item>, b: seq<Item>)
    ensures Work(a + b) == Work(a) + Work(b)
  {
    if a == [] {
      assert a + b == b;
    } else {
      WorkAppend(a[1..], b);
      assert (a + b)[1..] == a[1..] + b;
    }
  }

  lemma AllClearAppend(scope: Scope, a: seq<Item>, b: seq<Item>)
    ensures AllClear(scope, a + b) <==> AllClear(scope, a) && AllClear(scope, b)
  {
    assert forall i :: 0 <= i < |a| ==> (a + b)[i] == a[i];
    assert forall i :: 0 <= i < |b| ==> (a + b)[|a| + i] == b[i];
  }

  function Items(path: Path, entries: seq<Entry>): seq<Item> {
    if entries == [] then []
    else (if Directory(entries[0].node) then [Item(path + [entries[0].name], entries[0].node)] else []) +
         Items(path, entries[1..])
  }

  /** Each child directory is above a source and each other child is one. */
  ghost predicate Passable(scope: Scope, path: Path, entries: seq<Entry>) {
    forall i :: 0 <= i < |entries| ==>
      path + [entries[i].name] in if Directory(entries[i].node) then scope.covered else scope.sources
  }

  lemma {:induction false} ItemsWork(path: Path, entries: seq<Entry>)
    ensures Work(Items(path, entries)) <= SizeOf(entries)
  {
    if entries != [] {
      ItemsWork(path, entries[1..]);
      var head := if Directory(entries[0].node) then [Item(path + [entries[0].name], entries[0].node)] else [];
      WorkAppend(head, Items(path, entries[1..]));
      assert head != [] ==> head[1..] == [];
    }
  }

  lemma {:induction false} ItemsClear(scope: Scope, path: Path, entries: seq<Entry>)
    requires Passable(scope, path, entries)
    ensures AllClear(scope, Items(path, entries)) <==>
            forall i :: 0 <= i < |entries| ==> ChildClear(scope, path, entries[i])
  {
    if entries != [] {
      var rest := entries[1..];
      assert forall i :: 0 <= i < |rest| ==> rest[i] == entries[i + 1];
      ItemsClear(scope, path, rest);
      var head := if Directory(entries[0].node) then [Item(path + [entries[0].name], entries[0].node)] else [];
      AllClearAppend(scope, head, Items(path, rest));
      assert head != [] ==> (AllClear(scope, head) <==> Clear(scope, head[0].path, head[0].node));
      assert forall i :: 0 < i < |entries| ==> entries[i] == rest[i - 1];
    }
  }

  lemma ClearIsPassable(scope: Scope, path: Path, node: Node)
    requires node.Dir? && path !in scope.disposable && path in scope.covered && Clear(scope, path, node)
    ensures Passable(scope, path, node.entries)
  {
    assert forall i :: 0 <= i < |node.entries| ==> ChildClear(scope, path, node.entries[i]);
  }

  /** A covered directory's children: its directories join the worklist unless a child is not preserved. */
  method PushChildren(scope: Scope, path: Path, entries: seq<Entry>, rest: seq<Item>)
    returns (verdict: Verdict, pending: seq<Item>)
    ensures verdict == Released <==> Passable(scope, path, entries)
    ensures verdict != Failed
    ensures verdict == Released ==> pending == rest + Items(path, entries)
  {
    pending := rest;
    for i := 0 to |entries|
      invariant Passable(scope, path, entries[..i])
      invariant pending + Items(path, entries[i..]) == rest + Items(path, entries)
    {
      var child := path + [entries[i].name];
      assert entries[i..][0] == entries[i] && entries[i..][1..] == entries[i + 1..];
      assert entries[..i + 1] == entries[..i] + [entries[i]];
      if Directory(entries[i].node) {
        if child !in scope.covered {
          return Kept(child), pending;
        }
        pending := pending + [Item(child, entries[i].node)];
      } else if child !in scope.sources {
        return Kept(child), pending;
      }
    }
    assert entries[..|entries|] == entries;
    verdict := Released;
  }

  /** The worklist over the listed paths. */
  method Inspect(scope: Scope, listed: seq<Item>) returns (verdict: Verdict)
    ensures verdict == Released <==> AllClear(scope, listed)
  {
    var pending := listed;
    while pending != []
      invariant AllClear(scope, pending) <==> AllClear(scope, listed)
      decreases Work(pending)
    {
      var last, rest := pending[|pending| - 1], pending[..|pending| - 1];
      assert pending == rest + [last];
      WorkAppend(rest, [last]);
      AllClearAppend(scope, rest, [last]);
      assert AllClear(scope, [last]) <==> Clear(scope, last.path, last.node) by { assert [last][0] == last; }
      assert Work([last]) == Size(last.node) by { assert [last][1..] == []; }
      pending := rest;
      if last.path in scope.disposable {
      } else if !Directory(last.node) {
        if last.path !in scope.sources {
          return Kept(last.path);
        }
      } else if last.path !in scope.covered {
        var empty := EmptyTree(last.node);
        if !empty {
          return Kept(last.path);
        }
      } else if last.node.Sealed? {
        return Failed;
      } else {
        ItemsWork(last.path, last.node.entries);
        WorkAppend(rest, Items(last.path, last.node.entries));
        AllClearAppend(scope, rest, Items(last.path, last.node.entries));
        verdict, pending := PushChildren(scope, last.path, last.node.entries, rest);
        if verdict != Released {
          if Clear(scope, last.path, last.node) {
            ClearIsPassable(scope, last.path, last.node);
          }
          return verdict;
        }
        ItemsClear(scope, last.path, last.node.entries);
      }
    }
    verdict := Released;
  }

  /** The directories above the preserved sources. */
  method Ancestors(path: Path) returns (above: set<Path>)
    ensures above == Above(path)
  {
    above := {};
    var n := |path|;
    while n > 0
      invariant 0 <= n <= |path| && above == set k | n <= k < |path| :: path[..k]
    {
      n := n - 1;
      above := above + {path[..n]};
    }
  }

  /** Each preserved source and its copy are regular files with one digest; what lies above them is covered. */
  method Covered(inputs: Inputs, pairs: seq<(Path, Path)>) returns (verdict: Verdict, covered: set<Path>)
    ensures verdict == Released <==> forall i :: 0 <= i < |pairs| ==> Intact(inputs, pairs[i])
    ensures verdict == Released ==> covered == CoveredBy(pairs)
  {
    covered := {};
    for i := 0 to |pairs|
      invariant covered == CoveredBy(pairs[..i])
      invariant forall k :: 0 <= k < i ==> Intact(inputs, pairs[k])
    {
      var source := Find(inputs.checkout, pairs[i].0);
      if source.None? || pairs[i].1 !in inputs.retained {
        return Failed, covered;
      }
      if !Intact(inputs, pairs[i]) {
        return Kept(pairs[i].0), covered;
      }
      var above := Ancestors(pairs[i].0);
      covered := covered + above;
      assert pairs[..i + 1][..i] == pairs[..i];
    }
    assert pairs[..|pairs|] == pairs;
    verdict := Released;
  }

  /** The listed paths that exist; one that is missing and not disposable fails the check. */
  method Locate(inputs: Inputs, scope: Scope) returns (found: bool, items: seq<Item>)
    ensures found ==> (AllClear(scope, items) <==>
                    forall i :: 0 <= i < |inputs.listing| ==> Listed(inputs, scope, inputs.listing[i]))
    ensures !found ==> exists i :: 0 <= i < |inputs.listing| && !Listed(inputs, scope, inputs.listing[i])
  {
    items := [];
    for i := 0 to |inputs.listing|
      invariant AllClear(scope, items) <==> forall k :: 0 <= k < i ==> Listed(inputs, scope, inputs.listing[k])
    {
      var path := inputs.listing[i];
      match Find(inputs.checkout, path)
      case None =>
        if path !in scope.disposable {
          return false, items;
        }
      case Some(node) =>
        AllClearAppend(scope, items, [Item(path, node)]);
        assert AllClear(scope, [Item(path, node)]) <==> Clear(scope, path, node) by {
          assert [Item(path, node)][0] == Item(path, node);
        }
        items := items + [Item(path, node)];
    }
    found := true;
  }

  /** The obstacle check releases exactly the releasable checkouts. */
  method CleanupObstacle(inputs: Inputs) returns (verdict: Verdict)
    ensures verdict == Released <==> Releasable(inputs)
  {
    if !inputs.sameRepository {
      return Kept([]);
    }
    for i := 0 to |inputs.index|
      invariant forall k :: 0 <= k < i ==> !Hides(inputs.index[k])
    {
      if Hides(inputs.index[i]) {
        return Kept(inputs.index[i].path);
      }
    }
    if inputs.preserved.None? {
      return Released;
    }
    var pairs := inputs.preserved.value;
    var covered;
    verdict, covered := Covered(inputs, pairs);
    if verdict != Released {
      return verdict;
    }
    var scope := Scope(set i | 0 <= i < |pairs| :: pairs[i].0, covered, inputs.disposable);
    var found, items := Locate(inputs, scope);
    if !found {
      return Failed;
    }
    verdict := Inspect(scope, items);
  }

  // ------------------------------------------- what a clear path is

  /** Every directory names each entry once. */
  predicate Tidy(node: Node)
    decreases node
  {
    node.Dir? ==>
      && (forall i, j :: 0 <= i < j < |node.entries| ==> node.entries[i].name != node.entries[j].name)
      && forall i :: 0 <= i < |node.entries| ==> Tidy(node.entries[i].node)
  }

  /** The check looks inside every directory on the way: each is above a source and none is disposable. */
  ghost predicate Entered(scope: Scope, path: Path, below: Path) {
    forall k :: 0 <= k < |below| ==> path + below[..k] in scope.covered && path + below[..k] !in scope.disposable
  }

  /** What is asked of a node that the check comes to. The listed path itself may be disposable, or a tree of at
      most 256 listable directories that holds no source; below it a file must be a source, and a directory must
      be above one, and listable unless it is disposable. */
  ghost predicate Fine(scope: Scope, path: Path, below: Path, node: Node) {
    var here := path + below;
    if below == [] then
      || here in scope.disposable
      || (match node
          case File(_, _) => here in scope.sources
          case Sealed => false
          case Dir(_) => here in scope.covered || (Bare(node) && Dirs(node) <= 256))
    else
      match node
      case File(_, _) => here in scope.sources
      case Sealed => here in scope.covered && here in scope.disposable
      case Dir(_) => here in scope.covered
  }

  ghost predicate FineAt(scope: Scope, path: Path, node: Node, below: Path) {
    Find(node, below).Some? && Entered(scope, path, below) ==> Fine(scope, path, below, Find(node, below).value)
  }

  lemma EnteredCons(scope: Scope, path: Path, name: string, below: Path)
    ensures Entered(scope, path, [name] + below) <==>
      path in scope.covered && path !in scope.disposable && Entered(scope, path + [name], below)
  {
    var longer := [name] + below;
    assert path + longer[..0] == path;
    forall k | 0 < k <= |below| ensures path + longer[..k] == path + [name] + below[..k - 1] {
      assert longer[..k] == [name] + below[..k - 1];
    }
    if Entered(scope, path, longer) {
      forall k | 0 <= k < |below|
        ensures path + [name] + below[..k] in scope.covered && path + [name] + below[..k] !in scope.disposable
      {
        assert path + longer[..k + 1] == path + [name] + below[..k + 1 - 1];
      }
    }
  }

  lemma BelowEntry(scope: Scope, path: Path, node: Node, entry: Entry, below: Path)
    requires node.Dir? && Named(node.entries, entry.name) == Some(entry.node)
    requires path in scope.covered && path !in scope.disposable
    ensures below != [] ==>
              (FineAt(scope, path, node, [entry.name] + below)
               <==> FineAt(scope, path + [entry.name], entry.node, below))
    ensures FineAt(scope, path, node, [entry.name]) <==>
              path + [entry.name] in (if Directory(entry.node) then scope.covered else scope.sources)
              && (entry.node.Sealed? ==> path + [entry.name] in scope.disposable)
  {
    assert ([entry.name] + below)[1..] == below && ([entry.name] + below)[0] == entry.name;
    assert path + ([entry.name] + below) == path + [entry.name] + below;
    EnteredCons(scope, path, entry.name, below);
    assert [entry.name] + [] == [entry.name] && [entry.name][1..] == [];
    EnteredCons(scope, path, entry.name, []);
    assert Entered(scope, path + [entry.name], []) && Entered(scope, path, [entry.name]);
    assert Find(entry.node, []) == Some(entry.node) && Find(node, [entry.name]) == Some(entry.node);
  }

  lemma ChildIff(scope: Scope, path: Path, node: Node, entry: Entry)
    requires node.Dir? && Named(node.entries, entry.name) == Some(entry.node)
    requires path in scope.covered && path !in scope.disposable
    requires Clear(scope, path + [entry.name], entry.node)
         <==> forall below :: FineAt(scope, path + [entry.name], entry.node, below)
    ensures ChildClear(scope, path, entry) <==> forall below :: FineAt(scope, path, node, [entry.name] + below)
  {
    var next := path + [entry.name];
    assert next + [] == next && [entry.name] + [] == [entry.name];
    forall below
      ensures below != [] ==>
                (FineAt(scope, path, node, [entry.name] + below) <==> FineAt(scope, next, entry.node, below))
    {
      BelowEntry(scope, path, node, entry, below);
    }
    BelowEntry(scope, path, node, entry, []);
    if entry.node.File? || entry.node.Sealed? {
      forall below | below != [] ensures FineAt(scope, next, entry.node, below) {}
    }
    if ChildClear(scope, path, entry) {
      forall below ensures FineAt(scope, path, node, [entry.name] + below) {}
    }
    if forall below :: FineAt(scope, path, node, [entry.name] + below) {
      assert FineAt(scope, path, node, [entry.name] + []);
      if Directory(entry.node) {
        forall below ensures FineAt(scope, next, entry.node, below) {
          assert FineAt(scope, path, node, [entry.name] + below);
        }
      }
    }
  }

  /** A path is clear exactly when everything that the check comes to below it is fine. */
  lemma {:induction false} ClearIff(scope: Scope, path: Path, node: Node)
    requires Tidy(node)
    ensures Clear(scope, path, node) <==> forall below :: FineAt(scope, path, node, below)
    decreases node
  {
    assert path + [] == path;
    if path in scope.disposable || !node.Dir? || path !in scope.covered {
      forall below | below != [] ensures FineAt(scope, path, node, below) {
        assert path + below[..0] == path;
      }
      assert FineAt(scope, path, node, []) <==> Clear(scope, path, node);
    } else {
      forall i | 0 <= i < |node.entries|
        ensures ChildClear(scope, path, node.entries[i])
           <==> forall below :: FineAt(scope, path, node, [node.entries[i].name] + below)
      {
        NamedAt(node.entries, i);
        ClearIff(scope, path + [node.entries[i].name], node.entries[i].node);
        ChildIff(scope, path, node, node.entries[i]);
      }
      if Clear(scope, path, node) {
        forall below ensures FineAt(scope, path, node, below) {
          EntryBelow(scope, path, node, below);
        }
      }
    }
  }

  lemma EntryBelow(scope: Scope, path: Path, node: Node, below: Path)
    requires node.Dir? && path in scope.covered
    requires forall i :: 0 <= i < |node.entries| ==>
               forall later :: FineAt(scope, path, node, [node.entries[i].name] + later)
    ensures FineAt(scope, path, node, below)
  {
    if below != [] && Find(node, below).Some? {
      NamedIsEntry(node.entries, below[0]);
      var i :| 0 <= i < |node.entries| && node.entries[i].name == below[0];
      assert FineAt(scope, path, node, [node.entries[i].name] + below[1..]);
      assert [node.entries[i].name] + below[1..] == below;
    } else if below == [] {
      assert path + below == path;
    }
  }

  /** A pair is intact when both ends are regular files with one digest. */
  lemma IntactIff(inputs: Inputs, pair: (Path, Path))
    ensures Intact(inputs, pair) <==>
      exists content, copy ::
        && Find(inputs.checkout, pair.0) == Some(File(true, content))
        && pair.1 in inputs.retained && inputs.retained[pair.1] == File(true, copy)
        && inputs.digest(content) == inputs.digest(copy)
  {}

  /** The covered directories are those above a preserved source, and not the source itself. */
  lemma {:induction false} CoveredIff(pairs: seq<(Path, Path)>, path: Path)
    ensures path in CoveredBy(pairs) <==>
      exists i :: 0 <= i < |pairs| && |path| < |pairs[i].0| && path <= pairs[i].0
  {
    if pairs != [] {
      var last := |pairs| - 1;
      CoveredIff(pairs[..last], path);
      if path in Above(pairs[last].0) {
        assert path <= pairs[last].0;
      }
      if |path| < |pairs[last].0| && path <= pairs[last].0 {
        assert pairs[last].0[..|path|] == path;
      }
      if i :| 0 <= i < |pairs| && |path| < |pairs[i].0| && path <= pairs[i].0 {
        if i < last { assert pairs[..last][i] == pairs[i]; }
      }
    }
  }

  // ------------------------------------------- when every directory is covered

  /** Every directory below holds a preserved source, can be listed, and names each entry once. */
  predicate Filled(scope: Scope, path: Path, node: Node)
    decreases node
  {
    match node
    case File(_, _) => true
    case Sealed => false
    case Dir(entries) =>
      && path in scope.covered
      && (forall i, j :: 0 <= i < j < |entries| ==> entries[i].name != entries[j].name)
      && forall i :: 0 <= i < |entries| ==> FilledEntry(scope, path, entries[i])
  }

  predicate FilledEntry(scope: Scope, path: Path, entry: Entry)
    decreases entry
  {
    Filled(scope, path + [entry.name], entry.node)
  }

  ghost predicate FilesPreserved(scope: Scope, path: Path, node: Node) {
    forall below :: Find(node, below).Some? && Find(node, below).value.File? ==> path + below in scope.sources
  }

  /** A directory of two differently named files is tidy, and filled when it is covered. */
  lemma TwoFiles(scope: Scope, path: Path, a: string, b: string, content: Bytes)
    ensures var node := Dir([Entry(a, File(true, content)), Entry(b, File(true, content))]);
            && (Tidy(node) <==> a != b) && (Filled(scope, path, node) <==> a != b && path in scope.covered)
  {
    var entries := [Entry(a, File(true, content)), Entry(b, File(true, content))];
    assert entries[0].name == a && entries[1].name == b;
    assert Tidy(entries[0].node) && Tidy(entries[1].node);
    assert FilledEntry(scope, path, entries[0]) && FilledEntry(scope, path, entries[1]);
  }

  lemma {:induction false} NamedAt(entries: seq<Entry>, i: nat)
    requires i < |entries| && forall a, b :: 0 <= a < b < |entries| ==> entries[a].name != entries[b].name
    ensures Named(entries, entries[i].name) == Some(entries[i].node)
  {
    if i > 0 {
      assert entries[0].name != entries[i].name;
      NamedAt(entries[1..], i - 1);
    }
  }

  /** Where nothing is disposable and every directory holds a preserved source, a path is clear exactly when
      every file below it is preserved. */
  lemma {:induction false} ClearIffPreserved(scope: Scope, path: Path, node: Node)
    requires Filled(scope, path, node) && scope.disposable == {}
    ensures Clear(scope, path, node) <==> FilesPreserved(scope, path, node)
    decreases node
  {
    if Clear(scope, path, node) {
      forall below | Find(node, below).Some? && Find(node, below).value.File? ensures path + below in scope.sources {
        ClearFileIsPreserved(scope, path, node, below);
      }
    }
    if FilesPreserved(scope, path, node) {
      if node.File? {
        assert Find(node, []).Some? && path + [] == path;
      } else {
        forall i | 0 <= i < |node.entries| ensures ChildClear(scope, path, node.entries[i]) {
          ChildIsClear(scope, path, node, i);
        }
      }
    }
  }

  lemma {:induction false} ChildIsClear(scope: Scope, path: Path, node: Node, i: nat)
    requires node.Dir? && i < |node.entries| && Filled(scope, path, node) && scope.disposable == {}
    requires FilesPreserved(scope, path, node)
    ensures ChildClear(scope, path, node.entries[i])
    decreases node, 0
  {
    var entry := node.entries[i];
    var next := path + [entry.name];
    NamedAt(node.entries, i);
    assert FilledEntry(scope, path, entry);
    forall below | Find(entry.node, below).Some? && Find(entry.node, below).value.File?
      ensures next + below in scope.sources {
      var longer := [entry.name] + below;
      assert longer[1..] == below && Find(node, longer) == Find(entry.node, below);
      assert path + longer == next + below;
    }
    ClearIffPreserved(scope, next, entry.node);
    if entry.node.File? {
      assert next + [] == next;
    }
  }
}
