/** Full verification that an archive covers a snapshot: metadata from one reading, contents from another. */
module Coverage {
  import opened Wrappers

  /** The components of a relative path; the source itself has none. */
  type Path = seq<string>

  type Byte = bv8

  type Bytes = seq<Byte>

  datatype Kind = Directory | Regular | Symlink | Fifo | Device | Socket | OtherKind

  datatype Key = Mode | Uid | Gid | Mtime

  /** What is read of a source path: its status, extended attributes and ACLs, and a symlink's target. */
  datatype Stat = Stat(kind: Kind, fields: map<Key, int>, size: nat, ino: nat, dev: nat, rdev: nat,
                       extended: string, link: Path)

  datatype Tree = Tree(stat: Stat, children: Forest)

  datatype Forest = Nil | Cons(name: string, tree: Tree, rest: Forest)

  /** The ignored roots, and the paths whose directories are disposable browser caches. */
  datatype Policy = Policy(ignored: set<Path>, caches: Path -> bool) {
    predicate Omits(path: Path, stat: Stat) {
      path in ignored || (caches(path) && stat.kind == Directory)
    }
  }

  // ---------------------------------------------------------------- the walk

  datatype Found = Found(entries: map<Path, Stat>, omitted: set<Path>, unarchivable: set<Path>, stubs: set<Path>)

  function Walk(policy: Policy, tree: Tree, path: Path): Found {
    if policy.Omits(path, tree.stat) then Found(map[], {path}, {}, {})
    else if tree.stat.kind == Socket then Found(map[], {}, {path}, {})
    else if tree.stat.kind != Directory then Found(map[path := tree.stat], {}, {}, {})
    else
      var below := WalkChildren(policy, tree.children, path);
      below.(entries := below.entries[path := tree.stat],
             stubs := below.stubs + if path != [] && tree.stat.ino == 2 then {path} else {})
  }

  function WalkChildren(policy: Policy, forest: Forest, path: Path): Found {
    match forest
    case Nil => Found(map[], {}, {}, {})
    case Cons(name, tree, rest) =>
      var first, others := Walk(policy, tree, path + [name]), WalkChildren(policy, rest, path);
      Found(others.entries + first.entries, others.omitted + first.omitted,
            others.unarchivable + first.unarchivable, others.stubs + first.stubs)
  }

  function Child(forest: Forest, name: string): Option<Tree> {
    match forest
    case Nil => None
    case Cons(first, tree, rest) => if first == name then Some(tree) else Child(rest, name)
  }

  function At(tree: Tree, path: Path): Option<Tree>
    decreases |path|
  {
    if path == [] then Some(tree)
    else if tree.stat.kind != Directory then None
    else
      match Child(tree.children, path[0])
      case None => None
      case Some(child) => At(child, path[1..])
  }

  /** A directory names each of its entries once. */
  predicate Named(tree: Tree) {
    NamedAll(tree.children)
  }

  predicate NamedAll(forest: Forest) {
    match forest
    case Nil => true
    case Cons(name, tree, rest) => Child(rest, name) == None && Named(tree) && NamedAll(rest)
  }

  /** The status at `base + below` when neither it nor a directory on the way is omitted. */
  function Canonical(policy: Policy, tree: Tree, base: Path, below: Path): Option<Stat>
    decreases |below|
  {
    if policy.Omits(base, tree.stat) || tree.stat.kind == Socket then None
    else if below == [] then Some(tree.stat)
    else if tree.stat.kind != Directory then None
    else
      match Child(tree.children, below[0])
      case None => None
      case Some(child) => Canonical(policy, child, base + [below[0]], below[1..])
  }

  lemma WalkFinds(policy: Policy, tree: Tree, base: Path, below: Path)
    requires Named(tree)
    ensures var found := Walk(policy, tree, base).entries;
            && (base + below in found <==> Canonical(policy, tree, base, below).Some?)
            && (base + below in found ==> found[base + below] == Canonical(policy, tree, base, below).value)
    decreases tree, 1
  {
    if policy.Omits(base, tree.stat) || tree.stat.kind == Socket {
    } else if below == [] {
      assert base + below == base;
    } else {
      assert (base + below)[|base|] == below[0];
      assert base + below != base;
      if tree.stat.kind == Directory {
        ChildrenFind(policy, tree.children, base, below);
      }
    }
  }

  lemma ChildrenFind(policy: Policy, forest: Forest, base: Path, below: Path)
    requires NamedAll(forest) && below != []
    ensures var found, child := WalkChildren(policy, forest, base).entries, Child(forest, below[0]);
            && (base + below in found <==>
                  child.Some? && Canonical(policy, child.value, base + [below[0]], below[1..]).Some?)
            && (base + below in found ==>
                  found[base + below] == Canonical(policy, child.value, base + [below[0]], below[1..]).value)
    decreases forest, 0
  {
    match forest
    case Nil =>
    case Cons(name, tree, rest) =>
      ChildrenFind(policy, rest, base, below);
      if name == below[0] {
        WalkFinds(policy, tree, base + [name], below[1..]);
        assert base + [name] + below[1..] == base + below;
      } else {
        WalkStaysBelow(policy, tree, base + [name], base + below);
        assert (base + below)[|base|] == below[0] && (base + [name])[|base|] == name;
      }
  }

  lemma WalkStaysBelow(policy: Policy, tree: Tree, base: Path, path: Path)
    ensures var found := Walk(policy, tree, base);
            path in found.entries || path in found.omitted || path in found.stubs ==> base <= path
    decreases tree, 1
  {
    if tree.stat.kind == Directory {
      ChildrenStayBelow(policy, tree.children, base, path);
    }
  }

  lemma ChildrenStayBelow(policy: Policy, forest: Forest, base: Path, path: Path)
    ensures var found := WalkChildren(policy, forest, base);
            path in found.entries || path in found.omitted || path in found.stubs ==> base <= path
    decreases forest, 0
  {
    match forest
    case Nil =>
    case Cons(name, tree, rest) =>
      WalkStaysBelow(policy, tree, base + [name], path);
      ChildrenStayBelow(policy, rest, base, path);
  }

  /** Nothing at `below` or above it is omitted. */
  ghost predicate Kept(policy: Policy, tree: Tree, base: Path, below: Path) {
    forall k :: 0 <= k <= |below| && At(tree, below[..k]).Some? ==>
      !policy.Omits(base + below[..k], At(tree, below[..k]).value.stat)
  }

  lemma KeptBelow(policy: Policy, tree: Tree, child: Tree, base: Path, below: Path)
    requires below != [] && tree.stat.kind == Directory && Child(tree.children, below[0]) == Some(child)
    ensures Kept(policy, tree, base, below) <==>
      !policy.Omits(base, tree.stat) && Kept(policy, child, base + [below[0]], below[1..])
  {
    var name, rest := below[0], below[1..];
    assert base + below[..0] == base;
    forall k | 0 < k <= |below|
      ensures At(tree, below[..k]) == At(child, rest[..k - 1]) && base + below[..k] == base + [name] + rest[..k - 1]
    {
      assert below[..k][1..] == rest[..k - 1];
    }
    if Kept(policy, tree, base, below) {
      assert !policy.Omits(base + below[..0], At(tree, below[..0]).value.stat);
      forall k | 0 <= k <= |rest| && At(child, rest[..k]).Some?
        ensures !policy.Omits(base + [name] + rest[..k], At(child, rest[..k]).value.stat)
      {
        assert At(tree, below[..k + 1]) == At(child, rest[..k + 1 - 1]);
      }
    }
  }

  /** A path is canonical when it names a node that is no socket, and neither it nor a directory above
      it is omitted. */
  lemma {:induction false} CanonicalMeans(policy: Policy, tree: Tree, base: Path, below: Path)
    ensures Canonical(policy, tree, base, below).Some? <==>
      At(tree, below).Some? && At(tree, below).value.stat.kind != Socket && Kept(policy, tree, base, below)
    ensures Canonical(policy, tree, base, below).Some? ==>
              Canonical(policy, tree, base, below).value == At(tree, below).value.stat
    decreases |below|
  {
    assert base + below[..0] == base && below[..0] == [];
    if below == [] {
      assert forall k :: 0 <= k <= |below| ==> below[..k] == [];
    } else if tree.stat.kind == Directory && Child(tree.children, below[0]).Some? {
      var child := Child(tree.children, below[0]).value;
      CanonicalMeans(policy, child, base + [below[0]], below[1..]);
      KeptBelow(policy, tree, child, base, below);
    }
  }

  /** The walk of a source finds exactly its canonical paths, with their status. */
  lemma WalkIsExact(policy: Policy, source: Tree, path: Path)
    requires Named(source)
    ensures var found := Walk(policy, source, []).entries;
            && (path in found <==>
                  && At(source, path).Some? && At(source, path).value.stat.kind != Socket
                  && Kept(policy, source, [], path))
            && (path in found ==> found[path] == At(source, path).value.stat)
  {
    WalkFinds(policy, source, [], path);
    CanonicalMeans(policy, source, [], path);
    assert [] + path == path;
  }

  /** What the walk reports of a path further down is what the walk of that child reports. */
  lemma WalkDescends(policy: Policy, tree: Tree, base: Path, below: Path)
    requires Named(tree) && below != [] && tree.stat.kind == Directory && !policy.Omits(base, tree.stat)
    ensures var found, child := Walk(policy, tree, base), Child(tree.children, below[0]);
            && (base + below in found.omitted <==>
                  child.Some? && base + below in Walk(policy, child.value, base + [below[0]]).omitted)
            && (base + below in found.stubs <==>
                  child.Some? && base + below in Walk(policy, child.value, base + [below[0]]).stubs)
  {
    assert (base + below)[|base|] == below[0] && base + below != base;
    ChildrenDescend(policy, tree.children, base, below);
  }

  lemma {:induction false} ChildrenDescend(policy: Policy, forest: Forest, base: Path, below: Path)
    requires NamedAll(forest) && below != []
    ensures var found, child := WalkChildren(policy, forest, base), Child(forest, below[0]);
            && (base + below in found.omitted <==>
                  child.Some? && base + below in Walk(policy, child.value, base + [below[0]]).omitted)
            && (base + below in found.stubs <==>
                  child.Some? && base + below in Walk(policy, child.value, base + [below[0]]).stubs)
    decreases forest
  {
    match forest
    case Nil =>
    case Cons(name, tree, rest) =>
      ChildrenDescend(policy, rest, base, below);
      WalkStaysBelow(policy, tree, base + [name], base + below);
      assert (base + below)[|base|] == below[0] && (base + [name])[|base|] == name;
  }

  /** The stubs are the directories with inode 2 that the walk keeps, other than the source itself. */
  lemma {:induction false} StubsAre(policy: Policy, tree: Tree, base: Path, below: Path)
    requires Named(tree)
    ensures base + below in Walk(policy, tree, base).stubs <==>
      && Canonical(policy, tree, base, below).Some? && base + below != [] && At(tree, below).Some?
      && At(tree, below).value.stat.kind == Directory && At(tree, below).value.stat.ino == 2
    decreases |below|
  {
    CanonicalMeans(policy, tree, base, below);
    if below == [] {
      assert base + below == base;
      NotAgain(policy, tree.children, base);
    } else if tree.stat.kind == Directory && !policy.Omits(base, tree.stat) {
      WalkDescends(policy, tree, base, below);
      if Child(tree.children, below[0]).Some? {
        NamedChild(tree.children, below[0]);
        StubsAre(policy, Child(tree.children, below[0]).value, base + [below[0]], below[1..]);
        assert base + [below[0]] + below[1..] == base + below;
      }
    }
  }

  lemma NamedChild(forest: Forest, name: string)
    requires NamedAll(forest) && Child(forest, name).Some?
    ensures Named(Child(forest, name).value)
  {}

  /** No path below a directory is the directory. */
  lemma {:induction false} NotAgain(policy: Policy, forest: Forest, base: Path)
    ensures base !in WalkChildren(policy, forest, base).stubs && base !in WalkChildren(policy, forest, base).omitted
    decreases forest
  {
    match forest
    case Nil =>
    case Cons(name, tree, rest) =>
      NotAgain(policy, rest, base);
      WalkStaysBelow(policy, tree, base + [name], base);
  }

  /** The policy omits this path, and nothing above it. */
  ghost predicate OmittedAt(policy: Policy, tree: Tree, base: Path, below: Path) {
    && At(tree, below).Some? && policy.Omits(base + below, At(tree, below).value.stat)
    && forall k :: 0 <= k < |below| && At(tree, below[..k]).Some? ==>
         !policy.Omits(base + below[..k], At(tree, below[..k]).value.stat)
  }

  lemma OmittedBelow(policy: Policy, tree: Tree, child: Tree, base: Path, below: Path)
    requires below != [] && tree.stat.kind == Directory && Child(tree.children, below[0]) == Some(child)
    ensures OmittedAt(policy, tree, base, below) <==>
      !policy.Omits(base, tree.stat) && OmittedAt(policy, child, base + [below[0]], below[1..])
  {
    var name, rest := below[0], below[1..];
    assert base + below[..0] == base && below[..0] == [] && base + [name] + rest == base + below;
    forall k | 0 < k <= |below|
      ensures At(tree, below[..k]) == At(child, rest[..k - 1]) && base + below[..k] == base + [name] + rest[..k - 1]
    {
      assert below[..k][1..] == rest[..k - 1];
    }
    if OmittedAt(policy, tree, base, below) {
      forall k | 0 <= k < |rest| && At(child, rest[..k]).Some?
        ensures !policy.Omits(base + [name] + rest[..k], At(child, rest[..k]).value.stat)
      {
        assert At(tree, below[..k + 1]) == At(child, rest[..k + 1 - 1]);
      }
      assert !policy.Omits(base + below[..0], At(tree, below[..0]).value.stat);
    }
  }

  /** The omitted roots are exactly the topmost paths that the policy omits. */
  lemma {:induction false} OmittedAre(policy: Policy, tree: Tree, base: Path, below: Path)
    requires Named(tree)
    ensures base + below in Walk(policy, tree, base).omitted <==> OmittedAt(policy, tree, base, below)
    decreases |below|
  {
    assert base + below[..0] == base && below[..0] == [];
    if below == [] {
      assert base + below == base;
      NotAgain(policy, tree.children, base);
    } else if policy.Omits(base, tree.stat) {
      assert (base + below)[..|base|] == base && base + below != base;
      assert !OmittedAt(policy, tree, base, below);
    } else if tree.stat.kind == Directory {
      WalkDescends(policy, tree, base, below);
      if Child(tree.children, below[0]).Some? {
        NamedChild(tree.children, below[0]);
        OmittedAre(policy, Child(tree.children, below[0]).value, base + [below[0]], below[1..]);
        OmittedBelow(policy, tree, Child(tree.children, below[0]).value, base, below);
        assert base + [below[0]] + below[1..] == base + below;
      }
    }
  }

  // ------------------------------------------------------- the archive

  /** An entry of the archive's metadata dump. */
  datatype Item = Item(part: bool, path: Path, fields: map<Key, int>, extended: string, source: Option<Path>,
                       size: Option<nat>, rdev: Option<nat>)

  /** An entry of the archive's content listing. */
  datatype Record = Record(path: Path, source: Option<Path>, healthy: bool, sha256: string, size: nat)

  predicate UnderOmitted(found: Found, path: Path) {
    exists root :: root in found.omitted && (path == root || (root != [] && root <= path))
  }

  function KeysFor(found: Found, path: Path): set<Key> {
    if path in found.stubs then {Mode, Uid, Gid} else {Mode, Uid, Gid, Mtime}
  }

  predicate SameMetadata(found: Found, item: Item)
    requires item.path in found.entries
  {
    var stat := found.entries[item.path];
    && (forall key :: key in KeysFor(found, item.path) ==>
          key in item.fields && key in stat.fields && item.fields[key] == stat.fields[key])
    && item.extended == stat.extended
  }

  /** What the archive holds for a path is of the kind the source has there. */
  predicate SameKind(found: Found, item: Item)
    requires item.path in found.entries
  {
    var stat := found.entries[item.path];
    match stat.kind
    case Symlink => item.source == Some(stat.link)
    case Regular =>
      (match item.source
       case Some(target) =>
         target in found.entries && found.entries[target].ino == stat.ino && found.entries[target].dev == stat.dev
       case None => item.size == Some(stat.size))
    case Device => item.rdev == Some(stat.rdev)
    case Fifo | Directory => true
    case Socket | OtherKind => false
  }

  // --------------------------------------------------- the inventory

  /** What has been proved of the entries so far; `deferred` lists the hard links by first appearance. */
  datatype Progress = Progress(seen: set<Path>, hashed: set<Path>, targets: map<Path, Path>, deferred: seq<Path>) {

    function Defer(path: Path, target: Path): Progress {
      this.(targets := targets[path := target], deferred := if path in targets then deferred else deferred + [path])
    }
  }

  const NOTHING := Progress({}, {}, map[], [])

  /** The metadata pass over one item. */
  function ScanItem(found: Found, progress: Progress, item: Item): Option<Progress> {
    if item.part then Some(progress)
    else if item.path !in found.entries then
      if UnderOmitted(found, item.path) then Some(progress) else None
    else if item.path in progress.seen || !SameMetadata(found, item) || !SameKind(found, item) then None
    else
      var marked := progress.(seen := progress.seen + {item.path});
      Some(if found.entries[item.path].kind == Regular && item.source.Some?
           then marked.Defer(item.path, item.source.value) else marked)
  }

  function Scan(found: Found, progress: Progress, items: seq<Item>): Option<Progress>
    decreases |items|
  {
    if items == [] then Some(progress)
    else
      match ScanItem(found, progress, items[0])
      case None => None
      case Some(next) => Scan(found, next, items[1..])
  }

  /** The source's contents by inode, and the digest of contents. */
  datatype Disk = Disk(bytes: (nat, nat) -> Bytes, digest: Bytes -> string) {
    function Of(stat: Stat): Bytes { bytes(stat.ino, stat.dev) }

    ghost predicate Injective() {
      forall a, b :: digest(a) == digest(b) ==> a == b
    }
  }

  /** The content pass over one record. */
  function CompareRecord(found: Found, disk: Disk, progress: Progress, record: Record): Option<Progress> {
    if record.path !in found.entries || found.entries[record.path].kind != Regular then Some(progress)
    else if !record.healthy then None
    else
      match record.source
      case Some(target) => Some(progress.Defer(record.path, target))
      case None =>
        var stat := found.entries[record.path];
        if disk.digest(disk.Of(stat)) != record.sha256 || record.size != stat.size then None
        else Some(progress.(hashed := progress.hashed + {record.path}))
  }

  function Compare(found: Found, disk: Disk, progress: Progress, records: seq<Record>): Option<Progress>
    decreases |records|
  {
    if records == [] then Some(progress)
    else
      match CompareRecord(found, disk, progress, records[0])
      case None => None
      case Some(next) => Compare(found, disk, next, records[1..])
  }

  /** Hard links are proved in their order, each by a target that is proved before it. */
  function Resolve(targets: map<Path, Path>, hashed: set<Path>, links: seq<Path>): Option<set<Path>>
    decreases |links|
  {
    if links == [] then Some(hashed)
    else if links[0] !in targets || targets[links[0]] !in hashed then None
    else Resolve(targets, hashed + {links[0]}, links[1..])
  }

  // -------------------------------------------------- what the passes prove

  /** Every canonical path is in the dump exactly once, with its metadata, and nothing else is there but
      checkpoint parts and what lies under an omitted root. */
  ghost predicate Covers(found: Found, items: seq<Item>) {
    && (forall i :: 0 <= i < |items| && !items[i].part ==>
          items[i].path in found.entries || UnderOmitted(found, items[i].path))
    && (forall i :: 0 <= i < |items| && !items[i].part && items[i].path in found.entries ==>
          SameMetadata(found, items[i]) && SameKind(found, items[i]))
    && Once(found, items)
    && (forall path :: path in found.entries ==> Shown(items, path))
  }

  ghost predicate Once(found: Found, items: seq<Item>) {
    forall i, j :: 0 <= i < j < |items| && !items[i].part && !items[j].part && items[i].path in found.entries ==>
      items[i].path != items[j].path
  }

  ghost predicate Shown(items: seq<Item>, path: Path) {
    exists i :: 0 <= i < |items| && !items[i].part && items[i].path == path
  }

  /** The scan from `progress` succeeds on exactly the items that continue a cover. */
  ghost predicate Continues(found: Found, seen: set<Path>, items: seq<Item>) {
    && (forall i :: 0 <= i < |items| && !items[i].part ==>
          items[i].path in found.entries || UnderOmitted(found, items[i].path))
    && (forall i :: 0 <= i < |items| && !items[i].part && items[i].path in found.entries ==>
          SameMetadata(found, items[i]) && SameKind(found, items[i]) && items[i].path !in seen)
    && Once(found, items)
  }

  function NewlySeen(found: Found, items: seq<Item>): set<Path> {
    set i | 0 <= i < |items| && !items[i].part && items[i].path in found.entries :: items[i].path
  }

  predicate Counts(found: Found, item: Item) {
    !item.part && item.path in found.entries
  }

  lemma ContinuesCons(found: Found, seen: set<Path>, items: seq<Item>)
    requires items != []
    ensures var item := items[0];
            Continues(found, seen, items) <==>
              && (item.part || item.path in found.entries || UnderOmitted(found, item.path))
              && (Counts(found, item) ==> SameMetadata(found, item) && SameKind(found, item) && item.path !in seen)
              && Continues(found, if Counts(found, item) then seen + {item.path} else seen, items[1..])
  {
    var item, rest := items[0], items[1..];
    var later := if Counts(found, item) then seen + {item.path} else seen;
    assert forall i :: 0 <= i < |rest| ==> rest[i] == items[i + 1];
    if Continues(found, seen, items) {
      assert Continues(found, later, rest);
    }
    if Continues(found, later, rest) && (Counts(found, item) ==> item.path !in seen) {
      forall i, j | 0 <= i < j < |items| && !items[i].part && !items[j].part && items[i].path in found.entries
        ensures items[i].path != items[j].path
      {
        assert items[j] == rest[j - 1];
        if i > 0 { assert items[i] == rest[i - 1]; }
      }
      forall i | 0 < i < |items| ensures items[i] == rest[i - 1] {}
    }
  }

  lemma NewlySeenCons(found: Found, items: seq<Item>)
    requires items != []
    ensures NewlySeen(found, items) == NewlySeen(found, items[1..]) +
              if Counts(found, items[0]) then {items[0].path} else {}
  {
    var rest := items[1..];
    forall path | path in NewlySeen(found, items)
      ensures path in NewlySeen(found, rest) + if Counts(found, items[0]) then {items[0].path} else {}
    {
      var i :| 0 <= i < |items| && !items[i].part && items[i].path in found.entries && items[i].path == path;
      if i > 0 { assert rest[i - 1] == items[i]; }
    }
    assert forall i :: 0 <= i < |rest| ==> rest[i] == items[i + 1];
  }

  lemma {:induction false} ScanSucceeds(found: Found, progress: Progress, items: seq<Item>)
    ensures Scan(found, progress, items).Some? <==> Continues(found, progress.seen, items)
    ensures Scan(found, progress, items).Some? ==>
      && Scan(found, progress, items).value.seen == progress.seen + NewlySeen(found, items)
      && Scan(found, progress, items).value.hashed == progress.hashed
    decreases |items|
  {
    if items != [] {
      ContinuesCons(found, progress.seen, items);
      NewlySeenCons(found, items);
      var next := ScanItem(found, progress, items[0]);
      if next.Some? {
        ScanSucceeds(found, next.value, items[1..]);
      }
    }
  }

  /** The metadata pass succeeds, with nothing left unseen, exactly on a covering dump. */
  lemma ScanMeansCovers(found: Found, items: seq<Item>)
    ensures Scan(found, NOTHING, items).Some? && Scan(found, NOTHING, items).value.seen == found.entries.Keys
       <==> Covers(found, items)
  {
    ScanSucceeds(found, NOTHING, items);
    if Covers(found, items) {
      forall path | path in found.entries ensures path in NewlySeen(found, items) {
        assert Shown(items, path);
      }
      assert Continues(found, {}, items);
      assert NewlySeen(found, items) == found.entries.Keys;
    } else if Scan(found, NOTHING, items).Some? && Scan(found, NOTHING, items).value.seen == found.entries.Keys {
      forall path | path in found.entries ensures Shown(items, path) {
        assert path in NewlySeen(found, items);
      }
    }
  }

  // ------------------------------------------------------ content

  /** The whole verification: both passes, the links, and every regular file proved. */
  predicate Verified(found: Found, disk: Disk, items: seq<Item>, records: seq<Record>) {
    match Scan(found, NOTHING, items)
    case None => false
    case Some(scanned) =>
      scanned.seen == found.entries.Keys &&
      match Compare(found, disk, scanned, records)
      case None => false
      case Some(compared) =>
        match Resolve(compared.targets, compared.hashed, compared.deferred)
        case None => false
        case Some(hashed) => forall path :: path in found.entries && found.entries[path].kind == Regular ==>
                 path in hashed
  }

  predicate RegularAt(found: Found, path: Path) {
    path in found.entries && found.entries[path].kind == Regular
  }

  /** What each path of the archive gives back when it is restored. */
  datatype Archive = Archive(restored: Path -> Bytes, items: seq<Item>, records: seq<Record>) {

    /** Of the canonical regular files, the readings report what the archive holds and the same link targets;
        of anything else the listing may say what it likes. */
    ghost predicate Honest(found: Found, disk: Disk) {
      && (forall i :: 0 <= i < |records| && RegularAt(found, records[i].path) ==>
            match records[i].source
            case None => records[i].sha256 == disk.digest(restored(records[i].path))
            case Some(target) => restored(records[i].path) == restored(target))
      && (forall i | 0 <= i < |items| && Counts(found, items[i])
                      && RegularAt(found, items[i].path) && items[i].source.Some? ::
            restored(items[i].path) == restored(items[i].source.value))
      && (forall i :: 0 <= i < |records| && records[i].source.Some? && RegularAt(found, records[i].path) ==>
            Linked(found, records[i].path, records[i].source.value))
    }

    ghost predicate Linked(found: Found, path: Path, target: Path) {
      exists i :: 0 <= i < |items| && Counts(found, items[i]) &&
          items[i].path == path && items[i].source == Some(target)
    }

    /** A path whose restored bytes are the source's. */
    ghost predicate Good(found: Found, disk: Disk, path: Path) {
      path in found.entries && restored(path) == disk.Of(found.entries[path])
    }

    /** A link that passes on its target's contents. */
    ghost predicate PassesOn(found: Found, disk: Disk, path: Path, target: Path) {
      && path in found.entries && restored(path) == restored(target)
      && target in found.entries && disk.Of(found.entries[target]) == disk.Of(found.entries[path])
    }

    ghost predicate Proves(found: Found, disk: Disk, progress: Progress) {
      && (forall path :: path in progress.hashed ==> Good(found, disk, path))
      && (forall path :: path in progress.targets ==> PassesOn(found, disk, path, progress.targets[path]))
    }
  }

  lemma {:induction false} ScanProves(found: Found, disk: Disk, archive: Archive, progress: Progress, n: nat)
    requires archive.Honest(found, disk) && archive.Proves(found, disk, progress) && n <= |archive.items|
    requires Scan(found, progress, archive.items[n..]).Some?
    ensures archive.Proves(found, disk, Scan(found, progress, archive.items[n..]).value)
    decreases |archive.items| - n
  {
    if n < |archive.items| {
      var item := archive.items[n];
      assert archive.items[n..][1..] == archive.items[n + 1..];
      ScanProves(found, disk, archive, ScanItem(found, progress, item).value, n + 1);
    }
  }

  lemma {:induction false} CompareProves(found: Found, disk: Disk, archive: Archive, progress: Progress, n: nat)
    requires archive.Honest(found, disk) && disk.Injective() && Covers(found, archive.items)
    requires archive.Proves(found, disk, progress) && n <= |archive.records|
    requires Compare(found, disk, progress, archive.records[n..]).Some?
    ensures archive.Proves(found, disk, Compare(found, disk, progress, archive.records[n..]).value)
    decreases |archive.records| - n
  {
    if n < |archive.records| {
      var record := archive.records[n];
      assert archive.records[n..][1..] == archive.records[n + 1..];
      if record.path in found.entries && found.entries[record.path].kind == Regular && record.source.Some? {
        var target := record.source.value;
        assert archive.Linked(found, record.path, target);
        var i :| 0 <= i < |archive.items| && Counts(found, archive.items[i]) && archive.items[i].path == record.path
          && archive.items[i].source == Some(target);
        assert SameKind(found, archive.items[i]);
        assert archive.PassesOn(found, disk, record.path, target);
      }
      CompareProves(found, disk, archive, CompareRecord(found, disk, progress, record).value, n + 1);
    }
  }

  lemma {:induction false} ResolveProves(found: Found, disk: Disk, archive: Archive, progress: Progress,
                                        links: seq<Path>)
    requires archive.Proves(found, disk, progress) && Resolve(progress.targets, progress.hashed, links).Some?
    ensures forall path :: path in Resolve(progress.targets, progress.hashed, links).value ==>
              archive.Good(found, disk, path)
    decreases |links|
  {
    if links != [] {
      ResolveProves(found, disk, archive, progress.(hashed := progress.hashed + {links[0]}), links[1..]);
    }
  }

  /** A verified archive restores every regular file of the inventory to the source's bytes, and its dump
      covers the inventory. */
  lemma VerifiedIsSound(found: Found, disk: Disk, archive: Archive)
    requires archive.Honest(found, disk) && disk.Injective()
    requires Verified(found, disk, archive.items, archive.records)
    ensures Covers(found, archive.items)
    ensures forall path :: path in found.entries && found.entries[path].kind == Regular ==>
              archive.Good(found, disk, path)
  {
    ScanMeansCovers(found, archive.items);
    assert archive.items[0..] == archive.items && archive.records[0..] == archive.records;
    var scanned := Scan(found, NOTHING, archive.items).value;
    ScanProves(found, disk, archive, NOTHING, 0);
    CompareProves(found, disk, archive, scanned, 0);
    var compared := Compare(found, disk, scanned, archive.records).value;
    ResolveProves(found, disk, archive, compared, compared.deferred);
  }

  /** Each omitted root is a path of the source that the policy omits. */
  lemma OmittedRootsAreOmitted(policy: Policy, tree: Tree, base: Path, root: Path)
    requires Named(tree) && root in Walk(policy, tree, base).omitted
    ensures base <= root && At(tree, root[|base|..]).Some? && policy.Omits(root, At(tree, root[|base|..]).value.stat)
    decreases tree, 1
  {
    if policy.Omits(base, tree.stat) {
      assert root[|base|..] == [];
    } else {
      ChildrenOmitted(policy, tree.children, base, root);
      assert root[|base|..][1..] == root[|base| + 1..];
    }
  }

  lemma ChildrenOmitted(policy: Policy, forest: Forest, base: Path, root: Path)
    requires NamedAll(forest) && root in WalkChildren(policy, forest, base).omitted
    ensures base < root && Child(forest, root[|base|]).Some?
    ensures var child := Child(forest, root[|base|]).value;
            At(child, root[|base| + 1..]).Some? && policy.Omits(root, At(child, root[|base| + 1..]).value.stat)
    decreases forest, 0
  {
    match forest
    case Cons(name, tree, rest) =>
      if root in Walk(policy, tree, base + [name]).omitted {
        OmittedRootsAreOmitted(policy, tree, base + [name], root);
        assert root[|base|] == (base + [name])[|base|];
      } else {
        ChildrenOmitted(policy, rest, base, root);
      }
  }

  // ------------------------------------------------------ in the source's own terms

  /** A path that the archive must hold: it is in the source, is no socket, and neither it nor anything above it is
      omitted. */
  ghost predicate Required(policy: Policy, source: Tree, path: Path) {
    At(source, path).Some? && At(source, path).value.stat.kind != Socket && Kept(policy, source, [], path)
  }

  /** In the policy's own terms: neither the path nor anything above it is an ignored root, or a directory that the
      cache pattern matches. */
  lemma RequiredIff(policy: Policy, source: Tree, path: Path)
    ensures Required(policy, source, path) <==>
      && At(source, path).Some? && At(source, path).value.stat.kind != Socket
      && forall k :: 0 <= k <= |path| && At(source, path[..k]).Some? ==>
           && path[..k] !in policy.ignored
           && !(policy.caches(path[..k]) && At(source, path[..k]).value.stat.kind == Directory)
  {
    forall k | 0 <= k <= |path| ensures [] + path[..k] == path[..k] {}
  }

  /** The item has this field of the source. */
  predicate Has(item: Item, stat: Stat, key: Key) {
    key in item.fields && key in stat.fields && item.fields[key] == stat.fields[key]
  }

  /** The item is what the source has at its path: mode, owner and group, the mtime unless the path is a nested
      subvolume's stub, extended attributes and ACLs, and by kind the link target, the size, the file that it is a
      link to or the device. */
  ghost predicate Faithful(policy: Policy, source: Tree, item: Item)
    requires At(source, item.path).Some?
  {
    var stat := At(source, item.path).value.stat;
    && Has(item, stat, Mode) && Has(item, stat, Uid) && Has(item, stat, Gid) && item.extended == stat.extended
    && (Has(item, stat, Mtime) || (item.path != [] && stat.kind == Directory && stat.ino == 2))
    && stat.kind != OtherKind
    && (stat.kind == Symlink ==> item.source == Some(stat.link))
    && (stat.kind == Device ==> item.rdev == Some(stat.rdev))
    && (stat.kind == Regular && item.source == None ==> item.size == Some(stat.size))
    && (stat.kind == Regular && item.source.Some? ==>
          && Required(policy, source, item.source.value)
          && At(source, item.source.value).value.stat.ino == stat.ino
          && At(source, item.source.value).value.stat.dev == stat.dev)
  }

  /** The path lies at or below a topmost one that the policy omits; below the source itself nothing does. */
  ghost predicate Excused(policy: Policy, source: Tree, path: Path) {
    exists k :: 0 <= k <= |path| && OmittedAt(policy, source, [], path[..k]) && (k == 0 ==> path == [])
  }

  lemma FoundIff(policy: Policy, source: Tree, path: Path)
    requires Named(source)
    ensures var found := Walk(policy, source, []);
            && (path in found.entries <==> Required(policy, source, path))
            && (path in found.entries ==> found.entries[path] == At(source, path).value.stat)
            && (path in found.stubs <==>
                  && Required(policy, source, path) && path != []
                  && At(source, path).value.stat.kind == Directory && At(source, path).value.stat.ino == 2)
            && (path in found.omitted <==> OmittedAt(policy, source, [], path))
  {
    WalkIsExact(policy, source, path);
    StubsAre(policy, source, [], path);
    CanonicalMeans(policy, source, [], path);
    OmittedAre(policy, source, [], path);
    assert [] + path == path;
  }

  lemma FaithfulIff(policy: Policy, source: Tree, item: Item)
    requires Named(source) && item.path in Walk(policy, source, []).entries && At(source, item.path).Some?
    ensures var found := Walk(policy, source, []);
            SameMetadata(found, item) && SameKind(found, item) <==> Faithful(policy, source, item)
  {
    FoundIff(policy, source, item.path);
    if item.source.Some? {
      FoundIff(policy, source, item.source.value);
    }
    var found := Walk(policy, source, []);
    assert {Mode, Uid, Gid} <= KeysFor(found, item.path);
    assert Mtime in KeysFor(found, item.path) <==> item.path !in found.stubs;
  }

  lemma ExcusedIff(policy: Policy, source: Tree, path: Path)
    requires Named(source)
    ensures UnderOmitted(Walk(policy, source, []), path) <==> Excused(policy, source, path)
  {
    var found := Walk(policy, source, []);
    if UnderOmitted(found, path) {
      var root :| root in found.omitted && (path == root || (root != [] && root <= path));
      FoundIff(policy, source, root);
      assert path[..|root|] == root;
    }
    if Excused(policy, source, path) {
      var k :| 0 <= k <= |path| && OmittedAt(policy, source, [], path[..k]) && (k == 0 ==> path == []);
      FoundIff(policy, source, path[..k]);
    }
  }

  /** Every required path is in the dump exactly once and faithfully, and nothing else is there but checkpoint parts
      and what is excused. */
  ghost predicate CoversSource(policy: Policy, source: Tree, items: seq<Item>) {
    && (forall i :: 0 <= i < |items| && !items[i].part ==>
          if Required(policy, source, items[i].path) then Faithful(policy, source, items[i])
          else Excused(policy, source, items[i].path))
    && (forall i, j | 0 <= i < j < |items| && !items[i].part && !items[j].part
                      && Required(policy, source, items[i].path) :: items[i].path != items[j].path)
    && (forall path :: Required(policy, source, path) ==> Shown(items, path))
  }

  /** The walk and the metadata pass accept exactly the dumps that cover the source. */
  lemma CoversIff(policy: Policy, source: Tree, items: seq<Item>)
    requires Named(source)
    ensures Covers(Walk(policy, source, []), items) <==> CoversSource(policy, source, items)
  {
    var found := Walk(policy, source, []);
    forall path ensures path in found.entries <==> Required(policy, source, path) {
      FoundIff(policy, source, path);
    }
    forall i | 0 <= i < |items|
      ensures UnderOmitted(found, items[i].path) <==> Excused(policy, source, items[i].path)
      ensures items[i].path in found.entries ==>
                (SameMetadata(found, items[i]) && SameKind(found, items[i]) <==> Faithful(policy, source, items[i]))
    {
      ExcusedIff(policy, source, items[i].path);
      if items[i].path in found.entries {
        FaithfulIff(policy, source, items[i]);
      }
    }
  }

  /** If full verification of a source succeeds: every path of the source that is no socket and not omitted
      appears in the archive exactly once, with the source's own fields, and as a regular file restores to the
      source's bytes; and the archive holds nothing else but parts and what lies under an omitted root. */
  lemma FullVerificationIsSound(policy: Policy, source: Tree, disk: Disk, archive: Archive)
    requires Named(source) && disk.Injective() && archive.Honest(Walk(policy, source, []), disk)
    requires Verified(Walk(policy, source, []), disk, archive.items, archive.records)
    ensures CoversSource(policy, source, archive.items)
    ensures forall path | Required(policy, source, path) && At(source, path).value.stat.kind == Regular ::
              archive.restored(path) == disk.Of(At(source, path).value.stat)
  {
    var found := Walk(policy, source, []);
    VerifiedIsSound(found, disk, archive);
    CoversIff(policy, source, archive.items);
    forall path | Required(policy, source, path) && At(source, path).value.stat.kind == Regular
      ensures archive.restored(path) == disk.Of(At(source, path).value.stat)
    {
      FoundIff(policy, source, path);
      assert archive.Good(found, disk, path);
    }
  }

  /** What the content pass demands of one record of a regular canonical path. */
  predicate Passes(found: Found, disk: Disk, record: Record) {
    RegularAt(found, record.path) ==>
      record.healthy && (record.source.None? ==>
        record.sha256 == disk.digest(disk.Of(found.entries[record.path])) &&
        record.size == found.entries[record.path].size)
  }

  /** The paths that a listing compares directly. */
  function Compared(found: Found, records: seq<Record>): set<Path> {
    set i | 0 <= i < |records| && RegularAt(found, records[i].path) && records[i].source.None? :: records[i].path
  }

  lemma ComparedCons(found: Found, records: seq<Record>)
    requires records != []
    ensures Compared(found, records) == Compared(found, records[1..])
      + if RegularAt(found, records[0].path) && records[0].source.None? then {records[0].path} else {}
  {
    var rest := records[1..];
    assert forall i :: 0 < i < |records| ==> records[i] == rest[i - 1];
    forall path | path in Compared(found, records)
      ensures path in Compared(found, rest) +
              if RegularAt(found, records[0].path) && records[0].source.None? then {records[0].path} else {}
    {
      var i :| 0 <= i < |records| && RegularAt(found, records[i].path) &&
            records[i].source.None? && records[i].path == path;
      if i > 0 { assert rest[i - 1].path == path; }
    }
    forall path | path in Compared(found, rest) ensures path in Compared(found, records) {
      var i :| 0 <= i < |rest| && RegularAt(found, rest[i].path) && rest[i].source.None? && rest[i].path == path;
      assert records[i + 1].path == path;
    }
  }

  /** The content pass succeeds exactly when every record of a regular file is healthy and, unless it is a link,
      has the source's digest and size; it proves just the files it compares. */
  lemma {:induction false} ComparisonMeans(found: Found, disk: Disk, progress: Progress, records: seq<Record>)
    ensures Compare(found, disk, progress, records).Some? <==>
            forall i :: 0 <= i < |records| ==> Passes(found, disk, records[i])
    ensures Compare(found, disk, progress, records).Some? ==>
      Compare(found, disk, progress, records).value.hashed == progress.hashed + Compared(found, records)
    decreases |records|
  {
    if records == [] {
      assert progress.hashed + Compared(found, records) == progress.hashed;
    } else {
      var rest := records[1..];
      assert records == [records[0]] + rest;
      assert forall i :: 0 <= i < |rest| ==> rest[i] == records[i + 1];
      ComparedCons(found, records);
      var next := CompareRecord(found, disk, progress, records[0]);
      if next.Some? {
        ComparisonMeans(found, disk, next.value, rest);
        assert forall i :: 0 < i < |records| ==> records[i] == rest[i - 1];
      } else {
        assert !Passes(found, disk, records[0]);
      }
    }
  }

  // ------------------------------------------------------ links

  function ItemLink(found: Found, item: Item): seq<(Path, Path)> {
    if Counts(found, item) && RegularAt(found, item.path) && item.source.Some?
      then [(item.path, item.source.value)] else []
  }

  function RecordLink(found: Found, record: Record): seq<(Path, Path)> {
    if RegularAt(found, record.path) && record.source.Some? then [(record.path, record.source.value)] else []
  }

  /** The links that the dump and then the listing name for regular files, in the order they are met. */
  function ItemLinks(found: Found, items: seq<Item>): seq<(Path, Path)> {
    if items == [] then [] else ItemLink(found, items[0]) + ItemLinks(found, items[1..])
  }

  function RecordLinks(found: Found, records: seq<Record>): seq<(Path, Path)> {
    if records == [] then [] else RecordLink(found, records[0]) + RecordLinks(found, records[1..])
  }

  function LinksOf(found: Found, items: seq<Item>, records: seq<Record>): seq<(Path, Path)> {
    ItemLinks(found, items) + RecordLinks(found, records)
  }

  /** The target of a link is the last one named for it. */
  function Targets(links: seq<(Path, Path)>): map<Path, Path> {
    if links == [] then map[]
    else
      var last := links[|links| - 1];
      Targets(links[..|links| - 1])[last.0 := last.1]
  }

  /** Linked paths, each where it is named first. */
  function Firsts(links: seq<(Path, Path)>): seq<Path> {
    if links == [] then []
    else
      var before, last := links[..|links| - 1], links[|links| - 1];
      Firsts(before) + if last.0 in Targets(before) then [] else [last.0]
  }

  /** The progress knows these links. */
  ghost predicate Knows(progress: Progress, links: seq<(Path, Path)>) {
    progress.targets == Targets(links) && progress.deferred == Firsts(links)
  }

  lemma DeferKnows(progress: Progress, links: seq<(Path, Path)>, path: Path, target: Path)
    requires Knows(progress, links)
    ensures Knows(progress.Defer(path, target), links + [(path, target)])
  {
    assert (links + [(path, target)])[..|links|] == links;
  }

  lemma ItemKnows(found: Found, progress: Progress, item: Item, links: seq<(Path, Path)>)
    requires Knows(progress, links) && ScanItem(found, progress, item).Some?
    ensures Knows(ScanItem(found, progress, item).value, links + ItemLink(found, item))
  {
    if ItemLink(found, item) == [] {
      assert links + [] == links;
    } else {
      DeferKnows(progress.(seen := progress.seen + {item.path}), links, item.path, item.source.value);
    }
  }

  lemma RecordKnows(found: Found, disk: Disk, progress: Progress, record: Record, links: seq<(Path, Path)>)
    requires Knows(progress, links) && CompareRecord(found, disk, progress, record).Some?
    ensures Knows(CompareRecord(found, disk, progress, record).value, links + RecordLink(found, record))
  {
    if RecordLink(found, record) == [] {
      assert links + [] == links;
    } else {
      DeferKnows(progress, links, record.path, record.source.value);
    }
  }

  lemma Reassociate<T>(a: seq<T>, b: seq<T>, c: seq<T>)
    ensures a + b + c == a + (b + c)
  {}

  lemma {:induction false} ScanKnows(found: Found, progress: Progress, items: seq<Item>, links: seq<(Path, Path)>)
    requires Knows(progress, links) && Scan(found, progress, items).Some?
    ensures Knows(Scan(found, progress, items).value, links + ItemLinks(found, items))
    decreases |items|
  {
    if items == [] {
      assert links + [] == links;
    } else {
      ItemKnows(found, progress, items[0], links);
      ScanKnows(found, ScanItem(found, progress, items[0]).value, items[1..], links + ItemLink(found, items[0]));
      Reassociate(links, ItemLink(found, items[0]), ItemLinks(found, items[1..]));
    }
  }

  lemma {:induction false} CompareKnows(found: Found, disk: Disk, progress: Progress, records: seq<Record>,
                                        links: seq<(Path, Path)>)
    requires Knows(progress, links) && Compare(found, disk, progress, records).Some?
    ensures Knows(Compare(found, disk, progress, records).value, links + RecordLinks(found, records))
    decreases |records|
  {
    if records == [] {
      assert links + [] == links;
    } else {
      RecordKnows(found, disk, progress, records[0], links);
      CompareKnows(found, disk, CompareRecord(found, disk, progress, records[0]).value, records[1..],
                   links + RecordLink(found, records[0]));
      Reassociate(links, RecordLink(found, records[0]), RecordLinks(found, records[1..]));
    }
  }

  /** Each link's target is proved directly or is a link that comes before it. */
  ghost predicate InOrder(targets: map<Path, Path>, hashed: set<Path>, links: seq<Path>) {
    forall i :: 0 <= i < |links| ==>
      links[i] in targets && (targets[links[i]] in hashed || targets[links[i]] in links[..i])
  }

  lemma PrefixOfRest(links: seq<Path>, i: nat)
    requires i < |links| - 1
    ensures links[1..][i] == links[i + 1] && links[..i + 1] == [links[0]] + links[1..][..i]
  {}

  lemma InOrderTail(targets: map<Path, Path>, hashed: set<Path>, links: seq<Path>)
    requires links != [] && InOrder(targets, hashed, links)
    ensures links[0] in targets && targets[links[0]] in hashed && InOrder(targets, hashed + {links[0]}, links[1..])
  {
    assert links[0] in targets && links[..0] == [];
    var rest := links[1..];
    forall i | 0 <= i < |rest|
      ensures rest[i] in targets && (targets[rest[i]] in hashed + {links[0]} || targets[rest[i]] in rest[..i])
    {
      PrefixOfRest(links, i);
      assert links[i + 1] in targets;
    }
  }

  lemma InOrderCons(targets: map<Path, Path>, hashed: set<Path>, links: seq<Path>)
    requires links != [] && links[0] in targets && targets[links[0]] in hashed
    requires InOrder(targets, hashed + {links[0]}, links[1..])
    ensures InOrder(targets, hashed, links)
  {
    var rest := links[1..];
    forall i | 0 <= i < |links|
      ensures links[i] in targets && (targets[links[i]] in hashed || targets[links[i]] in links[..i])
    {
      if i > 0 {
        PrefixOfRest(links, i - 1);
        assert rest[i - 1] in targets;
      }
    }
  }

  lemma {:induction false} ResolveIff(targets: map<Path, Path>, hashed: set<Path>, links: seq<Path>)
    ensures Resolve(targets, hashed, links)
         == if InOrder(targets, hashed, links) then Some(hashed + set path | path in links) else None
    decreases |links|
  {
    if links == [] {
      assert hashed + (set path | path in links) == hashed;
    } else {
      if InOrder(targets, hashed, links) {
        InOrderTail(targets, hashed, links);
      } else if links[0] in targets && targets[links[0]] in hashed &&
             InOrder(targets, hashed + {links[0]}, links[1..]) {
        InOrderCons(targets, hashed, links);
      }
      ResolveIff(targets, hashed + {links[0]}, links[1..]);
      assert links == [links[0]] + links[1..];
      assert hashed + {links[0]} + (set path | path in links[1..]) == hashed + (set path | path in links);
    }
  }

  /** Verification succeeds exactly when the dump covers the inventory, every record of a regular file is healthy
      and has the source's digest and size unless it is a link, every link comes after what it links to, and every
      regular file is compared or linked. */
  lemma VerifiedIff(found: Found, disk: Disk, items: seq<Item>, records: seq<Record>)
    ensures var links := LinksOf(found, items, records);
      Verified(found, disk, items, records) <==>
        && Covers(found, items)
        && (forall i :: 0 <= i < |records| ==> Passes(found, disk, records[i]))
        && InOrder(Targets(links), Compared(found, records), Firsts(links))
        && forall path :: RegularAt(found, path) ==> path in Compared(found, records) || path in Firsts(links)
  {
    ScanMeansCovers(found, items);
    if Scan(found, NOTHING, items).Some? {
      var scanned := Scan(found, NOTHING, items).value;
      ScanSucceeds(found, NOTHING, items);
      ComparisonMeans(found, disk, scanned, records);
      if Compare(found, disk, scanned, records).Some? {
        PassesKnow(found, disk, items, records);
        var compared := Compare(found, disk, scanned, records).value;
        ResolveIff(compared.targets, compared.hashed, compared.deferred);
      }
    }
  }

  lemma PassesKnow(found: Found, disk: Disk, items: seq<Item>, records: seq<Record>)
    requires Scan(found, NOTHING, items).Some? && Compare(found, disk, Scan(found, NOTHING, items).value, records).Some?
    ensures Knows(Compare(found, disk, Scan(found, NOTHING, items).value, records).value,
                  LinksOf(found, items, records))
  {
    ScanKnows(found, NOTHING, items, []);
    assert [] + ItemLinks(found, items) == ItemLinks(found, items);
    CompareKnows(found, disk, Scan(found, NOTHING, items).value, records, ItemLinks(found, items));
  }

  lemma {:induction false} FirstsAndTargets(links: seq<(Path, Path)>, path: Path)
    ensures path in Targets(links) <==> path in Firsts(links)
    ensures path in Targets(links) <==> exists i :: 0 <= i < |links| && links[i].0 == path
    ensures path in Targets(links) ==> (path, Targets(links)[path]) in links
  {
    if links != [] {
      var last := |links| - 1;
      FirstsAndTargets(links[..last], path);
      assert links == links[..last] + [links[last]];
      assert links[last] in links;
    }
  }

  /** With links only to files that the listing compares, in whatever order, verification succeeds exactly when
      the dump covers, every record agrees and every regular file is compared or linked. */
  lemma VerifiedWithDirectLinks(found: Found, disk: Disk, items: seq<Item>, records: seq<Record>)
    requires forall link :: link in LinksOf(found, items, records) ==> link.1 in Compared(found, records)
    ensures var links := LinksOf(found, items, records);
      Verified(found, disk, items, records) <==>
        && Covers(found, items)
        && (forall i :: 0 <= i < |records| ==> Passes(found, disk, records[i]))
        && forall path :: RegularAt(found, path) ==>
             path in Compared(found, records) || exists i :: 0 <= i < |links| && links[i].0 == path
  {
    var links := LinksOf(found, items, records);
    VerifiedIff(found, disk, items, records);
    forall path ensures path in Firsts(links) <==> exists i :: 0 <= i < |links| && links[i].0 == path {
      FirstsAndTargets(links, path);
    }
    forall i | 0 <= i < |Firsts(links)|
      ensures Firsts(links)[i] in Targets(links) && Targets(links)[Firsts(links)[i]] in Compared(found, records)
    {
      FirstsAndTargets(links, Firsts(links)[i]);
    }
  }

  /** From this path at most `n` links, each named by the archive, lead to a file that the listing compares. */
  ghost predicate Reaches(links: seq<(Path, Path)>, compared: set<Path>, path: Path, n: nat)
    decreases n
  {
    || path in compared
    || (n > 0 && exists i :: 0 <= i < |links| && links[i].0 == path && Reaches(links, compared, links[i].1, n - 1))
  }

  lemma {:induction false} ReachesFurther(links: seq<(Path, Path)>, compared: set<Path>, path: Path, n: nat)
    requires Reaches(links, compared, path, n)
    ensures Reaches(links, compared, path, n + 1)
    decreases n
  {
    if path !in compared {
      var i :| 0 <= i < |links| && links[i].0 == path && Reaches(links, compared, links[i].1, n - 1);
      ReachesFurther(links, compared, links[i].1, n - 1);
    }
  }

  lemma LinkReaches(links: seq<(Path, Path)>, compared: set<Path>, order: seq<Path>, n: nat)
    requires n < |order| && InOrder(Targets(links), compared, order)
    requires forall i :: 0 <= i < n ==> Reaches(links, compared, order[i], n)
    ensures Reaches(links, compared, order[n], n + 1)
  {
    var target := Targets(links)[order[n]];
    FirstsAndTargets(links, order[n]);
    var k :| 0 <= k < |links| && links[k] == (order[n], target);
    if target in order[..n] {
      var j :| 0 <= j < n && order[..n][j] == target;
      assert order[j] == target;
    }
    assert Reaches(links, compared, links[k].1, n);
  }

  lemma {:induction false} InOrderReaches(links: seq<(Path, Path)>, compared: set<Path>, order: seq<Path>, n: nat)
    requires n <= |order| && InOrder(Targets(links), compared, order)
    ensures forall i :: 0 <= i < n ==> Reaches(links, compared, order[i], n)
    decreases n
  {
    if n > 0 {
      InOrderReaches(links, compared, order, n - 1);
      LinkReaches(links, compared, order, n - 1);
      forall i | 0 <= i < n - 1 ensures Reaches(links, compared, order[i], n) {
        ReachesFurther(links, compared, order[i], n - 1);
      }
    }
  }

  /** Whatever the archive holds: if verification succeeds, every regular file is compared directly, or a chain of
      links that the archive names, no longer than there are linked files, leads from it to a compared file. */
  lemma VerifiedReachesCompared(found: Found, disk: Disk, items: seq<Item>, records: seq<Record>, path: Path)
    requires Verified(found, disk, items, records) && RegularAt(found, path)
    ensures var links := LinksOf(found, items, records);
            Reaches(links, Compared(found, records), path, |Firsts(links)|)
  {
    var links := LinksOf(found, items, records);
    VerifiedIff(found, disk, items, records);
    InOrderReaches(links, Compared(found, records), Firsts(links), |Firsts(links)|);
    if path !in Compared(found, records) {
      var i :| 0 <= i < |Firsts(links)| && Firsts(links)[i] == path;
    }
  }

  const FIELDS: map<Key, int> := map[Mode := 1, Uid := 2, Gid := 3, Mtime := 4]

  const EVERYTHING := Policy({}, (_: Path) => false)

  function DirectoryStat(): Stat { Stat(Directory, FIELDS, 0, 6, 1, 0, "", []) }

  function FileStat(size: nat): Stat { Stat(Regular, FIELDS, size, 7, 1, 0, "", []) }

  /** A directory that holds one file under two names. */
  function TwoNames(a: string, b: string, size: nat): Tree {
    Tree(DirectoryStat(), Cons(a, Tree(FileStat(size), Nil), Cons(b, Tree(FileStat(size), Nil), Nil)))
  }

  lemma TwoNamesWalk(a: string, b: string, size: nat)
    requires a != b
    ensures Named(TwoNames(a, b, size))
    ensures Walk(EVERYTHING, TwoNames(a, b, size), [])
         == Found(map[[] := DirectoryStat(), [a] := FileStat(size), [b] := FileStat(size)], {}, {}, {})
  {
    var leaf := Tree(FileStat(size), Nil);
    var second := Cons(b, leaf, Nil);
    var none: Found := Found(map[], {}, {}, {});
    assert [] + [a] == [a] && [] + [b] == [b];
    assert Walk(EVERYTHING, leaf, [a]) == Found(map[[a] := FileStat(size)], {}, {}, {});
    assert Walk(EVERYTHING, leaf, [b]) == Found(map[[b] := FileStat(size)], {}, {}, {});
    assert WalkChildren(EVERYTHING, Nil, []) == none;
    assert WalkChildren(EVERYTHING, second, []) == Found(map[[b] := FileStat(size)], {}, {}, {});
    assert WalkChildren(EVERYTHING, Cons(a, leaf, second), [])
        == Found(map[[a] := FileStat(size), [b] := FileStat(size)], {}, {}, {});
    assert Child(second, a) == None && Child(Nil, b) == None;
    assert NamedAll(Nil) && Named(leaf) && NamedAll(second);
  }

  /** How an archive lists it: the directory's record carries no digest and the second name is a link. */
  function TwoNamesArchive(a: string, b: string, disk: Disk, bytes: Bytes): Archive {
    Archive((_: Path) => bytes,
            [Item(false, [], FIELDS, "", None, None, None), Item(false, [a], FIELDS, "", None, Some(|bytes|), None),
             Item(false, [b], FIELDS, "", Some([a]), None, None)],
            [Record([], None, true, "", 0), Record([a], None, true, disk.digest(bytes), |bytes|),
             Record([b], Some([a]), true, "", 0)])
  }

  lemma TwoNamesLinks(a: string, b: string, disk: Disk, bytes: Bytes, found: Found)
    requires a != b && found == Walk(EVERYTHING, TwoNames(a, b, |bytes|), [])
    ensures var archive := TwoNamesArchive(a, b, disk, bytes);
            && LinksOf(found, archive.items, archive.records) == [([b], [a]), ([b], [a])]
            && Compared(found, archive.records) == {[a]}
  {
    TwoNamesWalk(a, b, |bytes|);
    var items, records := TwoNamesArchive(a, b, disk, bytes).items, TwoNamesArchive(a, b, disk, bytes).records;
    assert items[1..] == [items[1], items[2]] && items[1..][1..] == [items[2]];
    assert ItemLinks(found, []) == [] && ItemLinks(found, [items[2]]) == [([b], [a])] by {
      assert [items[2]][1..] == [];
    }
    assert ItemLinks(found, items[1..]) == [([b], [a])];
    assert records[1..] == [records[1], records[2]] && records[1..][1..] == [records[2]];
    assert RecordLinks(found, [records[2]]) == [([b], [a])] by { assert [records[2]][1..] == []; }
    assert RecordLinks(found, records[1..]) == [([b], [a])];
    assert records[1].path in Compared(found, records);
  }

  lemma TwoNamesMatch(a: string, b: string, disk: Disk, bytes: Bytes, found: Found, i: nat)
    requires a != b && found == Walk(EVERYTHING, TwoNames(a, b, |bytes|), []) && i < 3
    ensures var item := TwoNamesArchive(a, b, disk, bytes).items[i];
            && item.path == [[], [a], [b]][i] && item.path in found.entries
            && SameMetadata(found, item) && SameKind(found, item)
  {
    TwoNamesWalk(a, b, |bytes|);
  }

  lemma TwoNamesCovers(a: string, b: string, disk: Disk, bytes: Bytes, found: Found)
    requires a != b && found == Walk(EVERYTHING, TwoNames(a, b, |bytes|), [])
    ensures Covers(found, TwoNamesArchive(a, b, disk, bytes).items)
  {
    var items := TwoNamesArchive(a, b, disk, bytes).items;
    forall i | 0 <= i < 3
      ensures items[i].path == [[], [a], [b]][i] && items[i].path in found.entries
      ensures SameMetadata(found, items[i]) && SameKind(found, items[i])
    {
      TwoNamesMatch(a, b, disk, bytes, found, i);
    }
    assert found.entries.Keys == {[], [a], [b]} by { TwoNamesWalk(a, b, |bytes|); }
    forall path | path in found.entries ensures Shown(items, path) {
      assert items[0].path == [] && items[1].path == [a] && items[2].path == [b];
    }
  }

  lemma TwoNamesPasses(a: string, b: string, disk: Disk, bytes: Bytes, found: Found)
    requires a != b && disk.bytes(7, 1) == bytes && found == Walk(EVERYTHING, TwoNames(a, b, |bytes|), [])
    ensures forall i :: 0 <= i < 3 ==> Passes(found, disk, TwoNamesArchive(a, b, disk, bytes).records[i])
    ensures forall path :: RegularAt(found, path) ==> path == [a] || path == [b]
  {
    TwoNamesWalk(a, b, |bytes|);
  }

  lemma TwoNamesHonest(a: string, b: string, disk: Disk, bytes: Bytes, found: Found)
    requires a != b && disk.bytes(7, 1) == bytes && found == Walk(EVERYTHING, TwoNames(a, b, |bytes|), [])
    ensures TwoNamesArchive(a, b, disk, bytes).Honest(found, disk)
  {
    TwoNamesWalk(a, b, |bytes|);
    var archive := TwoNamesArchive(a, b, disk, bytes);
    assert archive.items[2].path == [b] && archive.Linked(found, [b], [a]);
  }

  /** What full verification asks for is met: this archive is read honestly, and verification succeeds. */
  lemma LinkedArchiveVerifies(a: string, b: string, disk: Disk, bytes: Bytes)
    requires a != b && disk.bytes(7, 1) == bytes
    ensures var found, archive := Walk(EVERYTHING, TwoNames(a, b, |bytes|), []), TwoNamesArchive(a, b, disk, bytes);
            && archive.Honest(found, disk) && Verified(found, disk, archive.items, archive.records)
  {
    var found, archive := Walk(EVERYTHING, TwoNames(a, b, |bytes|), []), TwoNamesArchive(a, b, disk, bytes);
    TwoNamesPasses(a, b, disk, bytes, found);
    TwoNamesHonest(a, b, disk, bytes, found);
    TwoNamesCovers(a, b, disk, bytes, found);
    TwoNamesLinks(a, b, disk, bytes, found);
    var links := LinksOf(found, archive.items, archive.records);
    assert links[0] == ([b], [a]);
    VerifiedWithDirectLinks(found, disk, archive.items, archive.records);
  }

  // ------------------------------------------------- the code's own form

  datatype Row = Row(stat: Stat, seen: bool, hashed: bool, hardlink: Option<Path>)

  /** The disposable index: a row for each entry, and the linked paths in the order their links first appeared. */
  class Inventory {
    var rows: map<Path, Row>
    var deferred: seq<Path>

    constructor (found: Found)
      ensures Holds(found, NOTHING)
    {
      rows := map path | path in found.entries :: Row(found.entries[path], false, false, None);
      deferred := [];
    }

    ghost predicate Holds(found: Found, progress: Progress)
      reads this
    {
      && rows.Keys == found.entries.Keys && deferred == progress.deferred
      && progress.seen <= rows.Keys && progress.hashed <= rows.Keys && progress.targets.Keys <= rows.Keys
      && forall path :: path in rows ==>
           && rows[path].stat == found.entries[path]
           && (rows[path].seen <==> path in progress.seen)
           && (rows[path].hashed <==> path in progress.hashed)
           && rows[path].hardlink == if path in progress.targets then Some(progress.targets[path]) else None
    }

    method MarkSeen(path: Path, ghost found: Found, ghost progress: Progress) returns (ok: bool)
      requires Holds(found, progress) && path in rows
      modifies this
      ensures ok <==> path !in progress.seen
      ensures Holds(found, progress.(seen := progress.seen + {path}))
    {
      ok := !rows[path].seen;
      rows := rows[path := rows[path].(seen := true)];
    }

    method MarkHashed(path: Path, ghost found: Found, ghost progress: Progress)
      requires Holds(found, progress) && path in rows
      modifies this
      ensures Holds(found, progress.(hashed := progress.hashed + {path}))
    {
      rows := rows[path := rows[path].(hashed := true)];
    }

    method DeferHardlink(path: Path, target: Path, ghost found: Found, ghost progress: Progress)
      requires Holds(found, progress) && path in rows
      modifies this
      ensures Holds(found, progress.Defer(path, target))
    {
      if rows[path].hardlink == None {
        deferred := deferred + [path];
      }
      rows := rows[path := rows[path].(hardlink := Some(target))];
    }

    method RequireMetadata(ghost found: Found, ghost progress: Progress) returns (ok: bool)
      requires Holds(found, progress)
      ensures ok <==> progress.seen == found.entries.Keys
    {
      ok := forall path :: path in rows ==> rows[path].seen;
    }

    /** The links in order, then a look for a regular file that nothing proved. */
    method RequireData(ghost found: Found, ghost progress: Progress) returns (ok: bool)
      requires Holds(found, progress) && forall i :: 0 <= i < |deferred| ==> deferred[i] in progress.targets
      modifies this
      ensures ok <==>
        var hashed := Resolve(progress.targets, progress.hashed, progress.deferred);
        hashed.Some? && forall path :: RegularAt(found, path) ==> path in hashed.value
    {
      ghost var now := progress;
      for i := 0 to |deferred|
        invariant deferred == progress.deferred && Holds(found, now) && now.targets == progress.targets
        invariant Resolve(progress.targets, progress.hashed, deferred) ==
                  Resolve(now.targets, now.hashed, deferred[i..])
      {
        var path := deferred[i];
        var target := rows[path].hardlink.value;
        assert deferred[i..][1..] == deferred[i + 1..];
        if target !in rows || !rows[target].hashed {
          return false;
        }
        MarkHashed(path, found, now);
        now := now.(hashed := now.hashed + {path});
      }
      ok := forall path :: path in rows && rows[path].stat.kind == Regular ==> rows[path].hashed;
    }

    /** One item of the metadata pass. */
    method Check(item: Item, found: Found, ghost progress: Progress) returns (ok: bool, ghost next: Progress)
      requires Holds(found, progress)
      modifies this
      ensures Scan1(found, progress, item, ok, next) && (ok ==> Holds(found, next))
    {
      next := progress;
      if item.part {
        return true, next;
      }
      if item.path !in rows {
        return UnderOmitted(found, item.path), next;
      }
      ok := MarkSeen(item.path, found, progress);
      next := progress.(seen := progress.seen + {item.path});
      if !ok || !SameMetadata(found, item) || !SameKind(found, item) {
        return false, next;
      }
      if rows[item.path].stat.kind == Regular && item.source.Some? {
        DeferHardlink(item.path, item.source.value, found, next);
        next := next.Defer(item.path, item.source.value);
      }
    }

    /** One record of the content pass. */
    method CompareOne(record: Record, found: Found, disk: Disk, ghost progress: Progress)
      returns (ok: bool, ghost next: Progress)
      requires Holds(found, progress)
      modifies this
      ensures Compare1(found, disk, progress, record, ok, next) && (ok ==> Holds(found, next))
    {
      next := progress;
      if record.path !in rows || rows[record.path].stat.kind != Regular {
        return true, next;
      }
      if !record.healthy {
        return false, next;
      }
      if record.source.Some? {
        DeferHardlink(record.path, record.source.value, found, progress);
        return true, progress.Defer(record.path, record.source.value);
      }
      var stat := rows[record.path].stat;
      if disk.digest(disk.Of(stat)) != record.sha256 || record.size != stat.size {
        return false, next;
      }
      MarkHashed(record.path, found, progress);
      ok, next := true, progress.(hashed := progress.hashed + {record.path});
    }
  }

  ghost predicate Scan1(found: Found, progress: Progress, item: Item, ok: bool, next: Progress) {
    ScanItem(found, progress, item) == if ok then Some(next) else None
  }

  ghost predicate Compare1(found: Found, disk: Disk, progress: Progress, record: Record, ok: bool, next: Progress) {
    CompareRecord(found, disk, progress, record) == if ok then Some(next) else None
  }

  /** Every deferred path has a target. */
  ghost predicate Tidy(progress: Progress) {
    forall i :: 0 <= i < |progress.deferred| ==> progress.deferred[i] in progress.targets
  }

  method ScanAll(expected: Inventory, items: seq<Item>, found: Found) returns (ok: bool, ghost progress: Progress)
    requires expected.Holds(found, NOTHING)
    modifies expected
    ensures Scan(found, NOTHING, items) == if ok then Some(progress) else None
    ensures ok ==> expected.Holds(found, progress) && Tidy(progress)
  {
    progress := NOTHING;
    for i := 0 to |items|
      invariant expected.Holds(found, progress) && Tidy(progress)
      invariant Scan(found, NOTHING, items) == Scan(found, progress, items[i..])
    {
      assert items[i..][1..] == items[i + 1..];
      ok, progress := expected.Check(items[i], found, progress);
      if !ok {
        return false, progress;
      }
    }
    ok := true;
  }

  method CompareAll(expected: Inventory, records: seq<Record>, found: Found, disk: Disk, ghost scanned: Progress)
    returns (ok: bool, ghost progress: Progress)
    requires expected.Holds(found, scanned) && Tidy(scanned)
    modifies expected
    ensures Compare(found, disk, scanned, records) == if ok then Some(progress) else None
    ensures ok ==> expected.Holds(found, progress) && Tidy(progress)
  {
    progress := scanned;
    for i := 0 to |records|
      invariant expected.Holds(found, progress) && Tidy(progress)
      invariant Compare(found, disk, scanned, records) == Compare(found, disk, progress, records[i..])
    {
      assert records[i..][1..] == records[i + 1..];
      ok, progress := expected.CompareOne(records[i], found, disk, progress);
      if !ok {
        return false, progress;
      }
    }
    ok := true;
  }

  /** Full verification, reading the dump and then the listing. */
  method VerifyInventory(policy: Policy, source: Tree, disk: Disk, items: seq<Item>,
                         records: seq<Record>) returns (ok: bool)
    ensures ok <==> Verified(Walk(policy, source, []), disk, items, records)
  {
    var found := Walk(policy, source, []);
    var expected := new Inventory(found);
    ghost var scanned, compared;
    ok, scanned := ScanAll(expected, items, found);
    if !ok {
      return false;
    }
    ok := expected.RequireMetadata(found, scanned);
    if !ok {
      return false;
    }
    ok, compared := CompareAll(expected, records, found, disk, scanned);
    if !ok {
      return false;
    }
    ok := expected.RequireData(found, compared);
  }
}
