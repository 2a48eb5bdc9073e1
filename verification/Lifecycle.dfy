/** Snapshots from acquisition to release: receipts, the latest marker, the pending queue and the prune plan. */
module Lifecycle {
  import opened Wrappers

  type Name = string

  type Uuid = string

  /** Native creation identity: generation, then subvolume number. */
  datatype Order = Order(generation: nat, id: nat)

  predicate Le(a: Order, b: Order) {
    a.generation < b.generation || (a.generation == b.generation && a.id <= b.id)
  }

  predicate Before(a: Order, b: Order) {
    Le(a, b) && a != b
  }

  /** The generation decides, and then the subvolume number; every two identities are comparable. */
  lemma OrderIs(a: Order, b: Order)
    ensures Before(a, b) <==> a.generation < b.generation || (a.generation == b.generation && a.id < b.id)
    ensures Le(a, b) <==> !Before(b, a)
  {}

  datatype Details = Details(uuid: Uuid, order: Order)

  /** The fields of an acknowledgement; one written before creation identity was recorded has no order. */
  datatype Receipt = Receipt(archive: Name, snapshot: Name, filesystem: Option<Uuid>, order: Option<Order>,
                             uuid: Uuid, provedArchive: Name, archiveId: string)

  /** An archive's id and the snapshot it was made from. */
  datatype Archive = Archive(id: string, uuid: Uuid)

  /** One volume's snapshot names, archive prefix, alternative suffix and versioned suffixes. */
  datatype Config = Config(glob: Name -> bool, prefix: Name, suffix: Name, versioned: Name -> bool, filesystem: Uuid) {
    predicate Expected(snapshot: Name, archive: Name) {
      var plain := prefix + "-" + snapshot;
      archive == plain || archive == plain + suffix || (plain <= archive && versioned(archive[|plain|..]))
    }
  }

  datatype Row = Row(name: Name, details: Details)

  /** `made` are the identities of every snapshot ever made and `deleted` what release removed, with its receipt. */
  datatype State = State(snapshots: map<Name, Details>, archives: map<Name, Archive>, receipts: map<Name, Receipt>,
                         latest: Option<Receipt>, plan: seq<Row>, made: set<Details>,
                         deleted: seq<(Row, Option<Receipt>)>)

  const INITIAL := State(map[], map[], map[], None, [], {}, [])

  datatype Result<+T> = Ok(value: T) | Refused

  // ------------------------------------------------------- acknowledgements

  /** The snapshot that a marker qualifies; nothing for one without a creation identity. */
  function Verified(config: Config, s: State, marker: Option<Receipt>): Result<Option<Row>> {
    if marker.None? || !config.glob(marker.value.snapshot) then Refused
    else
      var fields := marker.value;
      if fields.order.None? || fields.filesystem.None? then Ok(None)
      else if fields.filesystem.value != config.filesystem then Refused
      else if !config.Expected(fields.snapshot, fields.archive) then Refused
      else if fields.provedArchive != fields.archive || fields.archive !in s.archives
           || s.archives[fields.archive] != Archive(fields.archiveId, fields.uuid) then Refused
      else if fields.snapshot !in s.snapshots
           || s.snapshots[fields.snapshot] != Details(fields.uuid, fields.order.value) then Refused
      else Ok(Some(Row(fields.snapshot, s.snapshots[fields.snapshot])))
  }

  /** Whether the latest marker moves to this snapshot. */
  function ShouldAdvance(config: Config, s: State, snapshot: Name): Result<bool>
    requires snapshot in s.snapshots
  {
    if s.latest.None? || s.latest.value.order.None? || s.latest.value.filesystem != Some(config.filesystem)
       || s.latest.value.snapshot !in s.snapshots then Ok(true)
    else
      var fields := s.latest.value;
      if s.snapshots[fields.snapshot] != Details(fields.uuid, fields.order.value) then Refused
      else Ok(Le(fields.order.value, s.snapshots[snapshot].order))
  }

  // ----------------------------------------------------------- sorted rows

  function Insert(row: Row, rows: seq<Row>): seq<Row> {
    if rows == [] || Before(row.details.order, rows[0].details.order) then [row] + rows
    else [rows[0]] + Insert(row, rows[1..])
  }

  /** Rows in creation order. */
  function Sorted(rows: seq<Row>): seq<Row> {
    if rows == [] then [] else Insert(rows[|rows| - 1], Sorted(rows[..|rows| - 1]))
  }

  ghost predicate Ascending(rows: seq<Row>) {
    forall i, j :: 0 <= i < j < |rows| ==> Le(rows[i].details.order, rows[j].details.order)
  }

  ghost predicate AtLeast(order: Order, rows: seq<Row>) {
    forall i :: 0 <= i < |rows| ==> Le(order, rows[i].details.order)
  }

  lemma AscendingCons(row: Row, rows: seq<Row>)
    ensures Ascending([row] + rows) <==> AtLeast(row.details.order, rows) && Ascending(rows)
  {
    var all := [row] + rows;
    assert forall i :: 0 <= i < |rows| ==> all[i + 1] == rows[i];
    if AtLeast(row.details.order, rows) && Ascending(rows) {
      forall i, j | 0 <= i < j < |all| ensures Le(all[i].details.order, all[j].details.order) {
        assert all[j] == rows[j - 1];
        if i > 0 { assert all[i] == rows[i - 1]; }
      }
    }
    if Ascending(all) {
      forall i | 0 <= i < |rows| ensures Le(row.details.order, rows[i].details.order) {
        assert Le(all[0].details.order, all[i + 1].details.order);
      }
      forall i, j | 0 <= i < j < |rows| ensures Le(rows[i].details.order, rows[j].details.order) {
        assert Le(all[i + 1].details.order, all[j + 1].details.order);
      }
    }
  }

  lemma {:induction false} InsertAtLeast(order: Order, row: Row, rows: seq<Row>)
    requires AtLeast(order, rows) && Le(order, row.details.order)
    ensures AtLeast(order, Insert(row, rows))
  {
    if rows != [] && !Before(row.details.order, rows[0].details.order) {
      InsertAtLeast(order, row, rows[1..]);
    }
  }

  lemma {:induction false} InsertKeeps(row: Row, rows: seq<Row>)
    requires Ascending(rows)
    ensures Ascending(Insert(row, rows)) && multiset(Insert(row, rows)) == multiset(rows) + multiset{row}
  {
    if rows == [] {
    } else {
      var rest := rows[1..];
      assert rows == [rows[0]] + rest;
      AscendingCons(rows[0], rest);
      if Before(row.details.order, rows[0].details.order) {
        assert AtLeast(row.details.order, rows);
        AscendingCons(row, rows);
      } else {
        InsertKeeps(row, rest);
        InsertAtLeast(rows[0].details.order, row, rest);
        AscendingCons(rows[0], Insert(row, rest));
      }
    }
  }

  lemma {:induction false} SortedIs(rows: seq<Row>)
    ensures Ascending(Sorted(rows)) && multiset(Sorted(rows)) == multiset(rows)
  {
    if rows != [] {
      var last := |rows| - 1;
      SortedIs(rows[..last]);
      InsertKeeps(rows[last], Sorted(rows[..last]));
      assert rows == rows[..last] + [rows[last]];
    }
  }

  // ------------------------------------------------- queue and prune plan

  /** The volume's snapshots as a directory listing gives them. */
  ghost predicate Lists(config: Config, s: State, names: seq<Name>) {
    && (forall i :: 0 <= i < |names| ==> names[i] in s.snapshots && config.glob(names[i]))
    && (forall i, j :: 0 <= i < j < |names| ==> names[i] != names[j])
    && (forall name :: name in s.snapshots && config.glob(name) ==> name in names)
  }

  function ReceiptOf(s: State, name: Name): Option<Receipt> {
    if name in s.receipts then Some(s.receipts[name]) else None
  }

  /** Whether a snapshot still waits: it has no receipt of its own, or one that the latest marker has not passed. */
  function Waits(config: Config, s: State, name: Name): Result<bool>
    requires name in s.snapshots
  {
    if name !in s.receipts then Ok(true)
    else if Verified(config, s, ReceiptOf(s, name)) != Ok(Some(Row(name, s.snapshots[name]))) then Refused
    else if ReceiptOf(s, name) == s.latest then Ok(false)
    else ShouldAdvance(config, s, name)
  }

  /** What release may delete: an acknowledged snapshot other than the latest, and not newer than it. */
  function Releases(config: Config, s: State, latest: Row, name: Name): Result<Option<Row>>
    requires name in s.snapshots
  {
    if name == latest.name || name !in s.receipts then Ok(None)
    else
      match Verified(config, s, ReceiptOf(s, name))
      case Ok(Some(row)) =>
        if row.name != name || Before(latest.details.order, row.details.order) then Refused else Ok(Some(row))
      case _ => Refused
  }

  function Pending(config: Config, s: State, names: seq<Name>): Result<seq<Row>>
    requires forall i :: 0 <= i < |names| ==> names[i] in s.snapshots
  {
    if names == [] then Ok([])
    else
      var last := |names| - 1;
      match (Pending(config, s, names[..last]), Waits(config, s, names[last]))
      case (Ok(rows), Ok(waits)) => Ok(if waits then rows + [Row(names[last], s.snapshots[names[last]])] else rows)
      case _ => Refused
  }

  function Releasable(config: Config, s: State, latest: Row, names: seq<Name>): Result<seq<Row>>
    requires forall i :: 0 <= i < |names| ==> names[i] in s.snapshots
  {
    if names == [] then Ok([])
    else
      var last := |names| - 1;
      match (Releasable(config, s, latest, names[..last]), Releases(config, s, latest, names[last]))
      case (Ok(rows), Ok(Some(row))) => Ok(rows + [row])
      case (Ok(rows), Ok(None)) => Ok(rows)
      case _ => Refused
  }

  function PrunePlan(config: Config, s: State, names: seq<Name>): Result<seq<Row>>
    requires forall i :: 0 <= i < |names| ==> names[i] in s.snapshots
  {
    match Verified(config, s, s.latest)
    case Refused => Refused
    case Ok(None) => Ok([])
    case Ok(Some(latest)) =>
      match Releasable(config, s, latest, names)
      case Refused => Refused
      case Ok(rows) => Ok(Sorted(rows))
  }

  /** The first row that no other precedes in reverse order. */
  function Newest(rows: seq<Row>): Row
    requires rows != []
  {
    var last := |rows| - 1;
    if last == 0 then rows[0]
    else
      var best := Newest(rows[..last]);
      if Before(best.details.order, rows[last].details.order) then rows[last] else best
  }

  function Without(rows: seq<Row>, name: Name): seq<Row> {
    if rows == [] then []
    else (if rows[0].name == name then [] else [rows[0]]) + Without(rows[1..], name)
  }

  function Queue(rows: seq<Row>): seq<Row> {
    if rows == [] then [] else [Newest(rows)] + Without(Sorted(rows), Newest(rows).name)
  }

  lemma {:induction false} NewestIs(rows: seq<Row>)
    requires rows != []
    ensures Newest(rows) in rows &&
            forall i :: 0 <= i < |rows| ==> Le(rows[i].details.order, Newest(rows).details.order)
  {
    var last := |rows| - 1;
    if last > 0 {
      NewestIs(rows[..last]);
      assert forall i :: 0 <= i < last ==> rows[..last][i] == rows[i];
    }
  }

  lemma {:induction false} WithoutIs(rows: seq<Row>, name: Name)
    requires Ascending(rows)
    ensures Ascending(Without(rows, name))
    ensures forall row :: multiset(Without(rows, name))[row] == if row.name == name then 0 else multiset(rows)[row]
  {
    if rows != [] {
      var rest := rows[1..];
      assert rows == [rows[0]] + rest;
      AscendingCons(rows[0], rest);
      WithoutIs(rest, name);
      WithoutAtLeast(rows[0].details.order, rest, name);
      AscendingCons(rows[0], Without(rest, name));
      assert [] + Without(rest, name) == Without(rest, name);
    }
  }

  lemma {:induction false} WithoutAtLeast(order: Order, rows: seq<Row>, name: Name)
    requires AtLeast(order, rows)
    ensures AtLeast(order, Without(rows, name))
  {
    if rows != [] {
      WithoutAtLeast(order, rows[1..], name);
    }
  }

  /** Distinct rows of distinct names. */
  ghost predicate Distinct(rows: seq<Row>) {
    forall i, j :: 0 <= i < j < |rows| ==> rows[i].name != rows[j].name
  }

  lemma {:induction false} DistinctCounts(rows: seq<Row>, row: Row)
    requires Distinct(rows) && row in rows
    ensures multiset(rows)[row] == 1
    ensures forall other :: other in rows && other.name == row.name ==> other == row
  {
    var rest := rows[1..];
    assert rows == [rows[0]] + rest;
    if rows[0] == row {
      assert forall i :: 0 <= i < |rest| ==> rest[i] == rows[i + 1];
      assert row !in rest;
    } else {
      assert forall i :: 0 <= i < |rest| ==> rest[i] == rows[i + 1];
      DistinctCounts(rest, row);
    }
  }

  /** The queue holds exactly the pending rows, the newest first and the others in creation order. */
  lemma QueueIs(rows: seq<Row>)
    requires Distinct(rows)
    ensures multiset(Queue(rows)) == multiset(rows)
    ensures rows != [] ==> (forall i :: 0 <= i < |rows| ==> Le(rows[i].details.order, Queue(rows)[0].details.order))
                           && Ascending(Queue(rows)[1..])
  {
    if rows != [] {
      var newest, rest := Newest(rows), Without(Sorted(rows), Newest(rows).name);
      NewestIs(rows);
      SortedIs(rows);
      WithoutIs(Sorted(rows), newest.name);
      DistinctCounts(rows, newest);
      assert Queue(rows)[1..] == rest;
      forall row ensures multiset(Queue(rows))[row] == multiset(rows)[row] {
        assert multiset(Queue(rows)) == multiset{newest} + multiset(rest);
        if row.name == newest.name && row != newest {
          assert row !in rows;
        }
      }
    }
  }

  lemma {:induction false} PendingIs(config: Config, s: State, names: seq<Name>)
    requires forall i :: 0 <= i < |names| ==> names[i] in s.snapshots
    requires forall i, j :: 0 <= i < j < |names| ==> names[i] != names[j]
    requires Pending(config, s, names).Ok?
    ensures var rows := Pending(config, s, names).value;
      && Distinct(rows)
      && forall row :: row in rows <==>
           row.name in names && Waits(config, s, row.name) == Ok(true) && row.details == s.snapshots[row.name]
  {
    if names != [] {
      var last := |names| - 1;
      PendingIs(config, s, names[..last]);
      assert names == names[..last] + [names[last]];
    }
  }

  lemma {:induction false} ReleasableIs(config: Config, s: State, latest: Row, names: seq<Name>)
    requires forall i :: 0 <= i < |names| ==> names[i] in s.snapshots
    requires Releasable(config, s, latest, names).Ok?
    ensures forall row :: row in Releasable(config, s, latest, names).value <==>
      && row.name in names && row.name != latest.name
      && row.name in s.receipts && Verified(config, s, Some(s.receipts[row.name])) == Ok(Some(row))
    ensures forall row :: row in Releasable(config, s, latest, names).value ==>
              Le(row.details.order, latest.details.order)
  {
    if names != [] {
      var last := |names| - 1;
      ReleasableIs(config, s, latest, names[..last]);
      assert names == names[..last] + [names[last]];
    }
  }

  /** A plan holds exactly the acknowledged snapshots other than the latest, in creation order. */
  lemma PlanIs(config: Config, s: State, names: seq<Name>, latest: Row)
    requires forall i :: 0 <= i < |names| ==> names[i] in s.snapshots
    requires Verified(config, s, s.latest) == Ok(Some(latest)) && PrunePlan(config, s, names).Ok?
    ensures Ascending(PrunePlan(config, s, names).value)
    ensures forall row :: row in PrunePlan(config, s, names).value <==>
      && row.name in names && row.name != latest.name
      && row.name in s.receipts && Verified(config, s, Some(s.receipts[row.name])) == Ok(Some(row))
  {
    var rows := Releasable(config, s, latest, names).value;
    ReleasableIs(config, s, latest, names);
    SortedIs(rows);
    forall row ensures row in Sorted(rows) <==> row in rows {
      assert row in Sorted(rows) <==> row in multiset(Sorted(rows));
      assert row in rows <==> row in multiset(rows);
    }
  }

  // ---------------------------------------------------------- the machine

  datatype Action =
    | Acquire(name: Name, details: Details)
    | Create(archive: Name, id: string, snapshot: Name)
    | Acknowledge(snapshot: Name, archive: Name)
    | Advance(snapshot: Name)
    | BeginPrune(names: seq<Name>)
    | PruneNext(busy: bool)
    | Drop

  /** A new snapshot gets a new UUID and a later creation identity than every snapshot before it. */
  predicate Fresh(s: State, details: Details) {
    forall other :: other in s.made ==> other.uuid != details.uuid && Before(other.order, details.order)
  }

  predicate Enumerates(config: Config, s: State, names: seq<Name>) {
    && (forall i :: 0 <= i < |names| ==> names[i] in s.snapshots && config.glob(names[i]))
    && (forall name :: name in s.snapshots && config.glob(name) ==> name in names)
  }

  /** An action that is not enabled, or that the code refuses, leaves the state as it is. */
  function Step(config: Config, s: State, action: Action): State {
    match action
    case Acquire(name, details) =>
      if name !in s.snapshots && Fresh(s, details) then
        s.(snapshots := s.snapshots[name := details], made := s.made + {details})
      else s
    case Create(archive, id, snapshot) =>
      if archive !in s.archives && snapshot in s.snapshots then
        s.(archives := s.archives[archive := Archive(id, s.snapshots[snapshot].uuid)])
      else s
    case Acknowledge(snapshot, archive) =>
      if snapshot in s.snapshots && archive in s.archives && s.archives[archive].uuid == s.snapshots[snapshot].uuid
         && s.plan == [] then
        var details := s.snapshots[snapshot];
        s.(receipts := s.receipts[snapshot := Receipt(archive, snapshot, Some(config.filesystem), Some(details.order),
                                                      details.uuid, archive, s.archives[archive].id)])
      else s
    case Advance(snapshot) =>
      if snapshot in s.snapshots && s.plan == []
         && Verified(config, s, ReceiptOf(s, snapshot)) == Ok(Some(Row(snapshot, s.snapshots[snapshot])))
         && ShouldAdvance(config, s, snapshot) == Ok(true) then
        s.(latest := Some(s.receipts[snapshot]))
      else s
    case BeginPrune(names) =>
      if s.plan == [] && Enumerates(config, s, names) && PrunePlan(config, s, names).Ok? then
        s.(plan := PrunePlan(config, s, names).value)
      else s
    case PruneNext(busy) =>
      if s.plan == [] then s
      else
        var row := s.plan[0];
        if busy then s.(plan := s.plan[1..])
        else if row.name !in s.snapshots || s.snapshots[row.name] != row.details then s.(plan := [])
        else s.(plan := s.plan[1..], snapshots := s.snapshots - {row.name},
                deleted := s.deleted + [(row, ReceiptOf(s, row.name))])
    case Drop => s.(plan := [])
  }

  function Run(config: Config, s: State, actions: seq<Action>): State
    decreases |actions|
  {
    if actions == [] then s else Run(config, Step(config, s, actions[0]), actions[1..])
  }

  /** A receipt that is this snapshot's own: its name, identity and filesystem, and an archive made from it. */
  predicate Matches(config: Config, s: State, receipt: Receipt, row: Row) {
    && receipt.snapshot == row.name && receipt.order == Some(row.details.order) && receipt.uuid == row.details.uuid
    && receipt.filesystem == Some(config.filesystem) && receipt.provedArchive == receipt.archive
    && receipt.archive in s.archives && s.archives[receipt.archive] == Archive(receipt.archiveId, row.details.uuid)
  }

  /** The creation identity of the latest acknowledged snapshot. */
  function LatestOrder(s: State): Option<Order> {
    if s.latest.Some? then s.latest.value.order else None
  }

  predicate NotAfter(a: Option<Order>, b: Option<Order>) {
    a.None? || (b.Some? && Le(a.value, b.value))
  }

  /** What a plan's row is: not the latest, not newer than it, and acknowledged by its own receipt. */
  predicate Planned(config: Config, s: State, row: Row) {
    && s.latest.Some? && row.name != s.latest.value.snapshot && NotAfter(Some(row.details.order), LatestOrder(s))
    && row.name in s.receipts && Matches(config, s, s.receipts[row.name], row)
  }

  ghost predicate Inv(config: Config, s: State) {
    && (forall name :: name in s.snapshots ==> s.snapshots[name] in s.made)
    && (s.latest.Some? ==> s.latest.value.snapshot in s.snapshots
                           && Matches(config, s, s.latest.value,
                                    Row(s.latest.value.snapshot, s.snapshots[s.latest.value.snapshot])))
    && (forall i :: 0 <= i < |s.plan| ==> Planned(config, s, s.plan[i]))
    && (forall i :: 0 <= i < |s.deleted| ==>
          s.deleted[i].1.Some? && Matches(config, s, s.deleted[i].1.value, s.deleted[i].0) &&
            NotAfter(Some(s.deleted[i].0.details.order), LatestOrder(s)))
  }

  lemma BeginPruneKeepsInv(config: Config, s: State, names: seq<Name>)
    requires Inv(config, s) && Enumerates(config, s, names) && PrunePlan(config, s, names).Ok?
    ensures forall i :: 0 <= i < |PrunePlan(config, s, names).value| ==>
              Planned(config, s, PrunePlan(config, s, names).value[i])
  {
    var verified := Verified(config, s, s.latest);
    if verified.value.Some? {
      var latest := verified.value.value;
      var rows := Releasable(config, s, latest, names).value;
      ReleasableIs(config, s, latest, names);
      SortedIs(rows);
      forall i | 0 <= i < |Sorted(rows)| ensures Planned(config, s, Sorted(rows)[i]) {
        assert Sorted(rows)[i] in multiset(Sorted(rows));
        assert Sorted(rows)[i] in rows;
      }
    }
  }

  lemma PruneKeepsInv(config: Config, s: State, busy: bool)
    requires Inv(config, s)
    ensures Inv(config, Step(config, s, PruneNext(busy)))
  {
    var t := Step(config, s, PruneNext(busy));
    if |t.deleted| > |s.deleted| {
      assert Planned(config, s, s.plan[0]);
    }
    assert t.plan != [] ==> forall i :: 0 <= i < |t.plan| ==> t.plan[i] == s.plan[i + 1];
  }

  lemma RecordKeepsInv(config: Config, s: State, action: Action)
    requires Inv(config, s) && !action.PruneNext? && !action.BeginPrune?
    ensures Inv(config, Step(config, s, action))
    ensures NotAfter(LatestOrder(s), LatestOrder(Step(config, s, action)))
  {}

  lemma StepKeepsInv(config: Config, s: State, action: Action)
    requires Inv(config, s)
    ensures Inv(config, Step(config, s, action))
    ensures NotAfter(LatestOrder(s), LatestOrder(Step(config, s, action)))
  {
    match action
    case BeginPrune(names) =>
      if Enumerates(config, s, names) && PrunePlan(config, s, names).Ok? {
        BeginPruneKeepsInv(config, s, names);
      }
    case PruneNext(busy) => PruneKeepsInv(config, s, busy);
    case _ => RecordKeepsInv(config, s, action);
  }

  lemma {:induction false} RunKeepsInv(config: Config, s: State, actions: seq<Action>)
    requires Inv(config, s)
    ensures Inv(config, Run(config, s, actions))
    ensures NotAfter(LatestOrder(s), LatestOrder(Run(config, s, actions)))
    decreases |actions|
  {
    if actions != [] {
      StepKeepsInv(config, s, actions[0]);
      RunKeepsInv(config, Step(config, s, actions[0]), actions[1..]);
    }
  }

  /** In every run, each deleted snapshot had its own receipt: for its name and identity, on this filesystem,
      and for an archive made from it; and it was not newer than the latest acknowledged snapshot. */
  lemma DeletedHadItsReceipt(config: Config, actions: seq<Action>, i: nat)
    requires i < |Run(config, INITIAL, actions).deleted|
    ensures var s := Run(config, INITIAL, actions);
            && s.deleted[i].1.Some? && s.latest.Some? && s.latest.value.order.Some?
            && var (row, receipt) := (s.deleted[i].0, s.deleted[i].1.value);
            && receipt.snapshot == row.name && receipt.order == Some(row.details.order)
            && receipt.uuid == row.details.uuid && receipt.filesystem == Some(config.filesystem)
            && receipt.provedArchive == receipt.archive && receipt.archive in s.archives
            && s.archives[receipt.archive] == Archive(receipt.archiveId, row.details.uuid)
            && Le(row.details.order, s.latest.value.order.value)
  {
    RunKeepsInv(config, INITIAL, actions);
  }

  /** In every run, the snapshot that the latest marker names is there, with the identity the marker records,
      and no plan names it. */
  lemma LatestIsKept(config: Config, actions: seq<Action>)
    requires Run(config, INITIAL, actions).latest.Some?
    ensures var s := Run(config, INITIAL, actions);
            var latest := s.latest.value;
            && latest.snapshot in s.snapshots && latest.order == Some(s.snapshots[latest.snapshot].order)
            && latest.uuid == s.snapshots[latest.snapshot].uuid
            && forall i :: 0 <= i < |s.plan| ==> s.plan[i].name != latest.snapshot
  {
    RunKeepsInv(config, INITIAL, actions);
  }

  /** In every run, the latest marker's creation identity never decreases. */
  lemma LatestNeverDecreases(config: Config, before: seq<Action>, after: seq<Action>)
    ensures var s := Run(config, INITIAL, before);
            var t := Run(config, s, after);
            s.latest.Some? && s.latest.value.order.Some? ==>
              t.latest.Some? && t.latest.value.order.Some? && Le(s.latest.value.order.value, t.latest.value.order.value)
  {
    RunKeepsInv(config, INITIAL, before);
    RunKeepsInv(config, Run(config, INITIAL, before), after);
  }

  /** Publishing an acknowledgement leaves the latest marker at least as new as the snapshot it is for. */
  lemma AdvanceReaches(config: Config, s: State, snapshot: Name)
    requires Inv(config, s) && s.plan == [] && snapshot in s.snapshots
    requires Verified(config, s, ReceiptOf(s, snapshot)) == Ok(Some(Row(snapshot, s.snapshots[snapshot])))
    ensures var t := Step(config, s, Advance(snapshot));
            && t.latest.Some? && t.latest.value.order.Some?
            && Le(s.snapshots[snapshot].order, t.latest.value.order.value)
  {
    assert ShouldAdvance(config, s, snapshot).Ok?;
  }

  // ------------------------------------------------- what the answers mean

  /** The archive names that may stand for a snapshot: the plain one, and it with a suffix of the volume's. */
  ghost predicate NamedFor(config: Config, snapshot: Name, archive: Name) {
    || archive == config.prefix + "-" + snapshot
    || archive == config.prefix + "-" + snapshot + config.suffix
    || exists tail :: config.versioned(tail) && archive == config.prefix + "-" + snapshot + tail
  }

  lemma ExpectedMeans(config: Config, snapshot: Name, archive: Name)
    ensures config.Expected(snapshot, archive) <==> NamedFor(config, snapshot, archive)
  {
    var plain := config.prefix + "-" + snapshot;
    if plain <= archive {
      assert archive == plain + archive[|plain|..];
    }
    forall tail | archive == plain + tail ensures archive[|plain|..] == tail {}
  }

  /** A receipt qualifies the snapshot it names exactly when the snapshot is there with the receipt's identity, on
      this filesystem, and the archive is one of its names and was made from it. */
  ghost predicate Qualifies(config: Config, s: State, receipt: Receipt) {
    && config.glob(receipt.snapshot) && receipt.filesystem == Some(config.filesystem)
    && NamedFor(config, receipt.snapshot, receipt.archive) && receipt.provedArchive == receipt.archive
    && receipt.archive in s.archives && s.archives[receipt.archive] == Archive(receipt.archiveId, receipt.uuid)
    && receipt.snapshot in s.snapshots && receipt.order.Some?
    && s.snapshots[receipt.snapshot] == Details(receipt.uuid, receipt.order.value)
  }

  lemma VerifiedIff(config: Config, s: State, marker: Option<Receipt>, row: Row)
    ensures Verified(config, s, marker) == Ok(Some(row)) <==>
      && marker.Some? && Qualifies(config, s, marker.value) && row.name == marker.value.snapshot
      && row.details == s.snapshots[row.name]
    ensures Verified(config, s, marker) == Ok(None) <==>
      && marker.Some? && config.glob(marker.value.snapshot)
      && (marker.value.order == None || marker.value.filesystem == None)
  {
    if marker.Some? {
      ExpectedMeans(config, marker.value.snapshot, marker.value.archive);
    }
  }

  /** The latest marker says nothing that could be compared: there is none, or it has no creation identity, is of
      another filesystem, or names a missing snapshot. */
  predicate SilentLatest(config: Config, s: State) {
    s.latest == None || s.latest.value.order == None || s.latest.value.filesystem != Some(config.filesystem)
    || s.latest.value.snapshot !in s.snapshots
  }

  /** The latest marker names a snapshot that is there with another identity. */
  predicate ChangedLatest(config: Config, s: State) {
    && !SilentLatest(config, s)
    && s.snapshots[s.latest.value.snapshot] != Details(s.latest.value.uuid, s.latest.value.order.value)
  }

  /** A snapshot waits without a receipt of its own, or with one that the latest marker has not passed. */
  predicate Unpassed(config: Config, s: State, name: Name)
    requires name in s.snapshots
  {
    || name !in s.receipts
    || (&& s.latest != Some(s.receipts[name])
        && (SilentLatest(config, s) || Le(s.latest.value.order.value, s.snapshots[name].order)))
  }

  /** A snapshot whose receipt is not its own, or that meets a changed latest marker. */
  ghost predicate Disqualifies(config: Config, s: State, name: Name)
    requires name in s.snapshots
  {
    && name in s.receipts
    && (|| s.receipts[name].snapshot != name || !Qualifies(config, s, s.receipts[name])
        || (s.latest != Some(s.receipts[name]) && ChangedLatest(config, s)))
  }

  lemma WaitsMeans(config: Config, s: State, name: Name)
    requires name in s.snapshots
    ensures Waits(config, s, name) == Refused <==> Disqualifies(config, s, name)
    ensures Waits(config, s, name).Ok? ==> (Waits(config, s, name).value <==> Unpassed(config, s, name))
  {
    if name in s.receipts {
      VerifiedIff(config, s, Some(s.receipts[name]), Row(name, s.snapshots[name]));
    }
  }

  lemma {:induction false} PendingRefusesIff(config: Config, s: State, names: seq<Name>)
    requires forall i :: 0 <= i < |names| ==> names[i] in s.snapshots
    ensures Pending(config, s, names) == Refused <==> exists name :: name in names && Disqualifies(config, s, name)
  {
    if names != [] {
      var last := |names| - 1;
      PendingRefusesIff(config, s, names[..last]);
      WaitsMeans(config, s, names[last]);
      assert names == names[..last] + [names[last]];
    }
  }

  /** A queue is refused exactly when some snapshot's receipt is not its own, or the latest marker's snapshot has
      changed. Otherwise it holds exactly the snapshots that wait, each once, the newest first and the others in
      creation order. */
  lemma QueueIsThePending(config: Config, s: State, names: seq<Name>)
    requires Lists(config, s, names)
    ensures Pending(config, s, names) == Refused
       <==> exists name :: name in s.snapshots && config.glob(name) && Disqualifies(config, s, name)
    ensures Pending(config, s, names).Ok? ==>
      var queue := Queue(Pending(config, s, names).value);
      && (forall row :: multiset(queue)[row] ==
            if row.name in s.snapshots && config.glob(row.name) && row.details == s.snapshots[row.name]
               && Unpassed(config, s, row.name) then 1 else 0)
      && (queue != [] ==>
            && (forall i :: 0 <= i < |queue| ==> Le(queue[i].details.order, queue[0].details.order))
            && Ascending(queue[1..]))
  {
    PendingRefusesIff(config, s, names);
    if Pending(config, s, names).Ok? {
      var rows := Pending(config, s, names).value;
      PendingIs(config, s, names);
      QueueIs(rows);
      var queue := Queue(rows);
      forall row: Row ensures multiset(queue)[row] ==
        if row.name in s.snapshots && config.glob(row.name) && row.details == s.snapshots[row.name]
           && Unpassed(config, s, row.name) then 1 else 0
      {
        if row in rows {
          DistinctCounts(rows, row);
        }
        if row.name in names {
          WaitsMeans(config, s, row.name);
          assert !Disqualifies(config, s, row.name);
        }
      }
      forall i | 0 <= i < |queue| ensures Le(queue[i].details.order, queue[0].details.order) {
        assert queue[i] in multiset(queue);
        assert queue[i] in rows;
      }
    }
  }

  /** A snapshot that makes release refuse: a receipt that does not qualify it, or that is newer than the latest. */
  ghost predicate Obstructs(config: Config, s: State, latest: Row, name: Name)
    requires name in s.snapshots
  {
    && name != latest.name && name in s.receipts
    && (|| s.receipts[name].snapshot != name || !Qualifies(config, s, s.receipts[name])
        || Before(latest.details.order, s.snapshots[name].order))
  }

  lemma ReleasesMeans(config: Config, s: State, latest: Row, name: Name)
    requires name in s.snapshots
    ensures Releases(config, s, latest, name) == Refused <==> Obstructs(config, s, latest, name)
    ensures Releases(config, s, latest, name).Ok? ==>
              Releases(config, s, latest, name).value
              == if name == latest.name || name !in s.receipts then None else Some(Row(name, s.snapshots[name]))
  {
    if name in s.receipts {
      var receipt := s.receipts[name];
      if receipt.snapshot in s.snapshots {
        VerifiedIff(config, s, Some(receipt), Row(receipt.snapshot, s.snapshots[receipt.snapshot]));
      }
      var verified := Verified(config, s, Some(receipt));
      if verified.Ok? && verified.value.Some? {
        VerifiedIff(config, s, Some(receipt), verified.value.value);
      }
    }
  }

  lemma {:induction false} ReleasableRefusesIff(config: Config, s: State, latest: Row, names: seq<Name>)
    requires forall i :: 0 <= i < |names| ==> names[i] in s.snapshots
    ensures Releasable(config, s, latest, names) == Refused
       <==> exists name :: name in names && Obstructs(config, s, latest, name)
    ensures Releasable(config, s, latest, names).Ok? ==>
      forall row :: row in Releasable(config, s, latest, names).value <==>
        row.name in names && row.name != latest.name && row.name in s.receipts && row.details == s.snapshots[row.name]
  {
    if names != [] {
      var last := |names| - 1;
      ReleasableRefusesIff(config, s, latest, names[..last]);
      ReleasesMeans(config, s, latest, names[last]);
      assert names == names[..last] + [names[last]];
    }
  }

  /** A plan for a qualified latest marker is refused exactly when some other snapshot's receipt is not its own or
      is newer; otherwise it holds every other snapshot that has a receipt. A marker that does not qualify refuses,
      and one without creation identity releases nothing. */
  lemma PlanMeans(config: Config, s: State, names: seq<Name>)
    requires Lists(config, s, names)
    ensures s.latest == None || (!Qualifies(config, s, s.latest.value)
              && !(config.glob(s.latest.value.snapshot)
                   && (s.latest.value.order == None || s.latest.value.filesystem == None)))
            ==> PrunePlan(config, s, names) == Refused
    ensures s.latest.Some? && config.glob(s.latest.value.snapshot)
            && (s.latest.value.order == None || s.latest.value.filesystem == None)
            ==> PrunePlan(config, s, names) == Ok([])
    ensures s.latest.Some? && Qualifies(config, s, s.latest.value) ==>
      var latest := Row(s.latest.value.snapshot, s.snapshots[s.latest.value.snapshot]);
      if exists name :: name in names && Obstructs(config, s, latest, name) then PrunePlan(config, s, names) == Refused
      else
        && PrunePlan(config, s, names).Ok?
        && forall row :: row in PrunePlan(config, s, names).value <==>
             && row.name in s.snapshots && config.glob(row.name) && row.name != latest.name
             && row.name in s.receipts && row.details == s.snapshots[row.name]
  {
    var verified := Verified(config, s, s.latest);
    if s.latest.Some? && s.latest.value.snapshot in s.snapshots {
      VerifiedIff(config, s, s.latest, Row(s.latest.value.snapshot, s.snapshots[s.latest.value.snapshot]));
    }
    if verified.Ok? && verified.value.Some? {
      var latest := verified.value.value;
      VerifiedIff(config, s, s.latest, latest);
      ReleasableRefusesIff(config, s, latest, names);
      var releasable := Releasable(config, s, latest, names);
      if releasable.Ok? {
        SortedIs(releasable.value);
        forall row ensures row in Sorted(releasable.value) <==> row in releasable.value {
          assert row in Sorted(releasable.value) <==> row in multiset(Sorted(releasable.value));
          assert row in releasable.value <==> row in multiset(releasable.value);
        }
      }
    }
  }

  // ------------------------------------------------- what becomes of a snapshot

  /** The backup of a new snapshot, undisturbed: acquired, archived, acknowledged and published. */
  function BackedUp(config: Config, s: State, name: Name, details: Details, archive: Name, id: string): State {
    var created := Step(config, Step(config, s, Acquire(name, details)), Create(archive, id, name));
    Step(config, Step(config, created, Acknowledge(name, archive)), Advance(name))
  }

  /** It leaves the snapshot, its archive, its own receipt, and that receipt as the latest marker. */
  lemma BackupPublishes(config: Config, s: State, name: Name, details: Details, archive: Name, id: string)
    requires Inv(config, s) && s.plan == [] && name !in s.snapshots && archive !in s.archives
    requires forall other :: other in s.made ==> other.uuid != details.uuid && !Le(details.order, other.order)
    requires config.glob(name) && NamedFor(config, name, archive)
    ensures var receipt := Receipt(archive, name, Some(config.filesystem), Some(details.order), details.uuid,
                                   archive, id);
            BackedUp(config, s, name, details, archive, id)
            == s.(snapshots := s.snapshots[name := details], made := s.made + {details},
                  archives := s.archives[archive := Archive(id, details.uuid)],
                  receipts := s.receipts[name := receipt], latest := Some(receipt))
  {
    forall other | other in s.made ensures Before(other.order, details.order) {
      OrderIs(other.order, details.order);
      OrderIs(details.order, other.order);
    }
    var acquired := Step(config, s, Acquire(name, details));
    assert acquired == s.(snapshots := s.snapshots[name := details], made := s.made + {details});
    var created := Step(config, acquired, Create(archive, id, name));
    var receipt := Receipt(archive, name, Some(config.filesystem), Some(details.order), details.uuid, archive, id);
    var acknowledged := Step(config, created, Acknowledge(name, archive));
    assert acknowledged.receipts == s.receipts[name := receipt];
    VerifiedIff(config, acknowledged, Some(receipt), Row(name, details));
    assert ShouldAdvance(config, acknowledged, name) == Ok(true);
  }

  /** Every receipt is its own snapshot's, and names an archive made from it. */
  ghost predicate OwnReceipts(config: Config, s: State) {
    forall name :: name in s.receipts ==>
      var receipt := s.receipts[name];
      && receipt.snapshot == name && receipt.filesystem == Some(config.filesystem) && receipt.order.Some?
      && receipt.provedArchive == receipt.archive && receipt.archive in s.archives
      && s.archives[receipt.archive] == Archive(receipt.archiveId, receipt.uuid)
  }

  lemma StepKeepsOwnReceipts(config: Config, s: State, action: Action)
    requires OwnReceipts(config, s)
    ensures OwnReceipts(config, Step(config, s, action))
  {}

  lemma {:induction false} RunKeepsOwnReceipts(config: Config, s: State, actions: seq<Action>)
    requires OwnReceipts(config, s)
    ensures OwnReceipts(config, Run(config, s, actions))
    decreases |actions|
  {
    if actions != [] {
      StepKeepsOwnReceipts(config, s, actions[0]);
      RunKeepsOwnReceipts(config, Step(config, s, actions[0]), actions[1..]);
    }
  }

  /** In every run each receipt is its own snapshot's and names an archive made from the very snapshot it records. */
  lemma ReceiptsAreOwn(config: Config, actions: seq<Action>, name: Name)
    requires name in Run(config, INITIAL, actions).receipts
    ensures var s := Run(config, INITIAL, actions); var receipt := s.receipts[name];
            && receipt.snapshot == name && receipt.archive in s.archives
            && s.archives[receipt.archive] == Archive(receipt.archiveId, receipt.uuid)
  {
    RunKeepsOwnReceipts(config, INITIAL, actions);
  }

  /** So many deletions that meet no obstacle. */
  function Pruned(config: Config, s: State, n: nat): State
    decreases n
  {
    if n == 0 then s else Pruned(config, Step(config, s, PruneNext(false)), n - 1)
  }

  /** The rows are snapshots as they are. */
  ghost predicate Present(s: State, rows: seq<Row>) {
    Distinct(rows) && forall i :: 0 <= i < |rows| ==>
                        rows[i].name in s.snapshots && s.snapshots[rows[i].name] == rows[i].details
  }

  predicate Names(rows: seq<Row>, name: Name) {
    exists i :: 0 <= i < |rows| && rows[i].name == name
  }

  lemma NamesCons(rows: seq<Row>, name: Name)
    requires rows != []
    ensures Names(rows, name) <==> rows[0].name == name || Names(rows[1..], name)
  {
    if Names(rows, name) && rows[0].name != name {
      var i :| 0 <= i < |rows| && rows[i].name == name;
      assert rows[1..][i - 1].name == name;
    }
    if Names(rows[1..], name) {
      var i :| 0 <= i < |rows| - 1 && rows[1..][i].name == name;
      assert rows[i + 1].name == name;
    }
  }

  lemma DeletesFirst(config: Config, s: State)
    requires s.plan != [] && Present(s, s.plan)
    ensures var next := Step(config, s, PruneNext(false));
            && next == s.(plan := s.plan[1..], snapshots := s.snapshots - {s.plan[0].name}, deleted := next.deleted)
            && |next.deleted| == |s.deleted| + 1 && Present(next, next.plan)
  {
    var next := Step(config, s, PruneNext(false));
    forall i | 0 <= i < |next.plan| ensures next.plan[i] == s.plan[i + 1] {}
  }

  /** An undisturbed plan deletes exactly the snapshots it names, and nothing else changes. */
  lemma {:induction false} PlanIsCarriedOut(config: Config, s: State)
    requires Present(s, s.plan)
    ensures var t := Pruned(config, s, |s.plan|);
            && t == s.(plan := [], snapshots := t.snapshots, deleted := t.deleted)
            && (forall name :: name in t.snapshots <==> name in s.snapshots && !Names(s.plan, name))
            && (forall name :: name in t.snapshots ==> t.snapshots[name] == s.snapshots[name])
            && |t.deleted| == |s.deleted| + |s.plan|
    decreases |s.plan|
  {
    if s.plan != [] {
      var next := Step(config, s, PruneNext(false));
      DeletesFirst(config, s);
      PlanIsCarriedOut(config, next);
      forall name ensures Names(s.plan, name) <==> s.plan[0].name == name || Names(next.plan, name) {
        NamesCons(s.plan, name);
      }
    } else {
      forall name ensures !Names(s.plan, name) {}
    }
  }

  lemma {:induction false} ReleasableDistinct(config: Config, s: State, latest: Row, names: seq<Name>)
    requires forall i :: 0 <= i < |names| ==> names[i] in s.snapshots
    requires forall i, j :: 0 <= i < j < |names| ==> names[i] != names[j]
    requires Releasable(config, s, latest, names).Ok?
    ensures Distinct(Releasable(config, s, latest, names).value)
    ensures forall row :: row in Releasable(config, s, latest, names).value ==>
              row.name in names && row.details == s.snapshots[row.name]
  {
    if names != [] {
      var last := |names| - 1;
      ReleasableDistinct(config, s, latest, names[..last]);
      ReleasesMeans(config, s, latest, names[last]);
      assert names == names[..last] + [names[last]];
    }
  }

  lemma {:induction false} InsertDistinct(row: Row, rows: seq<Row>)
    requires Distinct(rows) && forall i :: 0 <= i < |rows| ==> rows[i].name != row.name
    ensures Distinct(Insert(row, rows))
    ensures forall other :: other in Insert(row, rows) <==> other == row || other in rows
  {
    if rows != [] && !Before(row.details.order, rows[0].details.order) {
      var rest := Insert(row, rows[1..]);
      InsertDistinct(row, rows[1..]);
      forall i | 0 <= i < |rest| ensures rest[i].name != rows[0].name {
        assert rest[i] in rest;
        if rest[i] in rows[1..] {
          var j :| 0 <= j < |rows| - 1 && rows[1..][j] == rest[i];
          assert rows[j + 1].name != rows[0].name;
        }
      }
    }
  }

  lemma {:induction false} SortedDistinct(rows: seq<Row>)
    requires Distinct(rows)
    ensures Distinct(Sorted(rows)) && forall row :: row in Sorted(rows) <==> row in rows
  {
    if rows != [] {
      var last := |rows| - 1;
      var front := Sorted(rows[..last]);
      SortedDistinct(rows[..last]);
      forall i | 0 <= i < |front| ensures front[i].name != rows[last].name {
        assert front[i] in rows[..last];
        var j :| 0 <= j < last && rows[..last][j] == front[i];
        assert rows[j].name != rows[last].name;
      }
      InsertDistinct(rows[last], front);
      assert rows == rows[..last] + [rows[last]];
    }
  }

  /** An undisturbed release that is not refused keeps of the volume exactly the latest snapshot and those without a
      receipt, and touches no other volume. */
  lemma ReleaseKeeps(config: Config, s: State, names: seq<Name>)
    requires s.plan == [] && Lists(config, s, names) && PrunePlan(config, s, names).Ok?
    requires s.latest.Some? && Qualifies(config, s, s.latest.value)
    ensures var t := Pruned(config, Step(config, s, BeginPrune(names)), |PrunePlan(config, s, names).value|);
            forall name :: name in t.snapshots <==>
              && name in s.snapshots
              && (!config.glob(name) || name == s.latest.value.snapshot || name !in s.receipts)
  {
    var plan, planned := PrunePlan(config, s, names).value, Step(config, s, BeginPrune(names));
    var latest := Row(s.latest.value.snapshot, s.snapshots[s.latest.value.snapshot]);
    assert planned == s.(plan := plan);
    PlanMeans(config, s, names);
    VerifiedIff(config, s, s.latest, latest);
    ReleasableDistinct(config, s, latest, names);
    SortedDistinct(Releasable(config, s, latest, names).value);
    assert plan == Sorted(Releasable(config, s, latest, names).value);
    forall i | 0 <= i < |plan|
      ensures plan[i].name in s.snapshots && s.snapshots[plan[i].name] == plan[i].details
    {
      assert plan[i] in plan;
    }
    PlanIsCarriedOut(config, planned);
    forall name ensures Names(plan, name) <==>
      name in s.snapshots && config.glob(name) && name != latest.name && name in s.receipts
    {
      if name in s.snapshots && config.glob(name) && name != latest.name && name in s.receipts {
        assert Row(name, s.snapshots[name]) in plan;
      }
      if Names(plan, name) {
        var i :| 0 <= i < |plan| && plan[i].name == name;
        assert plan[i] in plan;
      }
    }
  }

  /** A busy snapshot is passed over and kept; one that has changed ends the plan. */
  lemma PruneSpares(config: Config, s: State)
    requires s.plan != []
    ensures Step(config, s, PruneNext(true)) == s.(plan := s.plan[1..])
    ensures !Present(s, [s.plan[0]]) ==> Step(config, s, PruneNext(false)) == s.(plan := [])
    ensures Step(config, s, Drop) == s.(plan := [])
  {
    if s.plan[0].name in s.snapshots && s.snapshots[s.plan[0].name] == s.plan[0].details {
      assert Present(s, [s.plan[0]]);
    }
  }

  predicate Acknowledges(action: Action, name: Name) {
    action.Acknowledge? && action.snapshot == name
  }

  lemma {:induction false} UnacknowledgedStays(config: Config, s: State, actions: seq<Action>, name: Name)
    requires Inv(config, s) && name in s.snapshots && name !in s.receipts
    requires forall i :: 0 <= i < |actions| ==> !Acknowledges(actions[i], name)
    ensures var t := Run(config, s, actions);
            name in t.snapshots && t.snapshots[name] == s.snapshots[name] && name !in t.receipts
    decreases |actions|
  {
    if actions != [] {
      assert !Acknowledges(actions[0], name);
      assert s.plan != [] ==> Planned(config, s, s.plan[0]);
      StepKeepsInv(config, s, actions[0]);
      UnacknowledgedStays(config, Step(config, s, actions[0]), actions[1..], name);
    }
  }

  lemma {:induction false} NoReceipt(config: Config, s: State, actions: seq<Action>, name: Name)
    requires name !in s.receipts && forall i :: 0 <= i < |actions| ==> !Acknowledges(actions[i], name)
    ensures name !in Run(config, s, actions).receipts
    decreases |actions|
  {
    if actions != [] {
      assert !Acknowledges(actions[0], name);
      NoReceipt(config, Step(config, s, actions[0]), actions[1..], name);
    }
  }

  /** In every run, a snapshot that was there once and was never acknowledged is still there, and in every queue
      that is not refused. */
  lemma UnacknowledgedIsQueued(config: Config, before: seq<Action>, after: seq<Action>, name: Name, names: seq<Name>)
    requires name in Run(config, INITIAL, before).snapshots && config.glob(name)
    requires forall i :: 0 <= i < |before| ==> !Acknowledges(before[i], name)
    requires forall i :: 0 <= i < |after| ==> !Acknowledges(after[i], name)
    requires var t := Run(config, Run(config, INITIAL, before), after);
             Lists(config, t, names) && Pending(config, t, names).Ok?
    ensures var s := Run(config, INITIAL, before); var t := Run(config, s, after);
            Row(name, s.snapshots[name]) in Queue(Pending(config, t, names).value)
  {
    var s := Run(config, INITIAL, before);
    var t := Run(config, s, after);
    RunKeepsInv(config, INITIAL, before);
    NoReceipt(config, INITIAL, before, name);
    UnacknowledgedStays(config, s, after, name);
    QueueIsThePending(config, t, names);
    assert multiset(Queue(Pending(config, t, names).value))[Row(name, s.snapshots[name])] == 1;
  }

  // ------------------------------------------------- the code's own form

  lemma {:induction false} PendingRefuses(config: Config, s: State, names: seq<Name>, n: nat)
    requires (forall i :: 0 <= i < |names| ==> names[i] in s.snapshots) && n <= |names|
    requires Pending(config, s, names[..n]) == Refused
    ensures Pending(config, s, names) == Refused
  {
    if n < |names| {
      assert names[..|names| - 1][..n] == names[..n];
      PendingRefuses(config, s, names[..|names| - 1], n);
    } else {
      assert names[..n] == names;
    }
  }

  lemma {:induction false} ReleasableRefuses(config: Config, s: State, latest: Row, names: seq<Name>, n: nat)
    requires (forall i :: 0 <= i < |names| ==> names[i] in s.snapshots) && n <= |names|
    requires Releasable(config, s, latest, names[..n]) == Refused
    ensures Releasable(config, s, latest, names) == Refused
  {
    if n < |names| {
      assert names[..|names| - 1][..n] == names[..n];
      ReleasableRefuses(config, s, latest, names[..|names| - 1], n);
    } else {
      assert names[..n] == names;
    }
  }

  method QueuedSnapshots(config: Config, s: State, names: seq<Name>) returns (queue: Result<seq<Row>>)
    requires forall i :: 0 <= i < |names| ==> names[i] in s.snapshots
    ensures queue == match Pending(config, s, names) { case Refused => Refused case Ok(rows) => Ok(Queue(rows)) }
  {
    var pending: seq<Row> := [];
    for i := 0 to |names|
      invariant Pending(config, s, names[..i]) == Ok(pending)
    {
      var name := names[i];
      assert names[..i + 1][..i] == names[..i];
      match Waits(config, s, name)
      case Refused =>
        PendingRefuses(config, s, names, i + 1);
        return Refused;
      case Ok(waits) =>
        if waits {
          pending := pending + [Row(name, s.snapshots[name])];
        }
    }
    assert names[..|names|] == names;
    queue := Ok(Queue(pending));
  }

  method VerifiedPrunePlan(config: Config, s: State, names: seq<Name>) returns (plan: Result<seq<Row>>)
    requires forall i :: 0 <= i < |names| ==> names[i] in s.snapshots
    ensures plan == PrunePlan(config, s, names)
  {
    var verified := Verified(config, s, s.latest);
    if verified.Refused? {
      return Refused;
    }
    if verified.value.None? {
      return Ok([]);
    }
    var latest, releasable: seq<Row> := verified.value.value, [];
    for i := 0 to |names|
      invariant Releasable(config, s, latest, names[..i]) == Ok(releasable)
    {
      assert names[..i + 1][..i] == names[..i];
      match Releases(config, s, latest, names[i])
      case Refused =>
        ReleasableRefuses(config, s, latest, names, i + 1);
        return Refused;
      case Ok(None) =>
      case Ok(Some(row)) => releasable := releasable + [row];
    }
    assert names[..|names|] == names;
    plan := Ok(Sorted(releasable));
  }
}
