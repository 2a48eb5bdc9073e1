/** The pressure pauses as an incremental projection of the event log. */
module PressureReplay {
  import opened Lines
  import opened Wrappers

  datatype Action = Closed | Opened | Released | OwnershipLost | OtherAction

  /** A decoded record: a pressure event, whose group may be missing or not a string, or any other value. */
  datatype Event =
    | Pressure(group: Option<string>, action: Action, owner: Option<string>, signals: seq<string>)
    | OtherEvent

  /** One group's projected pause. */
  datatype Pause = Pause(owner: Option<string>, signals: seq<string>)

  type Pauses = map<string, Pause>

  const OWNER := "agentctl"

  function Apply(pauses: Pauses, event: Event): Pauses {
    if event.OtherEvent? || event.group.None? then pauses
    else
      match event.action
      case Closed => pauses[event.group.value := Pause(event.owner, event.signals)]
      case OtherAction => pauses
      case _ => pauses - {event.group.value}
  }

  function Ours(pauses: Pauses): set<string> {
    set group | group in pauses && pauses[group].owner == Some(OWNER)
  }

  /** A log file: the inode's identity, and its bytes. */
  datatype File = File(device: int, inode: int, content: seq<Byte>)

  datatype Cursor = Cursor(device: int, inode: int, offset: int)

  datatype State = State(pauses: Pauses, cursor: Option<Cursor>)

  datatype Outcome = CaughtUp | Deadline | Unreadable

  /** `parse` decodes one record; `None` is a record that is not valid JSON text. */
  datatype Log = Log(parse: seq<Byte> -> Option<Event>) {

    function ApplyRecord(pauses: Pauses, record: seq<Byte>): Pauses {
      match parse(record)
      case None => pauses
      case Some(event) => Apply(pauses, event)
    }

    function Fold(pauses: Pauses, records: seq<seq<Byte>>): Pauses
      decreases |records|
    {
      if records == [] then pauses else Fold(ApplyRecord(pauses, records[0]), records[1..])
    }

    // ------------------------------------------------- last effective event

    /** What a record does to one group: nothing, or the pause it leaves there. */
    function Effect(record: seq<Byte>, group: string): Option<Option<Pause>> {
      match parse(record)
      case Some(Pressure(Some(g), action, owner, signals)) =>
        if g != group || action == OtherAction then None
        else if action == Closed then Some(Some(Pause(owner, signals)))
        else Some(None)
      case _ => None
    }

    function LastEffect(records: seq<seq<Byte>>, group: string): Option<Option<Pause>> {
      if records == [] then None
      else
        var last := records[|records| - 1];
        if Effect(last, group).Some? then Effect(last, group)
        else LastEffect(records[..|records| - 1], group)
    }

    lemma {:induction false} FoldAppend(pauses: Pauses, records: seq<seq<Byte>>, record: seq<Byte>)
      ensures Fold(pauses, records + [record]) == ApplyRecord(Fold(pauses, records), record)
      decreases |records|
    {
      if records == [] {
        assert [record][1..] == [];
      } else {
        FoldAppend(ApplyRecord(pauses, records[0]), records[1..], record);
        assert (records + [record])[1..] == records[1..] + [record];
      }
    }

    lemma {:induction false} FoldConcat(pauses: Pauses, a: seq<seq<Byte>>, b: seq<seq<Byte>>)
      ensures Fold(pauses, a + b) == Fold(Fold(pauses, a), b)
      decreases |a|
    {
      if a == [] {
        assert a + b == b;
      } else {
        FoldConcat(ApplyRecord(pauses, a[0]), a[1..], b);
        assert (a + b)[1..] == a[1..] + b;
      }
    }

    /** Replay is the last effective event of each group, over what was retained before. */
    lemma {:induction false} FoldIsLastEffective(pauses: Pauses, records: seq<seq<Byte>>, group: string)
      ensures Lookup(Fold(pauses, records), group)
           == match LastEffect(records, group)
              case None => Lookup(pauses, group)
              case Some(pause) => pause
      decreases |records|
    {
      if records != [] {
        var front, last := records[..|records| - 1], records[|records| - 1];
        FoldIsLastEffective(pauses, front, group);
        FoldAppend(pauses, front, last);
        assert front + [last] == records;
      }
    }

    /** Two starting points that differ only where the records decide give one projection. */
    lemma FoldAgree(p: Pauses, q: Pauses, records: seq<seq<Byte>>)
      requires forall group :: LastEffect(records, group).None? ==> Lookup(p, group) == Lookup(q, group)
      ensures Fold(p, records) == Fold(q, records)
    {
      forall group ensures Lookup(Fold(p, records), group) == Lookup(Fold(q, records), group) {
        FoldIsLastEffective(p, records, group);
        FoldIsLastEffective(q, records, group);
      }
      SameLookups(Fold(p, records), Fold(q, records));
    }

    lemma {:induction false} LastEffectConcat(a: seq<seq<Byte>>, b: seq<seq<Byte>>, group: string)
      ensures LastEffect(a + b, group)
           == if LastEffect(b, group).Some? then LastEffect(b, group) else LastEffect(a, group)
      decreases |b|
    {
      if b == [] {
        assert a + b == a;
      } else {
        LastEffectConcat(a, b[..|b| - 1], group);
        assert (a + b)[..|a + b| - 1] == a + b[..|b| - 1];
      }
    }

    /** An event applied before its own record is replayed changes nothing in the end. */
    lemma EarlyApplication(pauses: Pauses, records: seq<seq<Byte>>, record: seq<Byte>)
      ensures Fold(ApplyRecord(pauses, record), records + [record]) == Fold(pauses, records + [record])
    {
      forall group | LastEffect(records + [record], group).None?
        ensures Lookup(ApplyRecord(pauses, record), group) == Lookup(pauses, group)
      {
        LastEffectConcat(records, [record], group);
        assert [record][..0] == [];
      }
      FoldAgree(ApplyRecord(pauses, record), pauses, records + [record]);
    }

    /** Replaying records a projection already contains changes nothing, as after compaction. */
    lemma ReplayAgain(pauses: Pauses, known: seq<seq<Byte>>, later: seq<seq<Byte>>)
      ensures Fold(Fold(pauses, known), known + later) == Fold(pauses, known + later)
    {
      forall group | LastEffect(known + later, group).None?
        ensures Lookup(Fold(pauses, known), group) == Lookup(pauses, group)
      {
        LastEffectConcat(known, later, group);
        FoldIsLastEffective(pauses, known, group);
      }
      FoldAgree(Fold(pauses, known), pauses, known + later);
    }

    // --------------------------------------------------------------- replay

    /** Where the replay starts: at the cursor when it names this inode and lies inside it. */
    function Start(state: State, file: File): nat {
      match state.cursor
      case Some(Cursor(device, inode, offset)) =>
        if device == file.device && inode == file.inode && 0 <= offset <= |file.content| then offset else 0
      case None => 0
    }

    /** The records between the start of a replay and the cursor it leaves. */
    ghost function Passed(previous: State, file: File, next: State): seq<seq<Byte>>
      requires next.cursor.Some? && Start(previous, file) <= next.cursor.value.offset <= |file.content|
    {
      Terminated(file.content[Start(previous, file)..next.cursor.value.offset], NEWLINE)
    }

    /** The cursor stands at the start of a line and exactly the records it passed were applied;
        when the replay caught up, only an unterminated line is left. */
    ghost predicate Replayed(previous: State, file: File, next: State, outcome: Outcome) {
      var content, start := file.content, Start(previous, file);
      && Names(next.cursor, file)
      && start <= next.cursor.value.offset <= |content|
      && AtBoundary(content[start..], next.cursor.value.offset - start)
      && next.pauses == Fold(previous.pauses, Passed(previous, file, next))
      && (outcome == CaughtUp ==> NEWLINE !in content[next.cursor.value.offset..])
    }

    /** One record at a time through the observed size; `patience` is how many the deadline allows. */
    method EventState(previous: State, spool: Option<File>, patience: Option<nat>)
      returns (state: State, outcome: Outcome)
      ensures spool.None? ==> outcome == Unreadable && state == previous
      ensures spool.Some? ==> outcome != Unreadable && Replayed(previous, spool.value, state, outcome)
      ensures outcome == Deadline ==> patience == Some(|Passed(previous, spool.value, state)|)
    {
      if spool.None? {
        return previous, Unreadable;
      }
      var file := spool.value;
      var size := |file.content|;
      var start := Start(previous, file);
      var offset := start;
      var replayed := 0;
      state := State(previous.pauses, Some(Cursor(file.device, file.inode, offset)));
      NothingPassed(previous, file, state);
      while offset < size
        invariant start <= offset <= size
        invariant Replayed(previous, file, state, Deadline) && state.cursor.value.offset == offset
        invariant replayed == |Passed(previous, file, state)|
      {
        var rest := file.content[offset..];
        var line := rest[..LineLength(rest, NEWLINE)];
        if line[|line| - 1] != NEWLINE {
          Unterminated(rest);
          return state, CaughtUp;
        }
        if patience == Some(replayed) {
          return state, Deadline;
        }
        ghost var before := state;
        var pauses := ApplyRecord(state.pauses, line[..|line| - 1]);
        offset := offset + |line|;
        state := State(pauses, Some(Cursor(file.device, file.inode, offset)));
        NextRecord(previous, file, before, line, state);
        replayed := replayed + 1;
      }
      return state, CaughtUp;
    }

    lemma NothingPassed(previous: State, file: File, state: State)
      requires state == State(previous.pauses, Some(Cursor(file.device, file.inode, Start(previous, file))))
      ensures Replayed(previous, file, state, Deadline) && Passed(previous, file, state) == []
    {
      var start := Start(previous, file);
      assert file.content[start..start] == [];
    }

    lemma NextRecord(previous: State, file: File, before: State, line: seq<Byte>, next: State)
      requires Replayed(previous, file, before, Deadline) && before.cursor.value.offset < |file.content|
      requires line == file.content[before.cursor.value.offset..]
                         [..LineLength(file.content[before.cursor.value.offset..], NEWLINE)]
      requires line[|line| - 1] == NEWLINE
      requires next == State(ApplyRecord(before.pauses, line[..|line| - 1]),
                             Some(Cursor(file.device, file.inode, before.cursor.value.offset + |line|)))
      ensures Replayed(previous, file, next, Deadline)
      ensures |Passed(previous, file, next)| == |Passed(previous, file, before)| + 1
    {
      var content, start, offset := file.content, Start(previous, file), before.cursor.value.offset;
      var done := content[start..offset];
      assert content[start..offset + |line|] == done + line;
      SplitPart(done, line, NEWLINE);
      RemainderAtBoundary(content[start..], offset - start);
      assert content[start..][..offset - start] == done;
      assert [] + line[..|line| - 1] == line[..|line| - 1];
      FoldAppend(previous.pauses, Terminated(done, NEWLINE), line[..|line| - 1]);
    }
  }

  /** A last line without its end holds no line break. */
  lemma Unterminated(rest: seq<Byte>)
    requires rest != [] && rest[..LineLength(rest, NEWLINE)][LineLength(rest, NEWLINE) - 1] != NEWLINE
    ensures NEWLINE !in rest
  {
    assert rest[..|rest| - 1] + [rest[|rest| - 1]] == rest;
  }

  predicate Names(cursor: Option<Cursor>, file: File) {
    cursor.Some? && cursor.value.device == file.device && cursor.value.inode == file.inode
  }

  function Lookup(pauses: Pauses, group: string): Option<Pause> {
    if group in pauses then Some(pauses[group]) else None
  }

  lemma SameLookups(p: Pauses, q: Pauses)
    requires forall group :: Lookup(p, group) == Lookup(q, group)
    ensures p == q
  {
    forall group ensures (group in p <==> group in q) && (group in p ==> p[group] == q[group]) {
      assert Lookup(p, group) == Lookup(q, group);
    }
  }

  /** A position at the start of a line. */
  ghost predicate AtBoundary(content: seq<Byte>, offset: nat) {
    offset <= |content| && (offset == 0 || content[offset - 1] == NEWLINE)
  }

  lemma RemainderAtBoundary(content: seq<Byte>, offset: nat)
    requires AtBoundary(content, offset)
    ensures Remainder(content[..offset], NEWLINE) == []
  {
    if offset > 0 {
      var front := content[..offset - 1];
      SplitPart(front, [NEWLINE], NEWLINE);
      assert content[..offset] == front + [NEWLINE];
    }
  }

  /** At a line start the log divides into the records before and the records after. */
  lemma TerminatedAtBoundary(content: seq<Byte>, offset: nat)
    requires AtBoundary(content, offset)
    ensures Terminated(content, NEWLINE)
         == Terminated(content[..offset], NEWLINE) + Terminated(content[offset..], NEWLINE)
    ensures Remainder(content, NEWLINE) == Remainder(content[offset..], NEWLINE)
  {
    var a, b := content[..offset], content[offset..];
    assert a + b == content;
    RemainderAtBoundary(content, offset);
    SplitConcat(a, b, NEWLINE);
    GlueEmptyEnd(Split(a, NEWLINE), Split(b, NEWLINE));
  }

  lemma GlueEmptyEnd<T>(p: seq<seq<T>>, q: seq<seq<T>>)
    requires |p| >= 1 && |q| >= 1 && p[|p| - 1] == []
    ensures Glue(p, q) == p[..|p| - 1] + q
  {
    assert [] + q[0] == q[0];
    assert [q[0]] + q[1..] == q;
  }

  // ------------------------------------------------------------ whole runs

  /** The log, the saved checkpoint, and the state a running tick holds in memory. `base` and
      `tickBase` are what each retained when it first met this log file. */
  datatype World = World(file: File, saved: State, base: Pauses, tick: Option<State>, tickBase: Pauses)

  /** A complete record appended by any writer; the shared append drops a torn tail first. */
  function AppendTo(file: File, record: seq<Byte>): File {
    var kept := |file.content| - |Remainder(file.content, NEWLINE)|;
    RemainderIsSuffix(file.content, NEWLINE);
    file.(content := file.content[..kept] + record + [NEWLINE])
  }

  datatype Step =
    | ForeignRecord(record: seq<Byte>)
    | TornAppend(bytes: seq<Byte>)
    | Rotate(file: File)
    | BeginTick(next: State, outcome: Outcome, saves: bool)
    | Emit(record: seq<Byte>)
    | SaveTick
    | EndTick

  /** One step; a replay, an append or a save may be interrupted, so saving is optional each time. */
  ghost predicate Next(log: Log, w: World, action: Step, v: World) {
    match action
    case ForeignRecord(record) =>
      NEWLINE !in record && v == w.(file := AppendTo(w.file, record))
    case TornAppend(bytes) =>
      NEWLINE !in bytes && v == w.(file := w.file.(content := w.file.content + bytes))
    case Rotate(file) =>
      && !Names(w.saved.cursor, file) && (w.tick.Some? ==> !Names(w.tick.value.cursor, file))
      && v == w.(file := file, base := w.saved.pauses,
                 tickBase := if w.tick.Some? then w.tick.value.pauses else w.tickBase)
    case BeginTick(next, outcome, saves) =>
      && w.tick.None? && outcome != Unreadable && log.Replayed(w.saved, w.file, next, outcome)
      && v == w.(saved := if saves then next else w.saved,
                 tick := if outcome == CaughtUp then Some(next) else None, tickBase := w.base)
    case Emit(record) =>
      && NEWLINE !in record && w.tick.Some?
      && var next := w.tick.value.(pauses := log.ApplyRecord(w.tick.value.pauses, record));
         v == w.(file := AppendTo(w.file, record), tick := Some(next),
                 tickBase := if Names(next.cursor, w.file) then w.tickBase else next.pauses)
    case SaveTick =>
      w.tick.Some? && v == w.(saved := w.tick.value, base := w.tickBase)
    case EndTick => v == w.(tick := None)
  }

  /** Catching up from `state` gives the replay of the whole log over what was retained. */
  ghost predicate Tracks(log: Log, state: State, base: Pauses, file: File) {
    if Names(state.cursor, file) then
      var offset := state.cursor.value.offset;
      && 0 <= offset && AtBoundary(file.content, offset)
      && log.Fold(state.pauses, Terminated(file.content[offset..], NEWLINE))
         == log.Fold(base, Terminated(file.content, NEWLINE))
    else base == state.pauses
  }

  ghost predicate Inv(log: Log, w: World) {
    && Tracks(log, w.saved, w.base, w.file)
    && (w.tick.Some? ==> Tracks(log, w.tick.value, w.tickBase, w.file))
  }

  /** What an append does to the records behind a line start at or before the torn tail. */
  lemma AppendAtBoundary(file: File, record: seq<Byte>, offset: nat)
    requires NEWLINE !in record && AtBoundary(file.content, offset)
    ensures var content := AppendTo(file, record).content;
            && AtBoundary(content, offset)
            && Terminated(content[offset..], NEWLINE)
               == Terminated(file.content[offset..], NEWLINE) + [record]
  {
    var before, kept := file.content, |file.content| - |Remainder(file.content, NEWLINE)|;
    RemainderIsSuffix(before, NEWLINE);
    TerminatedAtBoundary(before, offset);
    var content, tail := AppendTo(file, record).content, before[offset..];
    RemainderIsSuffix(tail, NEWLINE);
    assert tail[..kept - offset] == before[offset..kept];
    assert content[offset..] == tail[..kept - offset] + (record + [NEWLINE]);
    AppendRecord(tail, record);
  }

  lemma AppendRecord(tail: seq<Byte>, record: seq<Byte>)
    requires NEWLINE !in record && |Remainder(tail, NEWLINE)| <= |tail|
    ensures Terminated(tail[..|tail| - |Remainder(tail, NEWLINE)|] + (record + [NEWLINE]), NEWLINE)
         == Terminated(tail, NEWLINE) + [record]
  {
    var kept := |tail| - |Remainder(tail, NEWLINE)|;
    RemainderIsSuffix(tail, NEWLINE);
    TerminatedAtBoundary(tail, kept);
    RemainderAtBoundary(tail, kept);
    SplitSepFree(tail[kept..], NEWLINE);
    SplitPart(tail[..kept], record + [NEWLINE], NEWLINE);
    assert (record + [NEWLINE])[..|record|] == record;
    assert [] + record == record;
    assert Terminated(tail[..kept], NEWLINE) + [] == Terminated(tail[..kept], NEWLINE);
  }

  lemma TornAtBoundary(file: File, bytes: seq<Byte>, offset: nat)
    requires NEWLINE !in bytes && AtBoundary(file.content, offset)
    ensures AtBoundary(file.content + bytes, offset)
    ensures Terminated((file.content + bytes)[offset..], NEWLINE) == Terminated(file.content[offset..], NEWLINE)
  {
    var tail := file.content[offset..];
    assert (file.content + bytes)[offset..] == tail + bytes;
    SplitConcat(tail, bytes, NEWLINE);
    SplitSepFree(bytes, NEWLINE);
  }

  lemma AppendKeepsTracks(log: Log, state: State, base: Pauses, file: File, record: seq<Byte>)
    requires NEWLINE !in record && Tracks(log, state, base, file)
    ensures Tracks(log, state, base, AppendTo(file, record))
  {
    if Names(state.cursor, file) {
      var offset := state.cursor.value.offset;
      AppendAtBoundary(file, record, offset);
      AppendAtBoundary(file, record, 0);
      WholeContent(file.content);
      WholeContent(AppendTo(file, record).content);
      log.FoldAppend(state.pauses, Terminated(file.content[offset..], NEWLINE), record);
      log.FoldAppend(base, Terminated(file.content, NEWLINE), record);
    }
  }

  lemma WholeContent(content: seq<Byte>)
    ensures content[0..] == content
  {}

  /** Applying an event in memory and appending its record keeps the projection on course. */
  lemma EmitKeepsTracks(log: Log, state: State, base: Pauses, file: File, record: seq<Byte>)
    requires NEWLINE !in record && Tracks(log, state, base, file)
    ensures var next := state.(pauses := log.ApplyRecord(state.pauses, record));
            Tracks(log, next, if Names(next.cursor, file) then base else next.pauses, AppendTo(file, record))
  {
    AppendKeepsTracks(log, state, base, file, record);
    if Names(state.cursor, file) {
      var offset := state.cursor.value.offset;
      AppendAtBoundary(file, record, offset);
      log.EarlyApplication(state.pauses, Terminated(file.content[offset..], NEWLINE), record);
    }
  }

  lemma ReplayKeepsTracks(log: Log, previous: State, base: Pauses, file: File, next: State, outcome: Outcome)
    requires Tracks(log, previous, base, file)
    requires outcome != Unreadable && log.Replayed(previous, file, next, outcome)
    ensures Tracks(log, next, base, file)
    ensures outcome == CaughtUp ==> next.pauses == log.Fold(base, Terminated(file.content, NEWLINE))
  {
    var content, start, offset := file.content, log.Start(previous, file), next.cursor.value.offset;
    var tail := content[start..];
    TerminatedAtBoundary(tail, offset - start);
    assert tail[..offset - start] == content[start..offset] && tail[offset - start..] == content[offset..];
    log.FoldConcat(previous.pauses, Terminated(content[start..offset], NEWLINE),
                   Terminated(content[offset..], NEWLINE));
    WholeContent(content);
    assert offset > start ==> tail[offset - start - 1] == content[offset - 1];
    if outcome == CaughtUp {
      SplitSepFree(content[offset..], NEWLINE);
    }
  }

  lemma StepKeepsInv(log: Log, w: World, action: Step, v: World)
    requires Inv(log, w) && Next(log, w, action, v)
    ensures Inv(log, v)
  {
    match action
    case ForeignRecord(record) =>
      AppendKeepsTracks(log, w.saved, w.base, w.file, record);
      if w.tick.Some? {
        AppendKeepsTracks(log, w.tick.value, w.tickBase, w.file, record);
      }
    case TornAppend(bytes) =>
      TornKeepsTracks(log, w.saved, w.base, w.file, bytes);
      if w.tick.Some? {
        TornKeepsTracks(log, w.tick.value, w.tickBase, w.file, bytes);
      }
    case BeginTick(next, outcome, saves) =>
      ReplayKeepsTracks(log, w.saved, w.base, w.file, next, outcome);
    case Emit(record) =>
      AppendKeepsTracks(log, w.saved, w.base, w.file, record);
      EmitKeepsTracks(log, w.tick.value, w.tickBase, w.file, record);
    case _ =>
  }

  lemma TornKeepsTracks(log: Log, state: State, base: Pauses, file: File, bytes: seq<Byte>)
    requires NEWLINE !in bytes && Tracks(log, state, base, file)
    ensures Tracks(log, state, base, file.(content := file.content + bytes))
  {
    if Names(state.cursor, file) {
      TornAtBoundary(file, bytes, state.cursor.value.offset);
      TornAtBoundary(file, bytes, 0);
      WholeContent(file.content);
      WholeContent(file.content + bytes);
    }
  }

  ghost predicate IsRun(log: Log, worlds: seq<World>, actions: seq<Step>) {
    && |worlds| == |actions| + 1
    && forall i :: 0 <= i < |actions| ==> Next(log, worlds[i], actions[i], worlds[i + 1])
  }

  lemma {:induction false} RunKeepsInv(log: Log, worlds: seq<World>, actions: seq<Step>, n: nat)
    requires IsRun(log, worlds, actions) && n <= |actions| && Inv(log, worlds[0])
    ensures Inv(log, worlds[n])
  {
    if n > 0 {
      RunKeepsInv(log, worlds, actions, n - 1);
      StepKeepsInv(log, worlds[n - 1], actions[n - 1], worlds[n]);
    }
  }

  /** Over every run of appends, torn appends, rotations, interrupted replays and ticks that apply
      their own events early: once caught up, a group's pause is what its last effective record in
      the log says, and what was retained when the log was first met if there is none. */
  lemma CatchUp(log: Log, worlds: seq<World>, actions: seq<Step>, next: State, group: string)
    requires IsRun(log, worlds, actions) && Inv(log, worlds[0])
    requires log.Replayed(worlds[|actions|].saved, worlds[|actions|].file, next, CaughtUp)
    ensures var w := worlds[|actions|]; var records := Terminated(w.file.content, NEWLINE);
            && next.pauses == log.Fold(w.base, records)
            && Lookup(next.pauses, group)
               == match log.LastEffect(records, group)
                  case None => Lookup(w.base, group)
                  case Some(pause) => pause
  {
    var w := worlds[|actions|];
    RunKeepsInv(log, worlds, actions, |actions|);
    ReplayKeepsTracks(log, w.saved, w.base, w.file, next, CaughtUp);
    log.FoldIsLastEffective(w.base, Terminated(w.file.content, NEWLINE), group);
  }

  /** The controller meets a log for the first time: nothing is applied and no cursor is saved. */
  function FirstWorld(file: File): World {
    World(file, State(map[], None), map[], None, map[])
  }

  /** What was retained from before this log file: nothing. */
  ghost predicate OneFile(w: World) {
    w.base == map[] && (w.tick.Some? ==> w.tickBase == map[] && Names(w.tick.value.cursor, w.file))
  }

  lemma {:induction false} NoRotationKeepsOneFile(log: Log, worlds: seq<World>, actions: seq<Step>, n: nat)
    requires IsRun(log, worlds, actions) && n <= |actions| && OneFile(worlds[0])
    requires forall i :: 0 <= i < |actions| ==> !actions[i].Rotate?
    ensures OneFile(worlds[n])
  {
    if n > 0 {
      NoRotationKeepsOneFile(log, worlds, actions, n - 1);
      assert Next(log, worlds[n - 1], actions[n - 1], worlds[n]) && !actions[n - 1].Rotate?;
    }
  }

  /** From the first meeting on, and while the log is not rotated, catching up gives exactly the last
      effective records of the log. */
  lemma CatchUpFromNothing(log: Log, worlds: seq<World>, actions: seq<Step>, next: State, group: string)
    requires IsRun(log, worlds, actions) && worlds[0] == FirstWorld(worlds[0].file)
    requires log.Replayed(worlds[|actions|].saved, worlds[|actions|].file, next, CaughtUp)
    ensures var w := worlds[|actions|]; var last := log.LastEffect(Terminated(w.file.content, NEWLINE), group);
            && (last.Some? ==> Lookup(next.pauses, group) == last.value)
            && (last.None? && (forall i :: 0 <= i < |actions| ==> !actions[i].Rotate?) ==> group !in next.pauses)
  {
    CatchUp(log, worlds, actions, next, group);
    if forall i :: 0 <= i < |actions| ==> !actions[i].Rotate? {
      NoRotationKeepsOneFile(log, worlds, actions, |actions|);
    }
  }

  /** A tick's append may fail without an error reaching the tick. The event then is in the projection
      and not in the log; catching up agrees with the log exactly when a later record decides the
      group, or the event left the group as the log has it. */
  lemma UnloggedEvent(log: Log, state: State, base: Pauses, file: File, record: seq<Byte>, group: string,
                      pause: Option<Pause>, next: State)
    requires Names(state.cursor, file) && Tracks(log, state, base, file)
    requires log.Effect(record, group) == Some(pause)
    requires log.Replayed(state.(pauses := log.ApplyRecord(state.pauses, record)), file, next, CaughtUp)
    ensures var records := Terminated(file.content, NEWLINE);
            next.pauses == log.Fold(base, records)
            <==> (|| log.LastEffect(Terminated(file.content[state.cursor.value.offset..], NEWLINE), group).Some?
                  || Lookup(log.Fold(base, records), group) == pause)
  {
    var content, offset := file.content, state.cursor.value.offset;
    var unread := Terminated(content[offset..], NEWLINE);
    var early := log.ApplyRecord(state.pauses, record);
    CaughtUpFold(log, state.(pauses := early), file, next);
    forall g ensures Lookup(log.Fold(early, unread), g) == Lookup(log.Fold(state.pauses, unread), g)
      <==> (g != group || log.LastEffect(unread, g).Some? || Lookup(log.Fold(state.pauses, unread), g) == pause)
    {
      log.FoldIsLastEffective(early, unread, g);
      log.FoldIsLastEffective(state.pauses, unread, g);
    }
    if forall g :: Lookup(log.Fold(early, unread), g) == Lookup(log.Fold(state.pauses, unread), g) {
      SameLookups(log.Fold(early, unread), log.Fold(state.pauses, unread));
    }
  }

  /** The projection that a tick leaves when its append was lost, and the log that it never reached. */
  ghost predicate Disagrees(log: Log, state: State, file: File, record: seq<Byte>, next: State) {
    && log.Replayed(State(map[], None), file, state, CaughtUp)
    && log.Replayed(state.(pauses := log.ApplyRecord(state.pauses, record)), file, next, CaughtUp)
    && next.pauses != log.Fold(map[], Terminated(file.content, NEWLINE))
  }

  /** One lost append to an empty log is enough. */
  lemma UnloggedEventHappens()
    ensures exists log, state, file, record, next :: Disagrees(log, state, file, record, next)
  {
    var record: seq<Byte> := [1];
    var log := Log(line => if line == [1] then Some(Pressure(Some("bulk"), Closed, Some(OWNER), [])) else None);
    var file, cursor := File(0, 0, []), Some(Cursor(0, 0, 0));
    var state := State(map[], cursor);
    var next := State(log.ApplyRecord(map[], record), cursor);
    assert Terminated(file.content, NEWLINE) == [];
    assert log.Effect(record, "bulk").Some?;
    assert "bulk" in next.pauses;
    assert Disagrees(log, state, file, record, next);
  }

  lemma CaughtUpFold(log: Log, state: State, file: File, next: State)
    requires Names(state.cursor, file) && 0 <= state.cursor.value.offset <= |file.content|
    requires log.Replayed(state, file, next, CaughtUp)
    ensures next.pauses == log.Fold(state.pauses, Terminated(file.content[state.cursor.value.offset..], NEWLINE))
  {
    var content, start, offset := file.content, state.cursor.value.offset, next.cursor.value.offset;
    var tail := content[start..];
    TerminatedAtBoundary(tail, offset - start);
    assert tail[..offset - start] == content[start..offset] && tail[offset - start..] == content[offset..];
    SplitSepFree(content[offset..], NEWLINE);
    assert Terminated(content[start..offset], NEWLINE) + [] == Terminated(content[start..offset], NEWLINE);
  }
}
