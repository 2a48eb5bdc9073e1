/** The ordered capture queue: change events exactly once and in order, waiting heartbeats coalesced. */
module CaptureWriter {
  import opened Wrappers

  datatype Event = Initial | Track | Status | Update | Heartbeat

  /** The five fields two heartbeats must share before one may replace the other. */
  datatype Playback = Playback(player: string, status: string, title: Option<string>,
                               artist: Option<string>, album: Option<string>)

  datatype Payload = Payload(event: Event, playback: Playback, position: Option<real>, duration: Option<real>)

  /** `id` stands for the identity of the queued object, which `is` compares. */
  datatype Item = Item(id: nat, ts: real, payload: Payload)

  datatype Drainer = Waiting | Writing | Stopped

  /** `disk` is what storage holds; `written` are the writes the drainer saw complete. */
  datatype State = State(pending: seq<Item>, current: Option<Item>, closing: bool, failed: bool,
                         drainer: Drainer, nextId: nat,
                         written: seq<Item>, disk: seq<Item>, accepted: seq<Item>)

  /** What one thread does while it holds the condition's lock; a write happens between two of them. */
  datatype Action =
    | Enqueue(payload: Payload, ts: real)
    | BeginWrite
    | FinishWrite
    | FailWrite(committed: bool)
    | Close

  const INITIAL := State([], None, false, false, Waiting, 0, [], [], [])

  predicate Replaces(newer: Payload, older: Payload) {
    newer.event == Heartbeat && older.event == Heartbeat && newer.playback == older.playback
  }

  predicate Coalesces(s: State, payload: Payload) {
    && s.pending != []
    && !(s.current.Some? && s.pending[|s.pending| - 1].id == s.current.value.id)
    && Replaces(payload, s.pending[|s.pending| - 1].payload)
  }

  function Step(s: State, action: Action): State {
    match action
    case Enqueue(payload, ts) =>
      if s.closing then s
      else
        var item := Item(s.nextId, ts, payload);
        var kept := if Coalesces(s, payload) then s.pending[..|s.pending| - 1] else s.pending;
        s.(pending := kept + [item], nextId := s.nextId + 1, accepted := s.accepted + [item])
    case BeginWrite =>
      if s.drainer != Waiting then s
      else if s.pending != [] then s.(current := Some(s.pending[0]), drainer := Writing)
      else if s.closing then s.(drainer := Stopped)
      else s
    case FinishWrite =>
      if s.drainer == Writing && s.pending != [] && s.current.Some? then
        s.(pending := s.pending[1..], current := None, drainer := Waiting,
           written := s.written + [s.current.value], disk := s.disk + [s.current.value])
      else s
    case FailWrite(committed) =>
      if s.drainer == Writing && s.current.Some? then
        s.(failed := true, drainer := Stopped,
           disk := s.disk + if committed then [s.current.value] else [])
      else s
    case Close => s.(closing := true)
  }

  function Run(s: State, actions: seq<Action>): State
    decreases |actions|
  {
    if actions == [] then s else Run(Step(s, actions[0]), actions[1..])
  }

  /** `kept` is `history` with nothing changed but heartbeats dropped, each for the one right after it. */
  ghost predicate Coalesced(history: seq<Item>, kept: seq<Item>)
    decreases |history|
  {
    var n, k := |history|, |kept|;
    if n == 0 then k == 0
    else
      && k > 0 && kept[k - 1] == history[n - 1]
      && (|| Coalesced(history[..n - 1], kept[..k - 1])
          || (&& n > 1
              && Replaces(history[n - 1].payload, history[n - 2].payload)
              && Coalesced(history[..n - 1], kept[..k - 1] + [history[n - 2]])))
  }

  function Changes(items: seq<Item>): seq<Item> {
    if items == [] then []
    else
      var last := items[|items| - 1];
      Changes(items[..|items| - 1]) + if last.payload.event == Heartbeat then [] else [last]
  }

  ghost predicate Inv(s: State) {
    && Coalesced(s.accepted, s.written + s.pending)
    && (forall i :: 0 <= i < |s.pending| ==> s.pending[i].id < s.nextId)
    && (forall i, j :: 0 <= i < j < |s.pending| ==> s.pending[i].id < s.pending[j].id)
    && (s.current.Some? <==> s.drainer == Writing || s.failed)
    && (s.current.Some? ==> s.pending != [] && s.pending[0] == s.current.value)
    && (s.failed ==> s.drainer == Stopped)
    && (s.drainer == Stopped && !s.failed ==> s.closing && s.pending == [])
    && (s.disk == s.written || (s.failed && s.disk == s.written + [s.pending[0]]))
  }

  lemma CoalescedAppend(history: seq<Item>, kept: seq<Item>, item: Item)
    requires Coalesced(history, kept)
    ensures Coalesced(history + [item], kept + [item])
  {
    assert (history + [item])[..|history|] == history;
    assert (kept + [item])[..|kept|] == kept;
  }

  lemma CoalescedReplace(history: seq<Item>, kept: seq<Item>, item: Item)
    requires Coalesced(history, kept) && kept != []
    requires Replaces(item.payload, kept[|kept| - 1].payload)
    ensures Coalesced(history + [item], kept[..|kept| - 1] + [item])
  {
    var h, k := history + [item], kept[..|kept| - 1] + [item];
    assert history != [];
    assert h[..|h| - 1] == history;
    assert k[..|k| - 1] + [h[|h| - 2]] == kept;
  }

  lemma EnqueueKeepsCoalesced(s: State, payload: Payload, ts: real)
    requires Coalesced(s.accepted, s.written + s.pending)
    ensures var t := Step(s, Enqueue(payload, ts)); Coalesced(t.accepted, t.written + t.pending)
  {
    var item, all := Item(s.nextId, ts, payload), s.written + s.pending;
    if s.closing {
    } else if Coalesces(s, payload) {
      assert all[|all| - 1] == s.pending[|s.pending| - 1];
      CoalescedReplace(s.accepted, all, item);
      assert all[..|all| - 1] + [item] == s.written + (s.pending[..|s.pending| - 1] + [item]);
    } else {
      CoalescedAppend(s.accepted, all, item);
      assert all + [item] == s.written + (s.pending + [item]);
    }
  }

  lemma EnqueueKeepsInv(s: State, payload: Payload, ts: real)
    requires Inv(s)
    ensures Inv(Step(s, Enqueue(payload, ts)))
  {
    EnqueueKeepsCoalesced(s, payload, ts);
    if s.current.Some? && Coalesces(s, payload) {
      assert |s.pending| > 1;
    }
  }

  lemma FinishKeepsInv(s: State)
    requires Inv(s)
    ensures Inv(Step(s, FinishWrite))
  {
    if s.drainer == Writing {
      assert s.written + [s.pending[0]] + s.pending[1..] == s.written + s.pending;
    }
  }

  lemma StepKeepsInv(s: State, action: Action)
    requires Inv(s)
    ensures Inv(Step(s, action))
  {
    match action
    case Enqueue(payload, ts) => EnqueueKeepsInv(s, payload, ts);
    case FinishWrite => FinishKeepsInv(s);
    case _ =>
  }

  lemma {:induction false} RunKeepsInv(s: State, actions: seq<Action>)
    requires Inv(s)
    ensures Inv(Run(s, actions))
    decreases |actions|
  {
    if actions != [] {
      StepKeepsInv(s, actions[0]);
      RunKeepsInv(Step(s, actions[0]), actions[1..]);
    }
  }

  lemma {:induction false} CoalescedKeepsChanges(history: seq<Item>, kept: seq<Item>)
    requires Coalesced(history, kept)
    ensures Changes(kept) == Changes(history)
    decreases |history|
  {
    var n, k := |history|, |kept|;
    if n > 0 {
      if Coalesced(history[..n - 1], kept[..k - 1]) {
        CoalescedKeepsChanges(history[..n - 1], kept[..k - 1]);
      } else {
        var before := kept[..k - 1] + [history[n - 2]];
        CoalescedKeepsChanges(history[..n - 1], before);
        assert before[..k - 1] == kept[..k - 1];
      }
    }
  }

  /** A dropped item is a heartbeat, and some kept heartbeat behind it shows the same playback. */
  lemma {:induction false} DroppedIsSuperseded(history: seq<Item>, kept: seq<Item>, i: nat)
    requires Coalesced(history, kept) && i < |history|
    ensures history[i] in kept ||
            exists j :: i < j < |history| && history[j] in kept
                     && Replaces(history[j].payload, history[i].payload)
    decreases |history|
  {
    var n, k := |history|, |kept|;
    var shorter := if Coalesced(history[..n - 1], kept[..k - 1]) then kept[..k - 1]
                   else kept[..k - 1] + [history[n - 2]];
    assert history[n - 1] in kept;
    if i < n - 1 {
      DroppedIsSuperseded(history[..n - 1], shorter, i);
      if history[i] !in kept {
        if history[i] in shorter {
          assert Replaces(history[n - 1].payload, history[i].payload);
        } else {
          var j :| i < j < n - 1 && history[..n - 1][j] in shorter
                && Replaces(history[j].payload, history[i].payload);
          if history[j] !in kept {
            assert Replaces(history[n - 1].payload, history[i].payload);
          }
        }
      }
    }
  }

  /** Every interleaving of enqueuers and drainer: completed writes, then what is pending, are the
      change events enqueued, in order and once each; a stopped, unfailed drainer has stored them all. */
  lemma OrderedCapture(actions: seq<Action>)
    ensures var s := Run(INITIAL, actions);
            && Changes(s.written + s.pending) == Changes(s.accepted)
            && (s.current.Some? ==> s.pending != [] && s.pending[0] == s.current.value)
            && (s.disk == s.written || (s.failed && s.pending != [] && s.disk == s.written + [s.pending[0]]))
            && (s.drainer == Stopped && !s.failed ==> s.pending == [] && Changes(s.disk) == Changes(s.accepted))
  {
    var s := Run(INITIAL, actions);
    RunKeepsInv(INITIAL, actions);
    CoalescedKeepsChanges(s.accepted, s.written + s.pending);
    assert s.pending == [] ==> s.written + s.pending == s.written;
  }

  lemma {:induction false} ChangesConcat(a: seq<Item>, b: seq<Item>)
    ensures Changes(a + b) == Changes(a) + Changes(b)
    decreases |b|
  {
    if b == [] {
      assert a + b == a;
    } else {
      var front := b[..|b| - 1];
      ChangesConcat(a, front);
      assert (a + b)[..|a + b| - 1] == a + front;
    }
  }

  /** A change event is anything but a heartbeat. */
  lemma ChangesOne(item: Item)
    ensures Changes([item]) == if item.payload.event.Heartbeat? then [] else [item]
  {
    assert [item][..0] == [] && Changes([]) == [];
  }

  /** Even when a write fails after it committed, storage holds a prefix of the change events enqueued. */
  lemma StorageHoldsPrefix(actions: seq<Action>)
    ensures var s := Run(INITIAL, actions);
            Changes(s.disk) <= Changes(s.accepted)
  {
    var s := Run(INITIAL, actions);
    OrderedCapture(actions);
    ChangesConcat(s.written, s.pending);
    if s.disk != s.written {
      ChangesConcat(s.written, [s.pending[0]]);
      ChangesConcat([s.pending[0]], s.pending[1..]);
      assert [s.pending[0]] + s.pending[1..] == s.pending;
    }
  }

  /** Two heartbeats of one playback. */
  ghost predicate SameBeat(a: Payload, b: Payload) {
    && a.event == Heartbeat && b.event == Heartbeat
    && a.playback.player == b.playback.player && a.playback.status == b.playback.status
    && a.playback.title == b.playback.title && a.playback.artist == b.playback.artist
    && a.playback.album == b.playback.album
  }

  /** What is dropped is a heartbeat, and a later kept one has the same player, status, title, artist and album. */
  lemma HeartbeatsAreSuperseded(actions: seq<Action>, i: nat)
    requires i < |Run(INITIAL, actions).accepted|
    ensures var s := Run(INITIAL, actions);
            s.accepted[i] in s.written + s.pending ||
            exists j :: i < j < |s.accepted| && s.accepted[j] in s.written + s.pending
                     && SameBeat(s.accepted[j].payload, s.accepted[i].payload)
  {
    var s := Run(INITIAL, actions);
    RunKeepsInv(INITIAL, actions);
    DroppedIsSuperseded(s.accepted, s.written + s.pending, i);
    if s.accepted[i] !in s.written + s.pending {
      var j :| i < j < |s.accepted| && s.accepted[j] in s.written + s.pending
            && Replaces(s.accepted[j].payload, s.accepted[i].payload);
      assert SameBeat(s.accepted[j].payload, s.accepted[i].payload);
    }
  }

  /** Of two neighbours in the queue, the first is not a heartbeat that the second repeats, unless the first is
      being written. */
  ghost predicate NoneRepeats(s: State) {
    forall i :: 0 < i < |s.pending| && SameBeat(s.pending[i - 1].payload, s.pending[i].payload) ==>
      i == 1 && s.current == Some(s.pending[0])
  }

  /** The queue after one more item, which may take the last one's place. */
  lemma EnqueueKeepsNoneRepeats(s: State, payload: Payload, ts: real)
    requires Inv(s) && NoneRepeats(s) && !s.closing
    ensures NoneRepeats(Step(s, Enqueue(payload, ts)))
  {
    var t, n := Step(s, Enqueue(payload, ts)), |s.pending|;
    assert n > 1 ==> s.pending[n - 1].id > s.pending[0].id;
    forall i | 0 < i < |t.pending| && SameBeat(t.pending[i - 1].payload, t.pending[i].payload)
      ensures i == 1 && t.current == Some(t.pending[0])
    {
      assert t.pending[i - 1] == s.pending[i - 1];
      if i < |t.pending| - 1 {
        assert t.pending[i] == s.pending[i];
      } else if Coalesces(s, payload) {
        assert SameBeat(s.pending[i - 1].payload, s.pending[i].payload);
      } else {
        assert Replaces(payload, s.pending[n - 1].payload);
      }
    }
  }

  lemma FinishKeepsNoneRepeats(s: State)
    requires Inv(s) && NoneRepeats(s) && s.drainer == Writing
    ensures NoneRepeats(Step(s, FinishWrite))
  {
    var t := Step(s, FinishWrite);
    forall i | 0 < i < |t.pending| ensures !SameBeat(t.pending[i - 1].payload, t.pending[i].payload) {
      assert t.pending[i] == s.pending[i + 1] && t.pending[i - 1] == s.pending[i];
      assert !SameBeat(s.pending[i + 1 - 1].payload, s.pending[i + 1].payload);
    }
  }

  lemma StepKeepsNoneRepeats(s: State, action: Action)
    requires Inv(s) && NoneRepeats(s)
    ensures NoneRepeats(Step(s, action))
  {
    match action
    case Enqueue(payload, ts) => if !s.closing { EnqueueKeepsNoneRepeats(s, payload, ts); }
    case FinishWrite => if s.drainer == Writing { FinishKeepsNoneRepeats(s); }
    case BeginWrite =>
    case FailWrite(_) =>
    case Close =>
  }

  lemma {:induction false} RunKeepsNoneRepeats(s: State, actions: seq<Action>)
    requires Inv(s) && NoneRepeats(s)
    ensures NoneRepeats(Run(s, actions))
    decreases |actions|
  {
    if actions != [] {
      StepKeepsInv(s, actions[0]);
      StepKeepsNoneRepeats(s, actions[0]);
      RunKeepsNoneRepeats(Step(s, actions[0]), actions[1..]);
    }
  }

  /** In every run a stalled writer is not flooded: waiting heartbeats of one playback are one. */
  lemma WaitingHeartbeatsAreOne(actions: seq<Action>)
    ensures NoneRepeats(Run(INITIAL, actions))
  {
    RunKeepsNoneRepeats(INITIAL, actions);
  }

  lemma {:induction false} ClosedStays(s: State, actions: seq<Action>)
    requires s.closing
    ensures Run(s, actions).closing && Run(s, actions).accepted == s.accepted
    decreases |actions|
  {
    if actions != [] {
      ClosedStays(Step(s, actions[0]), actions[1..]);
    }
  }

  /** Once the writer is closed, nothing more is accepted. */
  lemma ClosedAcceptsNothing(before: seq<Action>, after: seq<Action>)
    ensures var s := Step(Run(INITIAL, before), Close); Run(s, after).accepted == s.accepted
  {
    ClosedStays(Step(Run(INITIAL, before), Close), after);
  }

  lemma {:induction false} StoppedStays(s: State, actions: seq<Action>)
    requires s.drainer == Stopped
    ensures var t := Run(s, actions);
            && t.drainer == Stopped && t.failed == s.failed && t.current == s.current
            && t.written == s.written && t.disk == s.disk
    decreases |actions|
  {
    if actions != [] {
      StoppedStays(Step(s, actions[0]), actions[1..]);
    }
  }

  /** A write that fails is the last one, whether or not it committed: its item and those behind it stay. */
  lemma FailureStops(s: State, committed: bool, actions: seq<Action>)
    requires Inv(s) && s.drainer == Writing
    ensures var f := Step(s, FailWrite(committed));
            && f.failed && f.pending == s.pending
            && f.disk == s.disk + (if committed then [s.pending[0]] else [])
            && Run(f, actions).written == s.written && Run(f, actions).disk == f.disk
  {
    StoppedStays(Step(s, FailWrite(committed)), actions);
  }

  predicate EndsWrite(action: Action) {
    action.FinishWrite? || action.FailWrite?
  }

  lemma {:induction false} InFlightStays(s: State, actions: seq<Action>)
    requires Inv(s) && s.current.Some?
    requires forall i :: 0 <= i < |actions| ==> !EndsWrite(actions[i])
    ensures var t := Run(s, actions);
            && t.current == s.current && t.pending != [] && t.pending[0] == s.current.value
            && t.drainer == s.drainer && t.written == s.written && t.disk == s.disk
    decreases |actions|
  {
    if actions != [] {
      StepKeepsInv(s, actions[0]);
      assert !EndsWrite(actions[0]);
      InFlightStays(Step(s, actions[0]), actions[1..]);
    }
  }

  /** From the moment an item is taken until its write ends, whatever is enqueued, that very item stays
      the queue's head, and it is what the completed write records. */
  lemma InFlightIsNeverReplaced(before: seq<Action>, during: seq<Action>)
    requires Run(INITIAL, before).current.Some?
    requires forall i :: 0 <= i < |during| ==> !EndsWrite(during[i])
    ensures var s, t := Run(INITIAL, before), Run(Run(INITIAL, before), during);
            && t.pending != [] && t.pending[0] == s.current.value
            && (s.drainer == Writing ==> Step(t, FinishWrite).written == s.written + [s.current.value])
  {
    RunKeepsInv(INITIAL, before);
    InFlightStays(Run(INITIAL, before), during);
  }

  /** The drainer's remaining work when every write succeeds. */
  function Drain(writes: nat): seq<Action> {
    if writes == 0 then [BeginWrite] else [BeginWrite, FinishWrite] + Drain(writes - 1)
  }

  /** One item written. */
  lemma WriteOne(s: State)
    requires Inv(s) && s.closing && s.drainer == Waiting && s.pending != []
    ensures var next := Step(Step(s, BeginWrite), FinishWrite);
            && Inv(next) && next.closing && next.drainer == Waiting && next.failed == s.failed
            && next.pending == s.pending[1..] && next.disk == s.disk + [s.pending[0]]
  {
    StepKeepsInv(s, BeginWrite);
    StepKeepsInv(Step(s, BeginWrite), FinishWrite);
  }

  lemma NothingToWrite(s: State)
    requires Inv(s) && s.closing && s.drainer == Waiting && s.pending == []
    ensures var t := Run(s, [BeginWrite]);
            t.drainer == Stopped && !t.failed && t.pending == [] && t.disk == s.disk
  {
    assert Run(s, [BeginWrite]) == Run(Step(s, BeginWrite), []);
  }

  /** After `close`, an idle drainer that meets no failure writes everything pending and stops. */
  lemma {:induction false} CloseDrains(s: State)
    requires Inv(s) && s.closing && s.drainer == Waiting
    ensures var t := Run(s, Drain(|s.pending|));
            t.drainer == Stopped && !t.failed && t.pending == [] && t.disk == s.disk + s.pending
    decreases |s.pending|
  {
    if s.pending == [] {
      NothingToWrite(s);
      assert s.disk + s.pending == s.disk;
    } else {
      var next := Step(Step(s, BeginWrite), FinishWrite);
      WriteOne(s);
      CloseDrains(next);
      RunTwo(s, BeginWrite, FinishWrite, Drain(|s.pending| - 1));
      assert next.disk + next.pending == s.disk + s.pending;
    }
  }

  lemma RunTwo(s: State, first: Action, second: Action, rest: seq<Action>)
    ensures Run(s, [first, second] + rest) == Run(Step(Step(s, first), second), rest)
  {
    var actions := [first, second] + rest;
    assert actions[1..] == [second] + rest;
    assert actions[1..][1..] == rest;
  }

  /** The writer object: each method is one critical section. */
  class EnvelopeWriter {
    var pending: seq<Item>
    var current: Option<Item>
    var closing: bool
    var failed: bool
    var drainer: Drainer
    var nextId: nat
    ghost var written: seq<Item>
    ghost var disk: seq<Item>
    ghost var accepted: seq<Item>

    ghost function View(): State
      reads this
    {
      State(pending, current, closing, failed, drainer, nextId, written, disk, accepted)
    }

    constructor ()
      ensures View() == INITIAL && Inv(View())
    {
      pending, current, closing, failed, drainer, nextId := [], None, false, false, Waiting, 0;
      written, disk, accepted := [], [], [];
    }

    /** `refused` is the error raised once the writer is closing. */
    method EnqueuePayload(payload: Payload, ts: real) returns (refused: bool)
      requires Inv(View())
      modifies this
      ensures refused == old(closing)
      ensures View() == Step(old(View()), Enqueue(payload, ts)) && Inv(View())
    {
      EnqueueKeepsInv(View(), payload, ts);
      ghost var joins := Coalesces(View(), payload);
      if closing {
        return true;
      }
      refused := false;
      var item := Item(nextId, ts, payload);
      nextId, accepted := nextId + 1, accepted + [item];
      if pending != [] && !(current.Some? && pending[|pending| - 1].id == current.value.id) {
        var previous := pending[|pending| - 1].payload;
        if payload.event == Heartbeat && previous.event == Heartbeat && payload.playback == previous.playback {
          assert joins;
          pending := pending[..|pending| - 1] + [item];
          return;
        }
      }
      assert !joins;
      pending := pending + [item];
    }

    /** The drainer wakes: `writing` says that it took the head, `done` that it returns. */
    method TakeHead() returns (writing: bool, done: bool)
      requires Inv(View()) && drainer == Waiting
      modifies this
      ensures View() == Step(old(View()), BeginWrite) && Inv(View())
      ensures writing == (drainer == Writing) && done == (drainer == Stopped)
      ensures !writing && !done ==> old(pending) == [] && !old(closing)
    {
      StepKeepsInv(View(), BeginWrite);
      writing, done := false, false;
      if pending != [] {
        current, drainer, writing := Some(pending[0]), Writing, true;
      } else if closing {
        drainer, done := Stopped, true;
      }
    }

    /** The write returned. */
    method Complete()
      requires Inv(View()) && drainer == Writing
      modifies this
      ensures View() == Step(old(View()), FinishWrite) && Inv(View())
    {
      StepKeepsInv(View(), FinishWrite);
      written, disk := written + [current.value], disk + [current.value];
      pending := pending[1..];
      current, drainer := None, Waiting;
    }

    /** The write raised; storage may hold the record all the same. */
    method Fail(ghost committed: bool)
      requires Inv(View()) && drainer == Writing
      modifies this
      ensures View() == Step(old(View()), FailWrite(committed)) && Inv(View())
    {
      StepKeepsInv(View(), FailWrite(committed));
      disk := disk + if committed then [current.value] else [];
      failed, drainer := true, Stopped;
    }

    method BeginClose()
      requires Inv(View())
      modifies this
      ensures View() == Step(old(View()), Close) && Inv(View())
    {
      StepKeepsInv(View(), Close);
      closing := true;
    }
  }
}
