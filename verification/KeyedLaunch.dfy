/** Keyed launches: one submission for a key, whatever is lost, dies or is reset between its calls. */
module KeyedLaunch {
  import opened Wrappers

  type Key = string

  type Digest = string

  /** The launch input retained under the key's job id. */
  datatype File = Document(digest: Digest, taskId: Option<nat>) | Invalid

  /** How far the call that holds a key's lock has come. */
  datatype Call = Looking | Preparing | Submitting | Acknowledging(id: nat)

  datatype Pending = Pending(digest: Digest, after: bool, call: Call)

  /** What a call answers; a launch is named by its key's job id. */
  datatype Answer = Returned | Refused | Uncertain | Failure

  datatype Event =
    | Accepted(key: Key, digest: Digest)
    | Answered(key: Key, digest: Digest, answer: Answer)

  /** `queue` holds the keyed launch that each task runs, or none for a task launched without a key. */
  datatype State = State(files: map<Key, File>, queue: map<nat, Option<Key>>, nextId: nat, attempted: set<Key>,
                         calls: map<Key, Pending>, events: seq<Event>)

  datatype Reply = Acknowledged | Failed(applied: bool) | UnknownGroup

  datatype Action =
    // the queue, the wrapper, retries and releases, damage to a retained file
    | Reset | Remove(id: nat) | AddOther | Begin(id: nat) | Rewrite(id: nat) | Damage(key: Key)
    // one call
    | Call(key: Key, digest: Digest, after: bool)
    | Look(key: Key, down: bool)
    | Abort(key: Key)
    | WriteInput(key: Key)
    | Add(key: Key, reply: Reply)
    | WriteTask(key: Key, viewed: bool)
    | Die(key: Key)

  const INITIAL := State(map[], map[], 0, {}, map[], [])

  // ---------------------------------------------------------- a lookup

  predicate Queued(s: State, key: Key) {
    exists id :: id in s.queue && s.queue[id] == Some(key)
  }

  /** What the retained input and the queue say of a key's launch; nothing when it was never submitted. */
  function Lookup(s: State, key: Key, digest: Digest): Option<Answer> {
    if key !in s.files then None
    else
      match s.files[key]
      case Invalid => Some(Refused)
      case Document(written, taskId) =>
        if written != digest then Some(Refused)
        else if Queued(s, key) || taskId.Some? || key in s.attempted then Some(Returned)
        else Some(Uncertain)
  }

  // --------------------------------------------------------- the machine

  function Conclude(s: State, key: Key, answer: Answer): State
    requires key in s.calls
  {
    s.(calls := s.calls - {key}, events := s.events + [Answered(key, s.calls[key].digest, answer)])
  }

  function Advance(s: State, key: Key, call: Call): State
    requires key in s.calls
  {
    s.(calls := s.calls[key := s.calls[key].(call := call)])
  }

  function Outside(s: State, action: Action): State {
    match action
    case Reset => s.(queue := map[], nextId := 0)
    case Remove(id) => s.(queue := s.queue - {id})
    case AddOther => s.(queue := s.queue[s.nextId := None], nextId := s.nextId + 1)
    case Begin(id) =>
      if id in s.queue && s.queue[id].Some? then s.(attempted := s.attempted + {s.queue[id].value}) else s
    case Rewrite(id) =>
      if id in s.queue && s.queue[id].Some? && s.queue[id].value in s.files && s.files[s.queue[id].value].Document? then
        var key := s.queue[id].value;
        s.(files := s.files[key := s.files[key].(taskId := Some(id))])
      else s
    case Damage(key) => if key in s.files then s.(files := s.files[key := Invalid]) else s
    case _ => s
  }

  /** The queue accepts one task for a key's launch. */
  function Accept(s: State, key: Key): State
    requires key in s.calls
  {
    s.(queue := s.queue[s.nextId := Some(key)], nextId := s.nextId + 1,
       events := s.events + [Accepted(key, s.calls[key].digest)])
  }

  function Submit(s: State, key: Key, reply: Reply): State
    requires key in s.calls
  {
    match reply
    case Acknowledged => Advance(Accept(s, key), key, Acknowledging(s.nextId))
    case Failed(applied) => Conclude(if applied then Accept(s, key) else s, key, Uncertain)
    case UnknownGroup =>
      Conclude(if s.calls[key].after then s else s.(files := s.files - {key}), key, Failure)
  }

  function Inside(s: State, action: Action): State {
    match action
    case Call(key, digest, after) =>
      if key in s.calls then s else s.(calls := s.calls[key := Pending(digest, after, Looking)])
    case Look(key, down) =>
      if key !in s.calls || s.calls[key].call != Looking then s
      else
        (match Lookup(s, key, s.calls[key].digest)
         case None => Advance(s, key, Preparing)
         case Some(Refused) => Conclude(s, key, Refused)
         case Some(answer) => Conclude(s, key, if down then Failure else answer))
    case Abort(key) =>
      if key in s.calls && s.calls[key].call == Preparing then Conclude(s, key, Failure) else s
    case WriteInput(key) =>
      if key in s.calls && s.calls[key].call == Preparing then
        Advance(s.(files := s.files[key := Document(s.calls[key].digest, None)]), key, Submitting)
      else s
    case Add(key, reply) =>
      if key in s.calls && s.calls[key].call == Submitting then Submit(s, key, reply) else s
    case WriteTask(key, viewed) =>
      if key in s.calls && s.calls[key].call.Acknowledging? then
        Conclude(s.(files := s.files[key := Document(s.calls[key].digest, Some(s.calls[key].call.id))]), key,
               if viewed then Returned else Failure)
      else s
    case Die(key) => s.(calls := s.calls - {key})
    case _ => s
  }

  function Step(s: State, action: Action): State {
    Inside(Outside(s, action), action)
  }

  function Run(s: State, actions: seq<Action>): State
    decreases |actions|
  {
    if actions == [] then s else Run(Step(s, actions[0]), actions[1..])
  }

  // ---------------------------------------------------------- invariant

  predicate Concerns(event: Event, key: Key) {
    event.Accepted? && event.key == key
  }

  /** The digests under which the queue accepted this key's launch. */
  function Submissions(events: seq<Event>, key: Key): seq<Digest> {
    if events == [] then []
    else
      var last := events[|events| - 1];
      Submissions(events[..|events| - 1], key) + if Concerns(last, key) then [last.digest] else []
  }

  /** Every answer that names the key's job follows a submission of the same request. */
  ghost predicate Honest(events: seq<Event>, key: Key) {
    forall i :: 0 <= i < |events| && events[i].Answered? && events[i].key == key && events[i].answer == Returned ==>
      Submissions(events[..i], key) == [events[i].digest]
  }

  /** How a key's file, tasks, attempts and call agree with what was submitted for it. */
  ghost predicate Agrees(s: State, key: Key, submitted: seq<Digest>) {
    && |submitted| <= 1
    && (key !in s.files ==> submitted == [])
    && (key in s.files && s.files[key].Document? && submitted != [] ==> submitted == [s.files[key].digest])
    && (key in s.files && s.files[key].Document? && s.files[key].taskId.Some? ==> submitted != [])
    && (Queued(s, key) || key in s.attempted ==> submitted != [])
    && (key in s.calls ==>
          match s.calls[key].call
          case Looking => true
          case Preparing => key !in s.files
          case Submitting =>
            submitted == [] && key in s.files && (s.files[key].Document? ==> s.files[key].digest == s.calls[key].digest)
          case Acknowledging(_) => submitted == [s.calls[key].digest] && key in s.files)
  }

  ghost predicate KeyInv(s: State, key: Key) {
    Agrees(s, key, Submissions(s.events, key)) && Honest(s.events, key)
  }

  ghost predicate Inv(s: State) {
    && (forall id :: id in s.queue ==> id < s.nextId)
    && forall key :: KeyInv(s, key)
  }

  lemma Logged(events: seq<Event>, event: Event, key: Key)
    ensures Submissions(events + [event], key) == Submissions(events, key) +
              if Concerns(event, key) then [event.digest] else []
    ensures Honest(events, key) &&
            (event.Answered? && event.key == key && event.answer == Returned ==>
               Submissions(events, key) == [event.digest])
      ==> Honest(events + [event], key)
  {
    var longer := events + [event];
    assert longer[..|events|] == events;
    if Honest(events, key) {
      forall i | 0 <= i < |events| && events[i].Answered? && events[i].key == key && events[i].answer == Returned
        ensures Submissions(longer[..i], key) == [longer[i].digest]
      {
        assert longer[..i] == events[..i];
      }
    }
  }

  lemma OutsideKeepsInv(s: State, action: Action)
    requires Inv(s)
    ensures Inv(Outside(s, action))
  {
    forall key ensures KeyInv(Outside(s, action), key) {
      assert KeyInv(s, key);
    }
  }

  /** The submissions after a step: only an add that the queue carries out makes one more. */
  function Resubmitted(s: State, action: Action, key: Key, submitted: seq<Digest>): seq<Digest> {
    if action.Add? && action.key == key && key in s.calls && s.calls[key].call == Submitting
       && (action.reply == Acknowledged || action.reply == Failed(true))
    then submitted + [s.calls[key].digest]
    else submitted
  }

  lemma InsideAgrees(s: State, action: Action, key: Key, submitted: seq<Digest>)
    requires Agrees(s, key, submitted) && forall id :: id in s.queue ==> id < s.nextId
    ensures Agrees(Inside(s, action), key, Resubmitted(s, action, key, submitted))
  {}

  /** The answer that a step gives, if any. */
  ghost predicate Says(s: State, t: State, action: Action, accepted: seq<Event>) {
    || t.events == s.events + accepted
    || (exists key, answer ::
          && key in s.calls && t.events == s.events + accepted + [Answered(key, s.calls[key].digest, answer)]
          && (answer == Returned ==>
                || (s.calls[key].call == Looking && Lookup(s, key, s.calls[key].digest) == Some(Returned))
                || s.calls[key].call.Acknowledging?))
  }

  function AcceptedBy(s: State, action: Action): seq<Event> {
    if action.Add? && action.key in s.calls && s.calls[action.key].call == Submitting
       && (action.reply == Acknowledged || action.reply == Failed(true))
    then [Accepted(action.key, s.calls[action.key].digest)]
    else []
  }

  lemma InsideSays(s: State, action: Action)
    ensures Says(s, Inside(s, action), action, AcceptedBy(s, action))
  {
    var t, accepted := Inside(s, action), AcceptedBy(s, action);
    if !action.Call? && t.events != s.events + accepted {
      var key := action.key;
      var event := t.events[|t.events| - 1];
      assert t.events == s.events + accepted + [Answered(key, s.calls[key].digest, event.answer)];
    }
  }

  lemma AcceptedIsLogged(s: State, action: Action, key: Key)
    requires Honest(s.events, key)
    ensures var events := s.events + AcceptedBy(s, action);
            Honest(events, key) && Submissions(events, key) == Resubmitted(s, action, key, Submissions(s.events, key))
  {
    if AcceptedBy(s, action) != [] {
      Logged(s.events, AcceptedBy(s, action)[0], key);
    } else {
      assert s.events + [] == s.events;
    }
  }

  lemma SaysKeepsHonest(s: State, t: State, action: Action, key: Key)
    requires KeyInv(s, key) && Says(s, t, action, AcceptedBy(s, action))
    ensures Honest(t.events, key) &&
            Submissions(t.events, key) == Resubmitted(s, action, key, Submissions(s.events, key))
  {
    var events := s.events + AcceptedBy(s, action);
    AcceptedIsLogged(s, action, key);
    if t.events != events {
      var k, answer :| k in s.calls && t.events == events + [Answered(k, s.calls[k].digest, answer)]
          && (answer == Returned ==>
                || (s.calls[k].call == Looking && Lookup(s, k, s.calls[k].digest) == Some(Returned))
                || s.calls[k].call.Acknowledging?);
      Logged(events, Answered(k, s.calls[k].digest, answer), key);
    }
  }

  lemma InsideKeepsInv(s: State, action: Action)
    requires Inv(s)
    ensures Inv(Inside(s, action))
  {
    var t := Inside(s, action);
    InsideSays(s, action);
    forall key ensures KeyInv(t, key) {
      assert KeyInv(s, key);
      InsideAgrees(s, action, key, Submissions(s.events, key));
      SaysKeepsHonest(s, t, action, key);
    }
  }

  lemma StepKeepsInv(s: State, action: Action)
    requires Inv(s)
    ensures Inv(Step(s, action))
  {
    OutsideKeepsInv(s, action);
    InsideKeepsInv(Outside(s, action), action);
  }

  lemma {:induction false} RunKeepsInv(s: State, actions: seq<Action>)
    requires Inv(s)
    ensures Inv(Run(s, actions))
    decreases |actions|
  {
    if actions != [] {
      StepKeepsInv(s, actions[0]);
      RunKeepsInv(Step(s, actions[0]), actions[1..]);
    }
  }

  // ---------------------------------------------------------- the results

  lemma {:induction false} RunConcat(s: State, first: seq<Action>, second: seq<Action>)
    ensures Run(s, first + second) == Run(Run(s, first), second)
    decreases |first|
  {
    if first == [] {
      assert first + second == second;
    } else {
      RunConcat(Step(s, first[0]), first[1..], second);
      assert (first + second)[1..] == first[1..] + second;
    }
  }

  lemma RunSnoc(s: State, trace: seq<Action>, action: Action)
    ensures Run(s, trace + [action]) == Step(Run(s, trace), action)
  {
    RunConcat(s, trace, [action]);
    assert [action][1..] == [];
  }

  /** Over every sequence of calls, deaths, lost acknowledgements and queue resets, the queue accepts a key's
      launch at most once, and every call that returned asked for exactly what was submitted before it. */
  lemma AtMostOnce(actions: seq<Action>, key: Key)
    ensures var events := Run(INITIAL, actions).events;
            |Submissions(events, key)| <= 1 && Honest(events, key)
  {
    RunKeepsInv(INITIAL, actions);
    assert KeyInv(Run(INITIAL, actions), key);
  }

  /** The first call for a key, undisturbed and acknowledged, submits its launch and returns it. */
  lemma FirstCallSubmits(s: State, key: Key, digest: Digest, after: bool)
    requires Inv(s) && key !in s.files && key !in s.calls
    ensures var t := Undisturbed(s, key, digest, after);
            && t.events == s.events + [Accepted(key, digest)] + [Answered(key, digest, Returned)]
            && Recorded(t, key, digest) && Closed(t, key)
  {
    var called := Step(Step(s, Call(key, digest, after)), Look(key, false));
    assert called.calls[key] == Pending(digest, after, Preparing);
    var written := Step(called, WriteInput(key));
    assert written.calls[key] == Pending(digest, after, Submitting) && written.files[key] == Document(digest, None);
    var added := Step(written, Add(key, Acknowledged));
    assert added.calls[key] == Pending(digest, after, Acknowledging(s.nextId));
  }

  /** One call that nobody disturbs and the queue acknowledges. */
  function Undisturbed(s: State, key: Key, digest: Digest, after: bool): State {
    var looked := Step(Step(s, Call(key, digest, after)), Look(key, false));
    Step(Step(Step(looked, WriteInput(key)), Add(key, Acknowledged)), WriteTask(key, true))
  }

  /** A call that finds nothing retained: it has yet to submit. */
  function Prepared(s: State, key: Key, digest: Digest, after: bool): State {
    Step(Step(s, Call(key, digest, after)), Look(key, false))
  }

  lemma PreparedIs(s: State, key: Key, digest: Digest, after: bool, down: bool)
    requires key !in s.files && key !in s.calls
    ensures Step(Step(s, Call(key, digest, after)), Look(key, down))
         == s.(calls := s.calls[key := Pending(digest, after, Preparing)])
  {}

  /** How an undisturbed first call ends before the queue accepts anything: a launch that the checks refuse leaves
      nothing; a request that was not carried out leaves the input, and the call is uncertain. */
  lemma FirstCallFails(s: State, key: Key, digest: Digest, after: bool)
    requires key !in s.files && key !in s.calls
    ensures var p := Prepared(s, key, digest, after);
            && Step(p, Abort(key)) == s.(events := s.events + [Answered(key, digest, Failure)])
            && Step(Step(p, WriteInput(key)), Add(key, Failed(false)))
               == s.(files := s.files[key := Document(digest, None)],
                     events := s.events + [Answered(key, digest, Uncertain)])
  {
    PreparedIs(s, key, digest, after, false);
    var p := Prepared(s, key, digest, after);
    assert p.calls - {key} == s.calls;
    var w := Step(p, WriteInput(key));
    assert w.calls - {key} == s.calls;
  }

  /** The task is in the queue under its key. */
  function Taken(s: State, key: Key): State {
    s.(queue := s.queue[s.nextId := Some(key)], nextId := s.nextId + 1)
  }

  lemma WrittenIs(s: State, key: Key, digest: Digest, after: bool)
    requires key !in s.files && key !in s.calls
    ensures var w := Step(Prepared(s, key, digest, after), WriteInput(key));
            w == s.(calls := s.calls[key := Pending(digest, after, Submitting)],
                    files := s.files[key := Document(digest, None)])
            && w.calls - {key} == s.calls
  {
    PreparedIs(s, key, digest, after, false);
  }

  /** A lost acknowledgement leaves the task, and the input without its number; the call is uncertain. */
  lemma FirstCallIsLost(s: State, key: Key, digest: Digest, after: bool)
    requires key !in s.files && key !in s.calls
    ensures var w := Step(Prepared(s, key, digest, after), WriteInput(key));
            Step(w, Add(key, Failed(true)))
            == Taken(s, key).(files := s.files[key := Document(digest, None)],
                              events := s.events + [Accepted(key, digest)] + [Answered(key, digest, Uncertain)])
  {
    WrittenIs(s, key, digest, after);
  }

  lemma AcknowledgedIs(s: State, key: Key, digest: Digest, after: bool)
    requires key !in s.files && key !in s.calls
    ensures var added := Step(Step(Prepared(s, key, digest, after), WriteInput(key)), Add(key, Acknowledged));
            added == Taken(s, key).(files := s.files[key := Document(digest, None)],
                                    calls := s.calls[key := Pending(digest, after, Acknowledging(s.nextId))],
                                    events := s.events + [Accepted(key, digest)])
            && added.calls - {key} == s.calls
  {
    WrittenIs(s, key, digest, after);
  }

  /** An acknowledged first call records the task's number, and fails only if the task cannot be read. */
  lemma FirstCallIsAccepted(s: State, key: Key, digest: Digest, after: bool, viewed: bool)
    requires key !in s.files && key !in s.calls
    ensures var added := Step(Step(Prepared(s, key, digest, after), WriteInput(key)), Add(key, Acknowledged));
            Step(added, WriteTask(key, viewed))
            == Taken(s, key).(files := s.files[key := Document(digest, Some(s.nextId))],
                              events := s.events + [Accepted(key, digest)]
                                        + [Answered(key, digest, if viewed then Returned else Failure)])
  {
    AcknowledgedIs(s, key, digest, after);
    assert s.files[key := Document(digest, None)][key := Document(digest, Some(s.nextId))]
        == s.files[key := Document(digest, Some(s.nextId))];
  }

  /** While the queue cannot be read, a call for a retained input fails unless it is refused, and nothing changes. */
  lemma DownAnswers(s: State, key: Key, digest: Digest, after: bool)
    requires key in s.files && key !in s.calls
    ensures Step(Step(s, Call(key, digest, after)), Look(key, true))
         == s.(events := s.events + [Answered(key, digest,
                 if s.files[key].Invalid? || s.files[key].digest != digest then Refused else Failure)])
  {
    var called := Step(s, Call(key, digest, after));
    assert called.calls - {key} == s.calls;
  }

  /** An unknown group withdraws the retained input exactly when the launch waits for no other task; the call
      fails, and no other key is touched. */
  lemma UnknownGroupUnlinks(s: State, key: Key)
    requires Inv(s) && key in s.calls && s.calls[key].call == Submitting
    ensures var t := Step(s, Add(key, UnknownGroup));
            && (key in t.files <==> s.calls[key].after) && key !in t.calls
            && t.events == s.events + [Answered(key, s.calls[key].digest, Failure)] && t.queue == s.queue
            && forall other :: other != key ==>
                 (other in t.files <==> other in s.files) && (other in s.files ==> t.files[other] == s.files[other])
  {
    assert KeyInv(s, key);
  }

  lemma RetainedAnswers(s: State, key: Key, digest: Digest, after: bool)
    requires key in s.files && key !in s.calls
    ensures Undisturbed(s, key, digest, after).events
         == s.events + [Answered(key, digest, Lookup(s, key, digest).value)]
  {
    var called := Step(s, Call(key, digest, after));
    assert Queued(called, key) == Queued(s, key);
    var looked := Step(called, Look(key, false));
    assert looked.events == s.events + [Answered(key, digest, Lookup(s, key, digest).value)] && key !in looked.calls;
  }

  /** After an unknown group the key can be launched again exactly when its input was withdrawn: the next call,
      undisturbed and acknowledged, is then accepted and returned, and otherwise uncertain or refused. */
  lemma UnknownGroupLaunchesAgain(s: State, key: Key, digest: Digest, after: bool)
    requires Inv(s) && key in s.calls && s.calls[key].call == Submitting
    ensures var t := Step(s, Add(key, UnknownGroup));
            var u := Undisturbed(t, key, digest, after);
            if !s.calls[key].after then
              u.events == t.events + [Accepted(key, digest)] + [Answered(key, digest, Returned)]
            else
              || u.events == t.events + [Answered(key, digest, Uncertain)]
              || u.events == t.events + [Answered(key, digest, Refused)]
  {
    var t := Step(s, Add(key, UnknownGroup));
    StepKeepsInv(s, Add(key, UnknownGroup));
    UnknownGroupUnlinks(s, key);
    if !s.calls[key].after {
      FirstCallSubmits(t, key, digest, after);
    } else {
      assert KeyInv(s, key) && KeyInv(t, key);
      SubmissionsStep(s, Add(key, UnknownGroup), key);
      RetainedAnswers(t, key, digest, after);
    }
  }

  /** A different request under a submitted key is refused, and nothing is submitted. */
  lemma DifferentRequestIsRefused(s: State, key: Key, down: bool)
    requires Inv(s) && key in s.calls && s.calls[key].call == Looking
    requires Submissions(s.events, key) != [] && Submissions(s.events, key) != [s.calls[key].digest]
    ensures Step(s, Look(key, down)).events == s.events + [Answered(key, s.calls[key].digest, Refused)]
  {
    assert KeyInv(s, key);
  }

  /** No call for the key is between its retained input and the queue's answer. */
  predicate Closed(s: State, key: Key) {
    key in s.files && (key in s.calls ==> s.calls[key].call == Looking || s.calls[key].call.Acknowledging?)
  }

  lemma SubmissionsStep(s: State, action: Action, key: Key)
    requires Inv(s)
    ensures Submissions(Step(s, action).events, key) ==
              Resubmitted(Outside(s, action), action, key, Submissions(s.events, key))
  {
    var o := Outside(s, action);
    OutsideKeepsInv(s, action);
    assert KeyInv(o, key);
    InsideSays(o, action);
    SaysKeepsHonest(o, Inside(o, action), action, key);
    assert o.events == s.events;
  }

  lemma StaysClosed(s: State, action: Action, key: Key)
    requires Closed(s, key)
    ensures Closed(Step(s, action), key)
  {}

  lemma ClosedStep(s: State, action: Action, key: Key)
    requires Inv(s) && Closed(s, key)
    ensures Closed(Step(s, action), key)
    ensures Submissions(Step(s, action).events, key) == Submissions(s.events, key)
  {
    StaysClosed(s, action, key);
    SubmissionsStep(s, action, key);
    assert Outside(s, action).calls == s.calls;
  }

  /** A retained input closes its key: unless a call is about to hear from the queue, nothing is ever
      submitted for the key again. */
  lemma {:induction false} RetainedInputCloses(s: State, actions: seq<Action>, key: Key)
    requires Inv(s) && Closed(s, key)
    ensures Submissions(Run(s, actions).events, key) == Submissions(s.events, key) && Closed(Run(s, actions), key)
    decreases |actions|
  {
    if actions != [] {
      StepKeepsInv(s, actions[0]);
      ClosedStep(s, actions[0], key);
      RetainedInputCloses(Step(s, actions[0]), actions[1..], key);
    }
  }

  /** A launch that died before the queue heard of it stays uncertain: no later call submits it or returns it. */
  lemma LostLaunchStaysUncertain(s: State, actions: seq<Action>, key: Key, digest: Digest)
    requires Inv(s) && Closed(s, key) && Submissions(s.events, key) == []
    ensures var t := Run(s, actions);
            Lookup(t, key, digest) == Some(Uncertain) || Lookup(t, key, digest) == Some(Refused)
  {
    RunKeepsInv(s, actions);
    RetainedInputCloses(s, actions, key);
    assert KeyInv(Run(s, actions), key);
  }

  /** The task's number is recorded for this request. */
  predicate Recorded(s: State, key: Key, digest: Digest) {
    key in s.files && s.files[key].Document? && s.files[key].digest == digest && s.files[key].taskId.Some?
  }

  lemma RecordedStep(s: State, action: Action, key: Key, digest: Digest)
    requires Inv(s) && Closed(s, key) && Recorded(s, key, digest) && action != Damage(key)
    ensures Recorded(Step(s, action), key, digest)
  {
    assert KeyInv(s, key);
    OutsideKeepsInv(s, action);
    assert KeyInv(Outside(s, action), key);
  }

  /** An acknowledged launch is returned by every later lookup of the same request, whatever becomes of the
      queue, unless its retained input is damaged. */
  lemma {:induction false} AcknowledgedLaunchIsFound(s: State, actions: seq<Action>, key: Key, digest: Digest)
    requires Inv(s) && Closed(s, key) && Recorded(s, key, digest)
    requires forall i :: 0 <= i < |actions| ==> actions[i] != Damage(key)
    ensures Lookup(Run(s, actions), key, digest) == Some(Returned)
    decreases |actions|
  {
    if actions != [] {
      StepKeepsInv(s, actions[0]);
      ClosedStep(s, actions[0], key);
      RecordedStep(s, actions[0], key, digest);
      AcknowledgedLaunchIsFound(Step(s, actions[0]), actions[1..], key, digest);
    }
  }

  // ------------------------------------------- what a retained input is worth

  /** The input is retained and no call is on its way to the queue or back. */
  predicate Idle(s: State, key: Key) {
    key in s.files && (key in s.calls ==> s.calls[key].call == Looking)
  }

  predicate Readable(s: State, key: Key) {
    key in s.files && s.files[key].Document?
  }

  /** Evidence that outlives the queue: a recorded task number, or an attempt. */
  predicate Durable(s: State, key: Key) {
    Readable(s, key) && (s.files[key].taskId.Some? || key in s.attempted)
  }

  predicate Returnable(s: State, key: Key) {
    Readable(s, key) && (Queued(s, key) || s.files[key].taskId.Some? || key in s.attempted)
  }

  /** What happened from `s` to `t` includes no call that returned this key's job. */
  ghost predicate NoReturn(s: State, t: State, key: Key) {
    && s.events <= t.events
    && forall i :: |s.events| <= i < |t.events| && t.events[i].Answered? && t.events[i].key == key ==>
         t.events[i].answer != Returned
  }

  ghost predicate MayReturn(s: State, key: Key) {
    exists actions :: !NoReturn(s, Run(s, actions), key)
  }

  lemma UnreturnableStep(s: State, action: Action, key: Key)
    requires Idle(s, key) && !Returnable(s, key)
    ensures var t := Step(s, action); Idle(t, key) && !Returnable(t, key) && NoReturn(s, t, key)
  {
    assert Outside(s, action).calls == s.calls;
  }

  lemma {:induction false} UnreturnableStays(s: State, actions: seq<Action>, key: Key)
    requires Idle(s, key) && !Returnable(s, key)
    ensures NoReturn(s, Run(s, actions), key)
    decreases |actions|
  {
    if actions != [] {
      UnreturnableStep(s, actions[0], key);
      UnreturnableStays(Step(s, actions[0]), actions[1..], key);
    }
  }

  lemma ReturnableReturns(s: State, key: Key)
    requires Idle(s, key) && Returnable(s, key)
    ensures MayReturn(s, key)
  {
    var digest := s.files[key].digest;
    var a := Step(s, Die(key));
    var b := Step(a, Call(key, digest, false));
    var c := Step(b, Look(key, false));
    assert b.queue == s.queue && Queued(b, key) == Queued(s, key);
    assert c.events == s.events + [Answered(key, digest, Returned)];
    var first := [Die(key)];
    RunSnoc(s, [], Die(key));
    assert [] + [Die(key)] == first;
    RunSnoc(s, first, Call(key, digest, false));
    RunSnoc(s, first + [Call(key, digest, false)], Look(key, false));
    assert Run(s, first + [Call(key, digest, false)] + [Look(key, false)]) == c;
    assert c.events[|s.events|] == Answered(key, digest, Returned);
  }

  /** Some later call can return the job exactly when the retained input is readable and there is evidence of the
      submission: a task in the queue, a recorded task number, or an attempt. */
  lemma ReturnsIffEvidence(s: State, key: Key)
    requires Idle(s, key)
    ensures MayReturn(s, key) <==> Returnable(s, key)
  {
    if Returnable(s, key) {
      ReturnableReturns(s, key);
    } else {
      forall actions ensures NoReturn(s, Run(s, actions), key) {
        UnreturnableStays(s, actions, key);
      }
    }
  }

  lemma DurableStep(s: State, action: Action, key: Key)
    requires Idle(s, key) && Durable(s, key) && action != Damage(key)
    ensures var t := Step(s, action); Idle(t, key) && Durable(t, key) && t.files[key].digest == s.files[key].digest
  {
    assert Outside(s, action).calls == s.calls;
  }

  lemma {:induction false} DurableStays(s: State, actions: seq<Action>, key: Key)
    requires Idle(s, key) && Durable(s, key) && forall i :: 0 <= i < |actions| ==> actions[i] != Damage(key)
    ensures Lookup(Run(s, actions), key, s.files[key].digest) == Some(Returned)
    decreases |actions|
  {
    if actions != [] {
      DurableStep(s, actions[0], key);
      DurableStays(Step(s, actions[0]), actions[1..], key);
    }
  }

  /** An uncertain launch that the queue did accept becomes durable when its wrapper begins, and when a retry or a
      release writes its number. */
  lemma EvidenceAppears(s: State, key: Key, id: nat)
    requires Readable(s, key) && id in s.queue && s.queue[id] == Some(key)
    ensures Durable(Step(s, Begin(id)), key)
    ensures Durable(Step(s, Rewrite(id)), key) && Step(s, Rewrite(id)).files[key].taskId == Some(id)
  {}

  /** A second call for a key waits while one is under way, and only a call that has not written its input is refused
      by the launch checks. */
  lemma OneCallAtATime(s: State, key: Key, digest: Digest, after: bool)
    requires key in s.calls
    ensures Step(s, Call(key, digest, after)) == s
    ensures s.calls[key].call != Preparing ==> Step(s, Abort(key)) == s && Step(s, WriteInput(key)) == s
  {}

  /** What the queue loses is evidence no more: without a durable one the job is found just while its task is there. */
  lemma QueueForgets(s: State, key: Key, id: nat)
    requires Readable(s, key) && s.files[key].taskId == None && key !in s.attempted
    ensures Step(s, Reset) == s.(queue := map[], nextId := 0)
    ensures Lookup(Step(s, Reset), key, s.files[key].digest) == Some(Uncertain)
    ensures (forall other :: other in s.queue && s.queue[other] == Some(key) ==> other == id) ==>
              Lookup(Step(s, Remove(id)), key, s.files[key].digest) == Some(Uncertain)
    ensures Lookup(Step(s, AddOther), key, s.files[key].digest) == Some(Returned)
       <==> exists other :: other in s.queue && s.queue[other] == Some(key) && other != s.nextId
  {
    var t := Step(s, AddOther);
    if other :| other in s.queue && s.queue[other] == Some(key) && other != s.nextId {
      assert t.queue[other] == Some(key);
    }
    if Queued(t, key) {
      var other :| other in t.queue && t.queue[other] == Some(key);
      assert other != s.nextId && s.queue[other] == Some(key);
    }
  }

  lemma DamagedStep(s: State, action: Action, key: Key)
    requires Idle(s, key) && s.files[key].Invalid?
    ensures Idle(Step(s, action), key) && Step(s, action).files[key].Invalid?
  {
    assert Outside(s, action).calls == s.calls;
  }

  /** A damaged input refuses every later call: nothing is ever submitted for its key or returned again. */
  lemma {:induction false} DamageRefuses(s: State, actions: seq<Action>, key: Key, digest: Digest)
    requires Idle(s, key) && (s.files[key].Invalid? || (actions != [] && actions[0] == Damage(key)))
    ensures Lookup(Run(s, actions), key, digest) == Some(Refused)
    decreases |actions|
  {
    if actions != [] {
      if s.files[key].Invalid? {
        DamagedStep(s, actions[0], key);
      } else {
        assert Step(s, Damage(key)).files[key] == Invalid && Step(s, Damage(key)).calls == s.calls;
      }
      DamageRefuses(Step(s, actions[0]), actions[1..], key, digest);
    }
  }

  /** Every later lookup of the same request finds the job, whatever becomes of the queue. */
  ghost predicate AlwaysFound(s: State, key: Key)
    requires Readable(s, key)
  {
    forall actions :: (forall i :: 0 <= i < |actions| ==> actions[i] != Damage(key)) ==>
      Lookup(Run(s, actions), key, s.files[key].digest) == Some(Returned)
  }

  /** That holds exactly when the task number is recorded or an attempt was made. */
  lemma AlwaysFoundIffDurable(s: State, key: Key)
    requires Idle(s, key) && Readable(s, key)
    ensures AlwaysFound(s, key) <==> Durable(s, key)
  {
    if Durable(s, key) {
      forall actions | forall i :: 0 <= i < |actions| ==> actions[i] != Damage(key)
        ensures Lookup(Run(s, actions), key, s.files[key].digest) == Some(Returned)
      {
        DurableStays(s, actions, key);
      }
    } else {
      var t := Step(s, Reset);
      RunSnoc(s, [], Reset);
      assert [] + [Reset] == [Reset] && Run(s, [Reset]) == t;
      assert Lookup(t, key, s.files[key].digest) != Some(Returned);
    }
  }

  /** It happens that the queue accepts a launch which no call ever returns: the acknowledgement is lost and then the
      queue loses the task. */
  lemma LostAcknowledgementHappens(key: Key, digest: Digest)
    ensures exists actions ::
      var s := Run(INITIAL, actions);
      Submissions(s.events, key) == [digest] && Idle(s, key) && !MayReturn(s, key)
  {
    var trace: seq<Action> := [];
    RunSnoc(INITIAL, trace, Call(key, digest, false));
    var a := Step(INITIAL, Call(key, digest, false));
    trace := trace + [Call(key, digest, false)];
    RunSnoc(INITIAL, trace, Look(key, false));
    var b := Step(a, Look(key, false));
    trace := trace + [Look(key, false)];
    RunSnoc(INITIAL, trace, WriteInput(key));
    var c := Step(b, WriteInput(key));
    trace := trace + [WriteInput(key)];
    RunSnoc(INITIAL, trace, Add(key, Failed(true)));
    var d := Step(c, Add(key, Failed(true)));
    trace := trace + [Add(key, Failed(true))];
    RunSnoc(INITIAL, trace, Reset);
    var e := Step(d, Reset);
    trace := trace + [Reset];
    assert c.files[key] == Document(digest, None) && c.calls[key] == Pending(digest, false, Submitting);
    assert e.events == [] + [Accepted(key, digest)] + [Answered(key, digest, Uncertain)];
    Logged([], Accepted(key, digest), key);
    Logged([] + [Accepted(key, digest)], Answered(key, digest, Uncertain), key);
    assert Idle(e, key) && !Returnable(e, key);
    ReturnsIffEvidence(e, key);
    assert Run(INITIAL, trace) == e;
  }

  // ------------------------------------------------------- the code's own form

  /** Not a step of the call that holds this key's lock. */
  predicate Elsewhere(action: Action, key: Key) {
    match action
    case Reset | Remove(_) | AddOther | Begin(_) | Rewrite(_) | Damage(_) => true
    case Call(k, _, _) => k != key
    case Look(k, _) => k != key
    case Abort(k) => k != key
    case WriteInput(k) => k != key
    case Add(k, _) => k != key
    case WriteTask(k, _) => k != key
    case Die(k) => k != key
  }

  lemma {:induction false} ElsewhereRun(s: State, actions: seq<Action>, key: Key)
    requires key in s.calls && forall i :: 0 <= i < |actions| ==> Elsewhere(actions[i], key)
    ensures key in Run(s, actions).calls && Run(s, actions).calls[key] == s.calls[key]
    decreases |actions|
  {
    if actions != [] {
      ElsewhereRun(Step(s, actions[0]), actions[1..], key);
    }
  }

  /** What a call meets: other parties between its steps, and how the queue and the launch checks answer it. */
  datatype Surroundings = Surroundings(others: nat -> seq<Action>, down: bool, admitted: bool,
                                       reply: Reply, viewed: bool)

  /** The steps of a submission. */
  function SubmitTrace(key: Key, around: Surroundings): seq<Action> {
    if !around.admitted then [Abort(key)]
    else
      [WriteInput(key)] + around.others(2) + [Add(key, around.reply)]
      + if around.reply == Acknowledged then around.others(3) + [WriteTask(key, around.viewed)] else []
  }

  /** The steps of one call, among those of the others. */
  function CallTrace(s: State, key: Key, digest: Digest, after: bool, around: Surroundings): seq<Action> {
    var first := [Call(key, digest, after)] + around.others(0);
    first + [Look(key, around.down)]
    + if Lookup(Run(s, first), key, digest).Some? then [] else around.others(1) + SubmitTrace(key, around)
  }

  lemma SubmitEnds(key: Key, around: Surroundings)
    ensures var trace := SubmitTrace(key, around);
            trace != [] && (trace[|trace| - 1] == Add(key, UnknownGroup) <==>
                            around.admitted && around.reply == UnknownGroup)
  {}

  /** A call ends with the add of an unknown group only if it came to submit. */
  lemma CallEnds(s: State, key: Key, digest: Digest, after: bool, around: Surroundings)
    ensures var trace := CallTrace(s, key, digest, after, around);
            trace != [] && (trace[|trace| - 1] == Add(key, UnknownGroup) <==>
                            && Lookup(Run(s, [Call(key, digest, after)] + around.others(0)), key, digest) == None
                            && around.admitted && around.reply == UnknownGroup)
  {
    SubmitEnds(key, around);
  }

  lemma TraceOf(first: seq<Action>, later: seq<Action>, last: seq<Action>)
    ensures first + later + last == first + (later + last)
  {}

  /** The launch inputs, the queue, the attempts made and the key locks; `events` is the history. */
  class Launcher {
    var files: map<Key, File>
    var queue: map<nat, Option<Key>>
    var nextId: nat
    var attempted: set<Key>
    var calls: map<Key, Pending>
    var events: seq<Event>

    function World(): State
      reads this
    {
      State(files, queue, nextId, attempted, calls, events)
    }

    ghost predicate At(start: State, trace: seq<Action>, key: Key, pending: Pending)
      reads this
    {
      World() == Run(start, trace) && key in calls && calls[key] == pending
    }

    ghost predicate Answers(key: Key, digest: Digest, answer: Answer)
      reads this
    {
      key !in calls && events != [] && events[|events| - 1] == Answered(key, digest, answer)
    }

    constructor ()
      ensures World() == INITIAL
    {
      files, queue, nextId, attempted, calls, events := map[], map[], 0, {}, map[], [];
    }

    /** What other parties do meanwhile. */
    method Others(actions: seq<Action>, key: Key, ghost start: State, ghost trace: seq<Action>)
      returns (ghost longer: seq<Action>)
      requires key in calls && World() == Run(start, trace)
      requires forall i :: 0 <= i < |actions| ==> Elsewhere(actions[i], key)
      modifies this
      ensures At(start, longer, key, old(calls)[key]) && longer == trace + actions
    {
      RunConcat(start, trace, actions);
      ElsewhereRun(World(), actions, key);
      longer := trace + actions;
      var after := Run(World(), actions);
      files, queue, nextId := after.files, after.queue, after.nextId;
      attempted, calls, events := after.attempted, after.calls, after.events;
    }

    /** The call ends with its answer and lets go of its lock. */
    method Reply(key: Key, answer: Answer)
      requires key in calls
      modifies `calls, `events
      ensures World() == Conclude(old(World()), key, answer)
    {
      var digest := calls[key].digest;
      calls, events := calls - {key}, events + [Answered(key, digest, answer)];
    }

    /** The launch input is written, before the task is added and again with the task's number. */
    method Write(key: Key, digest: Digest, taskId: Option<nat>)
      modifies `files
      ensures World() == old(World()).(files := old(files)[key := Document(digest, taskId)])
    {
      files := files[key := Document(digest, taskId)];
    }

    /** The queue takes the task. */
    method AddTask(key: Key) returns (id: nat)
      requires key in calls
      modifies `queue, `nextId, `events
      ensures id == old(nextId) && World() == Accept(old(World()), key)
    {
      id := nextId;
      queue, nextId := queue[id := Some(key)], nextId + 1;
      events := events + [Accepted(key, calls[key].digest)];
    }

    /** The add request fails: it may have been carried out, and an unknown group withdraws the input unless the
        launch waits for other tasks. */
    method AddFails(key: Key, reply: Reply, ghost start: State, ghost before: seq<Action>, ghost pending: Pending)
      returns (answer: Answer, ghost trace: seq<Action>)
      requires At(start, before, key, pending) && pending.call == Submitting && reply != Acknowledged
      modifies this
      ensures World() == Run(start, trace) && Answers(key, pending.digest, answer)
      ensures trace == before + [Add(key, reply)]
      ensures reply == UnknownGroup && key in old(files) ==> (key in files <==> pending.after)
    {
      RunSnoc(start, before, Add(key, reply));
      trace := before + [Add(key, reply)];
      if reply == UnknownGroup {
        if !calls[key].after {
          files := files - {key};
        }
        answer := Failure;
      } else {
        if reply == Failed(true) {
          var id := AddTask(key);
        }
        answer := Uncertain;
      }
      Reply(key, answer);
    }

    /** The acknowledged task's number is recorded before the call ends. */
    method Acknowledge(key: Key, digest: Digest, around: Surroundings, ghost start: State, ghost before: seq<Action>,
                       ghost pending: Pending)
      returns (answer: Answer, ghost trace: seq<Action>)
      requires At(start, before, key, pending) && pending.call == Submitting && pending.digest == digest
      requires forall n, i :: 0 <= i < |around.others(n)| ==> Elsewhere(around.others(n)[i], key)
      modifies this
      ensures World() == Run(start, trace) && Answers(key, digest, answer)
      ensures trace == before + ([Add(key, Acknowledged)] + around.others(3) + [WriteTask(key, around.viewed)])
    {
      RunSnoc(start, before, Add(key, Acknowledged));
      trace := before + [Add(key, Acknowledged)];
      var id := AddTask(key);
      calls := calls[key := calls[key].(call := Acknowledging(id))];
      trace := Others(around.others(3), key, start, trace);
      RunSnoc(start, trace, WriteTask(key, around.viewed));
      trace := trace + [WriteTask(key, around.viewed)];
      Write(key, digest, Some(id));
      answer := if around.viewed then Returned else Failure;
      Reply(key, answer);
    }

    /** The input is retained before the queue hears of the launch. */
    method Retain(key: Key, digest: Digest, others: seq<Action>, ghost start: State, ghost before: seq<Action>,
                  ghost pending: Pending)
      returns (ghost trace: seq<Action>)
      requires Inv(start)
      requires At(start, before, key, pending) && pending.call == Preparing && pending.digest == digest
      requires forall i :: 0 <= i < |others| ==> Elsewhere(others[i], key)
      modifies this
      ensures At(start, trace, key, pending.(call := Submitting)) && key in files
      ensures trace == before + [WriteInput(key)] + others
    {
      RunSnoc(start, before, WriteInput(key));
      trace := before + [WriteInput(key)];
      Write(key, digest, None);
      calls := calls[key := calls[key].(call := Submitting)];
      trace := Others(others, key, start, trace);
      RunKeepsInv(start, trace);
      assert KeyInv(World(), key);
    }

    /** The submission of a key that has no retained input. */
    method Submit(key: Key, digest: Digest, around: Surroundings, ghost start: State, ghost before: seq<Action>,
                  ghost pending: Pending)
      returns (answer: Answer, ghost trace: seq<Action>)
      requires Inv(start)
      requires At(start, before, key, pending) && pending.call == Preparing && pending.digest == digest
      requires forall n, i :: 0 <= i < |around.others(n)| ==> Elsewhere(around.others(n)[i], key)
      modifies this
      ensures World() == Run(start, trace) && Answers(key, digest, answer)
      ensures trace == before + SubmitTrace(key, around)
      ensures around.admitted && around.reply == UnknownGroup ==> (key in files <==> pending.after)
    {
      if !around.admitted {
        RunSnoc(start, before, Abort(key));
        Reply(key, Failure);
        return Failure, before + [Abort(key)];
      }
      trace := Retain(key, digest, around.others(2), start, before, pending);
      if around.reply == Acknowledged {
        answer, trace := Acknowledge(key, digest, around, start, trace, pending.(call := Submitting));
      } else {
        answer, trace := AddFails(key, around.reply, start, trace, pending.(call := Submitting));
      }
    }

    /** The lookup under the key's lock: an answer, unless nothing was ever submitted for the key. */
    method Consult(key: Key, digest: Digest, after: bool, around: Surroundings)
      returns (answer: Option<Answer>, ghost trace: seq<Action>)
      requires Inv(World()) && key !in calls
      requires forall n, i :: 0 <= i < |around.others(n)| ==> Elsewhere(around.others(n)[i], key)
      modifies this
      ensures World() == Run(old(World()), trace)
      ensures trace == [Call(key, digest, after)] + around.others(0) + [Look(key, around.down)]
      ensures answer.Some?
         <==> Lookup(Run(old(World()), [Call(key, digest, after)] + around.others(0)), key, digest).Some?
      ensures match answer
              case Some(said) => Answers(key, digest, said)
              case None => At(old(World()), trace, key, Pending(digest, after, Preparing))
    {
      ghost var start := World();
      var pending := Pending(digest, after, Looking);
      RunSnoc(start, [], Call(key, digest, after));
      trace := [] + [Call(key, digest, after)];
      calls := calls[key := pending];
      trace := Others(around.others(0), key, start, trace);
      var existing := Lookup(World(), key, digest);
      RunSnoc(start, trace, Look(key, around.down));
      trace := trace + [Look(key, around.down)];
      if existing == None {
        calls := calls[key := pending.(call := Preparing)];
        return None, trace;
      }
      var said := if existing == Some(Refused) then Refused else if around.down then Failure else existing.value;
      Reply(key, said);
      answer := Some(said);
    }

    /** One keyed call from its lock to its answer. */
    method EnqueueRequest(key: Key, digest: Digest, after: bool, around: Surroundings)
      returns (answer: Answer, ghost trace: seq<Action>)
      requires Inv(World()) && key !in calls
      requires forall n, i :: 0 <= i < |around.others(n)| ==> Elsewhere(around.others(n)[i], key)
      modifies this
      ensures World() == Run(old(World()), trace) && Inv(World()) && Answers(key, digest, answer)
      ensures trace == CallTrace(old(World()), key, digest, after, around)
      ensures trace[|trace| - 1] == Add(key, UnknownGroup) ==> (key in files <==> after)
      ensures answer == Returned ==> Submissions(events, key) == [digest]
    {
      ghost var start := World();
      var said;
      said, trace := Consult(key, digest, after, around);
      if said.Some? {
        answer := said.value;
      } else {
        var pending := Pending(digest, after, Preparing);
        ghost var first := trace;
        trace := Others(around.others(1), key, start, trace);
        answer, trace := Submit(key, digest, around, start, trace, pending);
        TraceOf(first, around.others(1), SubmitTrace(key, around));
      }
      CallEnds(start, key, digest, after, around);
      RunKeepsInv(start, trace);
      LastAnswerIsHonest(World(), key, digest, answer);
    }
  }

  lemma LastAnswerIsHonest(s: State, key: Key, digest: Digest, answer: Answer)
    requires Inv(s) && s.events != [] && s.events[|s.events| - 1] == Answered(key, digest, answer)
    ensures answer == Returned ==> Submissions(s.events, key) == [digest]
  {
    var n := |s.events| - 1;
    assert KeyInv(s, key);
    Logged(s.events[..n], s.events[n], key);
    assert s.events[..n] + [s.events[n]] == s.events;
  }
}
