/** One job's attempts: cancellation against startup, startup retries, and the not-started cancel. */
module JobRun {
  import opened Wrappers

  // ------------------------------------------- the allocation directory

  /** Attempt `i + 1` has published an outcome when `outcomes[i]` holds; `marker` is the attempt to cancel. */
  datatype Dir = Dir(outcomes: seq<bool>, marker: Option<nat>) {

    predicate Unfinished() {
      outcomes != [] && !outcomes[|outcomes| - 1]
    }

    /** The attempt that a canceller addresses. */
    function Active(): nat {
      if Unfinished() then |outcomes| else |outcomes| + 1
    }

    /** A marker left for any other attempt is dropped when a new one begins. */
    function Swept(): Dir {
      if marker == Some(|outcomes| + 1) then this else this.(marker := None)
    }

    function Begun(): Dir {
      Swept().(outcomes := outcomes + [false])
    }

    function Consumed(attempt: nat): Dir {
      if marker == Some(attempt) then this.(marker := None) else this
    }

    function Published(attempt: nat): Dir {
      if 1 <= attempt <= |outcomes| then this.(outcomes := outcomes[attempt - 1 := true]) else this
    }
  }

  // ------------------------------------------------------- the machine

  datatype Row = Gone | Waiting | Started | Done

  datatype Wrapper =
    | NoWrapper
    | Launched                  // before its attempt is allocated
    | Allocated(attempt: nat)
    | Starting(attempt: nat)    // at the startup section
    | Backoff(attempt: nat)     // the bus refused the startup; the unit is not yet known absent
    | Settling(attempt: nat)    // waiting for the unit to end
    | Finishing(attempt: nat)   // about to consume its marker
    | Publishing(attempt: nat)
    | Exiting(attempt: nat)     // the outcome is published

  /** Who holds the allocation lock between two of its steps; the wrapper's own sections are one step each. */
  datatype Canceller =
    | Free
    | Chosen(attempt: nat, queued: bool)
    | Marked(attempt: nat, queued: bool, count: nat)
    | Checked(attempt: nat, count: nat)
    | Removed(attempt: nat, count: nat)

  datatype Event = Begun(attempt: nat) | Tried(attempt: nat) | Accepted(attempt: nat) | SeenAbsent(attempt: nat)
                 | MarkedFor(attempt: nat) | StopIssued(attempt: nat) | GaveUp(attempt: nat) | NotStarted
                 | Saw(attempt: nat, unit: nat)  // the attempt's outcome is read from this attempt's unit

  /** The unit under the job's one unit name: the attempt whose payload it took, and whether processes remain. */
  datatype Unit = Unit(attempt: nat, alive: bool)

  /** `unit` is what the service manager has loaded; an ended unit stays loaded until it is stopped. */
  datatype State = State(dir: Dir, unit: Option<Unit>, row: Row, wrapper: Wrapper, canceller: Canceller,
                         events: seq<Event>)

  /** What the manager did with a submission, and whether the client saw its bus refused. */
  datatype Reply = Acknowledged | Lost(busRefused: bool) | Rejected(busRefused: bool)

  datatype Action =
    // the queue, and the unit by itself
    | Launch | Retry | Clean | UnitEnds
    // the wrapper
    | Begin | BeginTorn | Notice | Refuse | FindOccupied | SettleOrphan | EnterStart | Submit(reply: Reply)
    | PollMarker | PollUnit(failed: bool) | Abandon | Complete(seen: bool, released: bool)
    | Consume | Publish | Exit | Die
    // a canceller
    | CancelRead(queued: bool) | CancelMark | CancelStop(effective: bool)
    | CheckQueue | RemoveRow(failed: bool) | Confirm | CancelDie

  const INITIAL := State(Dir([], None), None, Waiting, NoWrapper, Free, [])

  function Log(s: State, event: Event): State {
    s.(events := s.events + [event])
  }

  /** An action that is not enabled leaves the state as it is. */
  function Step(s: State, action: Action): State {
    match action
    case Launch | Retry | Clean | UnitEnds => QueueStep(s, action)
    case CancelRead(_) | CancelMark | CancelStop(_) | CheckQueue | RemoveRow(_) | Confirm | CancelDie =>
      CancelStep(s, action)
    case _ => WrapperStep(s, action)
  }

  predicate Outer(action: Action) {
    action.Launch? || action.Retry? || action.Clean? || action.UnitEnds?
  }

  /** A retry is refused while the unit it claimed before still has processes. */
  function QueueStep(s: State, action: Action): State
    requires Outer(action)
  {
    match action
    case Launch => if s.row == Waiting then s.(row := Started, wrapper := Launched) else s
    case Retry => if s.row == Done && !(s.unit.Some? && s.unit.value.alive) then s.(row := Waiting) else s
    case Clean => if s.row == Done then s.(row := Gone, dir := s.dir.(marker := None)) else s
    case UnitEnds => if s.unit.Some? then s.(unit := Some(s.unit.value.(alive := false))) else s
  }

  function GiveUp(s: State, attempt: nat): State {
    Log(s.(wrapper := Finishing(attempt)), GaveUp(attempt))
  }

  function WrapperStep(s: State, action: Action): State {
    match (action, s.wrapper)
    case (Begin, Launched) =>
      if s.canceller != Free then s
      else
        var number := |s.dir.outcomes| + 1;
        Log(s.(dir := s.dir.Begun(), wrapper := Allocated(number)), Begun(number))
    case (BeginTorn, Launched) =>
      if s.canceller != Free then s else s.(dir := s.dir.Swept(), wrapper := NoWrapper, row := Done)
    case (Notice, Allocated(k)) => if s.dir.marker == Some(k) then GiveUp(s, k) else s
    case (Refuse, Allocated(k)) => s.(dir := s.dir.Published(k), wrapper := Exiting(k))
    case (Refuse, Starting(k)) => s.(dir := s.dir.Published(k), wrapper := Exiting(k))
    case (Refuse, Settling(k)) => s.(dir := s.dir.Published(k), wrapper := Exiting(k))
    case (FindOccupied, Allocated(k)) => s.(wrapper := Finishing(k))
    case (SettleOrphan, Allocated(_)) => s.(unit := None)
    case (SettleOrphan, Exiting(_)) => s.(unit := None)
    case (EnterStart, Allocated(k)) => s.(wrapper := Starting(k))
    case (Submit(reply), Starting(k)) => if s.canceller != Free then s else Submitted(s, k, reply)
    case (PollMarker, Backoff(k)) => if s.dir.marker == Some(k) then GiveUp(s, k) else s
    case (PollUnit(failed), Backoff(k)) =>
      if failed then s
      else if s.unit == None then Log(s.(wrapper := Starting(k)), SeenAbsent(k))
      else s.(wrapper := Settling(k))
    case (Abandon, Backoff(k)) => s.(wrapper := Settling(k))
    case (Complete(seen, released), Settling(k)) =>
      var t := if released then s.(unit := None) else s;
      if s.dir.marker == Some(k) then GiveUp(t, k)
      else if seen && s.unit.Some? && !s.unit.value.alive then
        Log(t.(wrapper := Finishing(k)), Saw(k, s.unit.value.attempt))
      else t.(wrapper := Finishing(k))
    case (Consume, Finishing(k)) =>
      if s.canceller != Free then s else s.(dir := s.dir.Consumed(k), wrapper := Publishing(k))
    case (Publish, Publishing(k)) => s.(dir := s.dir.Published(k), wrapper := Exiting(k))
    case (Exit, Exiting(_)) => s.(wrapper := NoWrapper, row := Done)
    case (Die, _) => if s.wrapper == NoWrapper then s else s.(wrapper := NoWrapper, row := Done)
    case _ => s
  }

  /** The startup section: a marker for this attempt ends it; otherwise the unit is submitted. A name that
      is still in use refuses the submission. */
  function Submitted(s: State, k: nat, reply: Reply): State {
    if s.dir.marker == Some(k) then GiveUp(s, k)
    else
      var tried := Log(s, Tried(k));
      match reply
      case Rejected(bus) => tried.(wrapper := if bus then Backoff(k) else Settling(k))
      case Lost(bus) =>
        if s.unit != None then s
        else Log(tried.(unit := Some(Unit(k, true)), wrapper := if bus then Backoff(k) else Settling(k)), Accepted(k))
      case Acknowledged =>
        if s.unit != None then s else Log(tried.(unit := Some(Unit(k, true)), wrapper := Settling(k)), Accepted(k))
  }

  function CancelStep(s: State, action: Action): State {
    match (action, s.canceller)
    case (CancelRead(queued), Free) => s.(canceller := Chosen(s.dir.Active(), queued))
    case (CancelMark, Chosen(a, queued)) =>
      Log(s.(dir := s.dir.(marker := Some(a)), canceller := Marked(a, queued, |s.dir.outcomes|)), MarkedFor(a))
    case (CancelStop(effective), Marked(a, false, _)) =>
      Log(s.(unit := if effective then None else s.unit, canceller := Free), StopIssued(a))
    case (CheckQueue, Marked(a, true, count)) =>
      if s.row == Started || s.row == Done || s.dir.Unfinished() then s.(canceller := Free)
      else s.(canceller := Checked(a, count))
    case (RemoveRow(failed), Checked(a, count)) =>
      s.(row := if s.row == Waiting && !failed then Gone else s.row, canceller := Removed(a, count))
    case (Confirm, Removed(a, count)) =>
      if s.row != Gone || |s.dir.outcomes| > count || s.dir.Unfinished() then s.(canceller := Free)
      else Log(s.(dir := s.dir.Consumed(a), canceller := Free), NotStarted)
    case (CancelDie, _) => s.(canceller := Free)
    case _ => s
  }

  function Run(s: State, actions: seq<Action>): State
    decreases |actions|
  {
    if actions == [] then s else Run(Step(s, actions[0]), actions[1..])
  }

  // --------------------------------------------------------- invariants

  /** The number of the invocation that is under way. */
  function Live(s: State): Option<nat> {
    match s.wrapper
    case NoWrapper => None
    case Launched => Some(|s.dir.outcomes| + 1)
    case _ => Some(s.wrapper.attempt)
  }

  predicate MayStart(w: Wrapper) {
    w.Allocated? || w.Starting? || w.Backoff?
  }

  /** The wrapper holds an attempt whose outcome is not published. */
  predicate Busy(w: Wrapper) {
    MayStart(w) || w.Settling? || w.Finishing? || w.Publishing?
  }

  ghost predicate Inv(s: State) {
    && (s.wrapper != NoWrapper <==> s.row == Started)
    && (s.wrapper != NoWrapper && !s.wrapper.Launched? ==> s.wrapper.attempt == |s.dir.outcomes| >= 1)
    && (Busy(s.wrapper) ==> s.dir.Unfinished())
    && (s.wrapper.Exiting? ==> !s.dir.Unfinished())
    && (s.canceller != Free && Busy(s.wrapper) ==> s.canceller.attempt == s.wrapper.attempt)
    && (s.canceller != Free ==> Addressable(s.dir, s.canceller.attempt))
    && (s.canceller != Free && !s.canceller.Chosen? && s.row != Gone ==> s.dir.marker == Some(s.canceller.attempt))
    && (s.canceller.Marked? || s.canceller.Checked? || s.canceller.Removed? ==> s.canceller.count == |s.dir.outcomes|)
  }

  predicate Addressable(dir: Dir, attempt: nat) {
    attempt == |dir.outcomes| || (attempt == |dir.outcomes| + 1 && !dir.Unfinished())
  }

  lemma QueueKeepsInv(s: State, action: Action)
    requires Inv(s) && Outer(action)
    ensures Inv(QueueStep(s, action))
  {}

  lemma WrapperKeepsInv(s: State, action: Action)
    requires Inv(s)
    ensures Inv(WrapperStep(s, action))
  {}

  lemma CancelKeepsInv(s: State, action: Action)
    requires Inv(s)
    ensures Inv(CancelStep(s, action))
  {}

  lemma StepKeepsInv(s: State, action: Action)
    requires Inv(s)
    ensures Inv(Step(s, action))
  {
    if Outer(action) {
      QueueKeepsInv(s, action);
    }
    WrapperKeepsInv(s, action);
    CancelKeepsInv(s, action);
  }

  lemma {:induction false} RunKeepsInv(s: State, actions: seq<Action>)
    requires Inv(s)
    ensures Inv(Run(s, actions))
    decreases |actions|
  {
    if actions != [] {
      StepKeepsInv(s, actions[0]);
      RunKeepsInv(Step(s, actions[0]), actions[1..]);
    }
  }

  // -------------------------------------------------- cancel and start

  /** Attempt `a` can never start: it is over, or nothing is left to start it, or its marker stops it. */
  ghost predicate Blocked(s: State, a: nat) {
    || s.row == Gone
    || a < |s.dir.outcomes|
    || (a == |s.dir.outcomes| && (MayStart(s.wrapper) ==> s.dir.marker == Some(a)))
    || (a == |s.dir.outcomes| + 1 && !s.dir.Unfinished() && s.dir.marker == Some(a))
  }

  /** A canceller that holds the lock while `a` may still start is there to cancel `a`. */
  ghost predicate Held(s: State, a: nat) {
    s.canceller == Free || s.row == Gone || s.canceller.attempt == a || a < |s.dir.outcomes|
    || (a == |s.dir.outcomes| && !MayStart(s.wrapper))
  }

  /** What happened from `s` to `t` includes no submission of attempt `a`. */
  ghost predicate NoStartOf(s: State, t: State, a: nat) {
    && s.events <= t.events
    && forall i :: |s.events| <= i < |t.events| ==> t.events[i] != Tried(a) && t.events[i] != Accepted(a)
  }

  lemma QueueBlocked(s: State, action: Action, a: nat)
    requires Outer(action)
    requires Inv(s) && Blocked(s, a) && Held(s, a)
    ensures var t := QueueStep(s, action); Blocked(t, a) && Held(t, a) && NoStartOf(s, t, a)
  {}

  lemma WrapperBlocked(s: State, action: Action, a: nat)
    requires Inv(s) && Blocked(s, a) && Held(s, a)
    ensures var t := WrapperStep(s, action); Blocked(t, a) && Held(t, a) && NoStartOf(s, t, a)
  {}

  lemma CancelBlocked(s: State, action: Action, a: nat)
    requires Inv(s) && Blocked(s, a) && Held(s, a)
    ensures var t := CancelStep(s, action); Blocked(t, a) && Held(t, a) && NoStartOf(s, t, a)
  {}

  lemma BlockedStep(s: State, action: Action, a: nat)
    requires Inv(s) && Blocked(s, a) && Held(s, a)
    ensures Blocked(Step(s, action), a) && Held(Step(s, action), a) && NoStartOf(s, Step(s, action), a)
  {
    if Outer(action) {
      QueueBlocked(s, action, a);
    }
    WrapperBlocked(s, action, a);
    CancelBlocked(s, action, a);
  }

  lemma {:induction false} BlockedRun(s: State, actions: seq<Action>, a: nat)
    requires Inv(s) && Blocked(s, a) && Held(s, a)
    ensures Blocked(Run(s, actions), a) && NoStartOf(s, Run(s, actions), a)
    decreases |actions|
  {
    if actions != [] {
      var t := Step(s, actions[0]);
      StepKeepsInv(s, actions[0]);
      BlockedStep(s, actions[0], a);
      BlockedRun(t, actions[1..], a);
    }
  }

  lemma {:induction false} RunConcat(s: State, first: seq<Action>, second: seq<Action>)
    ensures Run(s, first + second) == Run(Run(s, first), second)
    decreases |first|
  {
    if first == [] {
      assert first + second == second;
    } else {
      RunConcat(Step(s, first[0]), first[1..], second);
      assert (first + second)[1..] == first[1..] + second;
    }
  }

  ghost predicate Reachable(s: State) {
    exists actions :: Run(INITIAL, actions) == s
  }

  lemma ReachableInv(s: State)
    requires Reachable(s)
    ensures Inv(s)
  {
    var actions :| Run(INITIAL, actions) == s;
    RunKeepsInv(INITIAL, actions);
  }

  /** Once a canceller has written its marker, the attempt it names never starts, whatever follows:
      what had started by then is followed by the stop that the canceller issues. */
  lemma CancelIsFinal(s: State, actions: seq<Action>)
    requires Reachable(s) && s.canceller.Marked?
    ensures NoStartOf(s, Run(s, actions), s.canceller.attempt)
    ensures !s.canceller.queued ==> forall effective ::
              Step(s, CancelStop(effective)).events == s.events + [StopIssued(s.canceller.attempt)]
  {
    ReachableInv(s);
    BlockedRun(s, actions, s.canceller.attempt);
  }

  /** The canceller addresses the invocation that is under way, except in two states. */
  lemma AddressesLive(s: State)
    requires Reachable(s) && s.canceller == Free && Live(s).Some?
    ensures s.dir.Active() == Live(s).value <==> !(s.wrapper.Launched? && s.dir.Unfinished()) && !s.wrapper.Exiting?
  {
    ReachableInv(s);
  }

  lemma {:induction false} SectionKeepsAttempt(s: State, actions: seq<Action>)
    requires forall i :: 0 <= i < |actions| ==> !actions[i].CancelRead?
    ensures Run(s, actions).canceller != Free ==>
              s.canceller != Free && Run(s, actions).canceller.attempt == s.canceller.attempt
    decreases |actions|
  {
    if actions != [] {
      SectionKeepsAttempt(Step(s, actions[0]), actions[1..]);
    }
  }

  lemma ReachableRun(s: State, actions: seq<Action>)
    requires Reachable(s)
    ensures Reachable(Run(s, actions))
  {
    var first :| Run(INITIAL, first) == s;
    RunConcat(INITIAL, first, actions);
  }

  lemma ReachableStep(s: State, action: Action)
    requires Reachable(s)
    ensures Reachable(Step(s, action))
  {
    ReachableRun(s, [action]);
    RunOne(s, action);
  }

  lemma RunOne(s: State, action: Action)
    ensures Run(s, [action]) == Step(s, action)
  {
    assert [action][1..] == [];
    assert Run(Step(s, action), []) == Step(s, action);
  }

  ghost predicate Leads(s: State, t: State) {
    exists actions :: Run(s, actions) == t
  }

  lemma LeadsStep(s: State, t: State, action: Action)
    requires Leads(s, t)
    ensures Leads(s, Step(t, action))
  {
    var actions :| Run(s, actions) == t;
    RunConcat(s, actions, [action]);
    RunOne(t, action);
    assert Run(s, actions + [action]) == Step(t, action);
  }

  lemma LeadsSelf(s: State)
    ensures Leads(s, s)
  {
    assert Run(s, []) == s;
  }

  /** A canceller whose section begins while the earlier attempts have published their outcomes: when it
      has marked, the invocation that was under way never starts again, and its stop follows. `during` is
      what happens inside the section and `later` what happens after it. */
  lemma CancelCoversLive(s: State, during: seq<Action>, effective: bool, later: seq<Action>)
    requires Reachable(s) && s.canceller == Free && Live(s).Some?
    requires s.wrapper.Launched? ==> !s.dir.Unfinished()
    requires !s.wrapper.Exiting?
    requires forall i :: 0 <= i < |during| ==> !during[i].CancelRead?
    requires Run(Step(s, CancelRead(false)), during).canceller.Marked?
    ensures var live, marked := Live(s).value, Run(Step(s, CancelRead(false)), during);
            var stopped := Step(marked, CancelStop(effective));
            && marked.canceller.attempt == live
            && NoStartOf(marked, Run(stopped, later), live)
            && (!marked.canceller.queued ==> stopped.events == marked.events + [StopIssued(live)])
  {
    AddressesLive(s);
    var chosen := Step(s, CancelRead(false));
    var marked := Run(chosen, during);
    SectionKeepsAttempt(chosen, during);
    ReachableStep(s, CancelRead(false));
    ReachableRun(chosen, during);
    CancelIsFinal(marked, [CancelStop(effective)] + later);
    assert ([CancelStop(effective)] + later)[1..] == later;
  }

  /** A whole unguarded section without interference. */
  function Cancelled(s: State): State {
    Step(Step(Step(s, CancelRead(false)), CancelMark), CancelStop(true))
  }

  lemma CancelledIs(s: State)
    requires s.canceller == Free
    ensures var a := s.dir.Active();
            Cancelled(s) == s.(dir := s.dir.(marker := Some(a)), unit := None,
                               events := s.events + [MarkedFor(a)] + [StopIssued(a)])
  {}

  ghost predicate MayStillStart(s: State, attempt: nat) {
    exists t :: Leads(s, t) && !NoStartOf(s, t, attempt)
  }

  lemma EscapeStarts(s: State, k: nat)
    requires s.wrapper == Launched && s.canceller == Free
    requires k == |s.dir.outcomes| + 1 && s.dir.marker != Some(k)
    ensures MayStillStart(s, k)
  {
    LeadsSelf(s);
    var begun := Step(s, Begin);
    LeadsStep(s, s, Begin);
    var settled := Step(begun, SettleOrphan);
    LeadsStep(s, begun, SettleOrphan);
    var starting := Step(settled, EnterStart);
    LeadsStep(s, settled, EnterStart);
    var t := Step(starting, Submit(Acknowledged));
    LeadsStep(s, starting, Submit(Acknowledged));
    assert t.events == s.events + [Begun(k)] + [Tried(k)] + [Accepted(k)];
    assert t.events[|s.events| + 2] == Accepted(k);
  }

  lemma BlockedForGood(s: State, a: nat)
    requires Inv(s) && Blocked(s, a) && Held(s, a)
    ensures !MayStillStart(s, a)
  {
    forall t | Leads(s, t) ensures NoStartOf(s, t, a) {
      var actions :| Run(s, actions) == t;
      BlockedRun(s, actions, a);
    }
  }

  /** A wrapper that has not yet allocated escapes a completed cancel exactly when the attempt before it
      left no outcome: the canceller then addresses that attempt. */
  lemma EscapeIffUnfinished(s: State)
    requires Reachable(s) && s.canceller == Free && s.wrapper.Launched?
    ensures MayStillStart(Cancelled(s), Live(s).value) <==> s.dir.Unfinished()
  {
    var after, k := Cancelled(s), |s.dir.outcomes| + 1;
    ReachableInv(s);
    CancelledIs(s);
    if s.dir.Unfinished() {
      EscapeStarts(after, k);
    } else {
      BlockedForGood(after, k);
    }
  }

  /** The first attempt is killed without an outcome and its retry is queued. */
  lemma KilledFirst() returns (s: State)
    ensures Leads(INITIAL, s) && s == State(Dir([false], None), None, Waiting, NoWrapper, Free, [Begun(1)])
  {
    LeadsSelf(INITIAL);
    LeadsStep(INITIAL, INITIAL, Launch);
    var launched := Step(INITIAL, Launch);
    LeadsStep(INITIAL, launched, Begin);
    var begun := Step(launched, Begin);
    LeadsStep(INITIAL, begun, Die);
    var dead := Step(begun, Die);
    LeadsStep(INITIAL, dead, Retry);
    s := Step(dead, Retry);
  }

  /** The escape happens: the first attempt is killed without an outcome, a retry starts a wrapper, and the
      cancel that arrives before it allocates does not stop it. */
  lemma EscapeHappens()
    ensures exists s :: Reachable(s) && s.wrapper == Launched && s.canceller == Free && MayStillStart(Cancelled(s), 2)
  {
    var waiting := KilledFirst();
    LeadsStep(INITIAL, waiting, Launch);
    var s := Step(waiting, Launch);
    assert s == State(Dir([false], None), None, Started, Launched, Free, [Begun(1)]);
    assert Reachable(s);
    EscapeIffUnfinished(s);
  }

  // ------------------------------------------------- cancels that come late

  /** This event happened from `s` to `t`. */
  ghost predicate Newly(s: State, t: State, event: Event) {
    s.events <= t.events && event in t.events[|s.events|..]
  }

  /** The attempt gives up to a marker although no further cancel names it. */
  ghost predicate MayGiveUpUnasked(s: State, attempt: nat) {
    exists t :: Leads(s, t) && Newly(s, t, GaveUp(attempt)) && !Newly(s, t, MarkedFor(attempt))
  }

  /** The wrapper has published its outcome or is gone. */
  predicate Late(s: State) {
    s.row == Done || s.wrapper.Exiting?
  }

  lemma RetryGivesUp(s: State, next: nat)
    requires s.row == Done && s.wrapper == NoWrapper && s.canceller == Free && s.unit == None
    requires next == |s.dir.outcomes| + 1 && s.dir.marker == Some(next)
    ensures exists t :: Leads(s, t) && t.wrapper == Finishing(next) &&
              t.events == s.events + [Begun(next)] + [GaveUp(next)]
  {
    LeadsSelf(s);
    LeadsStep(s, s, Retry);
    var waiting := Step(s, Retry);
    LeadsStep(s, waiting, Launch);
    var launched := Step(waiting, Launch);
    LeadsStep(s, launched, Begin);
    var begun := Step(launched, Begin);
    LeadsStep(s, begun, Notice);
  }

  lemma LeadsFrom(s: State, action: Action, t: State)
    requires Leads(Step(s, action), t)
    ensures Leads(s, t)
  {
    var actions :| Run(Step(s, action), actions) == t;
    assert ([action] + actions)[1..] == actions;
    assert Run(s, [action] + actions) == t;
  }

  lemma ExitGivesUp(s: State, next: nat)
    requires s.wrapper.Exiting? && s.canceller == Free && s.unit == None
    requires next == |s.dir.outcomes| + 1 && s.dir.marker == Some(next)
    ensures exists t :: Leads(s, t) && t.wrapper == Finishing(next) &&
              t.events == s.events + [Begun(next)] + [GaveUp(next)]
  {
    var gone := Step(s, Exit);
    RetryGivesUp(gone, next);
    var t :| Leads(gone, t) && t.wrapper == Finishing(next) && t.events == s.events + [Begun(next)] + [GaveUp(next)];
    LeadsFrom(s, Exit, t);
  }

  /** A late cancel addresses the attempt after, if the latest one has its outcome: the retry that begins it
      gives up. */
  lemma LateCancelHitsRetry(s: State)
    requires Reachable(s) && s.canceller == Free && Late(s) && !s.dir.Unfinished()
    ensures var next, c := |s.dir.outcomes| + 1, Cancelled(s);
            exists t :: Leads(c, t) && t.wrapper == Finishing(next) &&
              t.events == c.events + [Begun(next)] + [GaveUp(next)]
  {
    ReachableInv(s);
    CancelledIs(s);
    if s.wrapper.Exiting? {
      ExitGivesUp(Cancelled(s), |s.dir.outcomes| + 1);
    } else {
      RetryGivesUp(Cancelled(s), |s.dir.outcomes| + 1);
    }
  }

  /** The marker is another's, and what happened gives no reason to give up to it. */
  ghost predicate Unmarked(s: State, t: State, n: nat) {
    && s.events <= t.events
    && (!Newly(s, t, MarkedFor(n)) ==> t.dir.marker != Some(n) && !Newly(s, t, GaveUp(n)))
  }

  lemma AddUnmarked(s: State, t: State, e: Event, n: nat)
    requires s.dir.marker != Some(n) && t.events == s.events + [e] && Adds(s, t, e)
    ensures Unmarked(s, t, n)
  {
    assert t.events[|s.events|..] == [e];
  }

  lemma TryUnmarked(s: State, t: State, k: nat, n: nat)
    requires s.dir.marker != Some(n) && t.events == s.events + [Tried(k)] + [Accepted(k)] && Same(s, t)
    ensures Unmarked(s, t, n)
  {
    assert t.events[|s.events|..] == [Tried(k), Accepted(k)];
  }

  lemma ExtendsUnmarked(s: State, t: State, n: nat)
    requires s.dir.marker != Some(n) && Extends(s, t)
    ensures Unmarked(s, t, n)
  {
    if e :| t.events == s.events + [e] && Adds(s, t, e) {
      AddUnmarked(s, t, e, n);
    } else if k :| t.events == s.events + [Tried(k)] + [Accepted(k)] && Same(s, t) {
      TryUnmarked(s, t, k, n);
    }
  }

  lemma NewlyFrom(s: State, t: State, u: State, event: Event)
    requires s.events <= t.events <= u.events
    ensures Newly(s, u, event) <==> Newly(s, t, event) || Newly(t, u, event)
  {
    assert u.events[|s.events|..] == t.events[|s.events|..] + u.events[|t.events|..];
  }

  lemma {:induction false} UnmarkedRun(s: State, actions: seq<Action>, n: nat)
    requires s.dir.marker != Some(n)
    ensures var t := Run(s, actions);
            s.events <= t.events && (Newly(s, t, GaveUp(n)) ==> Newly(s, t, MarkedFor(n)))
    decreases |actions|
  {
    if actions != [] {
      var next, t := Step(s, actions[0]), Run(s, actions);
      StepExtends(s, actions[0]);
      ExtendsUnmarked(s, next, n);
      RunGrows(next, actions[1..]);
      NewlyFrom(s, next, t, MarkedFor(n));
      NewlyFrom(s, next, t, GaveUp(n));
      if !Newly(s, next, MarkedFor(n)) {
        UnmarkedRun(next, actions[1..], n);
      }
    }
  }

  lemma {:induction false} RunGrows(s: State, actions: seq<Action>)
    ensures s.events <= Run(s, actions).events
    decreases |actions|
  {
    if actions != [] {
      StepExtends(s, actions[0]);
      RunGrows(Step(s, actions[0]), actions[1..]);
    }
  }

  /** A cancel that ends after the outcome is published, while the wrapper exits or after it has gone: the next
      attempt may give up to the marker it left, with no cancel of its own, exactly when the latest attempt has
      its outcome. */
  lemma LateCancelIff(s: State)
    requires Reachable(s) && s.canceller == Free && Late(s)
    ensures MayGiveUpUnasked(Cancelled(s), |s.dir.outcomes| + 1) <==> !s.dir.Unfinished()
  {
    ReachableInv(s);
    CancelledIs(s);
    var c, n := Cancelled(s), |s.dir.outcomes| + 1;
    if s.dir.Unfinished() {
      forall t | Leads(c, t) ensures Newly(c, t, GaveUp(n)) ==> Newly(c, t, MarkedFor(n)) {
        var actions :| Run(c, actions) == t;
        UnmarkedRun(c, actions, n);
      }
    } else {
      LateCancelHitsRetry(s);
      var t :| Leads(c, t) && t.wrapper == Finishing(n) && t.events == c.events + [Begun(n)] + [GaveUp(n)];
      assert t.events[|c.events|..] == [Begun(n), GaveUp(n)];
      assert Newly(c, t, GaveUp(n)) && !Newly(c, t, MarkedFor(n));
    }
  }

  lemma FirstRefused() returns (s: State)
    ensures Leads(INITIAL, s) && s == State(Dir([true], None), None, Done, NoWrapper, Free, [Begun(1)])
  {
    LeadsSelf(INITIAL);
    LeadsStep(INITIAL, INITIAL, Launch);
    var launched := Step(INITIAL, Launch);
    LeadsStep(INITIAL, launched, Begin);
    var begun := Step(launched, Begin);
    LeadsStep(INITIAL, begun, Refuse);
    var refused := Step(begun, Refuse);
    LeadsStep(INITIAL, refused, Exit);
    s := Step(refused, Exit);
  }

  /** It happens: the first attempt is over and its wrapper gone when the section begins. */
  lemma LateCancelHappens()
    ensures exists s :: Reachable(s) && s.row == Done && s.canceller == Free && MayGiveUpUnasked(Cancelled(s), 2)
  {
    var s := FirstRefused();
    assert Reachable(s) && !s.dir.Unfinished();
    LateCancelIff(s);
  }

  // ------------------------------------------------- one section each

  /** The queue retries an ended job unless its unit still has processes, and forgets one together with its marker;
      a unit ends and stays loaded. */
  lemma QueueTurns(s: State)
    ensures Step(s, Retry) == if s.row == Done && (s.unit == None || !s.unit.value.alive) then s.(row := Waiting) else s
    ensures Step(s, Clean) == if s.row == Done then s.(row := Gone, dir := Dir(s.dir.outcomes, None)) else s
    ensures Step(s, UnitEnds) == if s.unit == None then s else s.(unit := Some(Unit(s.unit.value.attempt, false)))
  {}

  /** A begin that dies leaves no attempt, and only the coming attempt's marker; a refused attempt publishes its
      outcome; one that finds its slot occupied goes on to consume its marker; and an orphan is stopped before the
      start and after the end. A death changes neither the directory nor the unit. */
  lemma WrapperTurns(s: State, k: nat)
    requires s.canceller == Free
    ensures s.wrapper == Launched ==>
              Step(s, BeginTorn) ==
                s.(dir := Dir(s.dir.outcomes,
                              if s.dir.marker == Some(|s.dir.outcomes| + 1) then s.dir.marker else None),
                   wrapper := NoWrapper, row := Done)
    ensures (s.wrapper == Allocated(k) || s.wrapper == Starting(k) || s.wrapper == Settling(k))
            && 1 <= k <= |s.dir.outcomes| ==>
              Step(s, Refuse) == s.(dir := Dir(s.dir.outcomes[k - 1 := true], s.dir.marker), wrapper := Exiting(k))
    ensures s.wrapper == Allocated(k) ==> Step(s, FindOccupied) == s.(wrapper := Finishing(k))
    ensures s.wrapper == Allocated(k) || s.wrapper == Exiting(k) ==> Step(s, SettleOrphan) == s.(unit := None)
    ensures s.wrapper != NoWrapper ==> Step(s, Die) == s.(wrapper := NoWrapper, row := Done)
  {}

  /** The startup section, by what the manager does: the marker ends it; otherwise a name that is free and a request
      that arrives start the unit, and only a refused bus backs off. */
  lemma SubmitTurns(s: State, k: nat, bus: bool)
    requires s.wrapper == Starting(k) && s.canceller == Free
    ensures s.dir.marker == Some(k) ==> forall reply ::
              Step(s, Submit(reply)) == s.(wrapper := Finishing(k), events := s.events + [GaveUp(k)])
    ensures s.dir.marker != Some(k) ==>
      var wrapper, tried := if bus then Backoff(k) else Settling(k), s.events + [Tried(k)];
      && Step(s, Submit(Rejected(bus))) == s.(wrapper := wrapper, events := tried)
      && Step(s, Submit(Lost(bus))) ==
           (if s.unit != None then s
            else s.(unit := Some(Unit(k, true)), wrapper := wrapper, events := tried + [Accepted(k)]))
      && Step(s, Submit(Acknowledged)) ==
           (if s.unit != None then s
            else s.(unit := Some(Unit(k, true)), wrapper := Settling(k), events := tried + [Accepted(k)]))
  {}

  /** The back-off: the marker gives up; a look that answers submits again when the unit is absent, and otherwise leaves
      it to be waited for; so does the end of the looks. */
  lemma BackoffTurns(s: State, k: nat)
    requires s.wrapper == Backoff(k)
    ensures Step(s, PollMarker) == if s.dir.marker == Some(k)
              then s.(wrapper := Finishing(k), events := s.events + [GaveUp(k)]) else s
    ensures Step(s, PollUnit(true)) == s
    ensures Step(s, PollUnit(false)) == if s.unit == None
              then s.(wrapper := Starting(k), events := s.events + [SeenAbsent(k)]) else s.(wrapper := Settling(k))
    ensures Step(s, Abandon) == s.(wrapper := Settling(k))
  {}

  /** The end of the wait: the marker gives up; otherwise an outcome is read exactly when the wrapper looks and a loaded
      unit has ended. The unit is stopped exactly when the wrapper releases it. */
  lemma CompleteTurns(s: State, k: nat, seen: bool, released: bool)
    requires s.wrapper == Settling(k)
    ensures Step(s, Complete(seen, released)) ==
      s.(wrapper := Finishing(k), unit := if released then None else s.unit,
         events := if s.dir.marker == Some(k) then s.events + [GaveUp(k)]
                   else if seen && s.unit.Some? && !s.unit.value.alive then s.events + [Saw(k, s.unit.value.attempt)]
                   else s.events)
  {}

  /** The sections of a cancel: the stop is issued, effective or not; the not-started one gives up on a job that has
      started or has an unfinished attempt, removes a row that waits unless the request fails, and reports exactly when
      the row is gone, no attempt was added and none is unfinished. A death lets go of the lock and of nothing else. */
  lemma CancelTurns(s: State, a: nat, count: nat, effective: bool, failed: bool)
    ensures s.canceller == Marked(a, false, count) ==>
              Step(s, CancelStop(effective)) ==
                s.(unit := if effective then None else s.unit, canceller := Free, events := s.events + [StopIssued(a)])
    ensures s.canceller == Marked(a, true, count) ==>
              Step(s, CheckQueue) == s.(canceller :=
                if s.row == Started || s.row == Done || s.dir.Unfinished() then Free else Checked(a, count))
    ensures s.canceller == Checked(a, count) ==>
              Step(s, RemoveRow(failed)) ==
                s.(row := if s.row == Waiting && !failed then Gone else s.row, canceller := Removed(a, count))
    ensures s.canceller == Removed(a, count) ==>
              Step(s, Confirm) ==
                (if s.row == Gone && |s.dir.outcomes| <= count && !s.dir.Unfinished() then
                   s.(dir := Dir(s.dir.outcomes, if s.dir.marker == Some(a) then None else s.dir.marker),
                      canceller := Free, events := s.events + [NotStarted])
                 else s.(canceller := Free))
    ensures Step(s, CancelDie) == s.(canceller := Free)
  {}

  // ------------------------------------------------- undisturbed lives

  /** From the queue to the accepted submission, with nobody in between. */
  function BeganRun(s: State): State {
    Step(Step(Step(Step(s, Launch), Begin), EnterStart), Submit(Acknowledged))
  }

  /** From the marker's consumption to the wrapper's exit. */
  function WoundUp(s: State): State {
    Step(Step(Step(s, Consume), Publish), Exit)
  }

  lemma BeganRunIs(s: State)
    requires s.row == Waiting && s.wrapper == NoWrapper && s.canceller == Free && s.unit == None
    requires s.dir.marker != Some(|s.dir.outcomes| + 1)
    ensures var k := |s.dir.outcomes| + 1;
            BeganRun(s) == s.(dir := Dir(s.dir.outcomes + [false], None), row := Started, wrapper := Settling(k),
                            unit := Some(Unit(k, true)), events := s.events + [Begun(k)] + [Tried(k)] + [Accepted(k)])
  {
    var begun := Step(Step(s, Launch), Begin);
    assert begun.dir == Dir(s.dir.outcomes + [false], None);
  }

  /** The outcome is published and only this attempt's marker is consumed. */
  lemma WoundUpIs(s: State, k: nat)
    requires s.wrapper == Finishing(k) && s.canceller == Free && 1 <= k <= |s.dir.outcomes|
    ensures WoundUp(s) ==
      s.(dir := Dir(s.dir.outcomes[k - 1 := true], if s.dir.marker == Some(k) then None else s.dir.marker),
         row := Done, wrapper := NoWrapper)
  {}

  /** A queued job that nobody cancels begins the next attempt, runs its payload once, reads its own outcome, publishes
      it, and leaves neither a unit nor a marker. */
  lemma LifePublishes(s: State)
    requires s.row == Waiting && s.wrapper == NoWrapper && s.canceller == Free && s.unit == None
    requires s.dir.marker != Some(|s.dir.outcomes| + 1)
    ensures var k := |s.dir.outcomes| + 1;
            WoundUp(Step(Step(BeganRun(s), UnitEnds), Complete(true, true)))
            == s.(dir := Dir(s.dir.outcomes + [true], None), row := Done,
                  events := s.events + [Begun(k)] + [Tried(k)] + [Accepted(k)] + [Saw(k, k)])
  {
    var k := |s.dir.outcomes| + 1;
    BeganRunIs(s);
    var read := Step(Step(BeganRun(s), UnitEnds), Complete(true, true));
    assert read == BeganRun(s).(wrapper := Finishing(k), unit := None, events := BeganRun(s).events + [Saw(k, k)]);
    WoundUpIs(read, k);
    assert (s.dir.outcomes + [false])[k - 1 := true] == s.dir.outcomes + [true];
  }

  /** A running attempt that is cancelled stops and gives up; its outcome is published and the marker is gone. */
  lemma CancelEnds(s: State, k: nat)
    requires s.wrapper == Settling(k) && s.canceller == Free && k == |s.dir.outcomes| && s.dir.Unfinished()
    ensures WoundUp(Step(Cancelled(s), Complete(true, true))) ==
      s.(dir := Dir(s.dir.outcomes[k - 1 := true], None), unit := None, row := Done, wrapper := NoWrapper,
         events := s.events + [MarkedFor(k)] + [StopIssued(k)] + [GaveUp(k)])
  {
    CancelledIs(s);
    var gone := Step(Cancelled(s), Complete(true, true));
    assert gone == Cancelled(s).(wrapper := Finishing(k), events := Cancelled(s).events + [GaveUp(k)]);
    WoundUpIs(gone, k);
  }

  /** A marker that an attempt finds when it begins ends it before anything is submitted. */
  lemma MarkerEndsLife(s: State)
    requires s.row == Waiting && s.wrapper == NoWrapper && s.canceller == Free
    requires s.dir.marker == Some(|s.dir.outcomes| + 1)
    ensures var k := |s.dir.outcomes| + 1;
            WoundUp(Step(Step(Step(s, Launch), Begin), Notice))
            == s.(dir := Dir(s.dir.outcomes + [true], None), row := Done,
                  events := s.events + [Begun(k)] + [GaveUp(k)])
  {
    var k := |s.dir.outcomes| + 1;
    var noticed := Step(Step(Step(s, Launch), Begin), Notice);
    assert noticed == s.(dir := Dir(s.dir.outcomes + [false], Some(k)), row := Started, wrapper := Finishing(k),
                         events := s.events + [Begun(k)] + [GaveUp(k)]);
    WoundUpIs(noticed, k);
    assert (s.dir.outcomes + [false])[k - 1 := true] == s.dir.outcomes + [true];
  }

  // ------------------------------------------------- numbers and markers

  function Begins(events: seq<Event>): seq<nat> {
    if events == [] then []
    else
      var last := events[|events| - 1];
      Begins(events[..|events| - 1]) + if last.Begun? then [last.attempt] else []
  }

  /** Every wrapper that gave up to a marker did so after a canceller marked that very attempt. */
  ghost predicate MarksPrecede(events: seq<Event>) {
    forall i :: 0 <= i < |events| && events[i].GaveUp? ==> MarkedFor(events[i].attempt) in events[..i]
  }

  ghost predicate HistoryInv(s: State) {
    && MarksPrecede(s.events)
    && (s.dir.marker.Some? ==> MarkedFor(s.dir.marker.value) in s.events)
    && Begins(s.events) == seq(|s.dir.outcomes|, i => i + 1)
  }

  lemma Appended(events: seq<Event>, event: Event)
    ensures Begins(events + [event]) == Begins(events) + if event.Begun? then [event.attempt] else []
    ensures MarksPrecede(events) && (event.GaveUp? ==> MarkedFor(event.attempt) in events) ==>
              MarksPrecede(events + [event])
  {
    var longer := events + [event];
    assert longer[..|events|] == events;
    if MarksPrecede(events) && (event.GaveUp? ==> MarkedFor(event.attempt) in events) {
      forall i | 0 <= i < |longer| && longer[i].GaveUp? ensures MarkedFor(longer[i].attempt) in longer[..i] {
        if i < |events| { assert longer[..i] == events[..i]; }
      }
    }
  }

  /** What one step may add to the history. */
  ghost predicate Extends(s: State, t: State) {
    || (t.events == s.events && Same(s, t))
    || (exists k :: t.events == s.events + [Tried(k)] + [Accepted(k)] && Same(s, t))
    || (exists e :: t.events == s.events + [e] && Adds(s, t, e))
  }

  predicate Same(s: State, t: State) {
    |t.dir.outcomes| == |s.dir.outcomes| && (t.dir.marker == s.dir.marker || t.dir.marker == None)
  }

  predicate Adds(s: State, t: State, e: Event) {
    match e
    case Begun(k) => k == |t.dir.outcomes| == |s.dir.outcomes| + 1 &&
      (t.dir.marker == s.dir.marker || t.dir.marker == None)
    case MarkedFor(a) => |t.dir.outcomes| == |s.dir.outcomes| && t.dir.marker == Some(a)
    case GaveUp(k) => Same(s, t) && s.dir.marker == Some(k)
    case _ => Same(s, t)
  }

  lemma ExtendsByOne(s: State, t: State)
    requires t.events == s.events ==> Same(s, t)
    requires t.events != s.events ==>
               |t.events| == |s.events| + 1 && s.events <= t.events && Adds(s, t, t.events[|s.events|])
    ensures Extends(s, t)
  {
    if t.events != s.events {
      assert t.events == s.events + [t.events[|s.events|]];
    }
  }

  lemma CancelExtends(s: State, action: Action)
    ensures Extends(s, CancelStep(s, action))
  {
    ExtendsByOne(s, CancelStep(s, action));
  }

  lemma SubmitExtends(s: State, k: nat, reply: Reply)
    ensures Extends(s, Submitted(s, k, reply))
  {
    var t := Submitted(s, k, reply);
    if |t.events| == |s.events| + 1 {
      assert t.events == s.events + [t.events[|s.events|]];
    }
  }

  lemma WrapperExtends(s: State, action: Action)
    ensures Extends(s, WrapperStep(s, action))
  {
    if action.Submit? && s.wrapper.Starting? && s.canceller == Free {
      SubmitExtends(s, s.wrapper.attempt, action.reply);
    } else {
      ExtendsByOne(s, WrapperStep(s, action));
    }
  }

  lemma StepExtends(s: State, action: Action)
    ensures Extends(s, Step(s, action))
  {
    if Outer(action) {
      assert Same(s, QueueStep(s, action));
    }
    CancelExtends(s, action);
    WrapperExtends(s, action);
  }

  lemma AddKeepsHistory(s: State, t: State, e: Event)
    requires HistoryInv(s) && t.events == s.events + [e] && Adds(s, t, e)
    ensures HistoryInv(t)
  {
    Appended(s.events, e);
    assert e in t.events;
  }

  lemma TryKeepsHistory(s: State, t: State, k: nat)
    requires HistoryInv(s) && t.events == s.events + [Tried(k)] + [Accepted(k)] && Same(s, t)
    ensures HistoryInv(t)
  {
    Appended(s.events, Tried(k));
    Appended(s.events + [Tried(k)], Accepted(k));
  }

  lemma ExtendsKeepsHistory(s: State, t: State)
    requires HistoryInv(s) && Extends(s, t)
    ensures HistoryInv(t)
  {
    if e :| t.events == s.events + [e] && Adds(s, t, e) {
      AddKeepsHistory(s, t, e);
    } else if k :| t.events == s.events + [Tried(k)] + [Accepted(k)] && Same(s, t) {
      TryKeepsHistory(s, t, k);
    }
  }

  lemma {:induction false} RunKeepsHistory(s: State, actions: seq<Action>)
    requires HistoryInv(s)
    ensures HistoryInv(Run(s, actions))
    decreases |actions|
  {
    if actions != [] {
      StepExtends(s, actions[0]);
      ExtendsKeepsHistory(s, Step(s, actions[0]));
      RunKeepsHistory(Step(s, actions[0]), actions[1..]);
    }
  }

  /** Attempts are numbered 1, 2, 3, … in the order in which they begin, and a wrapper that gave up to a
      marker did so after a canceller marked that very attempt. */
  lemma NumbersGrowAndMarkersAreExact(s: State)
    requires Reachable(s)
    ensures Begins(s.events) == seq(|s.dir.outcomes|, i => i + 1)
    ensures MarksPrecede(s.events)
  {
    var actions :| Run(INITIAL, actions) == s;
    RunKeepsHistory(INITIAL, actions);
  }

  // ------------------------------------------------- one payload an attempt

  function Times(s: State, event: Event): nat {
    multiset(s.events)[event]
  }

  datatype Tally = Tally(tried: nat, accepted: nat, seen: nat)

  /** How often attempt `k` was submitted and accepted, and its unit seen absent. */
  function TallyOf(events: seq<Event>, k: nat): Tally {
    var times := multiset(events);
    Tally(times[Tried(k)], times[Accepted(k)], times[SeenAbsent(k)])
  }

  lemma TallyAppend(events: seq<Event>, e: Event, k: nat)
    ensures var before, after := TallyOf(events, k), TallyOf(events + [e], k);
            && after.tried == before.tried + (if e == Tried(k) then 1 else 0)
            && after.accepted == before.accepted + (if e == Accepted(k) then 1 else 0)
            && after.seen == before.seen + (if e == SeenAbsent(k) then 1 else 0)
  {}

  /** The unit loaded under the job's name is this attempt's. */
  predicate Holds(s: State, k: nat) {
    s.unit.Some? && s.unit.value.attempt == k
  }

  /** What an attempt's startup has done so far. */
  ghost predicate StartInv(s: State, tally: Tally, k: nat) {
    && tally.accepted <= 1
    && tally.tried <= tally.seen + 1
    && (k > |s.dir.outcomes| || s.wrapper == Allocated(k) ==> tally == Tally(0, 0, 0))
    && (s.wrapper == Starting(k) ==> tally.tried == tally.seen)
    && (s.wrapper == Backoff(k) ==> tally.tried == tally.seen + 1)
    && (s.wrapper == Starting(k) || s.wrapper == Backoff(k) ==>
          tally.accepted == 0 || Holds(s, k) || s.dir.marker == Some(k))
  }

  /** The tally after a step: only the startup section and a look at the unit change it. */
  function Tallied(s: State, action: Action, tally: Tally, k: nat): Tally {
    match action
    case Submit(reply) =>
      if s.wrapper != Starting(k) || s.canceller != Free || s.dir.marker == Some(k) then tally
      else if reply.Rejected? then tally.(tried := tally.tried + 1)
      else if s.unit == None then tally.(tried := tally.tried + 1, accepted := tally.accepted + 1)
      else tally
    case PollUnit(false) =>
      if s.wrapper == Backoff(k) && s.unit == None then tally.(seen := tally.seen + 1) else tally
    case _ => tally
  }

  lemma OthersKeepStart(s: State, action: Action, tally: Tally, k: nat)
    requires Inv(s) && StartInv(s, tally, k)
    ensures StartInv(CancelStep(s, action), tally, k)
    ensures Outer(action) ==> StartInv(QueueStep(s, action), tally, k)
  {}

  lemma WrapperKeepsStart(s: State, action: Action, tally: Tally, k: nat)
    requires Inv(s) && StartInv(s, tally, k)
    ensures StartInv(WrapperStep(s, action), Tallied(s, action, tally, k), k)
  {}

  lemma StepKeepsStart(s: State, action: Action, tally: Tally, k: nat)
    requires Inv(s) && StartInv(s, tally, k)
    ensures StartInv(Step(s, action), Tallied(s, action, tally, k), k)
  {
    OthersKeepStart(s, action, tally, k);
    WrapperKeepsStart(s, action, tally, k);
  }

  predicate OfStartup(e: Event) {
    e.Tried? || e.Accepted? || e.SeenAbsent?
  }

  lemma OtherTallies(events: seq<Event>, after: seq<Event>, k: nat)
    requires after == events || exists e :: !OfStartup(e) && after == events + [e]
    ensures TallyOf(after, k) == TallyOf(events, k)
  {
    if e :| !OfStartup(e) && after == events + [e] {
      TallyAppend(events, e, k);
    }
  }

  lemma QuietStep(s: State, action: Action)
    requires !action.Submit? && !action.PollUnit?
    ensures var after := Step(s, action).events;
            after == s.events || exists e :: !OfStartup(e) && after == s.events + [e]
  {
    var after := Step(s, action).events;
    if |after| > |s.events| {
      assert after == s.events + [after[|s.events|]];
    }
  }

  lemma QuietTallies(s: State, action: Action, k: nat)
    requires !action.Submit? && !action.PollUnit?
    ensures TallyOf(Step(s, action).events, k) == TallyOf(s.events, k)
  {
    QuietStep(s, action);
    OtherTallies(s.events, Step(s, action).events, k);
  }

  lemma SubmitTallies(s: State, j: nat, reply: Reply, k: nat)
    requires s.wrapper == Starting(j) && s.canceller == Free
    ensures TallyOf(Submitted(s, j, reply).events, k) == Tallied(s, Submit(reply), TallyOf(s.events, k), k)
  {
    TallyAppend(s.events, GaveUp(j), k);
    TallyAppend(s.events, Tried(j), k);
    TallyAppend(s.events + [Tried(j)], Accepted(j), k);
  }

  lemma LookTallies(s: State, failed: bool, k: nat)
    ensures TallyOf(Step(s, PollUnit(failed)).events, k) == Tallied(s, PollUnit(failed), TallyOf(s.events, k), k)
  {
    if s.wrapper.Backoff? {
      TallyAppend(s.events, SeenAbsent(s.wrapper.attempt), k);
    }
  }

  lemma SectionTallies(s: State, reply: Reply, k: nat)
    ensures TallyOf(Step(s, Submit(reply)).events, k) == Tallied(s, Submit(reply), TallyOf(s.events, k), k)
  {
    if s.wrapper.Starting? && s.canceller == Free {
      SubmitTallies(s, s.wrapper.attempt, reply, k);
    }
  }

  lemma StepTallies(s: State, action: Action, k: nat)
    ensures TallyOf(Step(s, action).events, k) == Tallied(s, action, TallyOf(s.events, k), k)
  {
    match action
    case Submit(reply) => SectionTallies(s, reply, k);
    case PollUnit(failed) => LookTallies(s, failed, k);
    case _ => QuietTallies(s, action, k);
  }

  lemma {:induction false} RunKeepsStart(s: State, actions: seq<Action>, k: nat)
    requires Inv(s) && StartInv(s, TallyOf(s.events, k), k)
    ensures StartInv(Run(s, actions), TallyOf(Run(s, actions).events, k), k)
    decreases |actions|
  {
    if actions != [] {
      StepKeepsInv(s, actions[0]);
      StepKeepsStart(s, actions[0], TallyOf(s.events, k), k);
      StepTallies(s, actions[0], k);
      RunKeepsStart(Step(s, actions[0]), actions[1..], k);
    }
  }

  /** The manager accepts each attempt's payload at most once, and each submission after the first
      follows one more observation that the unit is absent. */
  lemma PayloadAtMostOnce(s: State, k: nat)
    requires Reachable(s) && k >= 1
    ensures Times(s, Accepted(k)) <= 1
    ensures Times(s, Tried(k)) <= Times(s, SeenAbsent(k)) + 1
  {
    var actions :| Run(INITIAL, actions) == s;
    RunKeepsStart(INITIAL, actions, k);
  }

  /** No submission follows a marker that the starting attempt can see. */
  lemma MarkerEndsStartup(s: State, actions: seq<Action>)
    requires Reachable(s) && MayStart(s.wrapper) && s.dir.marker == Some(s.wrapper.attempt)
    ensures NoStartOf(s, Run(s, actions), s.wrapper.attempt)
  {
    ReachableInv(s);
    BlockedRun(s, actions, s.wrapper.attempt);
  }

  // ------------------------------------------------- whose outcome it is

  /** What the history says of the unit under the job's name and of the outcomes read from it. */
  ghost predicate OwnInv(s: State) {
    && (s.unit.Some? ==> Accepted(s.unit.value.attempt) in s.events)
    && (forall j: nat :: Accepted(j) in s.events ==> j <= |s.dir.outcomes|)
    && (s.wrapper.Allocated? ==> Accepted(s.wrapper.attempt) !in s.events)
    && (MayStart(s.wrapper) || s.wrapper.Settling? ==>
          && (Accepted(s.wrapper.attempt) in s.events ==> s.unit == None || Holds(s, s.wrapper.attempt))
          && forall u: nat :: Saw(s.wrapper.attempt, u) !in s.events)
    && (forall k: nat, u: nat :: Saw(k, u) in s.events ==>
          k <= |s.dir.outcomes| && Accepted(u) in s.events && (u == k <==> Accepted(k) in s.events))
  }

  lemma QueueKeepsOwn(s: State, action: Action)
    requires Inv(s) && OwnInv(s) && Outer(action)
    ensures OwnInv(QueueStep(s, action))
  {}

  lemma CancelKeepsOwn(s: State, action: Action)
    requires Inv(s) && OwnInv(s)
    ensures OwnInv(CancelStep(s, action))
  {}

  lemma SubmitKeepsOwn(s: State, reply: Reply)
    requires Inv(s) && OwnInv(s)
    ensures OwnInv(WrapperStep(s, Submit(reply)))
  {}

  lemma CompleteKeepsOwn(s: State, seen: bool, released: bool)
    requires Inv(s) && OwnInv(s)
    ensures OwnInv(WrapperStep(s, Complete(seen, released)))
  {}

  lemma WrapperKeepsOwn(s: State, action: Action)
    requires Inv(s) && OwnInv(s)
    ensures OwnInv(WrapperStep(s, action))
  {
    match action
    case Submit(reply) => SubmitKeepsOwn(s, reply);
    case Complete(seen, released) => CompleteKeepsOwn(s, seen, released);
    case _ =>
  }

  lemma {:induction false} RunKeepsOwn(s: State, actions: seq<Action>)
    requires Inv(s) && OwnInv(s)
    ensures OwnInv(Run(s, actions))
    decreases |actions|
  {
    if actions != [] {
      StepKeepsInv(s, actions[0]);
      if Outer(actions[0]) {
        QueueKeepsOwn(s, actions[0]);
      }
      CancelKeepsOwn(s, actions[0]);
      WrapperKeepsOwn(s, actions[0]);
      RunKeepsOwn(Step(s, actions[0]), actions[1..]);
    }
  }

  /** An outcome that an attempt reads from a unit is its own exactly when its own payload was accepted;
      otherwise it is that of an earlier attempt whose unit still held the name. */
  lemma OutcomeIsOwnIffAccepted(s: State, k: nat, u: nat)
    requires Reachable(s) && Saw(k, u) in s.events
    ensures Accepted(u) in s.events && (u == k <==> Accepted(k) in s.events)
  {
    var actions :| Run(INITIAL, actions) == s;
    RunKeepsOwn(INITIAL, actions);
  }

  /** While attempt `k` starts or waits, the unit under its name is its own or none, or its marker is there. */
  ghost predicate OwnUnit(s: State, k: nat) {
    && k <= |s.dir.outcomes| && s.wrapper != Allocated(k)
    && (s.wrapper == Starting(k) || s.wrapper == Backoff(k) || s.wrapper == Settling(k) ==>
          s.unit == None || Holds(s, k) || s.dir.marker == Some(k))
  }

  /** Every outcome that attempt `k` reads from `s` to `t` is that of its own unit. */
  ghost predicate ReadsOwn(s: State, t: State, k: nat) {
    && s.events <= t.events
    && forall i :: |s.events| <= i < |t.events| && t.events[i].Saw? && t.events[i].attempt == k ==>
         t.events[i].unit == k
  }

  ghost predicate MayBorrow(s: State, k: nat) {
    exists t :: Leads(s, t) && !ReadsOwn(s, t, k)
  }

  lemma QueueKeepsUnit(s: State, action: Action, k: nat)
    requires Inv(s) && OwnUnit(s, k)
    ensures OwnUnit(CancelStep(s, action), k) && ReadsOwn(s, CancelStep(s, action), k)
    ensures Outer(action) ==> OwnUnit(QueueStep(s, action), k) && ReadsOwn(s, QueueStep(s, action), k)
  {}

  lemma WrapperKeepsUnit(s: State, action: Action, k: nat)
    requires Inv(s) && OwnUnit(s, k)
    ensures OwnUnit(WrapperStep(s, action), k) && ReadsOwn(s, WrapperStep(s, action), k)
  {}

  lemma {:induction false} RunKeepsUnit(s: State, actions: seq<Action>, k: nat)
    requires Inv(s) && OwnUnit(s, k)
    ensures ReadsOwn(s, Run(s, actions), k)
    decreases |actions|
  {
    if actions != [] {
      StepKeepsInv(s, actions[0]);
      QueueKeepsUnit(s, actions[0], k);
      WrapperKeepsUnit(s, actions[0], k);
      RunKeepsUnit(Step(s, actions[0]), actions[1..], k);
    }
  }

  lemma Borrows(s: State, k: nat)
    requires s.wrapper == Starting(k) && s.dir.marker != Some(k) && s.unit.Some? && !Holds(s, k)
    ensures MayBorrow(s, k)
  {
    LeadsSelf(s);
    LeadsStep(s, s, CancelDie);
    var free := Step(s, CancelDie);
    LeadsStep(s, free, Submit(Rejected(false)));
    var refused := Step(free, Submit(Rejected(false)));
    LeadsStep(s, refused, UnitEnds);
    var ended := Step(refused, UnitEnds);
    LeadsStep(s, ended, Complete(true, true));
    var t := Step(ended, Complete(true, true));
    var u := s.unit.value.attempt;
    assert t.events == s.events + [Tried(k)] + [Saw(k, u)];
    assert t.events[|s.events| + 1] == Saw(k, u);
    assert !ReadsOwn(s, t, k);
  }

  /** An attempt that stands at its startup section may take its outcome from another attempt's unit exactly when
      such a unit holds the name and no marker for the attempt ends the startup. */
  lemma BorrowsIffNameTaken(s: State, k: nat)
    requires Reachable(s) && s.wrapper == Starting(k)
    ensures MayBorrow(s, k) <==> s.unit.Some? && s.unit.value.attempt != k && s.dir.marker != Some(k)
  {
    ReachableInv(s);
    if s.unit.Some? && !Holds(s, k) && s.dir.marker != Some(k) {
      Borrows(s, k);
    } else {
      forall t | Leads(s, t) ensures ReadsOwn(s, t, k) {
        var actions :| Run(s, actions) == t;
        RunKeepsUnit(s, actions, k);
      }
    }
  }

  lemma FirstUnit() returns (s: State)
    ensures Leads(INITIAL, s)
    ensures s == State(Dir([false], None), Some(Unit(1, true)), Started, Settling(1), Free,
                  [Begun(1), Tried(1), Accepted(1)])
  {
    LeadsSelf(INITIAL);
    LeadsStep(INITIAL, INITIAL, Launch);
    var a := Step(INITIAL, Launch);
    LeadsStep(INITIAL, a, Begin);
    var b := Step(a, Begin);
    LeadsStep(INITIAL, b, EnterStart);
    var c := Step(b, EnterStart);
    LeadsStep(INITIAL, c, Submit(Acknowledged));
    s := Step(c, Submit(Acknowledged));
  }

  lemma SecondWrapper() returns (s: State)
    ensures Leads(INITIAL, s)
    ensures s == State(Dir([false], None), Some(Unit(1, false)), Started, Launched, Free,
                  [Begun(1), Tried(1), Accepted(1)])
  {
    var d := FirstUnit();
    LeadsStep(INITIAL, d, Die);
    var dead := Step(d, Die);
    LeadsStep(INITIAL, dead, UnitEnds);
    var e := Step(dead, UnitEnds);
    LeadsStep(INITIAL, e, Retry);
    var f := Step(e, Retry);
    LeadsStep(INITIAL, f, Launch);
    s := Step(f, Launch);
  }

  lemma SecondRefused() returns (s: State)
    ensures Leads(INITIAL, s)
    ensures s == State(Dir([false, false], None), Some(Unit(1, false)), Started, Settling(2), Free,
                       [Begun(1), Tried(1), Accepted(1)] + [Begun(2)] + [Tried(2)])
  {
    var a := SecondWrapper();
    LeadsStep(INITIAL, a, Begin);
    var b := Step(a, Begin);
    assert b.dir == Dir([false, false], None);
    LeadsStep(INITIAL, b, EnterStart);
    var c := Step(b, EnterStart);
    LeadsStep(INITIAL, c, Submit(Rejected(false)));
    s := Step(c, Submit(Rejected(false)));
  }

  /** It happens: the first wrapper is killed and its unit ends loaded, the second one does not settle that
      unit, its own submission is refused, and its outcome is read from the first attempt's unit. */
  lemma BorrowedOutcomeHappens()
    ensures exists s :: Reachable(s) && Saw(2, 1) in s.events && Accepted(2) !in s.events
  {
    var c := SecondRefused();
    LeadsStep(INITIAL, c, Complete(true, true));
    var d := Step(c, Complete(true, true));
    assert d.events == c.events + [Saw(2, 1)];
    assert d.events[5] == Saw(2, 1) && Accepted(2) !in d.events;
    assert Reachable(d);
  }

  // --------------------------------------------------- cancel, not started

  ghost predicate NothingBegins(s: State, t: State) {
    && s.events <= t.events
    && forall i :: |s.events| <= i < |t.events| ==> !t.events[i].Begun? && !t.events[i].Tried? && !t.events[i].Accepted?
  }

  /** The whole not-started section without interference. */
  function CancelledQueued(s: State): State {
    Step(Step(Step(Step(Step(s, CancelRead(true)), CancelMark), CheckQueue), RemoveRow(false)), Confirm)
  }

  lemma QueuedUnfinishedIs(s: State)
    requires s.canceller == Free && s.row == Waiting && s.dir.Unfinished()
    ensures var a := |s.dir.outcomes|;
            CancelledQueued(s) == s.(dir := s.dir.(marker := Some(a)), events := s.events + [MarkedFor(a)])
  {
    var a := |s.dir.outcomes|;
    var marked := Step(Step(s, CancelRead(true)), CancelMark);
    assert marked == s.(dir := s.dir.(marker := Some(a)),
                          canceller := Marked(a, true, a), events := s.events + [MarkedFor(a)]);
    var checked := Step(marked, CheckQueue);
    assert checked == marked.(canceller := Free);
  }

  /** With nobody in between, a queued job whose attempts all have outcomes is cancelled as not started. */
  lemma QueuedCancelConfirms(s: State)
    requires s.canceller == Free && s.row == Waiting && !s.dir.Unfinished()
    ensures var a := |s.dir.outcomes| + 1;
            CancelledQueued(s) == s.(row := Gone, dir := s.dir.(marker := None),
                                        events := s.events + [MarkedFor(a)] + [NotStarted])
  {
    var a := |s.dir.outcomes| + 1;
    var marked := Step(Step(s, CancelRead(true)), CancelMark);
    assert marked == s.(dir := s.dir.(marker := Some(a)),
                          canceller := Marked(a, true, a - 1), events := s.events + [MarkedFor(a)]);
    var checked := Step(marked, CheckQueue);
    assert checked == marked.(canceller := Checked(a, a - 1));
  }

  lemma QueuedEscapes(s: State, k: nat)
    requires s.row == Waiting && s.canceller == Free && k == |s.dir.outcomes| + 1 && s.dir.marker != Some(k)
    ensures MayStillStart(s, k)
  {
    var launched := Step(s, Launch);
    EscapeStarts(launched, k);
    var t :| Leads(launched, t) && !NoStartOf(launched, t, k);
    var later :| Run(launched, later) == t;
    RunConcat(s, [Launch], later);
    RunOne(s, Launch);
    assert Run(s, [Launch] + later) == Run(launched, later) == t;
    assert Leads(s, t);
    assert launched.events == s.events;
    assert !NoStartOf(s, t, k);
  }

  /** With nobody in between, a queued job is removed exactly when its latest attempt left an outcome; and otherwise,
      the cancel over, the coming attempt may still start. */
  lemma QueuedCancelIff(s: State)
    requires Reachable(s) && s.canceller == Free && s.row == Waiting
    ensures CancelledQueued(s).row == Gone <==> !s.dir.Unfinished()
    ensures CancelledQueued(s).events == s.events + [MarkedFor(|s.dir.outcomes| + 1)] + [NotStarted] <==>
              !s.dir.Unfinished()
    ensures MayStillStart(CancelledQueued(s), |s.dir.outcomes| + 1) <==> s.dir.Unfinished()
  {
    ReachableInv(s);
    var after, k := CancelledQueued(s), |s.dir.outcomes| + 1;
    if s.dir.Unfinished() {
      QueuedUnfinishedIs(s);
      QueuedEscapes(after, k);
    } else {
      QueuedCancelConfirms(s);
      forall t | Leads(after, t) ensures NoStartOf(after, t, k) {
        var actions :| Run(after, actions) == t;
        GoneRun(after, actions);
      }
    }
  }

  /** It happens: the first attempt is killed without an outcome, its retry is cancelled while it is queued, and the
      second attempt runs. */
  lemma QueuedEscapeHappens()
    ensures exists s :: Reachable(s) && s.row == Waiting && s.canceller == Free && MayStillStart(CancelledQueued(s), 2)
  {
    var s := KilledFirst();
    assert Reachable(s) && s.dir.Unfinished();
    QueuedCancelIff(s);
  }

  lemma GoneStep(s: State, action: Action)
    requires s.row == Gone && s.wrapper == NoWrapper
    ensures var t := Step(s, action);
            t.row == Gone && t.wrapper == NoWrapper && NothingBegins(s, t)
  {}

  lemma {:induction false} GoneRun(s: State, actions: seq<Action>)
    requires s.row == Gone && s.wrapper == NoWrapper
    ensures NothingBegins(s, Run(s, actions))
    decreases |actions|
  {
    if actions != [] {
      GoneStep(s, actions[0]);
      GoneRun(Step(s, actions[0]), actions[1..]);
    }
  }

  /** A cancel reported as not started: every attempt made has its outcome, no attempt is ever made again,
      and the canceller's own marker is gone. */
  lemma NotStartedIsTrue(s: State, actions: seq<Action>)
    requires Reachable(s) && Step(s, Confirm).events == s.events + [NotStarted]
    ensures var t := Step(s, Confirm);
            && !t.dir.Unfinished() && t.dir.marker != Some(s.canceller.attempt)
            && NothingBegins(t, Run(t, actions))
  {
    ReachableInv(s);
    GoneRun(Step(s, Confirm), actions);
  }

  // --------------------------------------------------------- the code's own form

  predicate Foreign(action: Action) {
    Outer(action) || action.CancelRead? || action.CancelMark? || action.CancelStop?
    || action.CheckQueue? || action.RemoveRow? || action.Confirm? || action.CancelDie?
  }

  predicate StartupAction(action: Action) {
    action.Submit? || action.PollMarker? || action.PollUnit? || action.Abandon?
  }

  lemma {:induction false} ForeignRun(s: State, actions: seq<Action>)
    requires Inv(s) && s.wrapper != NoWrapper && forall i :: 0 <= i < |actions| ==> Foreign(actions[i])
    ensures Inv(Run(s, actions)) && Run(s, actions).wrapper == s.wrapper
    decreases |actions|
  {
    if actions != [] {
      StepKeepsInv(s, actions[0]);
      ForeignRun(Step(s, actions[0]), actions[1..]);
    }
  }

  lemma RunSnoc(s: State, trace: seq<Action>, action: Action)
    ensures Run(s, trace + [action]) == Step(Run(s, trace), action)
  {
    RunConcat(s, trace, [action]);
    RunOne(Run(s, trace), action);
  }

  /** What a wrapper meets while it starts its service, by the number of looks it has taken: what others do
      while it waits for the lock, what they do while it sleeps, the manager's replies, and its clock. */
  datatype Surroundings = Surroundings(waits: nat -> seq<Action>, others: nat -> seq<Action>, replies: nat -> Reply,
                                       blind: nat -> bool, late: nat -> bool, looks: nat) {
    ghost predicate Fair() {
      && (forall n, i :: 0 <= i < |waits(n)| ==> Foreign(waits(n)[i]))
      && (forall n, i :: 0 <= i < |others(n)| ==> Foreign(others(n)[i]))
    }
  }

  /** How a startup ends: it gives up to its marker, the submission is answered, a look finds the unit loaded, the
      looks are used up, or others keep the lock. */
  datatype StartResult = GivenUp | Answered | FoundLoaded | Exhausted | Stalled

  /** A name in use refuses the submission, whether or not the client hears of it. */
  function Answer(unit: Option<Unit>, reply: Reply): Reply {
    if unit == None || reply.Rejected? then reply else Rejected(reply.Lost? && reply.busRefused)
  }

  predicate BusRefused(reply: Reply) {
    !reply.Acknowledged? && reply.busRefused
  }

  /** A look that counts: the manager answers, and an absence comes before the deadline. */
  predicate Sees(around: Surroundings, s: State, look: nat) {
    !around.blind(look) && (s.unit != None || !around.late(look))
  }

  /** The back-off: nothing is answered when the service is to be submitted again. */
  function Await(s: State, k: nat, around: Surroundings, look: nat): (end: (State, Option<StartResult>, nat))
    requires look <= around.looks
    ensures look <= end.2 <= around.looks && (end.1 == None ==> look < end.2)
    decreases around.looks - look
  {
    if s.dir.marker == Some(k) then (Step(s, PollMarker), Some(GivenUp), look)
    else if look == around.looks then (Step(s, Abandon), Some(Exhausted), look)
    else
      var t := Run(s, around.others(look));
      if t.dir.marker == Some(k) then (Step(t, PollMarker), Some(GivenUp), look + 1)
      else if Sees(around, t, look + 1) then
        (Step(t, PollUnit(false)), if t.unit == None then None else Some(FoundLoaded), look + 1)
      else Await(t, k, around, look + 1)
  }

  /** The wait for the lock and the section under it: nothing is answered when the bus was refused. */
  function Attempted(s: State, k: nat, waits: seq<Action>, reply: Reply): (State, Option<StartResult>) {
    var t := Run(s, waits);
    if t.canceller != Free then (t, Some(Stalled))
    else
      var u := Step(t, Submit(Answer(t.unit, reply)));
      if t.dir.marker == Some(k) then (u, Some(GivenUp))
      else if !BusRefused(reply) then (u, Some(Answered))
      else (u, None)
  }

  /** The whole startup from the looks already taken. */
  function Startup(s: State, k: nat, around: Surroundings, look: nat): (State, StartResult)
    requires look <= around.looks
    decreases around.looks - look
  {
    match Attempted(s, k, around.waits(look), around.replies(look))
    case (u, Some(result)) => (u, result)
    case (u, None) =>
      match Await(u, k, around, look)
      case (v, Some(result), _) => (v, result)
      case (v, None, next) => Startup(v, k, around, next)
  }

  /** What others have done by a look. */
  function Slept(s: State, around: Surroundings, from: nat, look: nat): State
    decreases look
  {
    if look <= from then s else Run(Slept(s, around, from, look - 1), around.others(look - 1))
  }

  lemma {:induction false} SleptFirst(s: State, around: Surroundings, from: nat, look: nat)
    requires from < look
    ensures Slept(s, around, from, look) == Slept(Run(s, around.others(from)), around, from + 1, look)
    decreases look
  {
    if look > from + 1 {
      SleptFirst(s, around, from, look - 1);
    }
  }

  /** Neither a marker for the attempt nor a look that counts. */
  ghost predicate NothingAt(s: State, k: nat, around: Surroundings, from: nat, look: nat) {
    var t := Slept(s, around, from, look);
    t.dir.marker != Some(k) && (look > from ==> around.blind(look) || (t.unit == None && around.late(look)))
  }

  ghost predicate NothingBefore(s: State, k: nat, around: Surroundings, from: nat, look: nat) {
    forall n: nat :: from <= n < look ==> NothingAt(s, k, around, from, n)
  }

  lemma NothingLater(s: State, k: nat, around: Surroundings, from: nat, look: nat)
    requires from < look && NothingBefore(s, k, around, from, look)
    ensures NothingBefore(Run(s, around.others(from)), k, around, from + 1, look)
  {
    var t, next := Run(s, around.others(from)), from + 1;
    forall n: nat | next <= n < look ensures NothingAt(t, k, around, next, n) {
      SleptFirst(s, around, from, n);
      assert NothingAt(s, k, around, from, n);
    }
  }

  /** The first marker or look that counts ends the back-off: the marker gives up, an absence submits again, a
      loaded unit is left to be waited for; without either, the service is not submitted again. */
  lemma {:induction false} FirstSightDecides(s: State, k: nat, around: Surroundings, from: nat, look: nat)
    requires from <= look <= around.looks && NothingBefore(s, k, around, from, look)
    ensures var t, end := Slept(s, around, from, look), Await(s, k, around, from);
            if t.dir.marker == Some(k) then end == (Step(t, PollMarker), Some(GivenUp), look)
            else if look > from && !around.blind(look) && (t.unit != None || !around.late(look)) then
              end == (Step(t, PollUnit(false)), if t.unit == None then None else Some(FoundLoaded), look)
            else look == around.looks ==> end == (Step(t, Abandon), Some(Exhausted), look)
    decreases look - from
  {
    if from < look {
      assert NothingAt(s, k, around, from, from) && Slept(s, around, from, from) == s;
      var t := Run(s, around.others(from));
      SleptFirst(s, around, from, look);
      if look > from + 1 {
        assert NothingAt(s, k, around, from, from + 1) && Slept(s, around, from, from + 1) == t;
      }
      NothingLater(s, k, around, from, look);
      FirstSightDecides(t, k, around, from + 1, look);
    }
  }

  /** One refused bus and one absence after it. */
  function Rounds(k: nat, n: nat): seq<Event> {
    if n == 0 then [] else [Tried(k), SeenAbsent(k)] + Rounds(k, n - 1)
  }

  /** Nobody else acts, every look counts, and the bus is refused so many times before the submission is taken. */
  ghost predicate Recovers(around: Surroundings, n: nat) {
    && n <= around.looks
    && (forall i :: 0 <= i <= n ==>
          around.waits(i) == [] && around.others(i) == [] && !around.blind(i) && !around.late(i))
    && (forall i :: 0 <= i < n ==> around.replies(i) == Rejected(true))
    && around.replies(n) == Acknowledged
  }

  /** The bus is refused once, and the next look counts. */
  ghost predicate RefusedAt(around: Surroundings, look: nat) {
    && look < around.looks && around.waits(look) == [] && around.others(look) == []
    && around.replies(look) == Rejected(true) && !around.blind(look + 1) && !around.late(look + 1)
  }

  lemma RefusedOnce(s: State, t: State, k: nat, around: Surroundings, look: nat)
    requires s.wrapper == Starting(k) && s.canceller == Free && s.unit == None && s.dir.marker != Some(k)
    requires t == s.(events := s.events + [Tried(k), SeenAbsent(k)])
    requires RefusedAt(around, look)
    ensures Startup(s, k, around, look) == Startup(t, k, around, look + 1)
  {
    var u := s.(wrapper := Backoff(k), events := s.events + [Tried(k)]);
    assert Attempted(s, k, [], Rejected(true)) == (u, None);
    LooksOnce(u, k, around, look);
    assert s.events + [Tried(k)] + [SeenAbsent(k)] == t.events;
  }

  lemma LooksOnce(s: State, k: nat, around: Surroundings, from: nat)
    requires s.wrapper == Backoff(k) && s.unit == None && s.dir.marker != Some(k) && from < around.looks
    requires around.others(from) == [] && !around.blind(from + 1) && !around.late(from + 1)
    ensures Await(s, k, around, from) == (Log(s.(wrapper := Starting(k)), SeenAbsent(k)), None, from + 1)
  {
    assert Run(s, []) == s;
  }

  /** A name in use refuses every submission, and the client hears no more of it than of any other answer: a refused bus
      asks for another try. */
  lemma UsedNameRefuses(s: State, k: nat, reply: Reply)
    requires s.wrapper == Starting(k) && s.canceller == Free && s.unit.Some? && s.dir.marker != Some(k)
    ensures Attempted(s, k, [], reply) ==
      if !reply.Acknowledged? && reply.busRefused
      then (s.(wrapper := Backoff(k), events := s.events + [Tried(k)]), None)
      else (s.(wrapper := Settling(k), events := s.events + [Tried(k)]), Some(Answered))
  {
    assert Run(s, []) == s;
  }

  /** A lock that others keep stalls the attempt where they leave it, and a marker ends it before it submits. */
  lemma AttemptEnds(s: State, k: nat, waits: seq<Action>, reply: Reply)
    ensures var t := Run(s, waits);
            && (t.canceller != Free ==> Attempted(s, k, waits, reply) == (t, Some(Stalled)))
            && (t.canceller == Free && t.wrapper == Starting(k) && t.dir.marker == Some(k) ==>
                  Attempted(s, k, waits, reply)
                  == (t.(wrapper := Finishing(k), events := t.events + [GaveUp(k)]), Some(GivenUp)))
  {}

  lemma AcceptedAtOnce(s: State, k: nat)
    requires s.wrapper == Starting(k) && s.canceller == Free && s.unit == None && s.dir.marker != Some(k)
    ensures Attempted(s, k, [], Acknowledged) ==
      (s.(wrapper := Settling(k), unit := Some(Unit(k, true)), events := s.events + [Tried(k), Accepted(k)]),
       Some(Answered))
  {
    assert Run(s, []) == s;
    assert s.events + [Tried(k)] + [Accepted(k)] == s.events + [Tried(k), Accepted(k)];
  }

  lemma {:induction false} RoundsSnoc(k: nat, n: nat)
    ensures Rounds(k, n + 1) == Rounds(k, n) + [Tried(k), SeenAbsent(k)]
  {
    if n > 0 {
      RoundsSnoc(k, n - 1);
    }
  }

  /** The starting state after so many refused tries, each looked at. */
  function Refused(s: State, k: nat, n: nat): State {
    s.(events := s.events + Rounds(k, n))
  }

  lemma RefusedMore(s: State, k: nat, n: nat)
    ensures Refused(s, k, n + 1) == Refused(s, k, n).(events := Refused(s, k, n).events + [Tried(k), SeenAbsent(k)])
  {
    RoundsSnoc(k, n);
    assert s.events + (Rounds(k, n) + [Tried(k), SeenAbsent(k)]) == Refused(s, k, n).events + [Tried(k), SeenAbsent(k)];
  }

  /** A startup as a function of its state and of the looks already taken. */
  function Startups(k: nat, around: Surroundings): (State, nat) -> (State, StartResult) {
    (s: State, look: nat) => if look <= around.looks then Startup(s, k, around, look) else (s, Stalled)
  }

  lemma RefusedNext(s: State, k: nat, around: Surroundings, n: nat, i: nat)
    requires s.wrapper == Starting(k) && s.canceller == Free && s.unit == None && s.dir.marker != Some(k)
    requires Recovers(around, n) && i < n
    ensures Startups(k, around)(Refused(s, k, i), i) == Startups(k, around)(Refused(s, k, i + 1), i + 1)
  {
    RefusedMore(s, k, i);
    assert RefusedAt(around, i);
    RefusedOnce(Refused(s, k, i), Refused(s, k, i + 1), k, around, i);
  }

  lemma {:induction false} RefusedAll(run: (State, nat) -> (State, StartResult), s: State, k: nat, n: nat)
    requires forall i: nat :: i < n ==> run(Refused(s, k, i), i) == run(Refused(s, k, i + 1), i + 1)
    ensures run(Refused(s, k, 0), 0) == run(Refused(s, k, n), n)
  {
    if n > 0 {
      RefusedAll(run, s, k, n - 1);
    }
  }

  lemma TakenAt(s: State, k: nat, around: Surroundings, n: nat)
    requires s.wrapper == Starting(k) && s.canceller == Free && s.unit == None && s.dir.marker != Some(k)
    requires Recovers(around, n)
    ensures Startups(k, around)(s, n) ==
      (s.(wrapper := Settling(k), unit := Some(Unit(k, true)), events := s.events + [Tried(k), Accepted(k)]), Answered)
  {
    AcceptedAtOnce(s, k);
  }

  /** A bus that comes back in time gets the payload: each refusal is followed by a look and one more try, and the
      first acknowledged try starts the unit. */
  lemma RecoveredBusStarts(s: State, k: nat, around: Surroundings, n: nat)
    requires s.wrapper == Starting(k) && s.canceller == Free && s.unit == None && s.dir.marker != Some(k)
    requires Recovers(around, n)
    ensures Startups(k, around)(s, 0) ==
      (s.(wrapper := Settling(k), unit := Some(Unit(k, true)),
          events := s.events + Rounds(k, n) + [Tried(k), Accepted(k)]), Answered)
  {
    var run := Startups(k, around);
    forall i: nat | i < n ensures run(Refused(s, k, i), i) == run(Refused(s, k, i + 1), i + 1) {
      RefusedNext(s, k, around, n, i);
    }
    RefusedAll(run, s, k, n);
    assert Refused(s, k, 0) == s by { assert s.events + [] == s.events; }
    TakenAt(Refused(s, k, n), k, around, n);
  }

  /** The extended run of one more step that keeps the invariant. */
  lemma OneMore(start: State, trace: seq<Action>, s: State, action: Action)
    requires s == Run(start, trace) && Inv(s)
    ensures Run(start, trace + [action]) == Step(s, action) && Inv(Step(s, action))
  {
    StepKeepsInv(s, action);
    RunSnoc(start, trace, action);
  }

  /** One job on its host: the allocation directory, the unit, the queue's row, where the wrapper stands and who
      holds the allocation lock; `events` is the history. */
  class Host {
    var dir: Dir
    var unit: Option<Unit>
    var row: Row
    var wrapper: Wrapper
    var canceller: Canceller
    var events: seq<Event>

    function World(): State
      reads this
    {
      State(dir, unit, row, wrapper, canceller, events)
    }

    constructor (world: State)
      ensures World() == world
    {
      dir, unit, row, wrapper := world.dir, world.unit, world.row, world.wrapper;
      canceller, events := world.canceller, world.events;
    }

    ghost predicate Reached(start: State, trace: seq<Action>, at: Wrapper)
      reads this
    {
      && World() == Run(start, trace) && Inv(World()) && wrapper == at
      && forall i :: 0 <= i < |trace| ==> Foreign(trace[i]) || StartupAction(trace[i])
    }

    /** What others do meanwhile. */
    method Let(actions: seq<Action>, ghost start: State, ghost trace: seq<Action>) returns (ghost longer: seq<Action>)
      requires Reached(start, trace, wrapper) && wrapper != NoWrapper
      requires forall i :: 0 <= i < |actions| ==> Foreign(actions[i])
      modifies this
      ensures longer == trace + actions && World() == Run(old(World()), actions)
      ensures Reached(start, longer, old(wrapper))
    {
      ForeignRun(World(), actions);
      RunConcat(start, trace, actions);
      longer := trace + actions;
      var after := Run(World(), actions);
      dir, unit, row, wrapper := after.dir, after.unit, after.row, after.wrapper;
      canceller, events := after.canceller, after.events;
    }

    method Note(event: Event, next: Wrapper)
      modifies `wrapper, `events
      ensures World() == Log(old(World()).(wrapper := next), event)
    {
      wrapper, events := next, events + [event];
    }

    /** The startup section: the marker is read and the service submitted under one hold of the lock. */
    method SubmitOnce(k: nat, reply: Reply, ghost start: State, ghost trace: seq<Action>)
      returns (retryable: bool, ghost longer: seq<Action>)
      requires Reached(start, trace, Starting(k)) && canceller == Free
      modifies this
      ensures Reached(start, longer, wrapper) && longer == trace + [Submit(Answer(old(unit), reply))]
      ensures retryable <==> old(dir).marker != Some(k) && !reply.Acknowledged? && reply.busRefused
      ensures wrapper == if retryable then Backoff(k)
              else if old(dir).marker == Some(k) then Finishing(k) else Settling(k)
      ensures events == old(events) + if old(dir).marker == Some(k) then [GaveUp(k)]
              else if old(unit) == None && !reply.Rejected? then [Tried(k), Accepted(k)] else [Tried(k)]
      ensures World() == Step(old(World()), Submit(Answer(old(unit), reply)))
    {
      var effective := Answer(unit, reply);
      OneMore(start, trace, World(), Submit(effective));
      longer := trace + [Submit(effective)];
      if dir.marker == Some(k) {
        Note(GaveUp(k), Finishing(k));
        return false, longer;
      }
      retryable := (effective.Lost? || effective.Rejected?) && effective.busRefused;
      Note(Tried(k), if retryable then Backoff(k) else Settling(k));
      if !effective.Rejected? {
        unit := Some(Unit(k, true));
        Note(Accepted(k), wrapper);
      }
    }

    /** The back-off finds the marker. */
    method Leave(k: nat, ghost start: State, ghost trace: seq<Action>) returns (ghost longer: seq<Action>)
      requires Reached(start, trace, Backoff(k)) && dir.marker == Some(k)
      modifies this
      ensures Reached(start, longer, Finishing(k)) && World() == Step(old(World()), PollMarker) && GaveUp(k) in events
    {
      OneMore(start, trace, World(), PollMarker);
      longer := trace + [PollMarker];
      Note(GaveUp(k), Finishing(k));
    }

    /** The back-off sees the unit: absent, the service is submitted again; otherwise it is waited for. */
    method Look(k: nat, ghost start: State, ghost trace: seq<Action>) returns (absent: bool, ghost longer: seq<Action>)
      requires Reached(start, trace, Backoff(k))
      modifies this
      ensures absent <==> old(unit) == None
      ensures Reached(start, longer, if absent then Starting(k) else Settling(k))
      ensures World() == Step(old(World()), PollUnit(false)) && longer == trace + [PollUnit(false)]
    {
      OneMore(start, trace, World(), PollUnit(false));
      longer := trace + [PollUnit(false)];
      absent := unit == None;
      if absent {
        Note(SeenAbsent(k), Starting(k));
      } else {
        wrapper := Settling(k);
      }
    }

    /** Wait until the unit is seen absent; nothing is answered when the service is to be submitted again. */
    method AwaitAbsence(k: nat, around: Surroundings, from: nat, ghost start: State, ghost before: seq<Action>)
      returns (result: Option<StartResult>, look: nat, ghost trace: seq<Action>)
      requires around.Fair() && from <= around.looks && Reached(start, before, Backoff(k))
      modifies this
      ensures from <= look <= around.looks && (result == None ==> from < look)
      ensures (World(), result, look) == Await(old(World()), k, around, from) && result != Some(Stalled)
      ensures result == Some(GivenUp) ==> GaveUp(k) in events
      ensures Reached(start, trace, wrapper)
      ensures wrapper == match result
                         case None => Starting(k)
                         case Some(end) => if end == GivenUp then Finishing(k) else Settling(k)
    {
      look, trace := from, before;
      while true
        invariant from <= look <= around.looks && Reached(start, trace, Backoff(k))
        invariant Await(World(), k, around, look) == Await(old(World()), k, around, from)
        decreases around.looks - look
      {
        if dir.marker == Some(k) {
          trace := Leave(k, start, trace);
          return Some(GivenUp), look, trace;
        }
        if look == around.looks {
          OneMore(start, trace, World(), Abandon);
          wrapper := Settling(k);
          return Some(Exhausted), look, trace + [Abandon];
        }
        trace := Let(around.others(look), start, trace);
        look := look + 1;
        if dir.marker == Some(k) {
          trace := Leave(k, start, trace);
          return Some(GivenUp), look, trace;
        }
        if !around.blind(look) && (unit != None || !around.late(look)) {
          var absent;
          absent, trace := Look(k, start, trace);
          return if absent then None else Some(FoundLoaded), look, trace;
        }
      }
    }

    /** The wait for the lock and the section under it. */
    method Attempt(k: nat, waits: seq<Action>, reply: Reply, ghost start: State, ghost before: seq<Action>)
      returns (result: Option<StartResult>, ghost trace: seq<Action>)
      requires Reached(start, before, Starting(k)) && forall i :: 0 <= i < |waits| ==> Foreign(waits[i])
      modifies this
      ensures (World(), result) == Attempted(old(World()), k, waits, reply)
      ensures Reached(start, trace, match result
                                    case None => Backoff(k)
                                    case Some(Stalled) => Starting(k)
                                    case Some(GivenUp) => Finishing(k)
                                    case _ => Settling(k))
      ensures result == Some(Stalled) <==> canceller != Free
      ensures result == Some(GivenUp) ==> GaveUp(k) in events
      ensures result == None || result == Some(Stalled) || result == Some(GivenUp) || result == Some(Answered)
    {
      trace := Let(waits, start, before);
      if canceller != Free {
        return Some(Stalled), trace;
      }
      var retryable;
      retryable, trace := SubmitOnce(k, reply, start, trace);
      result := if retryable then None else if wrapper == Finishing(k) then Some(GivenUp) else Some(Answered);
    }

    /** The startup loop makes the machine's startup steps and no other, between whatever others do: it ends
        by giving up to its marker or with the unit left to be waited for, and it stalls only while another
        holds the lock. */
    method StartService(k: nat, around: Surroundings) returns (result: StartResult, ghost trace: seq<Action>)
      requires around.Fair() && Inv(World()) && wrapper == Starting(k)
      modifies this
      ensures (World(), result) == Startup(old(World()), k, around, 0)
      ensures Reached(old(World()), trace, match result
                                           case Stalled => Starting(k)
                                           case GivenUp => Finishing(k)
                                           case _ => Settling(k))
      ensures result == Stalled ==> canceller != Free
      ensures result == GivenUp ==> GaveUp(k) in events
    {
      ghost var start := World();
      trace := [];
      var look := 0;
      while true
        invariant look <= around.looks && Reached(start, trace, Starting(k))
        invariant Startup(World(), k, around, look) == Startup(start, k, around, 0)
        decreases around.looks - look
      {
        var end;
        end, trace := Attempt(k, around.waits(look), around.replies(look), start, trace);
        if end.Some? {
          return end.value, trace;
        }
        end, look, trace := AwaitAbsence(k, around, look, start, trace);
        if end.Some? {
          return end.value, trace;
        }
      }
    }
  }

  datatype Attempt = Attempt(number: nat, outcome: bool)

  /** A job's allocation directory: its attempt directories in numeric order, and the marker beside them. */
  class Allocation {
    var attempts: seq<Attempt>
    var marker: Option<nat>

    ghost predicate Valid()
      reads this
    {
      forall i :: 0 <= i < |attempts| ==> attempts[i].number == i + 1
    }

    ghost function Contents(): Dir
      reads this
    {
      Dir(seq(|attempts|, i requires 0 <= i < |attempts| reads this => attempts[i].outcome), marker)
    }

    constructor ()
      ensures Valid() && Contents() == INITIAL.dir
    {
      attempts, marker := [], None;
    }

    /** The next number is one more than the greatest in use; only a marker for it stays. */
    method Begin() returns (number: nat)
      requires Valid()
      modifies this
      ensures Valid() && Contents() == old(Contents()).Begun() && number == |old(attempts)| + 1
    {
      var greatest := 0;
      for i := 0 to |attempts|
        invariant greatest == i
      {
        if attempts[i].number > greatest {
          greatest := attempts[i].number;
        }
      }
      number := greatest + 1;
      if marker != Some(number) {
        marker := None;
      }
      attempts := attempts + [Attempt(number, false)];
    }

    /** The canceller's choice and mark, under one hold of the lock. */
    method Address() returns (attempt: nat)
      requires Valid()
      modifies this
      ensures Valid() && attempt == old(Contents()).Active()
      ensures Contents() == old(Contents()).(marker := Some(attempt))
    {
      var latest := if attempts == [] then 0 else attempts[|attempts| - 1].number;
      attempt := if latest > 0 && !attempts[|attempts| - 1].outcome then latest else latest + 1;
      marker := Some(attempt);
    }

    method Consume(attempt: nat)
      requires Valid()
      modifies this
      ensures Valid() && Contents() == old(Contents()).Consumed(attempt)
    {
      if marker == Some(attempt) {
        marker := None;
      }
    }

    method Publish(attempt: nat)
      requires Valid() && 1 <= attempt <= |attempts|
      modifies this
      ensures Valid() && Contents() == old(Contents()).Published(attempt)
    {
      attempts := attempts[attempt - 1 := Attempt(attempt, true)];
    }
  }
}
