/** The pressure pass: which group it pauses or resumes, and where repeated passes lead. */
module PressureController {
  import Lines
  import opened PressureReplay
  import opened Wrappers

  const FREEZE_AT := 25.0
  const RESUME_BELOW := 10.0

  /** The groups this module may resume, and the order in which it closes some of them. */
  datatype Policy = Policy(closeOrder: seq<string>, managed: seq<string>) {

    ghost predicate Valid() {
      Distinct(closeOrder) && Distinct(managed) && forall group :: group in closeOrder ==> group in managed
    }
  }

  const DECLARED := Policy(["pytest-heavy", "pytest", "normal", "bulk", "pytest-quick"],
                           ["agent", "pytest-heavy", "pytest", "pytest-quick", "normal", "bulk"])

  lemma DeclaredIsValid()
    ensures DECLARED.Valid()
  {
    assert DECLARED.managed[1..] == ["pytest-heavy", "pytest", "pytest-quick", "normal", "bulk"];
    assert DECLARED.managed[1] == "pytest-heavy" && DECLARED.managed[2] == "pytest"
        && DECLARED.managed[3] == "pytest-quick" && DECLARED.managed[4] == "normal"
        && DECLARED.managed[5] == "bulk";
  }

  datatype Status = Running | Paused | OtherStatus

  /** Memory pressure; an unreadable average is unknown, never zero. */
  datatype Reading = Reading(avg10: Option<real>, avg60: Option<real>) {

    predicate OverThreshold() {
      avg60.Some? && avg60.value >= FREEZE_AT
    }

    function Recovery(): Option<real> {
      if avg10.Some? then avg10 else avg60
    }

    predicate CanReopen() {
      avg60.Some? && Recovery().value < RESUME_BELOW
    }
  }

  datatype Decision = Unavailable | Failed(group: string) | Resumed(group: string) | Shut(group: string) | Idle

  /** The queue's groups and the projected pauses. */
  datatype Control = Control(groups: map<string, Status>, pauses: Pauses) {

    predicate Is(group: string, status: Status) {
      group in groups && groups[group] == status
    }

    /** Paused, with its own close as the last effective record. */
    predicate OwnPaused(group: string) {
      Is(group, Paused) && group in Ours(pauses)
    }
  }

  function OwnEvent(action: Action, group: string): Event {
    Pressure(Some(group), action, Some(OWNER), if action == Closed then ["memory"] else [])
  }

  /** Own pauses of groups that someone else has resumed are given up. */
  function Release(s: Control): Control {
    s.(pauses := s.pauses - set group | group in Ours(s.pauses) && s.Is(group, Running))
  }

  /** The first group of a declared order that `wanted` contains. */
  function First(order: seq<string>, wanted: set<string>): Option<string> {
    if order == [] then None
    else if order[0] in wanted then Some(order[0])
    else First(order[1..], wanted)
  }

  function OwnPausedSet(p: Policy, s: Control): set<string> {
    set group | group in p.managed && s.OwnPaused(group)
  }

  function RunningSet(p: Policy, s: Control): set<string> {
    set group | group in p.closeOrder && s.Is(group, Running)
  }

  function Decide(p: Policy, s: Control, reading: Reading): Decision {
    if reading.CanReopen() && OwnPausedSet(p, s) != {} && First(p.managed, OwnPausedSet(p, s)).Some? then
      Resumed(First(p.managed, OwnPausedSet(p, s)).value)
    else if reading.OverThreshold() && First(p.closeOrder, RunningSet(p, s)).Some? then
      Shut(First(p.closeOrder, RunningSet(p, s)).value)
    else Idle
  }

  function Perform(s: Control, decision: Decision): Control {
    match decision
    case Resumed(group) =>
      Control(s.groups[group := Running], Apply(s.pauses, OwnEvent(Opened, group)))
    case Shut(group) =>
      Control(s.groups[group := Paused], Apply(s.pauses, OwnEvent(Closed, group)))
    case _ => s
  }

  /** How a pause or a resume ends: a lost one was carried out and reads as an error. */
  datatype Answer = Done | Refused | Lost

  /** One pass. `statusOk` says whether the queue reported its groups, `answer` how the one change ends. */
  function Tick(p: Policy, s: Control, reading: Reading, statusOk: bool, answer: Answer): (Control, Decision) {
    if !statusOk then (s, Unavailable)
    else
      var decision := Decide(p, Release(s), reading);
      if decision.Idle? then (Release(s), decision)
      else
        match answer
        case Done => (Perform(Release(s), decision), decision)
        case Refused => (Release(s), Failed(decision.group))
        case Lost => (Release(s).(groups := Perform(s, decision).groups), Failed(decision.group))
  }

  /** The pass as it runs, over the queue's live groups and the checkpointed projection. */
  class Controller {
    const policy: Policy
    var groups: map<string, Status>
    var pauses: Pauses

    function View(): Control
      reads this
    {
      Control(groups, pauses)
    }

    constructor (policy: Policy, groups: map<string, Status>, pauses: Pauses)
      ensures View() == Control(groups, pauses) && this.policy == policy
    {
      this.policy, this.groups, this.pauses := policy, groups, pauses;
    }

    method ReleaseSeen()
      modifies this`pauses
      ensures View() == Release(old(View()))
    {
      ghost var before := View();
      var waiting := Ours(pauses);
      ghost var mine := waiting;
      while waiting != {}
        invariant waiting <= mine
        invariant groups == before.groups
        invariant pauses == before.pauses
                            - set group | group in mine && group !in waiting && before.Is(group, Running)
        decreases waiting
      {
        var name :| name in waiting;
        if name in groups && groups[name] == Running {
          pauses := Apply(pauses, OwnEvent(Released, name));
        }
        waiting := waiting - {name};
      }
    }

    method Pass(reading: Reading, statusOk: bool, answer: Answer) returns (decision: Decision)
      modifies this
      ensures (View(), decision) == Tick(policy, old(View()), reading, statusOk, answer)
    {
      if !statusOk {
        return Unavailable;
      }
      ReleaseSeen();
      var obsolete := if reading.CanReopen() then First(policy.managed, OwnPausedSet(policy, View())) else None;
      if obsolete.Some? {
        FirstIsFirst(policy.managed, OwnPausedSet(policy, View()));
        if answer != Refused {
          groups := groups[obsolete.value := Running];
        }
        if answer != Done {
          return Failed(obsolete.value);
        }
        pauses := Apply(pauses, OwnEvent(Opened, obsolete.value));
        return Resumed(obsolete.value);
      }
      if reading.OverThreshold() {
        var running := First(policy.closeOrder, RunningSet(policy, View()));
        if running.Some? {
          if answer != Refused {
            groups := groups[running.value := Paused];
          }
          if answer != Done {
            return Failed(running.value);
          }
          pauses := Apply(pauses, OwnEvent(Closed, running.value));
          return Shut(running.value);
        }
      }
      return Idle;
    }
  }

  /** `First` is the earliest member of the order that is wanted. */
  lemma {:induction false} FirstIsFirst(order: seq<string>, wanted: set<string>)
    ensures First(order, wanted).None? <==> forall group :: group in order ==> group !in wanted
    ensures First(order, wanted).Some? ==>
      exists i :: 0 <= i < |order| && order[i] == First(order, wanted).value && order[i] in wanted
               && forall j :: 0 <= j < i ==> order[j] !in wanted
  {
    if order != [] {
      FirstIsFirst(order[1..], wanted);
      if order[0] !in wanted && First(order[1..], wanted).Some? {
        var i :| 0 <= i < |order[1..]| && order[1..][i] == First(order[1..], wanted).value
              && order[1..][i] in wanted && forall j :: 0 <= j < i ==> order[1..][j] !in wanted;
        assert order[1 + i] == order[1..][i];
        assert forall j :: 0 <= j < 1 + i ==> order[j] !in wanted by {
          forall j | 0 <= j < 1 + i ensures order[j] !in wanted {
            if j > 0 { assert order[j] == order[1..][j - 1]; }
          }
        }
      }
    }
  }

  /** A pass changes at most one group: it resumes only a paused group whose last effective record is
      its own close, and pauses only a running one. It records exactly the changes it saw acknowledged. */
  lemma OneChangePerPass(p: Policy, s: Control, reading: Reading, statusOk: bool, answer: Answer)
    ensures var (t, decision) := Tick(p, s, reading, statusOk, answer);
            && t.groups.Keys == s.groups.Keys
            && (forall group :: group in s.groups && t.groups[group] != s.groups[group] ==>
                  && (decision == Resumed(group) || decision == Shut(group)
                      || (decision == Failed(group) && answer == Lost))
                  && (|| (s.OwnPaused(group) && reading.CanReopen() && t.Is(group, Running))
                      || (s.Is(group, Running) && reading.OverThreshold() && t.Is(group, Paused))))
            && (decision.Resumed? ==> s.OwnPaused(decision.group) && reading.CanReopen())
            && (decision.Resumed? ==> t.Is(decision.group, Running) && decision.group !in t.pauses)
            && (decision.Shut? ==> s.Is(decision.group, Running) && reading.OverThreshold())
            && (decision.Shut? ==> t.OwnPaused(decision.group)
                                   && t.pauses[decision.group] == Pause(Some("agentctl"), ["memory"]))
            && (!statusOk ==> t == s && decision == Unavailable)
            && (forall group :: group in Ours(t.pauses) ==> group in Ours(s.pauses) || decision == Shut(group))
            && (forall group :: group in s.pauses && group !in Ours(s.pauses) && decision != Shut(group)
                  ==> group in t.pauses && t.pauses[group] == s.pauses[group])
  {
    FirstIsFirst(p.managed, OwnPausedSet(p, Release(s)));
    FirstIsFirst(p.closeOrder, RunningSet(p, Release(s)));
  }

  /** The i-th of these groups, and none before it, is so. */
  ghost predicate IsFirst(order: seq<string>, i: nat, so: string -> bool) {
    i < |order| && so(order[i]) && forall j :: 0 <= j < i ==> !so(order[j])
  }

  /** Memory is quiet: the 60-second average is known, and the 10-second one, or else the 60-second one, is below 10. */
  predicate Quiet(reading: Reading) {
    reading.avg60.Some? && (match reading.avg10 case Some(fast) => fast < 10.0 case None => reading.avg60.value < 10.0)
  }

  predicate Pressed(reading: Reading) {
    reading.avg60.Some? && reading.avg60.value >= 25.0
  }

  /** What an answered pass does, in the readings and the queue's groups: at a quiet reading it resumes the first
      managed group that is paused and recorded as paused by `agentctl`; otherwise, under pressure, it pauses the
      first running group of the closing order; otherwise nothing. */
  lemma PassDecides(p: Policy, s: Control, reading: Reading)
    ensures var decision := Tick(p, s, reading, true, Done).1;
            var own := (g: string) => g in s.groups && s.groups[g] == Paused && g in s.pauses
                                      && s.pauses[g].owner == Some("agentctl");
            var busy := (g: string) => g in s.groups && s.groups[g] == Running;
            if Quiet(reading) && exists i :: 0 <= i < |p.managed| && own(p.managed[i]) then
              exists i: nat :: IsFirst(p.managed, i, own) && decision == Resumed(p.managed[i])
            else if Pressed(reading) && exists i :: 0 <= i < |p.closeOrder| && busy(p.closeOrder[i]) then
              exists i: nat :: IsFirst(p.closeOrder, i, busy) && decision == Shut(p.closeOrder[i])
            else decision == Idle
  {
    var own := (g: string) => g in s.groups && s.groups[g] == Paused && g in s.pauses
                              && s.pauses[g].owner == Some("agentctl");
    var busy := (g: string) => g in s.groups && s.groups[g] == Running;
    var r := Release(s);
    FirstIsFirst(p.managed, OwnPausedSet(p, r));
    FirstIsFirst(p.closeOrder, RunningSet(p, r));
    forall g | g in p.managed ensures g in OwnPausedSet(p, r) <==> own(g) {}
    forall g | g in p.closeOrder ensures g in RunningSet(p, r) <==> busy(g) {}
    if First(p.managed, OwnPausedSet(p, r)).Some? {
      var i: nat :| i < |p.managed| && p.managed[i] == First(p.managed, OwnPausedSet(p, r)).value
        && p.managed[i] in OwnPausedSet(p, r) && forall j :: 0 <= j < i ==> p.managed[j] !in OwnPausedSet(p, r);
      assert IsFirst(p.managed, i, own);
    }
    if First(p.closeOrder, RunningSet(p, r)).Some? {
      var i: nat :| i < |p.closeOrder| && p.closeOrder[i] == First(p.closeOrder, RunningSet(p, r)).value
        && p.closeOrder[i] in RunningSet(p, r) && forall j :: 0 <= j < i ==> p.closeOrder[j] !in RunningSet(p, r);
      assert IsFirst(p.closeOrder, i, busy);
    }
  }

  // ------------------------------------------------- repeated passes, one reading

  /** `n` passes at one reading that the queue answers, with no one else changing groups. */
  function Passes(p: Policy, s: Control, reading: Reading, n: nat): Control
    decreases n
  {
    if n == 0 then s else Passes(p, Tick(p, s, reading, true, Done).0, reading, n - 1)
  }

  function Decisions(p: Policy, s: Control, reading: Reading, n: nat): seq<Decision>
    decreases n
  {
    if n == 0 then []
    else
      var (t, decision) := Tick(p, s, reading, true, Done);
      [decision] + Decisions(p, t, reading, n - 1)
  }

  /** The wanted groups, in declared order. */
  function Ordered(order: seq<string>, wanted: set<string>): seq<string> {
    if order == [] then []
    else if order[0] in wanted then [order[0]] + Ordered(order[1..], wanted)
    else Ordered(order[1..], wanted)
  }

  function Resumes(groups: seq<string>): seq<Decision> {
    if groups == [] then [] else [Resumed(groups[0])] + Resumes(groups[1..])
  }

  function Shuts(groups: seq<string>): seq<Decision> {
    if groups == [] then [] else [Shut(groups[0])] + Shuts(groups[1..])
  }

  ghost predicate Distinct(order: seq<string>) {
    forall i, j :: 0 <= i < j < |order| ==> order[i] != order[j]
  }

  lemma {:induction false} OrderedWithout(order: seq<string>, wanted: set<string>, group: string)
    requires group !in order
    ensures Ordered(order, wanted - {group}) == Ordered(order, wanted)
  {
    if order != [] {
      OrderedWithout(order[1..], wanted, group);
    }
  }

  /** The first wanted group heads the ordered list, and removing it leaves the rest of the list. */
  lemma {:induction false} OrderedStep(order: seq<string>, wanted: set<string>)
    requires Distinct(order)
    ensures First(order, wanted).None? <==> Ordered(order, wanted) == []
    ensures First(order, wanted).Some? ==>
      Ordered(order, wanted) == [First(order, wanted).value] + Ordered(order, wanted - {First(order, wanted).value})
  {
    if order != [] {
      if order[0] in wanted {
        OrderedWithout(order[1..], wanted, order[0]);
      } else {
        OrderedStep(order[1..], wanted);
      }
    }
  }

  lemma ResumeStep(p: Policy, s: Control, reading: Reading)
    requires reading.CanReopen() && OwnPausedSet(p, s) != {}
    ensures var (t, decision) := Tick(p, s, reading, true, Done);
            && decision.Resumed?
            && First(p.managed, OwnPausedSet(p, s)) == Some(decision.group)
            && OwnPausedSet(p, t) == OwnPausedSet(p, s) - {decision.group}
            && t.groups == s.groups[decision.group := Running] && decision.group in OwnPausedSet(p, s)
  {
    FirstIsFirst(p.managed, OwnPausedSet(p, s));
    assert OwnPausedSet(p, Release(s)) == OwnPausedSet(p, s);
  }

  lemma ShutStep(p: Policy, s: Control, reading: Reading)
    requires reading.OverThreshold() && RunningSet(p, s) != {}
    requires reading.CanReopen() ==> OwnPausedSet(p, s) == {}
    ensures var (t, decision) := Tick(p, s, reading, true, Done);
            && decision.Shut?
            && First(p.closeOrder, RunningSet(p, s)) == Some(decision.group)
            && RunningSet(p, t) == RunningSet(p, s) - {decision.group}
            && t.groups == s.groups[decision.group := Paused] && t.OwnPaused(decision.group)
  {
    assert reading.CanReopen() ==> OwnPausedSet(p, Release(s)) == {};
    FirstIsFirst(p.closeOrder, RunningSet(p, s));
    assert RunningSet(p, Release(s)) == RunningSet(p, s);
  }

  /** At quiet readings every own pause is resumed, one per pass and in declared order, until none is left. */
  lemma {:induction false} QuietDrains(p: Policy, s: Control, reading: Reading)
    requires p.Valid()
    requires reading.CanReopen()
    ensures var order := Ordered(p.managed, OwnPausedSet(p, s));
            && Decisions(p, s, reading, |order|) == Resumes(order)
            && OwnPausedSet(p, Passes(p, s, reading, |order|)) == {}
    decreases |OwnPausedSet(p, s)|
  {
    OrderedStep(p.managed, OwnPausedSet(p, s));
    FirstIsFirst(p.managed, OwnPausedSet(p, s));
    if OwnPausedSet(p, s) != {} {
      ResumeStep(p, s, reading);
      var t := Tick(p, s, reading, true, Done).0;
      QuietDrains(p, t, reading);
      assert Ordered(p.managed, OwnPausedSet(p, s))[1..] == Ordered(p.managed, OwnPausedSet(p, t));
    }
  }

  /** Under sustained pressure the running groups close in the declared order until none runs. */
  lemma {:induction false} SustainedCloses(p: Policy, s: Control, reading: Reading)
    requires p.Valid()
    requires reading.OverThreshold() && !reading.CanReopen()
    ensures var order := Ordered(p.closeOrder, RunningSet(p, s));
            && Decisions(p, s, reading, |order|) == Shuts(order)
            && RunningSet(p, Passes(p, s, reading, |order|)) == {}
    decreases |RunningSet(p, s)|
  {
    OrderedStep(p.closeOrder, RunningSet(p, s));
    FirstIsFirst(p.closeOrder, RunningSet(p, s));
    if RunningSet(p, s) != {} {
      ShutStep(p, s, reading);
      var t := Tick(p, s, reading, true, Done).0;
      SustainedCloses(p, t, reading);
      assert Ordered(p.closeOrder, RunningSet(p, s))[1..] == Ordered(p.closeOrder, RunningSet(p, t));
    }
  }

  /** A group of the closing order that this controller may close or reopen. */
  ghost predicate Contested(p: Policy, s: Control) {
    exists group :: group in p.closeOrder && (s.Is(group, Running) || s.OwnPaused(group))
  }

  /** From the n-th pass on, every pass is idle and the groups stay as they are. */
  ghost predicate RestsFrom(p: Policy, s: Control, reading: Reading, n: nat) {
    forall m: nat :: m >= n ==>
      && Tick(p, Passes(p, s, reading, m), reading, true, Done).1 == Idle
      && Passes(p, s, reading, m).groups == Passes(p, s, reading, n).groups
  }

  ghost predicate Settles(p: Policy, s: Control, reading: Reading) {
    exists n: nat :: RestsFrom(p, s, reading, n)
  }

  /** An idle pass is followed by idle passes that change no group. */
  lemma IdleStays(p: Policy, s: Control, reading: Reading)
    requires Tick(p, s, reading, true, Done).1 == Idle
    ensures var t := Tick(p, s, reading, true, Done).0;
            t.groups == s.groups && Tick(p, t, reading, true, Done) == (t, Idle)
  {
    assert Release(Release(s)) == Release(s);
  }

  lemma {:induction false} PassesSnoc(p: Policy, s: Control, reading: Reading, n: nat)
    ensures Passes(p, s, reading, n + 1) == Tick(p, Passes(p, s, reading, n), reading, true, Done).0
    decreases n
  {
    if n > 0 {
      PassesSnoc(p, Tick(p, s, reading, true, Done).0, reading, n - 1);
    }
  }

  lemma {:induction false} IdleRests(p: Policy, s: Control, reading: Reading, n: nat, m: nat)
    requires Tick(p, Passes(p, s, reading, n), reading, true, Done).1 == Idle && m >= n
    ensures Tick(p, Passes(p, s, reading, m), reading, true, Done).1 == Idle
    ensures Passes(p, s, reading, m).groups == Passes(p, s, reading, n).groups
    decreases m
  {
    if m > n {
      IdleRests(p, s, reading, n, m - 1);
      PassesSnoc(p, s, reading, m - 1);
      IdleStays(p, Passes(p, s, reading, m - 1), reading);
    }
  }

  lemma BothKeepContested(p: Policy, s: Control, reading: Reading)
    requires p.Valid()
    requires reading.OverThreshold() && reading.CanReopen() && Contested(p, s)
    ensures var (t, decision) := Tick(p, s, reading, true, Done);
            !decision.Idle? && Contested(p, t)
  {
    var group :| group in p.closeOrder && (s.Is(group, Running) || s.OwnPaused(group));
    var (t, decision) := Tick(p, s, reading, true, Done);
    if OwnPausedSet(p, s) != {} {
      ResumeStep(p, s, reading);
      ResumedIsRunning(p, s, t, decision.group, group);
    } else {
      assert group in p.managed;
      assert s.OwnPaused(group) ==> group in OwnPausedSet(p, s);
      assert group in RunningSet(p, s);
      ShutStep(p, s, reading);
      FirstIsFirst(p.closeOrder, RunningSet(p, s));
    }
  }

  /** Resuming one group leaves every contested group running or paused by this controller. */
  lemma ResumedIsRunning(p: Policy, s: Control, t: Control, resumed: string, group: string)
    requires t.groups == s.groups[resumed := Running]
    requires group in p.closeOrder && group in p.managed && (s.Is(group, Running) || s.OwnPaused(group))
    requires resumed in OwnPausedSet(p, s) && OwnPausedSet(p, t) == OwnPausedSet(p, s) - {resumed}
    ensures Contested(p, t)
  {
    if group == resumed || s.Is(group, Running) {
      assert t.Is(group, Running);
    } else {
      assert group in OwnPausedSet(p, t);
    }
  }

  lemma {:induction false} BothKeepGoing(p: Policy, s: Control, reading: Reading, n: nat)
    requires p.Valid()
    requires reading.OverThreshold() && reading.CanReopen() && Contested(p, s)
    ensures Tick(p, Passes(p, s, reading, n), reading, true, Done).1 != Idle
    decreases n
  {
    BothKeepContested(p, s, reading);
    if n > 0 {
      BothKeepGoing(p, Tick(p, s, reading, true, Done).0, reading, n - 1);
    }
  }

  lemma {:induction false} DrainKeepsUncontested(p: Policy, s: Control, reading: Reading, n: nat)
    requires p.Valid()
    requires reading.CanReopen() && !Contested(p, s)
    ensures RunningSet(p, Passes(p, s, reading, n)) == {}
    decreases n
  {
    if n == 0 {
    } else {
      var (t, decision) := Tick(p, s, reading, true, Done);
      OneChangePerPass(p, s, reading, true, Done);
      FirstIsFirst(p.closeOrder, RunningSet(p, Release(s)));
      assert forall group :: group in p.closeOrder ==> !s.Is(group, Running) && !s.OwnPaused(group);
      DrainKeepsUncontested(p, t, reading, n - 1);
    }
  }

  /** At one unchanging reading the passes come to rest, except in one case: the slow average asks to
      close while the fast one allows to reopen, and a group of the closing order is running or paused
      by this controller. Then every pass changes a group, for ever. */
  lemma SettlesExactly(p: Policy, s: Control, reading: Reading)
    requires p.Valid()
    ensures Settles(p, s, reading) <==> !(reading.OverThreshold() && reading.CanReopen() && Contested(p, s))
  {
    if reading.OverThreshold() && reading.CanReopen() && Contested(p, s) {
      forall n: nat ensures !RestsFrom(p, s, reading, n) {
        BothKeepGoing(p, s, reading, n);
      }
    } else {
      var n := if reading.CanReopen() then |Ordered(p.managed, OwnPausedSet(p, s))|
               else if reading.OverThreshold() then |Ordered(p.closeOrder, RunningSet(p, s))| else 0;
      var t := Passes(p, s, reading, n);
      if reading.CanReopen() {
        QuietDrains(p, s, reading);
        if reading.OverThreshold() {
          DrainKeepsUncontested(p, s, reading, n);
        }
      } else if reading.OverThreshold() {
        SustainedCloses(p, s, reading);
      }
      FirstIsFirst(p.managed, OwnPausedSet(p, Release(t)));
      FirstIsFirst(p.closeOrder, RunningSet(p, Release(t)));
      assert OwnPausedSet(p, Release(t)) == OwnPausedSet(p, t);
      assert RunningSet(p, Release(t)) == RunningSet(p, t);
      forall m: nat | m >= n
        ensures Tick(p, Passes(p, s, reading, m), reading, true, Done).1 == Idle
        ensures Passes(p, s, reading, m).groups == t.groups
      {
        IdleRests(p, s, reading, n, m);
      }
      assert RestsFrom(p, s, reading, n);
    }
  }

  /** The restless case occurs: pressure has just fallen, and one group is running. */
  lemma RestlessReading()
    ensures !Settles(DECLARED, Control(map["normal" := Running], map[]), Reading(Some(3.0), Some(30.0)))
  {
    var s := Control(map["normal" := Running], map[]);
    DeclaredIsValid();
    assert DECLARED.closeOrder[2] == "normal" && s.Is("normal", Running);
    SettlesExactly(DECLARED, s, Reading(Some(3.0), Some(30.0)));
  }

  // ------------------------------------------------- every sequence of passes

  datatype Visit = Visit(reading: Reading, statusOk: bool, answer: Answer)

  /** Passes at changing readings, answered in any way. */
  function Visits(p: Policy, s: Control, visits: seq<Visit>): Control
    decreases |visits|
  {
    if visits == [] then s
    else Visits(p, Tick(p, s, visits[0].reading, visits[0].statusOk, visits[0].answer).0, visits[1..])
  }

  /** Some passes leave the group running. */
  ghost predicate MayReopen(p: Policy, s: Control, group: string) {
    exists visits :: Visits(p, s, visits).Is(group, Running)
  }

  lemma {:induction false} ForeignStays(p: Policy, s: Control, visits: seq<Visit>, group: string)
    requires s.Is(group, Paused) && !(group in p.managed && s.OwnPaused(group))
    ensures Visits(p, s, visits).Is(group, Paused)
    decreases |visits|
  {
    if visits != [] {
      var v := visits[0];
      var t := Tick(p, s, v.reading, v.statusOk, v.answer).0;
      FirstIsFirst(p.managed, OwnPausedSet(p, Release(s)));
      FirstIsFirst(p.closeOrder, RunningSet(p, Release(s)));
      ForeignStays(p, t, visits[1..], group);
    }
  }

  const QUIET := Visit(Reading(Some(0.0), Some(0.0)), true, Done)

  lemma {:induction false} OwnReopens(p: Policy, s: Control, group: string)
    requires p.Valid() && group in OwnPausedSet(p, s)
    ensures MayReopen(p, s, group)
    decreases |OwnPausedSet(p, s)|
  {
    ResumeStep(p, s, QUIET.reading);
    var (t, decision) := Tick(p, s, QUIET.reading, true, Done);
    if decision.group == group {
      LeadsVisit(p, s, QUIET, [], group);
    } else {
      assert group in OwnPausedSet(p, t);
      OwnReopens(p, t, group);
      var visits :| Visits(p, t, visits).Is(group, Running);
      LeadsVisit(p, s, QUIET, visits, group);
    }
  }

  lemma LeadsVisit(p: Policy, s: Control, v: Visit, visits: seq<Visit>, group: string)
    requires Visits(p, Tick(p, s, v.reading, v.statusOk, v.answer).0, visits).Is(group, Running)
    ensures MayReopen(p, s, group)
  {
    assert ([v] + visits)[1..] == visits;
    assert Visits(p, s, [v] + visits).Is(group, Running);
  }

  /** A paused group is ever reopened by this controller, at whatever readings, if and only if it is
      managed and its last effective record is an own close. */
  lemma ReopensIffOwn(p: Policy, s: Control, group: string)
    requires p.Valid() && s.Is(group, Paused)
    ensures MayReopen(p, s, group) <==> group in p.managed && s.OwnPaused(group)
  {
    if group in p.managed && s.OwnPaused(group) {
      OwnReopens(p, s, group);
    } else {
      forall visits ensures !Visits(p, s, visits).Is(group, Running) {
        ForeignStays(p, s, visits, group);
      }
    }
  }

  /** A pause that was carried out and answered by an error leaves the group paused without an own
      record: no later pass at any reading reopens it. A lost resume is only recorded a pass later. */
  lemma LostAnswer(p: Policy, s: Control, reading: Reading)
    requires p.Valid() && Decide(p, Release(s), reading) != Idle
    ensures var decision, t := Decide(p, Release(s), reading), Tick(p, s, reading, true, Lost).0;
            && (decision.Shut? ==> t.Is(decision.group, Paused) && !MayReopen(p, t, decision.group))
            && (decision.Resumed? ==>
                  t.Is(decision.group, Running) && Release(t) == Tick(p, s, reading, true, Done).0)
  {
    var decision, t := Decide(p, Release(s), reading), Tick(p, s, reading, true, Lost).0;
    FirstIsFirst(p.managed, OwnPausedSet(p, Release(s)));
    FirstIsFirst(p.closeOrder, RunningSet(p, Release(s)));
    if decision.Shut? {
      ReopensIffOwn(p, t, decision.group);
    }
  }

  /** A running group that one lost answer closes for good. */
  lemma LostPauseHappens()
    ensures var s, hard := Control(map["normal" := Running], map[]), Reading(Some(30.0), Some(30.0));
            var t := Tick(DECLARED, s, hard, true, Lost).0;
            t.Is("normal", Paused) && !MayReopen(DECLARED, t, "normal")
  {
    var s, hard := Control(map["normal" := Running], map[]), Reading(Some(30.0), Some(30.0));
    DeclaredIsValid();
    assert DECLARED.closeOrder[2] == "normal" && "normal" in RunningSet(DECLARED, s);
    ShutStep(DECLARED, s, hard);
    assert Release(s) == s;
    FirstIsFirst(DECLARED.closeOrder, RunningSet(DECLARED, s));
    LostAnswer(DECLARED, s, hard);
  }

  /** With a projection replayed from the log, a group that a pass resumes has an own close as its last
      effective record, or none since the log began and an own close retained from before. */
  lemma ResumesOnlyOwnCloses(p: Policy, log: Log, base: Pauses, records: seq<seq<Lines.Byte>>,
                             groups: map<string, Status>, reading: Reading, statusOk: bool, answer: Answer,
                             group: string)
    requires group in groups && groups[group] == Paused
    requires Tick(p, Control(groups, log.Fold(base, records)), reading, statusOk, answer).0.Is(group, Running)
    ensures match log.LastEffect(records, group)
            case None => group in Ours(base)
            case Some(effect) => effect.Some? && effect.value.owner == Some(OWNER)
  {
    OneChangePerPass(p, Control(groups, log.Fold(base, records)), reading, statusOk, answer);
    log.FoldIsLastEffective(base, records, group);
  }
}
