/** Cross-pool admission: holds, their release and retries, over a queue whose acknowledgements may be lost. */
module Admission {
  import opened Wrappers

  type Pool = string

  /** For each declared pool, the pools it declares itself exclusive with. */
  type Policy = map<Pool, set<Pool>>

  datatype Status = Queued | Running | Stashed | Done

  datatype Task = Task(job: nat, group: Pool, status: Status)

  type Tasks = map<nat, Task>

  datatype Hold = Hold(pool: Pool, waitingFor: set<nat>)

  /** A launch input: the pool it was submitted to and the hold it waits under. */
  datatype Doc = Doc(pool: Pool, hold: Option<Hold>)

  // ------------------------------------------------------------- pools

  function Partners(policy: Policy, pool: Pool): set<Pool> {
    ((if pool in policy then policy[pool] else {}) + (set name | name in policy && pool in policy[name])) - {pool}
  }

  lemma PartnersAreMutual(policy: Policy, a: Pool, b: Pool)
    ensures a in Partners(policy, b) <==> b in Partners(policy, a)
  {}

  /** Two different pools of which one declares itself exclusive with the other. */
  predicate Declared(policy: Policy, a: Pool, b: Pool) {
    a != b && ((a in policy && b in policy[a]) || (b in policy && a in policy[b]))
  }

  /** The partners are the pools with which a declaration on either side excludes it. */
  lemma PartnersAreDeclared(policy: Policy, a: Pool, b: Pool)
    ensures b in Partners(policy, a) <==> Declared(policy, a, b)
  {}

  predicate Unfinished(tasks: Tasks, id: nat) {
    id in tasks && tasks[id].status != Done
  }

  predicate Admitted(tasks: Tasks, id: nat) {
    Unfinished(tasks, id) && tasks[id].status != Stashed
  }

  predicate Exclude(policy: Policy, tasks: Tasks, a: nat, b: nat)
    requires a in tasks && b in tasks
  {
    tasks[b].group in Partners(policy, tasks[a].group)
  }

  /** The unfinished partner tasks that come before an admission: for a release, a held task with a
      greater number does not. */
  function Blocking(policy: Policy, pool: Pool, tasks: Tasks, releasing: Option<nat>, held: set<nat>): set<nat> {
    set id | id in tasks && tasks[id].group in Partners(policy, pool) && tasks[id].status != Done
             && !(id in held && releasing.Some? && id > releasing.value)
  }

  // ---------------------------------------------------------- the machine

  /** Who holds the admission lock, and how far it has come. */
  datatype Holder =
    | Free
    | Adding(job: nat, group: Pool, hold: Option<Hold>)
    | Releasing(snapshot: Tasks, held: map<nat, Hold>, todo: set<nat>, released: set<nat>)
    | Consuming(id: nat, rest: Holder)
    | Restarting(id: nat, hold: Option<Hold>)
    | Holding(id: nat, due: Hold)

  datatype State = State(tasks: Tasks, docs: map<nat, Doc>, nextId: nat, nextJob: nat, holder: Holder)

  /** A request to the queue fails with or without having been carried out. */
  datatype Reply = Acknowledged | Failed(applied: bool)

  datatype Action =
    // what the queue does by itself
    | Start(id: nat) | Finish(ids: set<nat>) | Remove(id: nat) | Reset
    // a launch
    | BeginEnqueue(group: Pool, launcher: Option<Pool>) | Add(reply: Reply) | RefuseGroup
    // a release
    | BeginRelease | ReleaseNext(reply: Reply) | Consume | EndRelease
    // a retry
    | BeginRetry(id: nat, launcher: Option<Pool>) | Restart(reply: Reply) | WriteHold
    // the holder of the lock dies or gives up
    | Drop

  const INITIAL := State(map[], map[], 1, 0, Free)

  /** The hold a task of this pool must wait under, if any. */
  function AdmissionHold(policy: Policy, pool: Pool, tasks: Tasks): Option<Hold> {
    var blocking := Blocking(policy, pool, tasks, None, {});
    if blocking == {} then None else Some(Hold(pool, blocking))
  }

  function HoldOf(s: State, id: nat): Option<Hold> {
    if id in s.tasks && s.tasks[id].status == Stashed && s.tasks[id].job in s.docs then
      var doc, group := s.docs[s.tasks[id].job], s.tasks[id].group;
      if doc.hold.Some? && doc.hold.value.pool == group && doc.pool == group then doc.hold else None
    else None
  }

  /** A hold counts for a stashed task alone, and only one that its own launch input carries for its own pool. */
  lemma HoldIsOwn(s: State, id: nat, hold: Hold)
    ensures HoldOf(s, id) == Some(hold) <==>
      && id in s.tasks && s.tasks[id].status.Stashed? && s.tasks[id].job in s.docs
      && s.docs[s.tasks[id].job] == Doc(s.tasks[id].group, Some(hold)) && hold.pool == s.tasks[id].group
  {}

  function Held(s: State): set<nat> {
    set id | id in s.tasks && HoldOf(s, id).Some?
  }

  function Live(tasks: Tasks): Tasks {
    map id | id in tasks && tasks[id].status != Done :: tasks[id]
  }

  function Holds(s: State): map<nat, Hold> {
    map id | id in s.tasks && HoldOf(s, id).Some? :: HoldOf(s, id).value
  }

  ghost predicate IsLeast(ids: set<nat>, id: nat) {
    id in ids && forall other :: other in ids ==> id <= other
  }

  lemma {:induction false} LeastExists(ids: set<nat>)
    requires ids != {}
    ensures exists id :: IsLeast(ids, id)
  {
    var one :| one in ids;
    var rest := ids - {one};
    assert forall other :: other in ids ==> other == one || other in rest;
    if rest == {} {
      assert IsLeast(ids, one);
    } else {
      LeastExists(rest);
      var low :| IsLeast(rest, low);
      assert IsLeast(ids, if one <= low then one else low);
    }
  }

  function Least(ids: set<nat>): (id: nat)
    requires ids != {}
    ensures id in ids && forall other :: other in ids ==> id <= other
  {
    LeastExists(ids);
    var id :| id in ids && forall other :: other in ids ==> id <= other;
    id
  }

  function With(s: State, id: nat, status: Status): State
    requires id in s.tasks
  {
    s.(tasks := s.tasks[id := s.tasks[id].(status := status)])
  }

  function QueueStep(s: State, action: Action): State {
    match action
    case Start(id) => if id in s.tasks && s.tasks[id].status == Queued then With(s, id, Running) else s
    case Finish(ids) =>
      s.(tasks := map id | id in s.tasks :: if id in ids then s.tasks[id].(status := Done) else s.tasks[id])
    case Remove(id) => s.(tasks := s.tasks - {id})
    case Reset => s.(tasks := map[], nextId := 1)
    case _ => s
  }

  /** The launch input is written before the task is added, with the hold that the task is added under. */
  function EnqueueStep(policy: Policy, s: State, action: Action): State {
    match (action, s.holder)
    case (BeginEnqueue(group, launcher), Free) =>
      if launcher.Some? && launcher.value in Partners(policy, group) then s
      else
        var hold := AdmissionHold(policy, group, s.tasks);
        s.(docs := s.docs[s.nextJob := Doc(group, hold)], nextJob := s.nextJob + 1,
           holder := Adding(s.nextJob, group, hold))
    case (Add(reply), Adding(job, group, hold)) =>
      if reply == Failed(false) then s.(holder := Free)
      else
        var task := Task(job, group, if hold.Some? then Stashed else Queued);
        s.(tasks := s.tasks[s.nextId := task], nextId := s.nextId + 1, holder := Free)
    case (RefuseGroup, Adding(job, _, _)) => s.(docs := s.docs - {job}, holder := Free)
    case _ => s
  }

  function ReleaseStep(policy: Policy, s: State, action: Action): State {
    match (action, s.holder)
    case (BeginRelease, Free) =>
      s.(holder := Releasing(Live(s.tasks), Holds(s), Holds(s).Keys, {}))
    case (ReleaseNext(reply), Releasing(snapshot, held, todo, released)) =>
      if todo == {} then s
      else
        var id := Least(todo);
        var rest := Releasing(snapshot, held, todo - {id}, released + {id});
        if id in snapshot && Blocking(policy, snapshot[id].group, snapshot, Some(id), held.Keys) != {} then
          s.(holder := rest.(released := released))
        else if id !in s.tasks || reply == Failed(false) then s.(holder := Free)
        else
          var t := if s.tasks[id].status == Stashed then With(s, id, Queued) else s;
          t.(holder := if reply == Acknowledged then Consuming(id, rest) else Free)
    case (Consume, Consuming(id, rest)) =>
      if !rest.Releasing? || id !in rest.snapshot || id !in rest.held then s.(holder := Free)
      else
        var job, group := rest.snapshot[id].job, rest.snapshot[id].group;
        if job in s.docs && s.docs[job] == Doc(group, Some(rest.held[id])) then
          s.(docs := s.docs[job := Doc(group, None)], holder := rest)
        else s.(holder := rest)
    case (EndRelease, Releasing(_, _, todo, _)) => if todo == {} then s.(holder := Free) else s
    case _ => s
  }

  /** The task restarts stashed before its hold is written. */
  function RetryStep(policy: Policy, s: State, action: Action): State {
    match (action, s.holder)
    case (BeginRetry(id, launcher), Free) =>
      if id !in s.tasks || s.tasks[id].status != Done then s
      else if launcher.Some? && launcher.value in Partners(policy, s.tasks[id].group) then s
      else
        var hold := AdmissionHold(policy, s.tasks[id].group, s.tasks);
        if hold.Some? && s.tasks[id].job !in s.docs then s else s.(holder := Restarting(id, hold))
    case (Restart(reply), Restarting(id, hold)) =>
      if id !in s.tasks || reply == Failed(false) then s.(holder := Free)
      else
        var t := if s.tasks[id].status == Done then With(s, id, if hold.Some? then Stashed else Queued) else s;
        t.(holder := if reply == Acknowledged && hold.Some? then Holding(id, hold.value) else Free)
    case (WriteHold, Holding(id, hold)) =>
      if id in s.tasks && s.tasks[id].job in s.docs then
        var job := s.tasks[id].job;
        s.(docs := s.docs[job := s.docs[job].(hold := Some(hold))], holder := Free)
      else s.(holder := Free)
    case _ => s
  }

  function Step(policy: Policy, s: State, action: Action): State {
    match action
    case Start(_) | Finish(_) | Remove(_) | Reset => QueueStep(s, action)
    case BeginEnqueue(_, _) | Add(_) | RefuseGroup => EnqueueStep(policy, s, action)
    case BeginRelease | ReleaseNext(_) | Consume | EndRelease => ReleaseStep(policy, s, action)
    case BeginRetry(_, _) | Restart(_) | WriteHold => RetryStep(policy, s, action)
    case Drop => s.(holder := Free)
  }

  function Run(policy: Policy, s: State, actions: seq<Action>): State
    decreases |actions|
  {
    if actions == [] then s else Run(policy, Step(policy, s, actions[0]), actions[1..])
  }

  // ------------------------------------------------------- exclusion

  /** No two admitted unfinished tasks are in mutually exclusive pools. */
  ghost predicate Exclusion(policy: Policy, tasks: Tasks) {
    forall a, b :: Admitted(tasks, a) && Admitted(tasks, b) ==> !Exclude(policy, tasks, a, b)
  }

  /** A task of this pool may be admitted now. */
  ghost predicate Clear(policy: Policy, tasks: Tasks, pool: Pool) {
    forall id :: Unfinished(tasks, id) ==> tasks[id].group !in Partners(policy, pool)
  }

  /** While a release runs: every unfinished task is in its snapshot, and what is still to be examined
      is not admitted. */
  ghost predicate ReleaseInv(policy: Policy, s: State, pass: Holder) {
    && pass.Releasing?
    && (forall id :: Unfinished(s.tasks, id) ==> id in pass.snapshot && pass.snapshot[id].group == s.tasks[id].group)
    && (forall id :: id in pass.snapshot ==> pass.snapshot[id].status != Done)
    && pass.todo <= pass.held.Keys <= pass.snapshot.Keys
    && (forall id :: id in pass.todo ==> !Admitted(s.tasks, id))
    && pass.released <= pass.held.Keys && pass.todo !! pass.released
    && (forall id :: id in pass.held && id !in pass.todo && id !in pass.released ==> !Admitted(s.tasks, id))
    && (forall a, b :: a in pass.released && b in pass.todo ==> a < b)
    && (forall a, b :: a in pass.released && b in pass.released ==> !Exclude(policy, pass.snapshot, a, b))
  }

  ghost predicate HolderInv(policy: Policy, s: State) {
    match s.holder
    case Free => true
    case Adding(job, group, hold) => hold == None ==> Clear(policy, s.tasks, group)
    case Releasing(_, _, _, _) => ReleaseInv(policy, s, s.holder)
    case Consuming(id, rest) => ReleaseInv(policy, s, rest) && id in rest.released
    case Restarting(id, hold) => hold == None && id in s.tasks ==> Clear(policy, s.tasks, s.tasks[id].group)
    case Holding(_, _) => true
  }

  ghost predicate Inv(policy: Policy, s: State) {
    && (forall id :: id in s.tasks ==> id < s.nextId)
    && Exclusion(policy, s.tasks)
    && HolderInv(policy, s)
  }

  /** Nothing becomes unfinished or admitted from `before` to `after`. */
  ghost predicate Shrinks(before: Tasks, after: Tasks) {
    forall id :: Unfinished(after, id) ==>
      && Unfinished(before, id) && after[id].group == before[id].group
      && (Admitted(after, id) ==> Admitted(before, id))
  }

  lemma ShrinkKeepsExclusion(policy: Policy, before: Tasks, after: Tasks)
    requires Exclusion(policy, before) && Shrinks(before, after)
    ensures Exclusion(policy, after)
  {
    forall a, b | Admitted(after, a) && Admitted(after, b) ensures !Exclude(policy, after, a, b) {
      assert !Exclude(policy, before, a, b);
    }
  }

  lemma ShrinkKeepsClear(policy: Policy, before: Tasks, after: Tasks, pool: Pool)
    requires Clear(policy, before, pool) && Shrinks(before, after)
    ensures Clear(policy, after, pool)
  {
    forall id | Unfinished(after, id) ensures after[id].group !in Partners(policy, pool) {
      assert before[id].group !in Partners(policy, pool);
    }
  }

  lemma ShrinkKeepsRelease(policy: Policy, s: State, t: State, pass: Holder)
    requires ReleaseInv(policy, s, pass) && Shrinks(s.tasks, t.tasks)
    ensures ReleaseInv(policy, t, pass)
  {}

  lemma QueueShrinks(s: State, action: Action)
    ensures Shrinks(s.tasks, QueueStep(s, action).tasks)
    ensures forall id :: id in QueueStep(s, action).tasks ==>
              id in s.tasks && QueueStep(s, action).tasks[id].group == s.tasks[id].group
  {}

  lemma QueueKeepsInv(policy: Policy, s: State, action: Action)
    requires Inv(policy, s)
    ensures Inv(policy, QueueStep(s, action))
  {
    var t := QueueStep(s, action);
    QueueShrinks(s, action);
    ShrinkKeepsExclusion(policy, s.tasks, t.tasks);
    match s.holder
    case Adding(_, group, hold) => if hold == None { ShrinkKeepsClear(policy, s.tasks, t.tasks, group); }
    case Restarting(id, hold) =>
      if hold == None && id in t.tasks { ShrinkKeepsClear(policy, s.tasks, t.tasks, s.tasks[id].group); }
    case Releasing(_, _, _, _) => ShrinkKeepsRelease(policy, s, t, s.holder);
    case Consuming(_, rest) => ShrinkKeepsRelease(policy, s, t, rest);
    case _ =>
  }

  lemma NoBlockingIsClear(policy: Policy, pool: Pool, tasks: Tasks)
    requires Blocking(policy, pool, tasks, None, {}) == {}
    ensures Clear(policy, tasks, pool)
  {
    forall id | Unfinished(tasks, id) ensures tasks[id].group !in Partners(policy, pool) {
      assert id !in Blocking(policy, pool, tasks, None, {});
    }
  }

  /** No admitted task other than `id` is in a partner pool of `pool`. */
  ghost predicate Admissible(policy: Policy, tasks: Tasks, id: nat, pool: Pool) {
    forall other :: other != id && Admitted(tasks, other) ==> tasks[other].group !in Partners(policy, pool)
  }

  lemma AdmitKeepsExclusion(policy: Policy, tasks: Tasks, id: nat, task: Task)
    requires Exclusion(policy, tasks) && Admissible(policy, tasks, id, task.group)
    ensures Exclusion(policy, tasks[id := task])
  {
    var after := tasks[id := task];
    forall a, b | Admitted(after, a) && Admitted(after, b) ensures !Exclude(policy, after, a, b) {
      if a != id && b != id {
        assert !Exclude(policy, tasks, a, b);
      } else if b == id && a != id {
        PartnersAreMutual(policy, task.group, after[a].group);
      }
    }
  }

  lemma EnqueueKeepsInv(policy: Policy, s: State, action: Action)
    requires Inv(policy, s)
    ensures Inv(policy, EnqueueStep(policy, s, action))
  {
    if action.BeginEnqueue? {
      if Blocking(policy, action.group, s.tasks, None, {}) == {} {
        NoBlockingIsClear(policy, action.group, s.tasks);
      }
    } else if action.Add? && s.holder.Adding? {
      var task := Task(s.holder.job, s.holder.group, if s.holder.hold.Some? then Stashed else Queued);
      if s.holder.hold == None {
        AdmitKeepsExclusion(policy, s.tasks, s.nextId, task);
      } else {
        StashKeepsExclusion(policy, s.tasks, s.nextId, task);
      }
    }
  }

  lemma StashKeepsExclusion(policy: Policy, tasks: Tasks, id: nat, task: Task)
    requires Exclusion(policy, tasks) && task.status == Stashed
    ensures Exclusion(policy, tasks[id := task])
  {
    var after := tasks[id := task];
    forall a, b | Admitted(after, a) && Admitted(after, b) ensures !Exclude(policy, after, a, b) {
      assert !Exclude(policy, tasks, a, b);
    }
  }

  lemma RetryKeepsInv(policy: Policy, s: State, action: Action)
    requires Inv(policy, s)
    ensures Inv(policy, RetryStep(policy, s, action))
  {
    if action.BeginRetry? && action.id in s.tasks {
      var group := s.tasks[action.id].group;
      if Blocking(policy, group, s.tasks, None, {}) == {} {
        NoBlockingIsClear(policy, group, s.tasks);
      }
    } else if action.Restart? && s.holder.Restarting? && s.holder.id in s.tasks {
      var id := s.holder.id;
      var task := s.tasks[id].(status := if s.holder.hold.Some? then Stashed else Queued);
      if s.holder.hold == None {
        AdmitKeepsExclusion(policy, s.tasks, id, task);
      } else {
        StashKeepsExclusion(policy, s.tasks, id, task);
      }
    }
  }

  /** Nothing that the pass has read blocks this task. */
  predicate Unblocked(policy: Policy, pass: Holder, id: nat)
    requires pass.Releasing? && id in pass.snapshot
  {
    Blocking(policy, pass.snapshot[id].group, pass.snapshot, Some(id), pass.held.Keys) == {}
  }

  /** What a release finds unblocked may be admitted, and excludes nothing released before it in the pass. */
  lemma UnblockedIsAdmissible(policy: Policy, s: State, pass: Holder, id: nat)
    requires ReleaseInv(policy, s, pass) && id in pass.todo
    requires forall other :: other in pass.todo ==> id <= other
    requires Unblocked(policy, pass, id)
    ensures Admissible(policy, s.tasks, id, pass.snapshot[id].group)
    ensures forall other :: other in pass.released ==>
      !Exclude(policy, pass.snapshot, id, other) && !Exclude(policy, pass.snapshot, other, id)
  {
    var pool := pass.snapshot[id].group;
    forall other | other in pass.snapshot && pass.snapshot[other].group in Partners(policy, pool)
      ensures other in pass.held && other > id
    {
      assert other !in Blocking(policy, pool, pass.snapshot, Some(id), pass.held.Keys);
    }
    forall other | other in pass.released
      ensures !Exclude(policy, pass.snapshot, id, other) && !Exclude(policy, pass.snapshot, other, id)
    {
      PartnersAreMutual(policy, pool, pass.snapshot[other].group);
    }
  }

  lemma ReleaseKeepsInv(policy: Policy, s: State, action: Action)
    requires Inv(policy, s)
    ensures Inv(policy, ReleaseStep(policy, s, action))
  {
    if action.ReleaseNext? && s.holder.Releasing? && s.holder.todo != {} {
      ReleaseNextKeepsInv(policy, s, action.reply);
    }
  }

  lemma ReleaseNextKeepsInv(policy: Policy, s: State, reply: Reply)
    requires Inv(policy, s) && s.holder.Releasing? && s.holder.todo != {}
    ensures Inv(policy, ReleaseStep(policy, s, ReleaseNext(reply)))
  {
    var pass := s.holder;
    var id := Least(pass.todo);
    if Unblocked(policy, pass, id) {
      ReleasingKeepsInv(policy, s, id);
    } else {
      WaitingKeepsPass(policy, s, pass, id);
    }
  }

  lemma ReleasingKeepsInv(policy: Policy, s: State, id: nat)
    requires Inv(policy, s) && s.holder.Releasing? && id in s.holder.todo &&
             forall other :: other in s.holder.todo ==> id <= other
    requires Unblocked(policy, s.holder, id)
    ensures var rest := s.holder.(todo := s.holder.todo - {id}, released := s.holder.released + {id});
            var t := if id in s.tasks && s.tasks[id].status == Stashed then With(s, id, Queued) else s;
            Exclusion(policy, t.tasks) && ReleaseInv(policy, t, rest)
  {
    UnblockedIsAdmissible(policy, s, s.holder, id);
    if id in s.tasks && s.tasks[id].status == Stashed {
      QueuedKeepsInv(policy, s, id);
    } else {
      ReleasedKeepsPass(policy, s, s, s.holder, id);
    }
  }

  lemma WaitingKeepsPass(policy: Policy, s: State, pass: Holder, id: nat)
    requires ReleaseInv(policy, s, pass) && id in pass.todo
    ensures ReleaseInv(policy, s, pass.(todo := pass.todo - {id}))
  {}

  lemma QueuedKeepsInv(policy: Policy, s: State, id: nat)
    requires Inv(policy, s) && s.holder.Releasing? && id in s.holder.todo &&
             forall other :: other in s.holder.todo ==> id <= other
    requires Admissible(policy, s.tasks, id, s.holder.snapshot[id].group)
    requires forall other :: other in s.holder.released ==>
      !Exclude(policy, s.holder.snapshot, id, other) && !Exclude(policy, s.holder.snapshot, other, id)
    requires id in s.tasks && s.tasks[id].status == Stashed
    ensures Exclusion(policy, With(s, id, Queued).tasks)
    ensures ReleaseInv(policy, With(s, id, Queued),
                          s.holder.(todo := s.holder.todo - {id}, released := s.holder.released + {id}))
  {
    assert Unfinished(s.tasks, id);
    AdmitKeepsExclusion(policy, s.tasks, id, s.tasks[id].(status := Queued));
    ReleasedKeepsPass(policy, s, With(s, id, Queued), s.holder, id);
  }

  lemma ReleasedKeepsPass(policy: Policy, s: State, t: State, pass: Holder, id: nat)
    requires ReleaseInv(policy, s, pass) && id in pass.todo && forall other :: other in pass.todo ==> id <= other
    requires forall other :: other in pass.released ==>
      !Exclude(policy, pass.snapshot, id, other) && !Exclude(policy, pass.snapshot, other, id)
    requires t.tasks == s.tasks || (id in s.tasks && s.tasks[id].status == Stashed && t == With(s, id, Queued))
    ensures ReleaseInv(policy, t, pass.(todo := pass.todo - {id}, released := pass.released + {id}))
  {}

  lemma StepKeepsInv(policy: Policy, s: State, action: Action)
    requires Inv(policy, s)
    ensures Inv(policy, Step(policy, s, action))
  {
    match action
    case Start(_) | Finish(_) | Remove(_) | Reset => QueueKeepsInv(policy, s, action);
    case BeginEnqueue(_, _) | Add(_) | RefuseGroup => EnqueueKeepsInv(policy, s, action);
    case BeginRelease | ReleaseNext(_) | Consume | EndRelease => ReleaseKeepsInv(policy, s, action);
    case BeginRetry(_, _) | Restart(_) | WriteHold => RetryKeepsInv(policy, s, action);
    case Drop =>
  }

  lemma {:induction false} RunKeepsInv(policy: Policy, s: State, actions: seq<Action>)
    requires Inv(policy, s)
    ensures Inv(policy, Run(policy, s, actions))
    decreases |actions|
  {
    if actions != [] {
      StepKeepsInv(policy, s, actions[0]);
      RunKeepsInv(policy, Step(policy, s, actions[0]), actions[1..]);
    }
  }

  /** Queued or running. */
  predicate Occupies(task: Task) {
    task.status.Queued? || task.status.Running?
  }

  /** In every run of launches, releases, retries and the queue's own steps, whatever is lost or dies,
      no two queued or running tasks are in pools that a declaration of either excludes. */
  lemma ExclusionAlways(policy: Policy, actions: seq<Action>)
    ensures var tasks := Run(policy, INITIAL, actions).tasks;
            forall a, b :: a in tasks && b in tasks && Occupies(tasks[a]) && Occupies(tasks[b]) ==>
              !Declared(policy, tasks[a].group, tasks[b].group)
  {
    RunKeepsInv(policy, INITIAL, actions);
    var tasks := Run(policy, INITIAL, actions).tasks;
    forall a, b | a in tasks && b in tasks && Occupies(tasks[a]) && Occupies(tasks[b])
      ensures !Declared(policy, tasks[a].group, tasks[b].group)
    {
      assert Admitted(tasks, a) && Admitted(tasks, b) && !Exclude(policy, tasks, a, b);
      PartnersAreDeclared(policy, tasks[a].group, tasks[b].group);
    }
  }

  /** These are the unfinished tasks of the pools that a declaration excludes from this one. */
  ghost predicate AreExcluding(policy: Policy, pool: Pool, tasks: Tasks, ids: set<nat>) {
    forall id :: id in ids <==>
      id in tasks && (Occupies(tasks[id]) || tasks[id].status.Stashed?) && Declared(policy, pool, tasks[id].group)
  }

  /** A launch is held exactly when there is such a task, and waits for all of them. */
  lemma HoldIffExcluded(policy: Policy, pool: Pool, tasks: Tasks)
    ensures match AdmissionHold(policy, pool, tasks)
            case None => AreExcluding(policy, pool, tasks, {})
            case Some(hold) =>
              hold.pool == pool && hold.waitingFor != {} && AreExcluding(policy, pool, tasks, hold.waitingFor)
  {
    var blocking := Blocking(policy, pool, tasks, None, {});
    forall id | id in tasks
      ensures tasks[id].group in Partners(policy, pool) <==> Declared(policy, pool, tasks[id].group)
    {
      PartnersAreDeclared(policy, pool, tasks[id].group);
    }
    assert AreExcluding(policy, pool, tasks, blocking);
  }

  // ------------------------------------------------------- undisturbed sections

  /** The queue starts only queued tasks, finishes tasks of any status, and forgets removed tasks and, when it is
      reset, all of them and its numbering; no launch input changes. */
  lemma QueueIs(s: State, id: nat, ids: set<nat>)
    ensures id in s.tasks && s.tasks[id].status == Queued ==>
              QueueStep(s, Start(id)) == s.(tasks := s.tasks[id := Task(s.tasks[id].job, s.tasks[id].group, Running)])
    ensures id !in s.tasks || s.tasks[id].status != Queued ==> QueueStep(s, Start(id)) == s
    ensures QueueStep(s, Finish(ids)) == s.(tasks := QueueStep(s, Finish(ids)).tasks)
    ensures QueueStep(s, Finish(ids)).tasks.Keys == s.tasks.Keys
    ensures id in s.tasks ==>
              QueueStep(s, Finish(ids)).tasks[id]
              == if id in ids then Task(s.tasks[id].job, s.tasks[id].group, Done) else s.tasks[id]
    ensures QueueStep(s, Remove(id)) == s.(tasks := s.tasks - {id})
    ensures QueueStep(s, Reset) == s.(tasks := map[], nextId := 1)
  {}

  /** A launch whose launcher is excluded is refused before anything is written. Any other writes its input with its
      hold and adds the task, stashed exactly if it is held, unless the request was not carried out; an unknown
      group takes the input away again. */
  lemma LaunchEnds(policy: Policy, s: State, group: Pool, launcher: Option<Pool>, reply: Reply)
    requires s.holder == Free && s.nextJob !in s.docs
    ensures var b, hold := Step(policy, s, BeginEnqueue(group, launcher)), AdmissionHold(policy, group, s.tasks);
            if launcher.Some? && Declared(policy, group, launcher.value) then b == s
            else
              var t := s.(docs := s.docs[s.nextJob := Doc(group, hold)], nextJob := s.nextJob + 1);
              && Step(policy, b, RefuseGroup) == s.(nextJob := s.nextJob + 1)
              && Step(policy, b, Add(reply)) ==
                   if reply == Failed(false) then t
                   else
                     var task := Task(s.nextJob, group, if hold == None then Queued else Stashed);
                     t.(tasks := s.tasks[s.nextId := task], nextId := s.nextId + 1)
  {
    if launcher.Some? {
      PartnersAreDeclared(policy, group, launcher.value);
    }
    assert s.docs[s.nextJob := Doc(group, AdmissionHold(policy, group, s.tasks))] - {s.nextJob} == s.docs;
  }

  /** A terminal task may start again unless its launcher is excluded, or it must be held and has no input. */
  ghost predicate MayRetry(policy: Policy, s: State, id: nat, launcher: Option<Pool>) {
    && id in s.tasks && s.tasks[id].status == Done
    && !(launcher.Some? && Declared(policy, s.tasks[id].group, launcher.value))
    && (s.tasks[id].job in s.docs || AreExcluding(policy, s.tasks[id].group, s.tasks, {}))
  }


  /** A refused retry changes nothing. Any other restarts the task, stashed exactly if it is held, unless the request
      was not carried out; the hold is written once the restart is acknowledged. */
  lemma RetryEnds(policy: Policy, s: State, id: nat, launcher: Option<Pool>, reply: Reply)
    requires s.holder == Free
    ensures var b := Step(policy, s, BeginRetry(id, launcher));
            if !MayRetry(policy, s, id, launcher) then b == s
            else
              var task, hold := s.tasks[id], AdmissionHold(policy, s.tasks[id].group, s.tasks);
              var t := s.(tasks := s.tasks[id := Task(task.job, task.group, if hold == None then Queued else Stashed)]);
              var end := Step(policy, Step(policy, b, Restart(reply)), WriteHold);
              match reply
              case Failed(applied) => end == if applied then t else s
              case Acknowledged =>
                if hold == None then end == t
                else end == t.(docs := s.docs[task.job := s.docs[task.job].(hold := hold)])
  {
    if id in s.tasks {
      HoldIffExcluded(policy, s.tasks[id].group, s.tasks);
      if launcher.Some? {
        PartnersAreDeclared(policy, s.tasks[id].group, launcher.value);
      }
      if MayRetry(policy, s, id, launcher) {
        RetryRuns(policy, s, id, launcher, reply);
      }
    }
  }

  lemma RetryRuns(policy: Policy, s: State, id: nat, launcher: Option<Pool>, reply: Reply)
    requires s.holder == Free && id in s.tasks && s.tasks[id].status == Done
    requires AdmissionHold(policy, s.tasks[id].group, s.tasks).Some? ==> s.tasks[id].job in s.docs
    requires launcher.Some? ==> launcher.value !in Partners(policy, s.tasks[id].group)
    ensures var task, hold := s.tasks[id], AdmissionHold(policy, s.tasks[id].group, s.tasks);
            var b := Step(policy, s, BeginRetry(id, launcher));
            var t := s.(tasks := s.tasks[id := Task(task.job, task.group, if hold == None then Queued else Stashed)]);
            Step(policy, Step(policy, b, Restart(reply)), WriteHold)
            == if reply == Failed(false) then s
               else if reply == Failed(true) || hold == None then t
               else t.(docs := s.docs[task.job := s.docs[task.job].(hold := hold)])
  {
    var hold := AdmissionHold(policy, s.tasks[id].group, s.tasks);
    assert Step(policy, s, BeginRetry(id, launcher)) == s.(holder := Restarting(id, hold));
  }

  /** One request of a pass. A blocked task waits. Otherwise a request that was not carried out ends the pass with
      nothing changed, one whose answer was lost ends it with the task queued, and an acknowledged one queues the
      task, takes its hold from the launch input, if that still carries it, and goes on. */
  lemma RequestEnds(policy: Policy, s: State, reply: Reply)
    requires s.holder.Releasing? && s.holder.todo != {} && Least(s.holder.todo) in s.tasks
    requires Least(s.holder.todo) in s.holder.snapshot && Least(s.holder.todo) in s.holder.held
    requires s.tasks[Least(s.holder.todo)].status == Stashed
    ensures var pass, id := s.holder, Least(s.holder.todo);
            var (rest, read) := (pass.(todo := pass.todo - {id}), pass.snapshot[id]);
            var queued := s.(tasks := s.tasks[id := Task(s.tasks[id].job, s.tasks[id].group, Queued)]);
            Examined(policy, s, reply) ==
              if !Unblocked(policy, pass, id) then s.(holder := rest)
              else if reply == Failed(false) then s.(holder := Free)
              else if reply == Failed(true) then queued.(holder := Free)
              else if read.job in s.docs && s.docs[read.job] == Doc(read.group, Some(pass.held[id])) then
                queued.(docs := s.docs[read.job := Doc(read.group, None)],
                        holder := rest.(released := pass.released + {id}))
              else queued.(holder := rest.(released := pass.released + {id}))
    ensures Step(policy, s, EndRelease) == s
  {}

  // ------------------------------------------------------- order

  /** A release leaves no unfinished partner with a smaller number, and every unfinished partner with a
      greater one is held and not admitted. */
  lemma ReleaseIsOrdered(policy: Policy, s: State, reply: Reply, id: nat)
    requires Inv(policy, s) && s.holder.Releasing? && id in s.tasks && s.tasks[id].status == Stashed
    requires var t := Step(policy, s, ReleaseNext(reply)); t.tasks[id].status == Queued
    ensures forall other: nat :: Unfinished(s.tasks, other) && Exclude(policy, s.tasks, id, other) ==>
      other > id && other in s.holder.held && !Admitted(s.tasks, other)
  {
    var pass := s.holder;
    assert id == Least(pass.todo);
    UnblockedIsAdmissible(policy, s, pass, id);
    forall other: nat | Unfinished(s.tasks, other) && Exclude(policy, s.tasks, id, other)
      ensures other > id && other in pass.held && !Admitted(s.tasks, other)
    {
      assert other !in Blocking(policy, pass.snapshot[id].group, pass.snapshot, Some(id), pass.held.Keys);
    }
  }

  /** One pass never releases two tasks that exclude each other. */
  lemma PassReleasesNoTwo(policy: Policy, actions: seq<Action>, a: nat, b: nat)
    requires var s := Run(policy, INITIAL, actions);
             s.holder.Releasing? && a in s.holder.released && b in s.holder.released
    ensures var pass := Run(policy, INITIAL, actions).holder;
            a in pass.snapshot && b in pass.snapshot && !Exclude(policy, pass.snapshot, a, b)
  {
    RunKeepsInv(policy, INITIAL, actions);
  }

  // ------------------------------------------------------- progress

  ghost predicate OwnJobs(s: State) {
    && (forall id :: id in s.tasks ==> s.tasks[id].job < s.nextJob)
    && (forall a, b :: a in s.tasks && b in s.tasks && s.tasks[a].job == s.tasks[b].job ==> a == b)
    && (s.holder.Adding? ==> s.holder.job < s.nextJob && forall id :: id in s.tasks ==> s.tasks[id].job != s.holder.job)
  }

  lemma AddKeepsOwnJobs(s: State, task: Task)
    requires OwnJobs(s) && s.holder.Adding? && task.job == s.holder.job
    requires forall id :: id in s.tasks ==> id < s.nextId
    ensures OwnJobs(s.(tasks := s.tasks[s.nextId := task], nextId := s.nextId + 1, holder := Free))
  {}

  /** Nothing but a launch adds a task, and no task changes its job. */
  ghost predicate SameJobs(s: State, t: State) {
    && t.nextJob == s.nextJob && (t.holder.Adding? ==> t.holder == s.holder)
    && forall id :: id in t.tasks ==> id in s.tasks && t.tasks[id].job == s.tasks[id].job
  }

  lemma SameJobsKeepOwnJobs(s: State, t: State)
    requires OwnJobs(s) && SameJobs(s, t)
    ensures OwnJobs(t)
  {}

  lemma StepSameJobs(policy: Policy, s: State, action: Action)
    requires !action.Add? && !action.BeginEnqueue?
    requires s.holder.Consuming? ==> !s.holder.rest.Adding?
    ensures SameJobs(s, Step(policy, s, action))
  {}

  lemma StepKeepsOwnJobs(policy: Policy, s: State, action: Action)
    requires OwnJobs(s) && Inv(policy, s)
    ensures OwnJobs(Step(policy, s, action))
  {
    if action.Add? {
      if s.holder.Adding? && action.reply != Failed(false) {
        AddKeepsOwnJobs(s, Task(s.holder.job, s.holder.group, if s.holder.hold.Some? then Stashed else Queued));
      }
    } else if !action.BeginEnqueue? {
      StepSameJobs(policy, s, action);
      SameJobsKeepOwnJobs(s, Step(policy, s, action));
    }
  }

  lemma {:induction false} RunKeepsOwnJobs(policy: Policy, s: State, actions: seq<Action>)
    requires OwnJobs(s) && Inv(policy, s)
    ensures OwnJobs(Run(policy, s, actions))
    decreases |actions|
  {
    if actions != [] {
      StepKeepsInv(policy, s, actions[0]);
      StepKeepsOwnJobs(policy, s, actions[0]);
      RunKeepsOwnJobs(policy, Step(policy, s, actions[0]), actions[1..]);
    }
  }

  /** The examination of one held task, without loss or interference. */
  function Examine(policy: Policy, s: State): State {
    var t := Step(policy, s, ReleaseNext(Acknowledged));
    if t.holder.Consuming? then Step(policy, t, Consume) else t
  }

  /** What is left of a pass. */
  function PassFrom(policy: Policy, s: State): State
    decreases if s.holder.Releasing? then |s.holder.todo| else 0
  {
    if !s.holder.Releasing? then s
    else if s.holder.todo == {} then Step(policy, s, EndRelease)
    else
      var t := Examine(policy, s);
      assert t.holder.Releasing? ==> t.holder.todo == s.holder.todo - {Least(s.holder.todo)};
      PassFrom(policy, t)
  }

  function Pass(policy: Policy, s: State): State {
    PassFrom(policy, Step(policy, s, BeginRelease))
  }

  /** A pass that nothing has disturbed since its snapshot. */
  ghost predicate Quiet(policy: Policy, s: State) {
    && Inv(policy, s) && OwnJobs(s) && s.holder.Releasing?
    && (forall id :: id in s.holder.todo ==>
          && id in s.tasks && s.tasks[id] == s.holder.snapshot[id]
          && HoldOf(s, id) == Some(s.holder.held[id]))
  }

  /** A stashed task without a hold: no release will queue it. */
  predicate Stuck(s: State, id: nat) {
    id in s.tasks && s.tasks[id].status == Stashed && HoldOf(s, id) == None
  }

  /** The same tasks, and the same ones stuck. */
  ghost predicate Alike(s: State, t: State) {
    t.tasks.Keys == s.tasks.Keys
    && forall id :: id in s.tasks ==> t.tasks[id].group == s.tasks[id].group && (Stuck(t, id) <==> Stuck(s, id))
  }

  /** The hold of one task is consumed and the task queued; no other task is touched. */
  function Let(s: State, id: nat): State
    requires id in s.tasks && s.tasks[id].job in s.docs
  {
    var job := s.tasks[id].job;
    With(s, id, Queued).(docs := s.docs[job := s.docs[job].(hold := None)])
  }

  lemma ExamineIs(policy: Policy, s: State)
    requires Quiet(policy, s) && s.holder.todo != {}
    ensures var pass, id := s.holder, Least(s.holder.todo);
            var rest := pass.(todo := pass.todo - {id});
            Examine(policy, s) ==
              if Unblocked(policy, pass, id) then Let(s, id).(holder := rest.(released := pass.released + {id}))
              else s.(holder := rest)
  {
    var pass, id := s.holder, Least(s.holder.todo);
    assert HoldOf(s, id) == Some(pass.held[id]);
  }

  lemma LetHolds(s: State, id: nat, holder: Holder)
    requires OwnJobs(s) && HoldOf(s, id).Some? && !holder.Adding?
    ensures var t := Let(s, id).(holder := holder);
            && (forall other :: other != id ==> HoldOf(t, other) == HoldOf(s, other))
            && HoldOf(t, id) == None && Held(t) == Held(s) - {id} && Alike(s, t)
  {
    var t := Let(s, id).(holder := holder);
    forall other | other != id ensures HoldOf(t, other) == HoldOf(s, other) {}
    assert Held(t) == Held(s) - {id};
  }

  lemma ExamineKeepsInv(policy: Policy, s: State)
    requires Inv(policy, s) && OwnJobs(s)
    ensures Inv(policy, Examine(policy, s)) && OwnJobs(Examine(policy, s))
  {
    var t := Step(policy, s, ReleaseNext(Acknowledged));
    StepKeepsInv(policy, s, ReleaseNext(Acknowledged));
    StepKeepsOwnJobs(policy, s, ReleaseNext(Acknowledged));
    StepKeepsInv(policy, t, Consume);
    StepKeepsOwnJobs(policy, t, Consume);
  }

  lemma ExamineHolds(policy: Policy, s: State)
    requires Quiet(policy, s) && s.holder.todo != {}
    ensures var t, id := Examine(policy, s), Least(s.holder.todo);
            && Alike(s, t) && (forall other :: other != id ==> HoldOf(t, other) == HoldOf(s, other))
            && Held(t) == if Unblocked(policy, s.holder, id) then Held(s) - {id} else Held(s)
  {
    var id := Least(s.holder.todo);
    ExamineIs(policy, s);
    assert HoldOf(s, id).Some?;
    LetHolds(s, id, Examine(policy, s).holder);
  }

  lemma ExamineIsQuiet(policy: Policy, s: State)
    requires Quiet(policy, s) && s.holder.todo != {}
    ensures var t, id := Examine(policy, s), Least(s.holder.todo);
            && Quiet(policy, t) && t.holder.todo == s.holder.todo - {id}
            && Alike(s, t)
            && Held(t) == if Unblocked(policy, s.holder, id) then Held(s) - {id} else Held(s)
  {
    ExamineKeepsInv(policy, s);
    ExamineIs(policy, s);
    ExamineHolds(policy, s);
  }

  lemma EndIsQuiet(policy: Policy, s: State)
    requires Quiet(policy, s) && s.holder.todo == {}
    ensures var t := Step(policy, s, EndRelease);
            Inv(policy, t) && OwnJobs(t) && t.holder == Free && Held(t) <= Held(s) && Alike(s, t)
  {
    StepKeepsInv(policy, s, EndRelease);
    StepKeepsOwnJobs(policy, s, EndRelease);
    var t := Step(policy, s, EndRelease);
    assert forall id :: HoldOf(t, id) == HoldOf(s, id);
  }

  lemma {:induction false} PassIsQuiet(policy: Policy, s: State)
    requires Quiet(policy, s)
    ensures var t := PassFrom(policy, s);
            Inv(policy, t) && OwnJobs(t) && t.holder == Free && Held(t) <= Held(s) && Alike(s, t)
    decreases |s.holder.todo|
  {
    if s.holder.todo == {} {
      EndIsQuiet(policy, s);
    } else {
      ExamineIsQuiet(policy, s);
      PassIsQuiet(policy, Examine(policy, s));
    }
  }

  /** Every unfinished partner of this task is held. */
  ghost predicate PartnersHeld(policy: Policy, s: State, id: nat)
    requires id in s.tasks
  {
    forall other: nat :: Unfinished(s.tasks, other) && Exclude(policy, s.tasks, id, other) ==> other in Held(s)
  }

  lemma LeastIsUnblocked(policy: Policy, s: State)
    requires Inv(policy, s) && OwnJobs(s) && s.holder == Free && Held(s) != {}
    requires PartnersHeld(policy, s, Least(Held(s)))
    ensures var b, id := Step(policy, s, BeginRelease), Least(Held(s));
            && b.holder.Releasing? && b.holder.todo == Held(s)
            && id in b.holder.snapshot && Unblocked(policy, b.holder, id)
  {
    var b, id := Step(policy, s, BeginRelease), Least(Held(s));
    BeginIsQuiet(policy, s);
    var pass := b.holder;
    forall other: nat
      ensures other !in Blocking(policy, pass.snapshot[id].group, pass.snapshot, Some(id), pass.held.Keys)
    {
      if Unfinished(s.tasks, other) && Exclude(policy, s.tasks, id, other) {
        assert other in Held(s) && id <= other;
      }
    }
  }

  /** When no unfinished partner of the least held task is admitted or stashed without a hold, a pass releases it. */
  lemma PassReleasesLeast(policy: Policy, s: State)
    requires Inv(policy, s) && OwnJobs(s) && s.holder == Free && Held(s) != {}
    requires PartnersHeld(policy, s, Least(Held(s)))
    ensures var t := Pass(policy, s);
            && Inv(policy, t) && OwnJobs(t) && t.holder == Free
            && Held(t) <= Held(s) - {Least(Held(s))} && Alike(s, t)
  {
    var b := Step(policy, s, BeginRelease);
    BeginIsQuiet(policy, s);
    LeastIsUnblocked(policy, s);
    ExamineIsQuiet(policy, b);
    PassIsQuiet(policy, Examine(policy, b));
  }

  lemma BeginIsQuiet(policy: Policy, s: State)
    requires Inv(policy, s) && OwnJobs(s) && s.holder == Free
    ensures var b := Step(policy, s, BeginRelease);
            && Quiet(policy, b) && b.holder.todo == Held(s) && Held(b) == Held(s) && Alike(s, b)
            && b.holder.held.Keys == Held(s) && b.tasks == s.tasks
  {
    StepKeepsInv(policy, s, BeginRelease);
    StepKeepsOwnJobs(policy, s, BeginRelease);
    var b := Step(policy, s, BeginRelease);
    assert forall id :: HoldOf(b, id) == HoldOf(s, id);
    assert Held(b) == Held(s);
    assert b.holder.held.Keys == Held(s);
  }

  /** Every admitted task finishes, and one pass follows. */
  function Round(policy: Policy, s: State): State {
    Pass(policy, Settled(policy, s))
  }

  function Iterated(next: State -> State, s: State, n: nat): State
    decreases n
  {
    if n == 0 then s else Iterated(next, next(s), n - 1)
  }

  function Rounds(policy: Policy, s: State, n: nat): State {
    Iterated((t: State) => Round(policy, t), s, n)
  }

  /** What every step keeps holds after all of them. */
  lemma {:induction false} IteratedKeeps(next: State -> State, good: State -> bool, s: State, n: nat)
    requires good(s) && forall t :: good(t) ==> good(next(t))
    ensures good(Iterated(next, s, n))
    decreases n
  {
    if n > 0 {
      IteratedKeeps(next, good, next(s), n - 1);
    }
  }

  /** Steps that each hold fewer tasks, until none is held, hold none in the end. */
  lemma {:induction false} IteratedDrains(next: State -> State, good: State -> bool, s: State, n: nat)
    requires good(s) && n >= |Held(s)|
    requires forall t :: good(t) ==> good(next(t)) && (|Held(next(t))| < |Held(t)| || |Held(next(t))| == 0)
    ensures Held(Iterated(next, s, n)) == {}
    decreases n
  {
    if n > 0 {
      IteratedDrains(next, good, next(s), n - 1);
    }
  }

  /** No held task has a stuck partner. */
  ghost predicate Drainable(policy: Policy, s: State) {
    forall id, other :: id in Held(s) && Stuck(s, other) ==> !Exclude(policy, s.tasks, id, other)
  }

  lemma AlikeKeepsDrainable(policy: Policy, s: State, t: State)
    requires Drainable(policy, s) && Alike(s, t) && Held(t) <= Held(s)
    ensures Drainable(policy, t)
  {
    forall id, other | id in Held(t) && Stuck(t, other) ensures !Exclude(policy, t.tasks, id, other) {
      assert id in Held(s) && Stuck(s, other);
    }
  }

  /** Every admitted task finishes. */
  function Settled(policy: Policy, s: State): State {
    Step(policy, s, Finish(set id | id in s.tasks && s.tasks[id].status != Stashed))
  }

  lemma SettledKeepsInv(policy: Policy, s: State)
    requires Inv(policy, s) && OwnJobs(s)
    ensures Inv(policy, Settled(policy, s)) && OwnJobs(Settled(policy, s))
  {
    var done := Finish(set id | id in s.tasks && s.tasks[id].status != Stashed);
    StepKeepsInv(policy, s, done);
    StepKeepsOwnJobs(policy, s, done);
  }

  lemma SettledIs(policy: Policy, s: State)
    requires Inv(policy, s) && OwnJobs(s)
    ensures var f := Settled(policy, s);
            && Inv(policy, f) && OwnJobs(f) && f.holder == s.holder && Alike(s, f) && Held(f) == Held(s)
            && forall id :: Unfinished(f.tasks, id) ==> f.tasks[id].status == Stashed
  {
    SettledKeepsInv(policy, s);
    var f := Settled(policy, s);
    assert forall id :: HoldOf(f, id) == HoldOf(s, id);
    assert Held(f) == Held(s);
  }

  /** The lock is free and no held task has a stuck partner. */
  ghost predicate Ready(policy: Policy, s: State) {
    Inv(policy, s) && OwnJobs(s) && s.holder == Free && Drainable(policy, s)
  }

  lemma RoundReleases(policy: Policy, s: State)
    requires Inv(policy, s) && OwnJobs(s) && s.holder == Free && Drainable(policy, s)
    ensures var t := Round(policy, s);
            && Inv(policy, t) && OwnJobs(t) && t.holder == Free && Drainable(policy, t) && Held(t) <= Held(s)
            && (Held(s) != {} ==> Held(t) < Held(s))
  {
    var f := Settled(policy, s);
    SettledIs(policy, s);
    AlikeKeepsDrainable(policy, s, f);
    if Held(f) == {} {
      BeginIsQuiet(policy, f);
      PassIsQuiet(policy, Step(policy, f, BeginRelease));
    } else {
      PassReleasesLeast(policy, f);
      assert Least(Held(f)) in Held(s);
    }
    AlikeKeepsDrainable(policy, f, Round(policy, s));
  }

  lemma RoundCounts(policy: Policy, s: State)
    requires Ready(policy, s)
    ensures var t := Round(policy, s); Ready(policy, t) && (|Held(t)| < |Held(s)| || |Held(t)| == 0)
  {
    RoundReleases(policy, s);
    SubsetShrinks(Held(Round(policy, s)), Held(s));
  }

  /** Held tasks drain: while admitted tasks finish and none arrive, as many rounds as there are held
      tasks release them all. */
  lemma HoldsDrain(policy: Policy, s: State, n: nat)
    requires Ready(policy, s) && n >= |Held(s)|
    ensures Held(Rounds(policy, s, n)) == {}
  {
    var next, good := (t: State) => Round(policy, t), (t: State) => Ready(policy, t);
    forall t | good(t) ensures good(next(t)) && (|Held(next(t))| < |Held(t)| || |Held(next(t))| == 0) {
      RoundCounts(policy, t);
    }
    IteratedDrains(next, good, s, n);
  }

  /** A held task with a stuck partner, in the middle of a pass. */
  ghost predicate Jammed(policy: Policy, s: State, id: nat, stuck: nat) {
    id in Held(s) && Stuck(s, stuck) && Exclude(policy, s.tasks, id, stuck)
  }

  lemma ExamineKeepsJam(policy: Policy, s: State, id: nat, stuck: nat)
    requires Quiet(policy, s) && s.holder.todo != {} && Jammed(policy, s, id, stuck) && stuck !in s.holder.held
    ensures var t := Examine(policy, s);
            Jammed(policy, t, id, stuck) && t.holder.Releasing? && stuck !in t.holder.held
  {
    ExamineIsQuiet(policy, s);
    ExamineIs(policy, s);
    if id == Least(s.holder.todo) {
      assert Unfinished(s.tasks, stuck) && s.tasks[id] == s.holder.snapshot[id];
      assert stuck in Blocking(policy, s.holder.snapshot[id].group, s.holder.snapshot, Some(id), s.holder.held.Keys);
    }
  }

  lemma {:induction false} PassKeepsJam(policy: Policy, s: State, id: nat, stuck: nat)
    requires Quiet(policy, s) && Jammed(policy, s, id, stuck) && stuck !in s.holder.held
    ensures Jammed(policy, PassFrom(policy, s), id, stuck)
    decreases |s.holder.todo|
  {
    if s.holder.todo == {} {
      assert HoldOf(Step(policy, s, EndRelease), id) == HoldOf(s, id);
      assert HoldOf(Step(policy, s, EndRelease), stuck) == HoldOf(s, stuck);
    } else {
      ExamineIsQuiet(policy, s);
      ExamineKeepsJam(policy, s, id, stuck);
      PassKeepsJam(policy, Examine(policy, s), id, stuck);
    }
  }

  lemma RoundKeepsJam(policy: Policy, s: State, id: nat, stuck: nat)
    requires Inv(policy, s) && OwnJobs(s) && s.holder == Free && Jammed(policy, s, id, stuck)
    ensures var t := Round(policy, s);
            Inv(policy, t) && OwnJobs(t) && t.holder == Free && Jammed(policy, t, id, stuck)
  {
    SettledIs(policy, s);
    PassJam(policy, Settled(policy, s), id, stuck);
  }

  lemma PassJam(policy: Policy, s: State, id: nat, stuck: nat)
    requires Inv(policy, s) && OwnJobs(s) && s.holder == Free && Jammed(policy, s, id, stuck)
    ensures var t := Pass(policy, s);
            Inv(policy, t) && OwnJobs(t) && t.holder == Free && Jammed(policy, t, id, stuck)
  {
    BeginIsQuiet(policy, s);
    PassIsQuiet(policy, Step(policy, s, BeginRelease));
    PassKeepsJam(policy, Step(policy, s, BeginRelease), id, stuck);
  }

  lemma RoundsKeepJam(policy: Policy, s: State, id: nat, stuck: nat, n: nat)
    requires Inv(policy, s) && OwnJobs(s) && s.holder == Free && Jammed(policy, s, id, stuck)
    ensures id in Held(Rounds(policy, s, n))
  {
    var next := (t: State) => Round(policy, t);
    var good := (t: State) => Inv(policy, t) && OwnJobs(t) && t.holder == Free && Jammed(policy, t, id, stuck);
    forall t | good(t) ensures good(next(t)) {
      RoundKeepsJam(policy, t, id, stuck);
    }
    IteratedKeeps(next, good, s, n);
  }

  ghost predicate Drains(policy: Policy, s: State) {
    exists n :: Held(Rounds(policy, s, n)) == {}
  }

  lemma DrainsIffDrainable(policy: Policy, s: State)
    requires Inv(policy, s) && OwnJobs(s) && s.holder == Free
    ensures Drains(policy, s) <==> Drainable(policy, s)
  {
    if Drainable(policy, s) {
      HoldsDrain(policy, s, |Held(s)|);
    } else {
      var id, stuck :| id in Held(s) && Stuck(s, stuck) && Exclude(policy, s.tasks, id, stuck);
      forall n ensures Held(Rounds(policy, s, n)) != {} {
        RoundsKeepJam(policy, s, id, stuck, n);
      }
    }
  }

  /** After every run, once the lock is free: held tasks drain exactly when none of them has a stuck partner. */
  lemma DrainsIffNothingIsStuck(policy: Policy, actions: seq<Action>)
    requires Run(policy, INITIAL, actions).holder == Free
    ensures var s := Run(policy, INITIAL, actions); Drains(policy, s) <==> Drainable(policy, s)
  {
    RunKeepsInv(policy, INITIAL, actions);
    RunKeepsOwnJobs(policy, INITIAL, actions);
    DrainsIffDrainable(policy, Run(policy, INITIAL, actions));
  }

  ghost predicate Reachable(policy: Policy, s: State) {
    exists actions :: Run(policy, INITIAL, actions) == s
  }

  lemma ReachStep(policy: Policy, s: State, action: Action)
    requires Reachable(policy, s)
    ensures Reachable(policy, Step(policy, s, action))
  {
    var actions :| Run(policy, INITIAL, actions) == s;
    RunSnoc(policy, INITIAL, actions, action);
  }

  const EXCLUSIVE: Policy := map["a" := {"b"}]

  lemma ExclusivePartners()
    ensures Partners(EXCLUSIVE, "a") == {"b"} && Partners(EXCLUSIVE, "b") == {"a"}
  {}

  lemma LaunchReaches(policy: Policy, s: State, group: Pool)
    requires Reachable(policy, s) && s.holder == Free
    ensures var hold := AdmissionHold(policy, group, s.tasks);
            Reachable(policy, State(
              s.tasks[s.nextId := Task(s.nextJob, group, if hold.Some? then Stashed else Queued)],
              s.docs[s.nextJob := Doc(group, hold)], s.nextId + 1, s.nextJob + 1, Free))
  {
    ReachStep(policy, s, BeginEnqueue(group, None));
    ReachStep(policy, Step(policy, s, BeginEnqueue(group, None)), Add(Acknowledged));
  }

  /** One task of each pool: the first has finished, the second is queued. */
  function OneDone(status: Status, holder: Holder): State {
    State(map[1 := Task(0, "a", status), 2 := Task(1, "b", Queued)],
          map[0 := Doc("a", None), 1 := Doc("b", None)], 3, 2, holder)
  }

  lemma OneDoneReaches()
    ensures Reachable(EXCLUSIVE, OneDone(Done, Free))
  {
    ExclusivePartners();
    assert Run(EXCLUSIVE, INITIAL, []) == INITIAL;
    assert Blocking(EXCLUSIVE, "a", map[], None, {}) == {};
    LaunchReaches(EXCLUSIVE, INITIAL, "a");
    var one := State(map[1 := Task(0, "a", Queued)], map[0 := Doc("a", None)], 2, 1, Free);
    var done := one.(tasks := map[1 := Task(0, "a", Done)]);
    ReachStep(EXCLUSIVE, one, Finish({1}));
    assert Step(EXCLUSIVE, one, Finish({1})) == done;
    assert Blocking(EXCLUSIVE, "b", done.tasks, None, {}) == {};
    LaunchReaches(EXCLUSIVE, done, "b");
    assert State(done.tasks[2 := Task(1, "b", Queued)], done.docs[1 := Doc("b", None)], 3, 2, Free)
        == OneDone(Done, Free);
  }

  lemma RetryBegins()
    ensures Reachable(EXCLUSIVE, OneDone(Done, Restarting(1, Some(Hold("a", {2})))))
  {
    OneDoneReaches();
    ExclusivePartners();
    var s := OneDone(Done, Free);
    assert Blocking(EXCLUSIVE, "a", s.tasks, None, {}) == {2};
    ReachStep(EXCLUSIVE, s, BeginRetry(1, None));
  }

  lemma RetryDies()
    ensures Reachable(EXCLUSIVE, OneDone(Stashed, Free)) && Stuck(OneDone(Stashed, Free), 1)
  {
    RetryBegins();
    var hold := Hold("a", {2});
    var s := OneDone(Done, Restarting(1, Some(hold)));
    ReachStep(EXCLUSIVE, s, Restart(Acknowledged));
    assert s.tasks[1 := Task(0, "a", Stashed)] == OneDone(Stashed, Free).tasks;
    ReachStep(EXCLUSIVE, OneDone(Stashed, Holding(1, hold)), Drop);
    DeathLeavesStuck(EXCLUSIVE, s, 1, hold);
  }

  /** A retry that dies before its hold is written, and the launch after it: the new task never drains. */
  lemma StuckHappens()
    ensures exists actions ::
      Run(EXCLUSIVE, INITIAL, actions).holder == Free && !Drains(EXCLUSIVE, Run(EXCLUSIVE, INITIAL, actions))
  {
    RetryDies();
    ExclusivePartners();
    var s, hold := OneDone(Stashed, Free), Hold("b", {1});
    assert Blocking(EXCLUSIVE, "b", s.tasks, None, {}) == {1};
    LaunchReaches(EXCLUSIVE, s, "b");
    var t := State(s.tasks[3 := Task(2, "b", Stashed)], s.docs[2 := Doc("b", Some(hold))], 4, 3, Free);
    assert Stuck(t, 1) && 3 in Held(t) && Exclude(EXCLUSIVE, t.tasks, 3, 1);
    var actions :| Run(EXCLUSIVE, INITIAL, actions) == t;
    DrainsIffNothingIsStuck(EXCLUSIVE, actions);
  }

  /** The lock's holder goes between the stashed restart and the write of the hold. */
  predicate Careless(s: State, action: Action) {
    (s.holder.Holding? && action.Drop?)
    || (s.holder.Restarting? && s.holder.hold.Some? && action == Restart(Failed(true)))
  }

  predicate Careful(policy: Policy, s: State, actions: seq<Action>)
    decreases |actions|
  {
    actions == [] || (!Careless(s, actions[0]) && Careful(policy, Step(policy, s, actions[0]), actions[1..]))
  }

  /** Either way of it leaves the task stuck. */
  lemma DeathLeavesStuck(policy: Policy, s: State, id: nat, hold: Hold)
    requires s.holder == Restarting(id, Some(hold)) && id in s.tasks && s.tasks[id].status == Done
    requires s.tasks[id].job in s.docs && s.docs[s.tasks[id].job].hold == None
    ensures Stuck(Step(policy, Step(policy, s, Restart(Acknowledged)), Drop), id)
    ensures Stuck(Step(policy, s, Restart(Failed(true))), id)
  {
    var t := Step(policy, s, Restart(Acknowledged));
    assert t.tasks[id].status == Stashed && t.docs == s.docs;
  }

  /** Launch inputs belong to their task's pool, and only a task whose hold is being written is stuck. */
  ghost predicate Tended(s: State) {
    && (forall id :: id in s.tasks && s.tasks[id].job in s.docs ==> s.docs[s.tasks[id].job].pool == s.tasks[id].group)
    && (forall id :: Stuck(s, id) ==> s.holder.Holding? && s.holder.id == id)
  }

  ghost predicate TendedHolder(s: State) {
    match s.holder
    case Free => true
    case Adding(job, group, hold) =>
      job in s.docs && s.docs[job] == Doc(group, hold) && (hold.Some? ==> hold.value.pool == group)
    case Releasing(_, _, _, _) => Loyal(s)
    case Consuming(_, _) => Loyal(s)
    case Restarting(id, hold) =>
      hold.Some? && id in s.tasks ==> s.tasks[id].job in s.docs && hold.value.pool == s.tasks[id].group
    case Holding(id, hold) =>
      id in s.tasks ==> s.tasks[id].job in s.docs && hold.pool == s.tasks[id].group
  }

  lemma QueueTends(policy: Policy, s: State, action: Action)
    requires QueueAction(action) && OwnJobs(s) && Tended(s) && TendedHolder(s)
    ensures Tended(QueueStep(s, action)) && TendedHolder(QueueStep(s, action))
  {
    var t := QueueStep(s, action);
    forall id | Stuck(t, id) ensures Stuck(s, id) {
      assert HoldOf(t, id) == HoldOf(s, id);
    }
    if s.holder.Releasing? || s.holder.Consuming? {
      QueueFades(s, action);
    }
  }

  lemma EnqueueTends(policy: Policy, s: State, action: Action)
    requires OwnJobs(s) && Tended(s) && TendedHolder(s)
    ensures Tended(EnqueueStep(policy, s, action)) && TendedHolder(EnqueueStep(policy, s, action))
  {
    var t := EnqueueStep(policy, s, action);
    forall id | Stuck(t, id) ensures Stuck(s, id) {
      if id in s.tasks && t.tasks[id] == s.tasks[id] {
        assert HoldOf(t, id) == HoldOf(s, id);
      }
    }
  }

  ghost predicate KeepsPools(s: State, t: State) {
    forall job :: job in t.docs ==> job in s.docs && t.docs[job].pool == s.docs[job].pool
  }

  lemma ReleaseKeepsPools(policy: Policy, s: State, action: Action)
    requires action.BeginRelease? || action.ReleaseNext? || action.Consume? || action.EndRelease?
    ensures KeepsPools(s, ReleaseStep(policy, s, action))
  {}

  lemma FadesTends(s: State, t: State)
    requires Tended(s) && Fades(s, t) && KeepsPools(s, t) && Loyal(s) && Loyal(t)
    ensures Tended(t) && TendedHolder(t)
  {
    forall id | Stuck(t, id) ensures Stuck(s, id) {}
  }

  lemma ReleaseTends(policy: Policy, s: State, action: Action)
    requires action.BeginRelease? || action.ReleaseNext? || action.Consume? || action.EndRelease?
    requires OwnJobs(s) && Tended(s) && TendedHolder(s)
    ensures Tended(Step(policy, s, action)) && TendedHolder(Step(policy, s, action))
  {
    if Loyal(s) {
      StepFades(policy, s, action);
      ReleaseKeepsPools(policy, s, action);
      FadesTends(s, Step(policy, s, action));
    } else {
      assert Step(policy, s, action) == s;
    }
  }

  lemma WriteTends(policy: Policy, s: State, id: nat, hold: Hold)
    requires OwnJobs(s) && Tended(s) && TendedHolder(s) && s.holder == Holding(id, hold)
    ensures Tended(RetryStep(policy, s, WriteHold)) && TendedHolder(RetryStep(policy, s, WriteHold))
  {
    var t := RetryStep(policy, s, WriteHold);
    forall other ensures !Stuck(t, other) {
      if other in s.tasks && other != id {
        assert HoldOf(t, other) == HoldOf(s, other);
        assert !Stuck(s, other);
      }
    }
  }

  lemma BeginRetryTends(policy: Policy, s: State, action: Action)
    requires Tended(s) && TendedHolder(s) && action.BeginRetry?
    ensures Tended(RetryStep(policy, s, action)) && TendedHolder(RetryStep(policy, s, action))
  {
    var t := RetryStep(policy, s, action);
    SameTasksFade(s, t);
    if t != s {
      assert forall id :: Stuck(t, id) ==> Stuck(s, id);
    }
  }

  lemma RestartTends(policy: Policy, s: State, id: nat, hold: Option<Hold>, reply: Reply)
    requires Tended(s) && TendedHolder(s) && s.holder == Restarting(id, hold) && !Careless(s, Restart(reply))
    ensures var t := RetryStep(policy, s, Restart(reply)); Tended(t) && TendedHolder(t)
  {
    var t := RetryStep(policy, s, Restart(reply));
    forall other | !(other == id && t.holder.Holding?) ensures !Stuck(t, other) {
      assert !Stuck(s, other);
      if other in s.tasks && t.tasks[other] == s.tasks[other] {
        assert HoldOf(t, other) == HoldOf(s, other);
      }
    }
  }

  lemma StepTends(policy: Policy, s: State, action: Action)
    requires OwnJobs(s) && Tended(s) && TendedHolder(s) && !Careless(s, action)
    ensures Tended(Step(policy, s, action)) && TendedHolder(Step(policy, s, action))
  {
    match action
    case Start(_) | Finish(_) | Remove(_) | Reset => QueueTends(policy, s, action);
    case BeginEnqueue(_, _) | Add(_) | RefuseGroup => EnqueueTends(policy, s, action);
    case BeginRelease | ReleaseNext(_) | Consume | EndRelease => ReleaseTends(policy, s, action);
    case BeginRetry(_, _) => BeginRetryTends(policy, s, action);
    case Restart(reply) =>
      if s.holder.Restarting? { RestartTends(policy, s, s.holder.id, s.holder.hold, reply); }
    case WriteHold => if s.holder.Holding? { WriteTends(policy, s, s.holder.id, s.holder.due); }
    case Drop =>
      SameTasksFade(s, Step(policy, s, Drop));
      assert forall id :: Stuck(Step(policy, s, Drop), id) ==> Stuck(s, id);
  }

  lemma {:induction false} RunTends(policy: Policy, s: State, actions: seq<Action>)
    requires Inv(policy, s) && OwnJobs(s) && Tended(s) && TendedHolder(s) && Careful(policy, s, actions)
    ensures Tended(Run(policy, s, actions))
    decreases |actions|
  {
    if actions != [] {
      StepKeepsInv(policy, s, actions[0]);
      StepKeepsOwnJobs(policy, s, actions[0]);
      StepTends(policy, s, actions[0]);
      RunTends(policy, Step(policy, s, actions[0]), actions[1..]);
    }
  }

  /** Whatever else is lost or dies: unless a retry goes between its restart and the write of its hold, every
      run that leaves the lock free leaves held tasks that drain. */
  lemma CarefulRunsDrain(policy: Policy, actions: seq<Action>)
    requires Careful(policy, INITIAL, actions) && Run(policy, INITIAL, actions).holder == Free
    ensures Drains(policy, Run(policy, INITIAL, actions))
  {
    RunTends(policy, INITIAL, actions);
    DrainsIffNothingIsStuck(policy, actions);
  }

  // ------------------------------------------------ what waits for a stuck task

  /** The stuck task is not taken out of the queue by anyone. */
  predicate Spares(action: Action, stuck: nat) {
    action != Reset && action != Remove(stuck) && !(action.Finish? && stuck in action.ids)
  }

  /** A task of this pool would have the stuck task as a partner. */
  predicate Rivals(policy: Policy, s: State, stuck: nat, pool: Pool)
    requires stuck in s.tasks
  {
    s.tasks[stuck].group in Partners(policy, pool)
  }

  /** The pass has read the stuck task, and that no hold is on it. */
  ghost predicate Reads(s: State, stuck: nat, pass: Holder)
    requires stuck in s.tasks
  {
    && pass.Releasing? && stuck in pass.snapshot && stuck !in pass.held
    && pass.snapshot[stuck].group == s.tasks[stuck].group && pass.snapshot[stuck].status != Done
  }

  /** Whoever holds the lock knows of the stuck task. */
  ghost predicate Warned(policy: Policy, s: State, stuck: nat) {
    && Stuck(s, stuck)
    && match s.holder
       case Free => true
       case Adding(_, group, hold) => Rivals(policy, s, stuck, group) ==> hold.Some?
       case Releasing(_, _, _, _) => Reads(s, stuck, s.holder)
       case Consuming(_, rest) => Reads(s, stuck, rest)
       case Restarting(id, hold) =>
         id != stuck && (id in s.tasks && Rivals(policy, s, stuck, s.tasks[id].group) ==> hold.Some?)
       case Holding(id, _) => id != stuck
  }

  /** The stuck task stays in its pool, and no task that excludes it is admitted anew. */
  ghost predicate ShutOut(policy: Policy, s: State, t: State, stuck: nat) {
    && stuck in s.tasks && stuck in t.tasks && t.tasks[stuck].group == s.tasks[stuck].group
    && forall id :: Admitted(t.tasks, id) && Rivals(policy, t, stuck, t.tasks[id].group) ==>
         Admitted(s.tasks, id) && s.tasks[id].group == t.tasks[id].group
  }

  lemma BlockingHolds(policy: Policy, pool: Pool, tasks: Tasks, stuck: nat)
    requires Unfinished(tasks, stuck) && tasks[stuck].group in Partners(policy, pool)
    ensures AdmissionHold(policy, pool, tasks).Some?
  {
    assert stuck in Blocking(policy, pool, tasks, None, {});
  }

  lemma QueueShutsOut(policy: Policy, s: State, action: Action, stuck: nat)
    requires Warned(policy, s, stuck) && Spares(action, stuck)
    ensures var t := QueueStep(s, action); Warned(policy, t, stuck) && ShutOut(policy, s, t, stuck)
  {
    assert HoldOf(QueueStep(s, action), stuck) == HoldOf(s, stuck);
  }

  lemma EnqueueShutsOut(policy: Policy, s: State, action: Action, stuck: nat)
    requires Inv(policy, s) && OwnJobs(s) && Warned(policy, s, stuck)
    ensures var t := EnqueueStep(policy, s, action); Warned(policy, t, stuck) && ShutOut(policy, s, t, stuck)
  {
    var t := EnqueueStep(policy, s, action);
    assert HoldOf(t, stuck) == HoldOf(s, stuck);
    if action.BeginEnqueue? && Rivals(policy, s, stuck, action.group) {
      BlockingHolds(policy, action.group, s.tasks, stuck);
    }
  }

  lemma ReleaseNextShutsOut(policy: Policy, s: State, reply: Reply, stuck: nat)
    requires Inv(policy, s) && Warned(policy, s, stuck) && s.holder.Releasing? && s.holder.todo != {}
    ensures var t := Step(policy, s, ReleaseNext(reply)); Warned(policy, t, stuck) && ShutOut(policy, s, t, stuck)
  {
    var t, pass, id := Step(policy, s, ReleaseNext(reply)), s.holder, Least(s.holder.todo);
    ReleaseNextIs(policy, s, reply);
    assert id != stuck;
    assert HoldOf(t, stuck) == HoldOf(s, stuck);
    if t.tasks != s.tasks && Rivals(policy, s, stuck, s.tasks[id].group) {
      assert Unfinished(s.tasks, id);
      assert stuck in Blocking(policy, pass.snapshot[id].group, pass.snapshot, Some(id), pass.held.Keys);
    }
  }

  lemma ReleaseShutsOut(policy: Policy, s: State, action: Action, stuck: nat)
    requires Inv(policy, s) && Warned(policy, s, stuck) && !action.ReleaseNext?
    ensures var t := ReleaseStep(policy, s, action); Warned(policy, t, stuck) && ShutOut(policy, s, t, stuck)
  {
    assert HoldOf(ReleaseStep(policy, s, action), stuck) == None;
  }

  lemma RetryShutsOut(policy: Policy, s: State, action: Action, stuck: nat)
    requires OwnJobs(s) && Warned(policy, s, stuck)
    ensures var t := RetryStep(policy, s, action); Warned(policy, t, stuck) && ShutOut(policy, s, t, stuck)
  {
    assert HoldOf(RetryStep(policy, s, action), stuck) == None;
    if action.BeginRetry? && action.id in s.tasks && Rivals(policy, s, stuck, s.tasks[action.id].group) {
      BlockingHolds(policy, s.tasks[action.id].group, s.tasks, stuck);
    }
  }

  lemma StepShutsOut(policy: Policy, s: State, action: Action, stuck: nat)
    requires Inv(policy, s) && OwnJobs(s) && Warned(policy, s, stuck) && Spares(action, stuck)
    ensures var t := Step(policy, s, action); Warned(policy, t, stuck) && ShutOut(policy, s, t, stuck)
  {
    match action
    case Start(_) | Finish(_) | Remove(_) | Reset => QueueShutsOut(policy, s, action, stuck);
    case BeginEnqueue(_, _) | Add(_) | RefuseGroup => EnqueueShutsOut(policy, s, action, stuck);
    case ReleaseNext(reply) =>
      if s.holder.Releasing? && s.holder.todo != {} { ReleaseNextShutsOut(policy, s, reply, stuck); }
    case BeginRelease | Consume | EndRelease => ReleaseShutsOut(policy, s, action, stuck);
    case BeginRetry(_, _) | Restart(_) | WriteHold => RetryShutsOut(policy, s, action, stuck);
    case Drop => assert HoldOf(Step(policy, s, Drop), stuck) == None;
  }

  lemma {:induction false} RunShutsOut(policy: Policy, s: State, actions: seq<Action>, stuck: nat)
    requires Inv(policy, s) && OwnJobs(s) && Warned(policy, s, stuck)
    requires forall i :: 0 <= i < |actions| ==> Spares(actions[i], stuck)
    ensures Stuck(Run(policy, s, actions), stuck) && ShutOut(policy, s, Run(policy, s, actions), stuck)
    decreases |actions|
  {
    if actions != [] {
      var t := Step(policy, s, actions[0]);
      StepKeepsInv(policy, s, actions[0]);
      StepKeepsOwnJobs(policy, s, actions[0]);
      StepShutsOut(policy, s, actions[0], stuck);
      RunShutsOut(policy, t, actions[1..], stuck);
    }
  }

  /** After every run that leaves the lock free, and whatever follows, launches, retries, passes and losses
      included: until someone takes a stuck task out of the queue, no task that excludes it is admitted anew. */
  lemma StuckShutsOut(policy: Policy, actions: seq<Action>, later: seq<Action>, stuck: nat)
    requires Run(policy, INITIAL, actions).holder == Free && Stuck(Run(policy, INITIAL, actions), stuck)
    requires forall i :: 0 <= i < |later| ==> Spares(later[i], stuck)
    ensures var s := Run(policy, INITIAL, actions); var t := Run(policy, s, later);
            && Stuck(t, stuck)
            && forall id :: Admitted(t.tasks, id) && Exclude(policy, t.tasks, id, stuck) ==> Admitted(s.tasks, id)
  {
    RunKeepsInv(policy, INITIAL, actions);
    RunKeepsOwnJobs(policy, INITIAL, actions);
    RunShutsOut(policy, Run(policy, INITIAL, actions), later, stuck);
  }

  // ------------------------------------------------ progress despite losses

  /** An action of a launch or a retry. */
  predicate Arrives(action: Action) {
    || action.BeginEnqueue? || action.Add? || action.RefuseGroup?
    || action.BeginRetry? || action.Restart? || action.WriteHold?
  }

  ghost predicate NoneArrives(actions: seq<Action>) {
    forall i :: 0 <= i < |actions| ==> !Arrives(actions[i])
  }

  function AdmittedSet(s: State): set<nat> {
    set id | id in s.tasks && Admitted(s.tasks, id)
  }

  /** Tasks go, stashes keep their holds, and only a held task is admitted anew. */
  ghost predicate Fades(s: State, t: State) {
    && (forall id :: id in t.tasks ==>
          id in s.tasks && t.tasks[id].job == s.tasks[id].job && t.tasks[id].group == s.tasks[id].group)
    && (forall id :: id in t.tasks && t.tasks[id].status == Stashed ==>
          s.tasks[id].status == Stashed && HoldOf(t, id) == HoldOf(s, id))
    && AdmittedSet(t) <= AdmittedSet(s) + Held(s)
  }

  /** What a pass has read of the holds it still has to examine is what the launch inputs hold. */
  ghost predicate Faithful(s: State, pass: Holder) {
    && pass.Releasing? && pass.todo <= pass.held.Keys <= pass.snapshot.Keys
    && (forall id :: id in pass.todo && id in s.tasks && s.tasks[id].status == Stashed ==>
          HoldOf(s, id) == Some(pass.held[id]))
    && (forall id, other :: id in pass.snapshot && other in s.tasks && s.tasks[other].job == pass.snapshot[id].job ==>
          other == id)
  }

  ghost predicate Loyal(s: State) {
    match s.holder
    case Free => true
    case Releasing(_, _, _, _) => Faithful(s, s.holder)
    case Consuming(id, rest) => Faithful(s, rest) && (id in s.tasks ==> s.tasks[id].status != Stashed)
    case _ => false
  }

  lemma QueueFades(s: State, action: Action)
    requires Loyal(s)
    ensures Fades(s, QueueStep(s, action)) && Loyal(QueueStep(s, action))
  {
    var t := QueueStep(s, action);
    forall id | id in t.tasks && t.tasks[id].status == Stashed
      ensures s.tasks[id].status == Stashed && HoldOf(t, id) == HoldOf(s, id)
    {}
  }

  lemma BeginFades(policy: Policy, s: State)
    requires Loyal(s) && OwnJobs(s)
    ensures var t := Step(policy, s, BeginRelease); Fades(s, t) && Loyal(t)
  {
    var t := Step(policy, s, BeginRelease);
    assert forall id :: HoldOf(t, id) == HoldOf(s, id);
    BeginInv(policy, s);
  }

  lemma ReleaseNextIs(policy: Policy, s: State, reply: Reply)
    requires s.holder.Releasing? && s.holder.todo != {}
    ensures var t, id := Step(policy, s, ReleaseNext(reply)), Least(s.holder.todo);
            && t.docs == s.docs
            && (t.tasks == s.tasks
                || (id in s.tasks && s.tasks[id].status == Stashed && t.tasks == With(s, id, Queued).tasks))
            && (|| t.holder == Free
                || t.holder == s.holder.(todo := s.holder.todo - {id})
                || (&& t.holder == Consuming(id,
                                         s.holder.(todo := s.holder.todo - {id}, released := s.holder.released + {id}))
                    && (id in t.tasks ==> t.tasks[id].status != Stashed)))
  {}

  lemma QueuingFades(s: State, t: State, id: nat)
    requires id in s.tasks && HoldOf(s, id).Some? && t.docs == s.docs && t.tasks == With(s, id, Queued).tasks
    ensures Fades(s, t)
  {
    forall other | other in t.tasks && t.tasks[other].status == Stashed
      ensures s.tasks[other].status == Stashed && HoldOf(t, other) == HoldOf(s, other)
    {}
    forall other | other in AdmittedSet(t) ensures other in AdmittedSet(s) + Held(s) {
      assert other == id ==> other in Held(s);
    }
  }

  lemma SameTasksFade(s: State, t: State)
    requires t.docs == s.docs && t.tasks == s.tasks
    ensures Fades(s, t) && forall id :: HoldOf(t, id) == HoldOf(s, id)
  {
    forall id ensures HoldOf(t, id) == HoldOf(s, id) {}
    assert AdmittedSet(t) == AdmittedSet(s);
  }

  lemma ReleaseNextFades(policy: Policy, s: State, reply: Reply)
    requires Loyal(s)
    ensures var t := Step(policy, s, ReleaseNext(reply)); Fades(s, t) && Loyal(t)
  {
    var t := Step(policy, s, ReleaseNext(reply));
    if s.holder.Releasing? && s.holder.todo != {} {
      var id := Least(s.holder.todo);
      ReleaseNextIs(policy, s, reply);
      if t.tasks == s.tasks {
        SameTasksFade(s, t);
      } else {
        assert HoldOf(s, id) == Some(s.holder.held[id]);
        QueuingFades(s, t, id);
      }
    } else {
      SameTasksFade(s, t);
    }
  }

  lemma ConsumeFades(policy: Policy, s: State)
    requires Loyal(s)
    ensures var t := Step(policy, s, Consume); Fades(s, t) && Loyal(t)
  {
    var t := Step(policy, s, Consume);
    forall id | id in t.tasks && t.tasks[id].status == Stashed
      ensures s.tasks[id].status == Stashed && HoldOf(t, id) == HoldOf(s, id)
    {}
  }

  lemma StepFades(policy: Policy, s: State, action: Action)
    requires Loyal(s) && OwnJobs(s) && !Arrives(action)
    ensures var t := Step(policy, s, action); Fades(s, t) && Loyal(t)
  {
    match action
    case BeginRelease => BeginFades(policy, s);
    case ReleaseNext(reply) => ReleaseNextFades(policy, s, reply);
    case Consume => ConsumeFades(policy, s);
    case EndRelease | Drop => assert forall id :: HoldOf(Step(policy, s, action), id) == HoldOf(s, id);
    case _ => QueueFades(s, action);
  }

  lemma FadesIsTransitive(s: State, t: State, u: State)
    requires Fades(s, t) && Fades(t, u)
    ensures Fades(s, u)
  {
    FadesHolds(s, t);
  }

  lemma FadesHolds(s: State, t: State)
    requires Fades(s, t)
    ensures Held(t) <= Held(s) && forall id :: Stuck(t, id) ==> Stuck(s, id)
    ensures forall policy :: Drainable(policy, s) ==> Drainable(policy, t)
  {
    forall policy | Drainable(policy, s) ensures Drainable(policy, t) {
      forall id, other | id in Held(t) && Stuck(t, other) ensures !Exclude(policy, t.tasks, id, other) {
        assert id in Held(s) && Stuck(s, other);
      }
    }
  }

  lemma {:induction false} RunFades(policy: Policy, s: State, actions: seq<Action>)
    requires Inv(policy, s) && OwnJobs(s) && Loyal(s) && NoneArrives(actions)
    ensures var t := Run(policy, s, actions);
            Inv(policy, t) && OwnJobs(t) && Loyal(t) && Fades(s, t)
    decreases |actions|
  {
    if actions != [] {
      var next := Step(policy, s, actions[0]);
      StepKeepsInv(policy, s, actions[0]);
      StepKeepsOwnJobs(policy, s, actions[0]);
      StepFades(policy, s, actions[0]);
      RunFades(policy, next, actions[1..]);
      FadesIsTransitive(s, next, Run(policy, next, actions[1..]));
    }
  }

  /** What is left to do: a held task has to be admitted and to finish. */
  function Work(s: State): nat {
    2 * |Held(s)| + |AdmittedSet(s)|
  }

  /** Nothing adds work; a task that is admitted no more and a task that is held no more take some away. */
  lemma FadesCounts(s: State, t: State)
    requires Fades(s, t)
    ensures Work(t) <= Work(s)
    ensures !(AdmittedSet(s) <= AdmittedSet(t)) || Held(t) != Held(s) ==> Work(t) < Work(s)
  {
    FadesHolds(s, t);
    forall id | id in AdmittedSet(t) ensures id in AdmittedSet(s) + (Held(s) - Held(t)) {}
    SetsCount(Held(s), Held(t), AdmittedSet(s), AdmittedSet(t));
  }

  lemma SetsCount(held: set<nat>, left: set<nat>, busy: set<nat>, later: set<nat>)
    requires left <= held && later <= busy + (held - left)
    ensures 2 * |left| + |later| <= 2 * |held| + |busy|
    ensures !(busy <= later) || left != held ==> 2 * |left| + |later| < 2 * |held| + |busy|
  {
    var gone, kept := held - left, busy * later;
    SubsetShrinks(later, kept + gone);
    SubsetShrinks(kept, busy);
    UnionCount(kept, gone);
    UnionCount(left, gone);
    SubsetShrinks(left, held);
    assert left + gone == held && left !! gone;
  }

  lemma UnionCount(a: set<nat>, b: set<nat>)
    ensures |a + b| <= |a| + |b| && (a !! b ==> |a + b| == |a| + |b|)
  {
    assert a + b == a + (b - a);
    SubsetShrinks(b - a, b);
  }

  /** A round: the queue works, a pass begins, and anything but a launch or a retry happens until the lock
      is free again: losses, deaths, more passes, more queue steps. */
  datatype Shift = Shift(queue: seq<Action>, turns: seq<Action>) {
    ghost predicate Valid() {
      NoneArrives(turns) && forall i :: 0 <= i < |queue| ==> QueueAction(queue[i])
    }
  }

  function AfterShift(policy: Policy, s: State, shift: Shift): State {
    Step(policy, Run(policy, Step(policy, Run(policy, s, shift.queue), BeginRelease), shift.turns), Drop)
  }

  lemma SubsetShrinks(a: set<nat>, b: set<nat>)
    requires a <= b
    ensures |a| <= |b| && (a != b ==> |a| < |b|)
  {
    var rest := b - a;
    assert b == a + rest && a !! rest;
    assert |b| == |a| + |rest|;
    if a != b { assert rest != {}; }
  }

  /** A request of the pass is carried out, acknowledged or not, before anything ends the pass. */
  predicate Asks(turns: seq<Action>) {
    turns != []
    && ((turns[0].ReleaseNext? && turns[0].reply != Failed(false)) || (QueueAction(turns[0]) && Asks(turns[1..])))
  }

  /** A round gets on: some admitted task is so no more, or none is admitted and the pass's first request
      is carried out. */
  ghost predicate Productive(policy: Policy, s: State, shift: Shift) {
    var e := Run(policy, s, shift.queue);
    !(AdmittedSet(s) <= AdmittedSet(e)) || (AdmittedSet(e) == {} && Asks(shift.turns))
  }

  lemma IdleLeavesPartnersHeld(policy: Policy, e: State)
    requires Ready(policy, e) && AdmittedSet(e) == {} && Held(e) != {}
    ensures PartnersHeld(policy, e, Least(Held(e)))
  {
    forall other: nat | Unfinished(e.tasks, other) && Exclude(policy, e.tasks, Least(Held(e)), other)
      ensures other in Held(e)
    {
      assert other !in AdmittedSet(e);
    }
  }

  /** A request for the least held task, which nothing blocks, ends its hold or finds it gone. */
  lemma {:induction false} AskReleases(policy: Policy, s: State, turns: seq<Action>, id: nat)
    requires Inv(policy, s) && OwnJobs(s) && Loyal(s) && NoneArrives(turns) && Asks(turns)
    requires s.holder.Releasing? && s.holder.todo != {} && id == Least(s.holder.todo) && id in s.holder.snapshot
    requires Unblocked(policy, s.holder, id)
    ensures id !in Held(Run(policy, s, turns))
    decreases |turns|
  {
    var t := Step(policy, s, turns[0]);
    StepKeepsInv(policy, s, turns[0]);
    StepKeepsOwnJobs(policy, s, turns[0]);
    StepFades(policy, s, turns[0]);
    if turns[0].ReleaseNext? {
      RequestReleases(policy, s, turns[0].reply, id);
      RunFades(policy, t, turns[1..]);
      FadesHolds(t, Run(policy, t, turns[1..]));
    } else {
      AskReleases(policy, t, turns[1..], id);
    }
  }

  lemma RequestReleases(policy: Policy, s: State, reply: Reply, id: nat)
    requires s.holder.Releasing? && s.holder.todo != {} && id == Least(s.holder.todo) && id in s.holder.snapshot
    requires Unblocked(policy, s.holder, id)
    requires reply != Failed(false)
    ensures HoldOf(Step(policy, s, ReleaseNext(reply)), id) == None
  {}

  lemma ShiftFades(policy: Policy, s: State, shift: Shift)
    requires Ready(policy, s) && shift.Valid()
    ensures var e := Run(policy, s, shift.queue); var b := Step(policy, e, BeginRelease);
            && Ready(policy, e) && Fades(s, e) && Fades(e, b) && Fades(b, AfterShift(policy, s, shift))
            && Inv(policy, b) && OwnJobs(b) && Loyal(b) && Ready(policy, AfterShift(policy, s, shift))
  {
    assert NoneArrives(shift.queue);
    var e := Run(policy, s, shift.queue);
    RunFades(policy, s, shift.queue);
    QueueRun(policy, s, shift.queue);
    FadesHolds(s, e);
    StepKeepsInv(policy, e, BeginRelease);
    StepKeepsOwnJobs(policy, e, BeginRelease);
    var b := Step(policy, e, BeginRelease);
    BeginFades(policy, e);
    RunFades(policy, b, shift.turns);
    var t := Run(policy, b, shift.turns);
    StepKeepsInv(policy, t, Drop);
    StepKeepsOwnJobs(policy, t, Drop);
    StepFades(policy, t, Drop);
    FadesIsTransitive(b, t, Step(policy, t, Drop));
    FadesHolds(e, b);
    FadesHolds(b, Step(policy, t, Drop));
  }

  lemma ShiftReleases(policy: Policy, s: State, shift: Shift)
    requires Ready(policy, s) && shift.Valid() && Asks(shift.turns)
    requires AdmittedSet(Run(policy, s, shift.queue)) == {} && Held(Run(policy, s, shift.queue)) != {}
    ensures !(Held(Run(policy, s, shift.queue)) <= Held(AfterShift(policy, s, shift)))
  {
    ShiftFades(policy, s, shift);
    var e := Run(policy, s, shift.queue);
    var b := Step(policy, e, BeginRelease);
    IdleLeavesPartnersHeld(policy, e);
    LeastIsUnblocked(policy, e);
    AskReleases(policy, b, shift.turns, Least(Held(e)));
    RunFades(policy, b, shift.turns);
    var t := Run(policy, b, shift.turns);
    StepFades(policy, t, Drop);
    FadesHolds(t, Step(policy, t, Drop));
  }

  /** No round adds work, and a productive one takes some away while a task is held. */
  lemma ShiftCounts(policy: Policy, s: State, shift: Shift)
    requires Ready(policy, s) && shift.Valid()
    ensures var t := AfterShift(policy, s, shift);
            && Ready(policy, t) && Held(t) <= Held(s) && Work(t) <= Work(s)
            && (Productive(policy, s, shift) && Held(t) != {} ==> Work(t) < Work(s))
  {
    ShiftFades(policy, s, shift);
    var e, t := Run(policy, s, shift.queue), AfterShift(policy, s, shift);
    var b := Step(policy, e, BeginRelease);
    FadesIsTransitive(e, b, t);
    FadesHolds(s, e);
    FadesHolds(e, t);
    FadesCounts(s, e);
    FadesCounts(e, t);
    if Productive(policy, s, shift) && AdmittedSet(s) <= AdmittedSet(e) && Held(e) != {} {
      ShiftReleases(policy, s, shift);
    }
  }

  function AfterShifts(policy: Policy, s: State, shifts: seq<Shift>): State
    decreases |shifts|
  {
    if shifts == [] then s else AfterShifts(policy, AfterShift(policy, s, shifts[0]), shifts[1..])
  }

  /** How many of the rounds get on. */
  ghost function Gains(policy: Policy, s: State, shifts: seq<Shift>): nat
    decreases |shifts|
  {
    if shifts == [] then 0
    else
      (if Productive(policy, s, shifts[0]) then 1 else 0)
      + Gains(policy, AfterShift(policy, s, shifts[0]), shifts[1..])
  }

  lemma {:induction false} ShiftsDrain(policy: Policy, s: State, shifts: seq<Shift>)
    requires Ready(policy, s) && forall i :: 0 <= i < |shifts| ==> shifts[i].Valid()
    requires Gains(policy, s, shifts) >= Work(s) || Held(s) == {}
    ensures Held(AfterShifts(policy, s, shifts)) == {}
    decreases |shifts|
  {
    if shifts != [] {
      ShiftCounts(policy, s, shifts[0]);
      ShiftsDrain(policy, AfterShift(policy, s, shifts[0]), shifts[1..]);
    }
  }

  /** After every run, once the lock is free and no held task has a stuck partner: whatever is lost, dies or
      is delayed, all holds are released once as many rounds have got on as the work there was. */
  lemma HoldsDrainDespiteLoss(policy: Policy, actions: seq<Action>, shifts: seq<Shift>)
    requires var s := Run(policy, INITIAL, actions);
             s.holder == Free && Drainable(policy, s) && Gains(policy, s, shifts) >= Work(s)
    requires forall i :: 0 <= i < |shifts| ==> shifts[i].Valid()
    ensures Held(AfterShifts(policy, Run(policy, INITIAL, actions), shifts)) == {}
  {
    RunKeepsInv(policy, INITIAL, actions);
    RunKeepsOwnJobs(policy, INITIAL, actions);
    ShiftsDrain(policy, Run(policy, INITIAL, actions), shifts);
  }

  // ------------------------------------------------------- the code's own form

  predicate QueueAction(action: Action) {
    action.Start? || action.Finish? || action.Remove? || action.Reset?
  }

  lemma {:induction false} RunConcat(policy: Policy, s: State, first: seq<Action>, second: seq<Action>)
    ensures Run(policy, s, first + second) == Run(policy, Run(policy, s, first), second)
    decreases |first|
  {
    if first == [] {
      assert first + second == second;
    } else {
      RunConcat(policy, Step(policy, s, first[0]), first[1..], second);
      assert (first + second)[1..] == first[1..] + second;
    }
  }

  lemma RunSnoc(policy: Policy, s: State, trace: seq<Action>, action: Action)
    ensures Run(policy, s, trace + [action]) == Step(policy, Run(policy, s, trace), action)
  {
    RunConcat(policy, s, trace, [action]);
    assert [action][1..] == [];
  }

  lemma {:induction false} QueueRun(policy: Policy, s: State, actions: seq<Action>)
    requires forall i :: 0 <= i < |actions| ==> QueueAction(actions[i])
    ensures var t := Run(policy, s, actions);
            t.docs == s.docs && t.nextJob == s.nextJob && t.holder == s.holder
    ensures forall holder :: Run(policy, s.(holder := holder), actions) == Run(policy, s, actions).(holder := holder)
    decreases |actions|
  {
    if actions != [] {
      var t := Step(policy, s, actions[0]);
      QueueRun(policy, t, actions[1..]);
      forall holder ensures Run(policy, s.(holder := holder), actions) == Run(policy, s, actions).(holder := holder) {
        assert Step(policy, s.(holder := holder), actions[0]) == t.(holder := holder);
      }
    }
  }

  datatype Launch = Launched(id: nat, hold: Option<Hold>) | ExcludesLauncher | UnknownGroup | Uncertain(job: nat)

  lemma BeginInv(policy: Policy, s: State)
    ensures Holds(s).Keys == Held(s) <= Live(s.tasks).Keys <= s.tasks.Keys
    ensures forall id :: id in Live(s.tasks) ==> Live(s.tasks)[id] == s.tasks[id]
  {
    assert Holds(s).Keys == Held(s);
  }

  /** No two of these tasks exclude each other. */
  ghost predicate Compatible(policy: Policy, tasks: Tasks, ids: set<nat>) {
    forall a, b :: a in ids && b in ids ==> a in tasks && b in tasks && !Exclude(policy, tasks, a, b)
  }

  lemma ReleasedAreCompatible(policy: Policy, start: State, s: State)
    requires Inv(policy, s) && s.holder.Releasing? && s.holder.snapshot == Live(start.tasks)
    ensures Compatible(policy, start.tasks, s.holder.released)
  {
    BeginInv(policy, start);
    forall a, b | a in s.holder.released && b in s.holder.released
      ensures a in start.tasks && b in start.tasks && !Exclude(policy, start.tasks, a, b)
    {
      assert !Exclude(policy, s.holder.snapshot, a, b);
    }
  }

  /** The held tasks are those still to examine, those released and those that wait. */
  ghost predicate Sorted(held: set<nat>, todo: set<nat>, released: set<nat>, waiting: set<nat>) {
    todo <= held && released + waiting == held - todo && released !! waiting
  }

  lemma SortedStep(held: set<nat>, todo: set<nat>, released: set<nat>, waiting: set<nat>, id: nat)
    requires Sorted(held, todo, released, waiting) && id in todo
    ensures Sorted(held, todo - {id}, released + {id}, waiting) && Sorted(held, todo - {id}, released, waiting + {id})
    ensures |todo - {id}| < |todo|
  {}

  datatype Turn = Waits | Releases | Fails

  /** The request for the least task still to examine, and its hold. */
  function Examined(policy: Policy, s: State, reply: Reply): State {
    var t := Step(policy, s, ReleaseNext(reply));
    if t.holder.Consuming? then Step(policy, t, Consume) else t
  }

  /** One turn of a pass, after what others do. */
  function TurnOf(policy: Policy, s: State, others: seq<Action>, reply: Reply): State {
    Examined(policy, Run(policy, s, others), reply)
  }

  lemma TurnShrinks(policy: Policy, s: State, others: seq<Action>, reply: Reply)
    requires s.holder.Releasing? && s.holder.todo != {}
    requires forall i :: 0 <= i < |others| ==> QueueAction(others[i])
    ensures var t := TurnOf(policy, s, others, reply).holder;
            t == Free || (t.Releasing? && t.todo == s.holder.todo - {Least(s.holder.todo)})
  {
    QueueRun(policy, s, others);
  }

  /** The rest of a pass, turn by turn, until a request fails or nothing is left to examine. */
  function Turns(policy: Policy, s: State, others: nat -> seq<Action>, replies: nat -> Reply, n: nat): State
    requires forall n, i :: 0 <= i < |others(n)| ==> QueueAction(others(n)[i])
    decreases if s.holder.Releasing? then |s.holder.todo| else 0
  {
    if !s.holder.Releasing? || s.holder.todo == {} then s
    else
      TurnShrinks(policy, s, others(n), replies(n));
      Turns(policy, TurnOf(policy, s, others(n), replies(n)), others, replies, n + 1)
  }

  /** The queue and the launch inputs that admission changes, under the admission lock. */
  class Launcher {
    var tasks: Tasks
    var docs: map<nat, Doc>
    var nextId: nat
    var nextJob: nat

    constructor ()
      ensures World(Free) == INITIAL
    {
      tasks, docs, nextId, nextJob := map[], map[], 1, 0;
    }

    ghost function World(holder: Holder): State
      reads this
    {
      State(tasks, docs, nextId, nextJob, holder)
    }

    ghost predicate Valid(policy: Policy)
      reads this
    {
      Inv(policy, World(Free)) && forall job :: job in docs ==> job < nextJob
    }

    /** What the queue does by itself meanwhile. */
    method Others(policy: Policy, actions: seq<Action>, ghost holder: Holder,
                  ghost start: State, ghost trace: seq<Action>)
      returns (ghost longer: seq<Action>)
      requires World(holder) == Run(policy, start, trace)
      requires forall i :: 0 <= i < |actions| ==> QueueAction(actions[i])
      modifies `tasks, `nextId
      ensures longer == trace + actions && World(holder) == Run(policy, start, longer)
      ensures World(holder) == Run(policy, old(World(holder)), actions) && docs == old(docs) && nextJob == old(nextJob)
    {
      longer := trace + actions;
      RunConcat(policy, start, trace, actions);
      var before := State(tasks, docs, nextId, nextJob, Free);
      QueueRun(policy, before, actions);
      var after := Run(policy, before, actions);
      tasks, nextId := after.tasks, after.nextId;
      assert before.(holder := holder) == old(World(holder));
    }

    method Enqueue(policy: Policy, group: Pool, launcher: Option<Pool>, known: bool, others: seq<Action>, reply: Reply)
      returns (result: Launch, ghost trace: seq<Action>)
      requires Valid(policy)
      requires forall i :: 0 <= i < |others| ==> QueueAction(others[i])
      modifies this
      ensures World(Free) == Run(policy, old(World(Free)), trace) && Valid(policy)
      ensures result == ExcludesLauncher <==> launcher.Some? && Declared(policy, group, launcher.value)
      ensures result == ExcludesLauncher ==> World(Free) == old(World(Free))
      ensures result != ExcludesLauncher ==>
        && trace == [BeginEnqueue(group, launcher)] + others + [if known then Add(reply) else RefuseGroup]
        && (result == UnknownGroup <==> !known) && (result.Launched? <==> known && reply == Acknowledged)
      ensures result == UnknownGroup ==> docs == old(docs)
      ensures result.Launched? ==>
        && result.id in tasks && tasks[result.id] == Task(old(nextJob), group,
                                                          if result.hold.Some? then Stashed else Queued)
        && docs == old(docs)[old(nextJob) := Doc(group, result.hold)]
        && (match result.hold
            case None => AreExcluding(policy, group, old(tasks), {})
            case Some(hold) => hold.pool == group && AreExcluding(policy, group, old(tasks), hold.waitingFor))
    {
      ghost var start := World(Free);
      trace := [];
      HoldIffExcluded(policy, group, tasks);
      if launcher.Some? { PartnersAreDeclared(policy, group, launcher.value); }
      if launcher.Some? && launcher.value in Partners(policy, group) {
        return ExcludesLauncher, trace;
      }
      var job, hold := nextJob, AdmissionHold(policy, group, tasks);
      docs, nextJob := docs[job := Doc(group, hold)], nextJob + 1;
      RunSnoc(policy, start, trace, BeginEnqueue(group, launcher));
      trace := trace + [BeginEnqueue(group, launcher)];
      ghost var adding := Adding(job, group, hold);
      trace := Others(policy, others, adding, start, trace);
      if !known {
        trace := Unlink(policy, job, group, hold, start, trace);
        RunKeepsInv(policy, start, trace);
        assert docs == start.docs;
        return UnknownGroup, trace;
      }
      var id;
      id, trace := AddTask(policy, job, group, hold, reply, start, trace);
      RunKeepsInv(policy, start, trace);
      result := if reply == Acknowledged then Launched(id, hold) else Uncertain(job);
    }

    method Unlink(policy: Policy, job: nat, group: Pool, hold: Option<Hold>,
                  ghost start: State, ghost trace: seq<Action>)
      returns (ghost longer: seq<Action>)
      requires World(Adding(job, group, hold)) == Run(policy, start, trace)
      modifies `docs
      ensures World(Free) == Run(policy, start, longer) && docs == old(docs) - {job}
      ensures longer == trace + [RefuseGroup]
    {
      RunSnoc(policy, start, trace, RefuseGroup);
      longer := trace + [RefuseGroup];
      docs := docs - {job};
    }

    method AddTask(policy: Policy, job: nat, group: Pool, hold: Option<Hold>, reply: Reply,
                   ghost start: State, ghost trace: seq<Action>) returns (id: nat, ghost longer: seq<Action>)
      requires World(Adding(job, group, hold)) == Run(policy, start, trace)
      modifies `tasks, `nextId
      ensures World(Free) == Run(policy, start, longer) && longer == trace + [Add(reply)]
      ensures reply != Failed(false) ==>
        id == old(nextId) && tasks == old(tasks)[id := Task(job, group, if hold.Some? then Stashed else Queued)]
    {
      RunSnoc(policy, start, trace, Add(reply));
      longer := trace + [Add(reply)];
      id := nextId;
      if reply != Failed(false) {
        tasks, nextId := tasks[id := Task(job, group, if hold.Some? then Stashed else Queued)], nextId + 1;
      }
    }

    /** One turn of the release: the task waits, is released, or the request fails. */
    method ReleaseOne(policy: Policy, id: nat, reply: Reply, snapshot: Tasks, held: map<nat, Hold>,
                      ghost todo: set<nat>, ghost released: set<nat>, ghost start: State, ghost trace: seq<Action>)
      returns (turn: Turn, ghost longer: seq<Action>)
      requires World(Releasing(snapshot, held, todo, released)) == Run(policy, start, trace)
      requires todo != {} && id == Least(todo) && todo <= held.Keys && held.Keys <= snapshot.Keys
      modifies `tasks, `docs
      ensures docs.Keys == old(docs.Keys)
      ensures World(match turn
                    case Fails => Free
                    case Waits => Releasing(snapshot, held, todo - {id}, released)
                    case Releases => Releasing(snapshot, held, todo - {id}, released + {id}))
        == Run(policy, start, longer) == Examined(policy, old(World(Releasing(snapshot, held, todo, released))), reply)
    {
      ghost var rest := Releasing(snapshot, held, todo - {id}, released + {id});
      RunSnoc(policy, start, trace, ReleaseNext(reply));
      longer := trace + [ReleaseNext(reply)];
      if Blocking(policy, snapshot[id].group, snapshot, Some(id), held.Keys) != {} {
        return Waits, longer;
      }
      if id !in tasks || reply == Failed(false) {
        return Fails, longer;
      }
      if tasks[id].status == Stashed {
        tasks := tasks[id := tasks[id].(status := Queued)];
      }
      if reply != Acknowledged {
        return Fails, longer;
      }
      ghost var before := World(Consuming(id, rest));
      longer := ConsumeHold(policy, id, snapshot, held, todo - {id}, released + {id}, start, longer);
      assert World(rest) == Step(policy, before, Consume);
      turn := Releases;
    }

    /** What others do before one turn of the release, and the turn. */
    method ReleaseTurn(policy: Policy, others: seq<Action>, id: nat, reply: Reply, snapshot: Tasks,
                       held: map<nat, Hold>, ghost todo: set<nat>, ghost released: set<nat>,
                       ghost start: State, ghost trace: seq<Action>)
      returns (turn: Turn, ghost longer: seq<Action>)
      requires World(Releasing(snapshot, held, todo, released)) == Run(policy, start, trace)
      requires forall i :: 0 <= i < |others| ==> QueueAction(others[i])
      requires todo != {} && id == Least(todo) && todo <= held.Keys && held.Keys <= snapshot.Keys
      modifies this
      ensures docs.Keys == old(docs.Keys) && nextJob == old(nextJob)
      ensures World(match turn
                    case Fails => Free
                    case Waits => Releasing(snapshot, held, todo - {id}, released)
                    case Releases => Releasing(snapshot, held, todo - {id}, released + {id}))
        == Run(policy, start, longer)
        == TurnOf(policy, old(World(Releasing(snapshot, held, todo, released))), others, reply)
    {
      longer := Others(policy, others, Releasing(snapshot, held, todo, released), start, trace);
      turn, longer := ReleaseOne(policy, id, reply, snapshot, held, todo, released, start, longer);
    }

    /** The loop over the held tasks, least number first. */
    method ReleaseEach(policy: Policy, others: nat -> seq<Action>, replies: nat -> Reply, snapshot: Tasks,
                       held: map<nat, Hold>, ghost start: State, ghost before: seq<Action>)
      returns (released: set<nat>, waiting: set<nat>, failed: bool, ghost trace: seq<Action>)
      requires World(Releasing(snapshot, held, held.Keys, {})) == Run(policy, start, before)
      requires held.Keys <= snapshot.Keys
      requires forall n, i :: 0 <= i < |others(n)| ==> QueueAction(others(n)[i])
      modifies this
      ensures World(if failed then Free else Releasing(snapshot, held, {}, released)) == Run(policy, start, trace)
      ensures World(if failed then Free else Releasing(snapshot, held, {}, released))
        == Turns(policy, old(World(Releasing(snapshot, held, held.Keys, {}))), others, replies, 0)
      ensures docs.Keys == old(docs.Keys) && nextJob == old(nextJob)
      ensures failed ==> released == waiting == {}
      ensures !failed ==> released + waiting == held.Keys && released !! waiting
    {
      var todo, turns := held.Keys, 0;
      released, waiting, failed, trace := {}, {}, false, before;
      while todo != {}
        invariant World(Releasing(snapshot, held, todo, released)) == Run(policy, start, trace)
        invariant Turns(policy, World(Releasing(snapshot, held, todo, released)), others, replies, turns)
          == Turns(policy, old(World(Releasing(snapshot, held, held.Keys, {}))), others, replies, 0)
        invariant docs.Keys == old(docs.Keys) && nextJob == old(nextJob)
        invariant Sorted(held.Keys, todo, released, waiting)
        decreases |todo|
      {
        var id := Least(todo);
        var turn;
        turn, trace :=
          ReleaseTurn(policy, others(turns), id, replies(turns), snapshot, held, todo, released, start, trace);
        SortedStep(held.Keys, todo, released, waiting, id);
        todo, turns := todo - {id}, turns + 1;
        match turn
        case Fails => return {}, {}, true, trace;
        case Waits => waiting := waiting + {id};
        case Releases => released := released + {id};
      }
    }

    /** Release what its partners no longer block. */
    method ReleaseHolds(policy: Policy, others: nat -> seq<Action>, replies: nat -> Reply)
      returns (released: set<nat>, waiting: set<nat>, failed: bool, ghost trace: seq<Action>)
      requires Valid(policy)
      requires forall n, i :: 0 <= i < |others(n)| ==> QueueAction(others(n)[i])
      modifies this
      ensures World(Free) == Run(policy, old(World(Free)), trace) && Valid(policy)
      ensures var end := Turns(policy, Step(policy, old(World(Free)), BeginRelease), others, replies, 0);
        && World(Free) == end.(holder := Free) && failed == (end.holder == Free)
        && (!failed ==> end.holder.Releasing? && released == end.holder.released)
      ensures failed ==> released == waiting == {}
      ensures !failed ==> released + waiting == Held(old(World(Free))) && released !! waiting
      ensures Compatible(policy, old(tasks), released)
    {
      ghost var start := World(Free);
      var snapshot, held := Live(tasks), Holds(State(tasks, docs, nextId, nextJob, Free));
      BeginInv(policy, start);
      RunSnoc(policy, start, [], BeginRelease);
      released, waiting, failed, trace :=
          ReleaseEach(policy, others, replies, snapshot, held, start, [] + [BeginRelease]);
      RunKeepsInv(policy, start, trace);
      if !failed {
        ReleasedAreCompatible(policy, start, World(Releasing(snapshot, held, {}, released)));
        RunSnoc(policy, start, trace, EndRelease);
        trace := trace + [EndRelease];
        RunKeepsInv(policy, start, trace);
      }
    }

    /** A terminal task starts again under the admission of a new launch. */
    method Retry(policy: Policy, id: nat, launcher: Option<Pool>, others: seq<Action>, reply: Reply)
      returns (refused: bool, ghost trace: seq<Action>)
      requires Valid(policy)
      requires forall i :: 0 <= i < |others| ==> QueueAction(others[i])
      modifies this
      ensures World(Free) == Run(policy, old(World(Free)), trace) && Valid(policy)
      ensures refused <==> !MayRetry(policy, old(World(Free)), id, launcher)
      ensures refused ==> World(Free) == old(World(Free))
      ensures !refused ==> trace == [BeginRetry(id, launcher)] + others + [Restart(reply), WriteHold]
    {
      ghost var start := World(Free);
      trace := [];
      if id in tasks {
        HoldIffExcluded(policy, tasks[id].group, tasks);
        if launcher.Some? { PartnersAreDeclared(policy, tasks[id].group, launcher.value); }
      }
      if id !in tasks || tasks[id].status != Done ||
         (launcher.Some? && launcher.value in Partners(policy, tasks[id].group)) {
        return true, trace;
      }
      var hold := AdmissionHold(policy, tasks[id].group, tasks);
      if hold.Some? && tasks[id].job !in docs {
        return true, trace;
      }
      RunSnoc(policy, start, trace, BeginRetry(id, launcher));
      trace := trace + [BeginRetry(id, launcher)];
      trace := Others(policy, others, Restarting(id, hold), start, trace);
      trace := RestartTask(policy, id, hold, reply, start, trace);
      RunKeepsInv(policy, start, trace);
      refused := false;
    }

    method RestartTask(policy: Policy, id: nat, hold: Option<Hold>, reply: Reply,
                       ghost start: State, ghost trace: seq<Action>)
      returns (ghost longer: seq<Action>)
      requires World(Restarting(id, hold)) == Run(policy, start, trace)
      modifies `tasks, `docs
      ensures World(Free) == Run(policy, start, longer) && docs.Keys == old(docs.Keys)
      ensures longer == trace + [Restart(reply), WriteHold]
    {
      RunSnoc(policy, start, trace, Restart(reply));
      longer := trace + [Restart(reply)];
      RunSnoc(policy, start, longer, WriteHold);
      assert longer + [WriteHold] == trace + [Restart(reply), WriteHold];
      if id !in tasks || reply == Failed(false) {
        return longer + [WriteHold];
      }
      if tasks[id].status == Done {
        tasks := tasks[id := tasks[id].(status := if hold.Some? then Stashed else Queued)];
      }
      if reply == Acknowledged && hold.Some? {
        longer := WriteHeld(policy, id, hold.value, start, longer);
      } else {
        longer := longer + [WriteHold];
      }
    }

    method WriteHeld(policy: Policy, id: nat, hold: Hold, ghost start: State, ghost trace: seq<Action>)
      returns (ghost longer: seq<Action>)
      requires World(Holding(id, hold)) == Run(policy, start, trace)
      modifies `docs
      ensures World(Free) == Run(policy, start, longer) && docs.Keys == old(docs.Keys)
      ensures longer == trace + [WriteHold]
    {
      RunSnoc(policy, start, trace, WriteHold);
      longer := trace + [WriteHold];
      if id in tasks && tasks[id].job in docs {
        var job := tasks[id].job;
        docs := docs[job := docs[job].(hold := Some(hold))];
      }
    }

    /** The hold is cleared if it is still the one that was read. */
    method ConsumeHold(policy: Policy, id: nat, snapshot: Tasks, held: map<nat, Hold>,
                       ghost todo: set<nat>, ghost released: set<nat>, ghost start: State, ghost trace: seq<Action>)
      returns (ghost longer: seq<Action>)
      requires World(Consuming(id, Releasing(snapshot, held, todo, released))) == Run(policy, start, trace)
      requires id in snapshot && id in held
      modifies `docs
      ensures World(Releasing(snapshot, held, todo, released)) == Run(policy, start, longer)
      ensures longer == trace + [Consume] && docs.Keys == old(docs.Keys)
      ensures World(Releasing(snapshot, held, todo, released))
        == Step(policy, old(World(Consuming(id, Releasing(snapshot, held, todo, released)))), Consume)
    {
      RunSnoc(policy, start, trace, Consume);
      longer := trace + [Consume];
      var job, group := snapshot[id].job, snapshot[id].group;
      if job in docs && docs[job] == Doc(group, Some(held[id])) {
        docs := docs[job := Doc(group, None)];
      }
    }
  }
}
