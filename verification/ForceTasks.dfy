/** The tasks of all sweeps and what their locks keep on every run, whatever events are seen. */
module ForceTasks {
  import opened Wrappers
  import TaskLocks
  import TaskProgress
  import opened ForceTables

  // --- Each call has its own task -------------------------------------------------------------

  function TasksOf(tasks: set<TaskLocks.TaskId>, c: TaskLocks.Call): set<TaskLocks.TaskId> {
    set t | t in tasks && t.call == c
  }

  // Serial numbers are given out once, and there are as many tasks for a call as calls were made.
  ghost predicate SerialInv(s: System) {
    forall t :: t in s.locks.tasks ==> t.serial < s.serial
  }

  ghost predicate CountInv(s: System) {
    forall c :: s.calls[c] == |TasksOf(s.locks.tasks.Keys, c)|
  }

  lemma {:induction false} TaskSetSerials(t: Tables, order: seq<(real, nat)>, serial: nat)
    ensures forall x :: x in TaskSet(t, order, serial) ==> serial <= x.serial < serial + |order|
  {
    if order != [] {
      TaskSetSerials(t, order[..|order| - 1], serial);
    }
  }

  lemma TasksOfNumbered(calls: set<TaskLocks.Call>, serial: nat, c: TaskLocks.Call)
    ensures TasksOf(Numbered(calls, serial), c) == if c in calls then {TaskLocks.TaskId(c, serial)} else {}
  {
  }

  lemma TasksOfUnion(a: set<TaskLocks.TaskId>, b: set<TaskLocks.TaskId>, c: TaskLocks.Call)
    requires a !! b
    ensures |TasksOf(a + b, c)| == |TasksOf(a, c)| + |TasksOf(b, c)|
  {
    assert TasksOf(a + b, c) == TasksOf(a, c) + TasksOf(b, c);
    assert TasksOf(a, c) !! TasksOf(b, c);
  }

  lemma NumberedApart(before: set<TaskLocks.TaskId>, calls: set<TaskLocks.Call>, serial: nat)
    requires forall x :: x in before ==> x.serial < serial
    ensures before !! Numbered(calls, serial)
  {
  }

  lemma NumberedCount(before: set<TaskLocks.TaskId>, calls: set<TaskLocks.Call>, serial: nat, c: TaskLocks.Call)
    requires forall x :: x in before ==> x.serial < serial
    ensures |TasksOf(before + Numbered(calls, serial), c)| == |TasksOf(before, c)| + if c in calls then 1 else 0
  {
    NumberedApart(before, calls, serial);
    TasksOfUnion(before, Numbered(calls, serial), c);
    TasksOfNumbered(calls, serial, c);
  }

  lemma TaskSetLast(t: Tables, order: seq<(real, nat)>, serial: nat)
    requires order != []
    ensures var k := |order| - 1;
      TaskSet(t, order, serial) == TaskSet(t, order[..k], serial) + Numbered(CallsFor(t, order[k].1), serial + k)
  {
  }

  lemma TaskSetNext(t: Tables, order: seq<(real, nat)>, serial: nat, c: TaskLocks.Call)
    requires order != []
    ensures var k := |order| - 1;
      |TasksOf(TaskSet(t, order, serial), c)|
      == |TasksOf(TaskSet(t, order[..k], serial), c)| + if c in CallsFor(t, order[k].1) then 1 else 0
  {
    var k := |order| - 1;
    TaskSetSerials(t, order[..k], serial);
    TaskSetLast(t, order, serial);
    NumberedCount(TaskSet(t, order[..k], serial), CallsFor(t, order[k].1), serial + k, c);
  }

  lemma CallBagLast(t: Tables, order: seq<(real, nat)>, c: TaskLocks.Call)
    requires order != []
    ensures var k := |order| - 1;
      CallBag(t, order)[c] == CallBag(t, order[..k])[c] + if c in CallsFor(t, order[k].1) then 1 else 0
  {
  }

  lemma {:induction false} TaskSetCount(t: Tables, order: seq<(real, nat)>, serial: nat, c: TaskLocks.Call)
    ensures |TasksOf(TaskSet(t, order, serial), c)| == CallBag(t, order)[c]
  {
    if order == [] {
      assert TasksOf({}, c) == {};
    } else {
      var k := |order| - 1;
      TaskSetCount(t, order[..k], serial, c);
      TaskSetNext(t, order, serial, c);
      CallBagLast(t, order, c);
    }
  }

  // A sweep's tasks are new.
  lemma SweepIsFresh(s: System, order: seq<(real, nat)>)
    requires SerialInv(s)
    ensures TaskSet(s.tables, order, s.serial) !! s.locks.tasks.Keys
  {
    TaskSetSerials(s.tables, order, s.serial);
  }

  lemma SweepCount(s: System, order: seq<(real, nat)>, c: TaskLocks.Call)
    requires SerialInv(s)
    ensures |TasksOf(s.locks.tasks.Keys + TaskSet(s.tables, order, s.serial), c)|
         == |TasksOf(s.locks.tasks.Keys, c)| + CallBag(s.tables, order)[c]
  {
    var added := TaskSet(s.tables, order, s.serial);
    SweepIsFresh(s, order);
    TaskSetCount(s.tables, order, s.serial, c);
    TasksOfUnion(s.locks.tasks.Keys, added, c);
  }

  lemma StepSerials(cfg: Settings, s: System, e: Event)
    requires SerialInv(s) && Enabled(cfg, s, e)
    ensures SerialInv(Step(cfg, s, e))
  {
    if e.Act? {
      TaskLocks.ApplyRank(cfg.retries, s.locks, e.task, e.act);
    } else if e.RunSweep? {
      TaskSetSerials(s.tables, e.order, s.serial);
    }
  }

  lemma StepCount(cfg: Settings, s: System, e: Event)
    requires SerialInv(s) && CountInv(s) && Enabled(cfg, s, e)
    ensures CountInv(Step(cfg, s, e))
  {
    var s' := Step(cfg, s, e);
    if e.RunSweep? {
      assert s'.locks.tasks.Keys == s.locks.tasks.Keys + TaskSet(s.tables, e.order, s.serial);
      forall c ensures s'.calls[c] == |TasksOf(s'.locks.tasks.Keys, c)| {
        SweepCount(s, e.order, c);
      }
    } else {
      if e.Act? {
        TaskLocks.ApplyRank(cfg.retries, s.locks, e.task, e.act);
      }
      assert s'.locks.tasks.Keys == s.locks.tasks.Keys && s'.calls == s.calls;
    }
  }

  // Calls made once have one task.
  lemma OneTask(s: System, t: TaskLocks.TaskId, u: TaskLocks.TaskId)
    requires CountInv(s) && t in s.locks.tasks && u in s.locks.tasks && t.call == u.call && s.calls[t.call] <= 1
    ensures t == u
  {
    var ts := TasksOf(s.locks.tasks.Keys, t.call);
    assert t in ts && u in ts;
    assert |ts - {t}| == |ts| - 1 == 0;
    assert u !in ts - {t};
  }

  lemma HasTask(s: System, t: TaskLocks.TaskId)
    requires CountInv(s) && t in s.locks.tasks
    ensures s.calls[t.call] >= 1
  {
    assert t in TasksOf(s.locks.tasks.Keys, t.call);
  }

  // --- The locks ------------------------------------------------------------------------------

  ghost predicate LocksInv(l: TaskLocks.Locks) {
    && TaskLocks.PermitInv(l) && TaskLocks.LockInv(l) && TaskLocks.NonceInv(l)
    && TaskLocks.SentInv(l) && TaskLocks.HandedInv(l)
  }

  lemma StepLocks(cfg: Settings, s: System, e: Event)
    requires LocksInv(s.locks) && SerialInv(s) && Enabled(cfg, s, e)
    ensures LocksInv(Step(cfg, s, e).locks)
  {
    if e.Act? {
      TaskLocks.ApplyPermits(cfg.retries, s.locks, e.task, e.act);
      TaskLocks.ApplyLock(cfg.retries, s.locks, e.task, e.act);
      TaskLocks.ApplyNonce(cfg.retries, s.locks, e.task, e.act);
      TaskLocks.ApplySent(cfg.retries, s.locks, e.task, e.act);
      TaskLocks.ApplyHanded(cfg.retries, s.locks, e.task, e.act);
    } else if e.RunSweep? {
      var added := TaskSet(s.tables, e.order, s.serial);
      SweepIsFresh(s, e.order);
      TaskLocks.SpawnPermits(s.locks, added);
      TaskLocks.SpawnLock(s.locks, added);
      TaskLocks.SpawnSent(s.locks, added);
      TaskLocks.SpawnHanded(s.locks, added);
    }
  }

  // --- Whole runs -----------------------------------------------------------------------------

  ghost predicate TasksInv(s: System) {
    SerialInv(s) && CountInv(s) && LocksInv(s.locks)
  }

  lemma StartTasks(now: real, nonce: int)
    ensures TasksInv(Start(now, nonce))
  {
    var s := Start(now, nonce);
    forall c ensures s.calls[c] == |TasksOf(s.locks.tasks.Keys, c)| {
      assert TasksOf(s.locks.tasks.Keys, c) == {};
    }
  }

  lemma StepTasks(cfg: Settings, s: System, e: Event)
    requires TasksInv(s) && Enabled(cfg, s, e)
    ensures TasksInv(Step(cfg, s, e))
  {
    StepSerials(cfg, s, e);
    StepCount(cfg, s, e);
    StepLocks(cfg, s, e);
  }

  lemma {:induction false} RunTasks(cfg: Settings, s: System, es: seq<Event>)
    requires TasksInv(s) && Run(cfg, s, es)
    ensures TasksInv(Exec(cfg, s, es))
    decreases |es|
  {
    if es != [] {
      StepTasks(cfg, s, es[0]);
      RunTasks(cfg, Step(cfg, s, es[0]), es[1..]);
    }
  }

  // On every run, raising bodies included: at most one task is in a locked body; the successful
  // transactions since the last nonce reset carry consecutive nonces; free permits, calls in
  // progress and raised bodies add up to 20; and every call that was made has its own task.
  lemma LockLaws(cfg: Settings, now: real, nonce: int, es: seq<Event>,
                 t: TaskLocks.TaskId, u: TaskLocks.TaskId, i: nat, j: nat, c: TaskLocks.Call)
    requires Run(cfg, Start(now, nonce), es)
    ensures var l := Exec(cfg, Start(now, nonce), es).locks;
      && (TaskLocks.InBody(l, t) && TaskLocks.InBody(l, u) ==> t == u)
      && (i < |l.sends| && j < |l.sends| ==> l.sends[j].nonce - l.sends[i].nonce == j - i)
      && l.permits >= 0
      && l.permits + |TaskLocks.Holders(l.tasks)| + l.leaks == 20
      && |TasksOf(l.tasks.Keys, c)| == Exec(cfg, Start(now, nonce), es).calls[c]
  {
    StartTasks(now, nonce);
    RunTasks(cfg, Start(now, nonce), es);
    var l := Exec(cfg, Start(now, nonce), es).locks;
    if TaskLocks.InBody(l, t) && TaskLocks.InBody(l, u) {
      TaskLocks.MutualExclusion(l, t, u);
    }
    if i < |l.sends| && j < |l.sends| {
      TaskLocks.ConsecutiveNonces(l, i, j);
    }
  }

  // The same after a raise, on every run: nobody is in a body or in its handler; who waits, waits for
  // a permit when all have leaked or for a lock that a raising task has kept.
  lemma WhoIsStuckAfterARaise(cfg: Settings, now: real, nonce: int, es: seq<Event>, t: TaskLocks.TaskId)
    requires Run(cfg, Start(now, nonce), es)
    requires var l := Exec(cfg, Start(now, nonce), es).locks; TaskLocks.Stuck(l) && l.leaks > 0 && t in l.tasks
    ensures var l := Exec(cfg, Start(now, nonce), es).locks;
      && l.owner.Some?
      && (|| l.tasks[t] == TaskLocks.Finished
          || (l.tasks[t].Wait? && l.permits == 0)
          || (l.tasks[t].Lock? && l.owner != Some(t)))
  {
    StartTasks(now, nonce);
    RunTasks(cfg, Start(now, nonce), es);
    TaskProgress.StuckAfterRaise(Exec(cfg, Start(now, nonce), es).locks, t);
  }

  // On every run, once no task can move other than by raising: all permits and the writer lock are
  // back if and only if no body has raised, and then every task has finished.
  lemma NoRaiseNoLoss(cfg: Settings, now: real, nonce: int, es: seq<Event>)
    requires Run(cfg, Start(now, nonce), es)
    requires TaskLocks.Stuck(Exec(cfg, Start(now, nonce), es).locks)
    ensures var l := Exec(cfg, Start(now, nonce), es).locks;
      && (l.permits == 20 && l.owner == None <==> l.leaks == 0)
      && (l.leaks == 0 ==> forall t :: t in l.tasks ==> l.tasks[t] == TaskLocks.Finished)
  {
    StartTasks(now, nonce);
    RunTasks(cfg, Start(now, nonce), es);
    TaskProgress.AtRestExact(Exec(cfg, Start(now, nonce), es).locks);
  }

  // --- After a raising body -------------------------------------------------------------------

  // The writer lock is task t's, and left so by a raising body.
  predicate FrozenBy(s: System, t: TaskLocks.TaskId) {
    s.locks.leaks > 0 && s.locks.owner == Some(t)
  }

  // The event takes a task other than t into or through a locked body.
  predicate EntersBody(e: Event, t: TaskLocks.TaskId) {
    e.Act? && e.task != t && (e.act.TakeLock? || e.act.BodyOk? || e.act.BodyRaises?)
  }

  // What was handed over since is task t's.
  ghost predicate OnlyBy(t: TaskLocks.TaskId, handed: seq<TaskLocks.Send>, handed': seq<TaskLocks.Send>) {
    handed <= handed' && forall k :: |handed| <= k < |handed'| ==> handed'[k].task == t
  }

  lemma StepFrozen(cfg: Settings, s: System, e: Event, t: TaskLocks.TaskId)
    requires TaskLocks.LockInv(s.locks) && FrozenBy(s, t) && Enabled(cfg, s, e)
    ensures FrozenBy(Step(cfg, s, e), t) && !EntersBody(e, t)
    ensures forall u :: u != t ==> Step(cfg, s, e).locks.sent[u] == s.locks.sent[u]
    ensures OnlyBy(t, s.locks.handed, Step(cfg, s, e).locks.handed)
  {
    if e.Act? {
      TaskLocks.LeakFreezesTheLock(cfg.retries, s.locks, e.task, e.act);
    }
  }

  // Once any locked body has raised, its task keeps the writer lock in every continuation, and no
  // other task ever gets into or through a locked body again: no transaction of it is sent.
  lemma {:induction false} FrozenForever(cfg: Settings, s: System, es: seq<Event>,
                                         t: TaskLocks.TaskId, u: TaskLocks.TaskId)
    requires TasksInv(s) && FrozenBy(s, t) && u != t && Run(cfg, s, es)
    ensures FrozenBy(Exec(cfg, s, es), t)
    ensures forall e :: e in es ==> !EntersBody(e, t)
    ensures Exec(cfg, s, es).locks.sent[u] == s.locks.sent[u]
    ensures OnlyBy(t, s.locks.handed, Exec(cfg, s, es).locks.handed)
    decreases |es|
  {
    if es != [] {
      StepFrozen(cfg, s, es[0], t);
      StepTasks(cfg, s, es[0]);
      FrozenForever(cfg, Step(cfg, s, es[0]), es[1..], t, u);
    }
  }

  // --- Every task ends ------------------------------------------------------------------------

  // The actions task t can still take.
  function Left(cfg: Settings, s: System, t: TaskLocks.TaskId): nat {
    if t in s.locks.tasks then TaskLocks.Rank(cfg.retries, s.locks.tasks[t]) else 0
  }

  function Moves(es: seq<Event>, t: TaskLocks.TaskId): nat {
    if es == [] then 0 else (if es[0].Act? && es[0].task == t then 1 else 0) + Moves(es[1..], t)
  }

  lemma StepLeft(cfg: Settings, s: System, e: Event, t: TaskLocks.TaskId)
    requires SerialInv(s) && Enabled(cfg, s, e) && t in s.locks.tasks
    ensures t in Step(cfg, s, e).locks.tasks
    ensures Left(cfg, Step(cfg, s, e), t) + (if e.Act? && e.task == t then 1 else 0) <= Left(cfg, s, t)
  {
    if e.Act? {
      TaskLocks.ApplyRank(cfg.retries, s.locks, e.task, e.act);
    } else if e.RunSweep? {
      SweepIsFresh(s, e.order);
    }
  }

  // Every task takes a bounded number of actions in every run, raising or not.
  lemma {:induction false} TaskIsBounded(cfg: Settings, s: System, es: seq<Event>, t: TaskLocks.TaskId)
    requires TasksInv(s) && t in s.locks.tasks && Run(cfg, s, es)
    ensures t in Exec(cfg, s, es).locks.tasks
    ensures Moves(es, t) + Left(cfg, Exec(cfg, s, es), t) <= Left(cfg, s, t)
    decreases |es|
  {
    if es != [] {
      StepLeft(cfg, s, es[0], t);
      StepTasks(cfg, s, es[0]);
      TaskIsBounded(cfg, Step(cfg, s, es[0]), es[1..], t);
    }
  }

  // The actions of all tasks.
  function Acts(es: seq<Event>): nat {
    if es == [] then 0 else (if es[0].Act? then 1 else 0) + Acts(es[1..])
  }

  // The actions the present tasks can still take, less those all of them started with.
  ghost function Budget(cfg: Settings, s: System): int {
    TaskProgress.Total(cfg.retries, s.locks.tasks) - |s.locks.tasks| * TaskProgress.FreshRank(cfg.retries)
  }

  lemma StepBudget(cfg: Settings, s: System, e: Event)
    requires SerialInv(s) && Enabled(cfg, s, e)
    ensures (if e.Act? then 1 else 0) + Budget(cfg, Step(cfg, s, e)) <= Budget(cfg, s)
  {
    var l, l' := s.locks, Step(cfg, s, e).locks;
    if e.Act? {
      TaskLocks.ApplyRank(cfg.retries, l, e.task, e.act);
      TaskProgress.ApplyTotal(cfg.retries, l, e.task, e.act);
      assert |l'.tasks| == |l'.tasks.Keys| && |l.tasks| == |l.tasks.Keys|;
    } else if e.RunSweep? {
      SweepIsFresh(s, e.order);
      TaskProgress.SpawnTotal(cfg.retries, l, TaskSet(s.tables, e.order, s.serial));
    } else {
      assert l' == l;
    }
  }

  lemma {:induction false} RunBudget(cfg: Settings, s: System, es: seq<Event>)
    requires TasksInv(s) && Run(cfg, s, es)
    ensures Acts(es) + Budget(cfg, Exec(cfg, s, es)) <= Budget(cfg, s)
    decreases |es|
  {
    if es != [] {
      StepBudget(cfg, s, es[0]);
      StepTasks(cfg, s, es[0]);
      RunBudget(cfg, Step(cfg, s, es[0]), es[1..]);
    }
  }

  lemma StartBudget(cfg: Settings, now: real, nonce: int)
    ensures Budget(cfg, Start(now, nonce)) == 0
  {
    assert |Start(now, nonce).locks.tasks| * TaskProgress.FreshRank(cfg.retries) == 0;
  }

  // On every run, raising or not, the tasks take no more actions than the ranks of all created tasks
  // add up to, however they interleave: no run of the tasks goes on for ever.
  lemma ActsAreBounded(cfg: Settings, now: real, nonce: int, es: seq<Event>)
    requires Run(cfg, Start(now, nonce), es)
    ensures var l := Exec(cfg, Start(now, nonce), es).locks;
      Acts(es) + TaskProgress.Total(cfg.retries, l.tasks) <= |l.tasks| * TaskProgress.FreshRank(cfg.retries)
  {
    StartTasks(now, nonce);
    StartBudget(cfg, now, nonce);
    RunBudget(cfg, Start(now, nonce), es);
  }

  // An action of a task that neither raises nor fails to get the lock.
  predicate Smooth(e: Event) {
    e.Act? && !e.act.BodyRaises? && !e.act.LockFails?
  }

  ghost predicate FinishedBy(cfg: Settings, s: System, es: seq<Event>) {
    && Run(cfg, s, es)
    && (forall e :: e in es ==> Smooth(e))
    && var s' := Exec(cfg, s, es);
       && s'.locks.tasks.Keys == s.locks.tasks.Keys
       && (forall t :: t in s'.locks.tasks ==> s'.locks.tasks[t] == TaskLocks.Finished)
       && s'.locks.permits == 20 && s'.locks.owner == None
  }

  lemma FinishedCons(cfg: Settings, s: System, e: Event, es: seq<Event>)
    requires Smooth(e) && Enabled(cfg, s, e) && FinishedBy(cfg, Step(cfg, s, e), es)
    ensures FinishedBy(cfg, s, [e] + es)
  {
    TaskLocks.ApplyRank(cfg.retries, s.locks, e.task, e.act);
    assert ([e] + es)[1..] == es;
  }

  lemma SmoothStep(cfg: Settings, s: System, e: Event)
    requires TasksInv(s) && s.locks.leaks == 0 && Smooth(e) && Enabled(cfg, s, e)
    ensures var s' := Step(cfg, s, e);
      && TasksInv(s') && s'.locks.leaks == 0
      && TaskProgress.Total(cfg.retries, s'.locks.tasks) < TaskProgress.Total(cfg.retries, s.locks.tasks)
  {
    TaskProgress.ApplyTotal(cfg.retries, s.locks, e.task, e.act);
    StepTasks(cfg, s, e);
  }

  lemma EndedAtRest(cfg: Settings, s: System)
    requires LocksInv(s.locks) && s.locks.leaks == 0 && TaskLocks.Stuck(s.locks)
    ensures FinishedBy(cfg, s, [])
  {
    TaskLocks.StuckMeansDone(s.locks);
  }

  lemma SomeSmoothStep(cfg: Settings, s: System) returns (e: Event)
    requires !TaskLocks.Stuck(s.locks)
    ensures Smooth(e) && Enabled(cfg, s, e)
  {
    var t, a :| TaskLocks.Enabled(s.locks, t, a) && !a.BodyRaises? && !a.LockFails?;
    e := Act(s.now, t, a);
  }

  lemma {:induction false} ContinueToTheEnd(cfg: Settings, s: System) returns (es: seq<Event>)
    requires TasksInv(s) && s.locks.leaks == 0
    ensures FinishedBy(cfg, s, es)
    decreases TaskProgress.Total(cfg.retries, s.locks.tasks)
  {
    if TaskLocks.Stuck(s.locks) {
      EndedAtRest(cfg, s);
      es := [];
    } else {
      var e := SomeSmoothStep(cfg, s);
      SmoothStep(cfg, s, e);
      var rest := ContinueToTheEnd(cfg, Step(cfg, s, e));
      FinishedCons(cfg, s, e, rest);
      es := [e] + rest;
    }
  }

  // Every run in which no body has raised yet can be continued by actions that do not raise until
  // every task has finished and all permits and the writer lock are back. With ActsAreBounded and
  // NoRaiseNoLoss any schedule that keeps moving some task gets there.
  lemma EveryTaskFinishes(cfg: Settings, now: real, nonce: int, es: seq<Event>)
    requires Run(cfg, Start(now, nonce), es)
    requires Exec(cfg, Start(now, nonce), es).locks.leaks == 0
    ensures exists more :: FinishedBy(cfg, Exec(cfg, Start(now, nonce), es), more)
  {
    StartTasks(now, nonce);
    RunTasks(cfg, Start(now, nonce), es);
    var more := ContinueToTheEnd(cfg, Exec(cfg, Start(now, nonce), es));
  }

  // --- Cleaning up ----------------------------------------------------------------------------

  // A sweep that has cleaned up has seen all its tasks finish.
  ghost predicate CleanedInv(s: System) {
    forall i, t :: 0 <= i < |s.sweeps| && s.sweeps[i].cleaned && t in s.sweeps[i].tasks ==>
      t in s.locks.tasks && s.locks.tasks[t] == TaskLocks.Finished
  }

  lemma StepCleaned(cfg: Settings, s: System, e: Event)
    requires SerialInv(s) && CleanedInv(s) && Enabled(cfg, s, e)
    ensures CleanedInv(Step(cfg, s, e))
  {
    if e.Act? {
      TaskLocks.ApplyRank(cfg.retries, s.locks, e.task, e.act);
    } else if e.RunSweep? {
      SweepIsFresh(s, e.order);
    }
  }

  lemma {:induction false} RunCleaned(cfg: Settings, s: System, es: seq<Event>)
    requires SerialInv(s) && CleanedInv(s) && Run(cfg, s, es)
    ensures CleanedInv(Exec(cfg, s, es))
    decreases |es|
  {
    if es != [] {
      StepSerials(cfg, s, es[0]);
      StepCleaned(cfg, s, es[0]);
      RunCleaned(cfg, Step(cfg, s, es[0]), es[1..]);
    }
  }

  // What a cleanup changes.
  lemma CleanChanges(cfg: Settings, s: System, at: real, i: nat, epoch: nat)
    requires Enabled(cfg, s, Clean(at, i))
    ensures var t, t' := s.tables, Step(cfg, s, Clean(at, i)).tables;
      && t'.pending == t.pending
      && if epoch == s.sweeps[i].order[|s.sweeps[i].order| - 1].1 then
           At(t'.submitted, epoch) == {} && At(t'.finalized, epoch) == {}
         else At(t'.submitted, epoch) == At(t.submitted, epoch) && At(t'.finalized, epoch) == At(t.finalized, epoch)
  {
    var order := s.sweeps[i].order;
    CleanLeavesOthers(s.tables, order[|order| - 1].1, epoch);
  }

  // On every run a cleanup comes after all tasks of its sweep have finished, and for each sweep once; it
  // empties the tables of the sweep's last epoch and changes no other entry and no pending epoch.
  lemma CleanUpExact(cfg: Settings, now: real, nonce: int, es: seq<Event>, at: real, i: nat, epoch: nat)
    requires Run(cfg, Start(now, nonce), es) && Enabled(cfg, Exec(cfg, Start(now, nonce), es), Clean(at, i))
    ensures var s := Exec(cfg, Start(now, nonce), es);
      var t, t' := s.tables, Step(cfg, s, Clean(at, i)).tables;
      && i < |s.sweeps| && !s.sweeps[i].cleaned && s.sweeps[i].order != []
      && (forall id :: id in s.sweeps[i].tasks ==> id in s.locks.tasks && s.locks.tasks[id] == TaskLocks.Finished)
      && t'.pending == t.pending
      && if epoch == s.sweeps[i].order[|s.sweeps[i].order| - 1].1 then
           At(t'.submitted, epoch) == {} && At(t'.finalized, epoch) == {}
         else At(t'.submitted, epoch) == At(t.submitted, epoch) && At(t'.finalized, epoch) == At(t.finalized, epoch)
  {
    CleanChanges(cfg, Exec(cfg, Start(now, nonce), es), at, i, epoch);
  }

  // On every run, a sweep that has cleaned up has seen all its tasks finish.
  lemma CleanedAreFinished(cfg: Settings, now: real, nonce: int, es: seq<Event>, i: nat)
    requires Run(cfg, Start(now, nonce), es)
    requires var s := Exec(cfg, Start(now, nonce), es); i < |s.sweeps| && s.sweeps[i].cleaned
    ensures var s := Exec(cfg, Start(now, nonce), es);
      forall t :: t in s.sweeps[i].tasks ==> t in s.locks.tasks && s.locks.tasks[t] == TaskLocks.Finished
  {
    RunCleaned(cfg, Start(now, nonce), es);
  }
}
