/** How many actions all tasks together can still take, and how they get there. */
module TaskProgress {
  import opened Wrappers
  import opened TaskLocks
  import Arith

  // The ranks of all tasks, added up.
  ghost function Total(retries: int, tasks: map<TaskId, Pc>): nat
    decreases tasks.Keys
  {
    if tasks.Keys == {} then 0
    else
      var t :| t in tasks.Keys;
      Rank(retries, tasks[t]) + Total(retries, tasks - {t})
  }

  // The sum does not depend on the order of adding.
  lemma {:induction false} TotalRemove(retries: int, tasks: map<TaskId, Pc>, t: TaskId)
    requires t in tasks
    ensures Total(retries, tasks) == Rank(retries, tasks[t]) + Total(retries, tasks - {t})
    decreases tasks.Keys
  {
    var u :| u in tasks.Keys && Total(retries, tasks) == Rank(retries, tasks[u]) + Total(retries, tasks - {u});
    if u != t {
      TotalRemove(retries, tasks - {u}, t);
      TotalRemove(retries, tasks - {t}, u);
      assert tasks - {u} - {t} == tasks - {t} - {u};
    }
  }

  lemma TotalUpdate(retries: int, tasks: map<TaskId, Pc>, t: TaskId, pc: Pc)
    requires t in tasks
    ensures Total(retries, tasks[t := pc]) == Total(retries, tasks) - Rank(retries, tasks[t]) + Rank(retries, pc)
  {
    TotalRemove(retries, tasks, t);
    TotalRemove(retries, tasks[t := pc], t);
    assert tasks[t := pc] - {t} == tasks - {t};
  }

  // What one fresh task adds.
  function FreshRank(retries: int): nat {
    Rank(retries, Wait(Make(0)))
  }

  lemma SpawnRemove(l: Locks, added: set<TaskId>, t: TaskId)
    requires added !! l.tasks.Keys && t in added
    ensures t in Spawn(l, added).tasks && Spawn(l, added).tasks[t] == Wait(Make(0))
    ensures Spawn(l, added).tasks - {t} == Spawn(l, added - {t}).tasks
    ensures |added| == |added - {t}| + 1
  {
  }

  lemma {:induction false} TotalSpawn(retries: int, l: Locks, added: set<TaskId>)
    requires added !! l.tasks.Keys
    ensures Total(retries, Spawn(l, added).tasks) == Total(retries, l.tasks) + |added| * FreshRank(retries)
    decreases added
  {
    if added == {} {
      assert Spawn(l, added).tasks == l.tasks;
    } else {
      var t :| t in added;
      SpawnRemove(l, added, t);
      TotalRemove(retries, Spawn(l, added).tasks, t);
      TotalSpawn(retries, l, added - {t});
      Arith.MulStep(|added - {t}|, FreshRank(retries));
    }
  }

  lemma SpawnSize(l: Locks, added: set<TaskId>)
    requires added !! l.tasks.Keys
    ensures |Spawn(l, added).tasks| == |l.tasks| + |added|
  {
    var tasks := Spawn(l, added).tasks;
    assert tasks.Keys == l.tasks.Keys + added;
    assert |tasks| == |tasks.Keys| && |l.tasks| == |l.tasks.Keys|;
  }

  lemma SpawnTotal(retries: int, l: Locks, added: set<TaskId>)
    requires added !! l.tasks.Keys
    ensures var tasks := Spawn(l, added).tasks;
      Total(retries, tasks) - |tasks| * FreshRank(retries) == Total(retries, l.tasks) - |l.tasks| * FreshRank(retries)
  {
    TotalSpawn(retries, l, added);
    SpawnSize(l, added);
    Arith.AddShares(Total(retries, l.tasks), Total(retries, Spawn(l, added).tasks),
                    |Spawn(l, added).tasks|, |l.tasks|, |added|, FreshRank(retries));
  }

  // Every action uses up at least one.
  lemma ApplyTotal(retries: int, l: Locks, t: TaskId, a: Act)
    requires Enabled(l, t, a)
    ensures Total(retries, Apply(retries, l, t, a).tasks) < Total(retries, l.tasks)
  {
    var pc := Apply(retries, l, t, a).tasks[t];
    ApplyRank(retries, l, t, a);
    TotalUpdate(retries, l.tasks, t, pc);
    assert Apply(retries, l, t, a).tasks == l.tasks[t := pc];
  }

  // At rest after a raise, exactly who is stuck: a task that owns the lock can still re-enter it, so it
  // has finished or waits for a permit when all are gone; every other task has finished, waits for a
  // permit when all are gone, or waits for the lock.
  lemma StuckAfterRaise(l: Locks, t: TaskId)
    requires PermitInv(l) && LockInv(l) && Stuck(l) && l.leaks > 0 && t in l.tasks
    ensures l.owner.Some?
    ensures l.tasks[t] == Finished || (l.tasks[t].Wait? && l.permits == 0) || (l.tasks[t].Lock? && l.owner != Some(t))
  {
    assert !Enabled(l, t, BodyOk(0)) && !Enabled(l, t, AfterSend(Fine)) && !Enabled(l, t, Notify(true));
    assert !Enabled(l, t, TakeLock) && !Enabled(l, t, TakePermit);
  }

  // At rest, exactly: all permits and the lock are back if and only if no body has raised.
  lemma AtRestExact(l: Locks)
    requires PermitInv(l) && LockInv(l) && Stuck(l)
    ensures l.permits == 20 && l.owner == None <==> l.leaks == 0
    ensures l.permits == 20 && l.owner == None ==> forall t :: t in l.tasks ==> l.tasks[t] == Finished
  {
    if l.leaks == 0 {
      StuckMeansDone(l);
    }
  }
}
