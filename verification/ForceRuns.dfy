/** The force-consensus laws over the whole life of a process. */
module ForceRuns {
  import TaskLocks
  import opened ForceTables
  import opened ForceSafety
  import opened ForceTasks

  // --- One call per project and epoch ---------------------------------------------------------

  ghost predicate DistinctEpochs(order: seq<(real, nat)>) {
    forall i, j :: 0 <= i < j < |order| ==> order[i].1 != order[j].1
  }

  ghost predicate OrderHas(order: seq<(real, nat)>, epoch: nat) {
    exists k :: 0 <= k < |order| && order[k].1 == epoch
  }

  lemma {:induction false} BagCount(t: Tables, order: seq<(real, nat)>, c: TaskLocks.Call)
    requires DistinctEpochs(order)
    ensures CallBag(t, order)[c] == if OrderHas(order, c.epoch) && c.project in Forced(t, c.epoch) then 1 else 0
  {
    if order != [] {
      var front, e := order[..|order| - 1], order[|order| - 1].1;
      BagCount(t, front, c);
      assert c in CallsFor(t, e) <==> e == c.epoch && c.project in Forced(t, c.epoch);
      assert OrderHas(order, c.epoch) <==> OrderHas(front, c.epoch) || e == c.epoch by {
        if OrderHas(front, c.epoch) {
          var k :| 0 <= k < |front| && front[k].1 == c.epoch;
          assert order[k].1 == c.epoch;
        }
      }
    }
  }

  // How often an epoch occurs among the due ones.
  function Occurs(order: seq<(real, nat)>, epoch: nat): nat {
    if order == [] then 0 else Occurs(order[..|order| - 1], epoch) + if order[|order| - 1].1 == epoch then 1 else 0
  }

  // Without unique epoch ids: a sweep calls a project exactly as often as its epoch is due in it, so
  // once per project if and only if no epoch is pending twice.
  lemma {:induction false} CalledAsOftenAsDue(t: Tables, order: seq<(real, nat)>, c: TaskLocks.Call)
    ensures CallBag(t, order)[c] == if c.project in Forced(t, c.epoch) then Occurs(order, c.epoch) else 0
  {
    if order != [] {
      var e := order[|order| - 1].1;
      CalledAsOftenAsDue(t, order[..|order| - 1], c);
      assert c in CallsFor(t, e) <==> e == c.epoch && c.project in Forced(t, c.epoch);
    }
  }

  lemma InCallSet(t: Tables, order: seq<(real, nat)>, c: TaskLocks.Call)
    ensures c in CallSet(t, order) <==> OrderHas(order, c.epoch) && c.project in Forced(t, c.epoch)
  {
    if OrderHas(order, c.epoch) && c.project in Forced(t, c.epoch) {
      var k :| 0 <= k < |order| && order[k].1 == c.epoch;
      assert order[k] in order && TaskLocks.Call(c.project, order[k].1) in CallSet(t, order);
    }
  }

  lemma OrderDistinct(cfg: Settings, s: System, from: real, at: real, order: seq<(real, nat)>)
    requires PendingInv(s) && Splits(cfg, s.tables, from, at, order)
    ensures DistinctEpochs(order)
    ensures forall e :: OrderHas(order, e) ==> e !in s.swept
  {
    forall i | 0 <= i < |order| ensures order[i] in s.tables.pending && order[i].1 !in s.swept {
      assert order[i] in order && order[i] in Due(cfg, s.tables, at);
    }
  }

  // Some sweep created this call.
  ghost predicate InSweeps(sweeps: seq<Sweep>, c: TaskLocks.Call) {
    exists i :: 0 <= i < |sweeps| && c in sweeps[i].calls
  }

  lemma InSweepsAppend(sweeps: seq<Sweep>, sw: Sweep, c: TaskLocks.Call)
    ensures InSweeps(sweeps + [sw], c) <==> InSweeps(sweeps, c) || c in sw.calls
  {
    if InSweeps(sweeps, c) {
      var i :| 0 <= i < |sweeps| && c in sweeps[i].calls;
      assert (sweeps + [sw])[i] == sweeps[i];
    }
    if c in sw.calls {
      assert (sweeps + [sw])[|sweeps|] == sw;
    }
  }

  lemma InSweepsUpdate(sweeps: seq<Sweep>, i: nat, sw: Sweep, c: TaskLocks.Call)
    requires i < |sweeps| && sw.calls == sweeps[i].calls
    ensures InSweeps(sweeps[i := sw], c) <==> InSweeps(sweeps, c)
  {
    if InSweeps(sweeps, c) {
      var k :| 0 <= k < |sweeps| && c in sweeps[k].calls;
      assert c in sweeps[i := sw][k].calls;
    }
  }

  // A call is for a swept epoch and is made once, by a sweep.
  ghost predicate CallOk(s: System, c: TaskLocks.Call) {
    && s.calls[c] <= 1
    && (c in s.calls ==> c.epoch in s.swept)
    && (c in s.calls <==> InSweeps(s.sweeps, c))
  }

  ghost predicate CallInv(s: System) {
    forall c :: CallOk(s, c)
  }

  // A sweep creates only calls that did not exist before, each once.
  lemma SweepCallAt(cfg: Settings, s: System, e: Event, c: TaskLocks.Call)
    requires e.RunSweep? && CallOk(s, c) && PendingInv(s) && Enabled(cfg, s, e)
    ensures CallBag(s.tables, e.order)[c] == if c in CallSet(s.tables, e.order) then 1 else 0
    ensures c in CallSet(s.tables, e.order) ==> c !in s.calls && exists x :: x in e.order && x.1 == c.epoch
  {
    OrderDistinct(cfg, s, e.from, e.at, e.order);
    BagCount(s.tables, e.order, c);
    InCallSet(s.tables, e.order, c);
    if c in CallSet(s.tables, e.order) {
      var k :| 0 <= k < |e.order| && e.order[k].1 == c.epoch;
      assert e.order[k] in e.order;
    }
  }

  lemma SweepCallOk(cfg: Settings, s: System, e: Event, c: TaskLocks.Call)
    requires e.RunSweep? && CallOk(s, c) && PendingInv(s) && Enabled(cfg, s, e)
    ensures CallOk(Step(cfg, s, e), c)
  {
    var s' := Step(cfg, s, e);
    SweepCallAt(cfg, s, e, c);
    InSweepsAppend(s.sweeps, s'.sweeps[|s.sweeps|], c);
  }

  // Other events leave the calls alone.
  lemma OtherCallOk(cfg: Settings, s: System, e: Event, c: TaskLocks.Call)
    requires !e.RunSweep? && CallOk(s, c) && Enabled(cfg, s, e)
    ensures CallOk(Step(cfg, s, e), c)
  {
    if e.Clean? {
      InSweepsUpdate(s.sweeps, e.sweep, Step(cfg, s, e).sweeps[e.sweep], c);
    }
  }

  lemma StepCalls(cfg: Settings, s: System, e: Event)
    requires CallInv(s) && PendingInv(s) && Enabled(cfg, s, e)
    ensures CallInv(Step(cfg, s, e))
  {
    forall c ensures CallOk(Step(cfg, s, e), c) {
      assert CallOk(s, c);
      if e.RunSweep? {
        SweepCallOk(cfg, s, e, c);
      } else {
        OtherCallOk(cfg, s, e, c);
      }
    }
  }

  // --- Whole runs -----------------------------------------------------------------------------

  ghost predicate Inv(cfg: Settings, s: System) {
    TableInv(s) && PendingInv(s) && SweptInv(s) && SweepsInv(cfg, s) && CallInv(s) && TasksInv(s)
  }

  lemma StartInv(cfg: Settings, now: real, nonce: int)
    ensures Inv(cfg, Start(now, nonce))
  {
    StartTasks(now, nonce);
  }

  lemma StepInv(cfg: Settings, s: System, e: Event)
    requires Inv(cfg, s) && Enabled(cfg, s, e) && UniqueReleases(Step(cfg, s, e).seen)
    ensures Inv(cfg, Step(cfg, s, e))
  {
    StepTable(cfg, s, e);
    StepPending(cfg, s, e);
    StepSwept(cfg, s, e);
    StepSweeps(cfg, s, e);
    StepCalls(cfg, s, e);
    StepTasks(cfg, s, e);
  }

  lemma {:induction false} SeenGrows(cfg: Settings, s: System, es: seq<Event>)
    requires Run(cfg, s, es)
    ensures s.seen <= Exec(cfg, s, es).seen
    decreases |es|
  {
    if es != [] {
      SeenGrows(cfg, Step(cfg, s, es[0]), es[1..]);
    }
  }

  lemma UniquePrefix(seen: seq<Seen>, seen': seq<Seen>)
    requires seen <= seen' && UniqueReleases(seen')
    ensures UniqueReleases(seen)
  {
    forall i, j | 0 <= i < j < |seen| && seen[i].ev.EpochReleased? ensures seen[j].ev != seen[i].ev {
      assert seen[i] == seen'[i] && seen[j] == seen'[j];
    }
  }

  // Unique releases at the end of a run are unique after its first step, too.
  lemma UniqueEarlier(cfg: Settings, s: System, es: seq<Event>)
    requires Run(cfg, s, es) && es != [] && UniqueReleases(Exec(cfg, s, es).seen)
    ensures UniqueReleases(Step(cfg, s, es[0]).seen)
  {
    SeenGrows(cfg, Step(cfg, s, es[0]), es[1..]);
    UniquePrefix(Step(cfg, s, es[0]).seen, Exec(cfg, s, es).seen);
  }

  lemma {:induction false} RunInv(cfg: Settings, s: System, es: seq<Event>)
    requires Inv(cfg, s) && Run(cfg, s, es) && UniqueReleases(Exec(cfg, s, es).seen)
    ensures Inv(cfg, Exec(cfg, s, es))
    decreases |es|
  {
    if es != [] {
      UniqueEarlier(cfg, s, es);
      StepInv(cfg, s, es[0]);
      RunInv(cfg, Step(cfg, s, es[0]), es[1..]);
    }
  }

  // On every interleaving, the projects that a sweep forces for an epoch due in it are exactly those
  // with a submission seen by then minus those with a finalization seen by then, and all its
  // calls are for epochs due in it.
  lemma ForcedIsHistory(cfg: Settings, now: real, nonce: int, es: seq<Event>, i: nat, c: TaskLocks.Call)
    requires Run(cfg, Start(now, nonce), es) && UniqueReleases(Exec(cfg, Start(now, nonce), es).seen)
    requires i < |Exec(cfg, Start(now, nonce), es).sweeps|
    ensures var s := Exec(cfg, Start(now, nonce), es);
      var sw := s.sweeps[i];
      && sw.horizon <= |s.seen|
      && (c in sw.calls <==>
            && (exists x :: x in sw.order && x.1 == c.epoch
                            && x.0 + (cfg.window * cfg.blockTime) as real + 30.0 < sw.at)
            && HasEvent(s.seen[..sw.horizon], SnapshotSubmitted(c.epoch, c.project))
            && !HasEvent(s.seen[..sw.horizon], SnapshotFinalized(c.epoch, c.project)))
  {
    StartInv(cfg, now, nonce);
    RunInv(cfg, Start(now, nonce), es);
    var s := Exec(cfg, Start(now, nonce), es);
    assert FromHistory(s, s.sweeps[i]) && NotEarly(cfg, s, s.sweeps[i]);
  }

  // Entry k of the transactions that reached the chain is a task's, and its only nonce.
  ghost predicate HandedOver(s: System, k: nat)
    requires k < |s.locks.handed|
  {
    var x := s.locks.handed[k];
    x.task in s.locks.tasks && forall n :: TaskLocks.HandedBy(s.locks, x.task, n) ==> n == x.nonce
  }

  lemma AllHandedOver(s: System)
    requires TaskLocks.HandedInv(s.locks)
    ensures forall k :: 0 <= k < |s.locks.handed| ==> HandedOver(s, k)
  {
    forall k | 0 <= k < |s.locks.handed| ensures HandedOver(s, k) {
      var x := s.locks.handed[k];
      assert TaskLocks.HandedAt(s.locks, x.task);
      assert TaskLocks.HandedBy(s.locks, x.task, x.nonce);
    }
  }

  // All transactions for this call are by one task and carry one nonce.
  ghost predicate SameSends(handed: seq<TaskLocks.Send>, c: TaskLocks.Call) {
    forall j, k :: 0 <= j < k < |handed| && handed[j].task.call == handed[k].task.call == c ==> handed[j] == handed[k]
  }

  lemma HandedOnce(s: System, c: TaskLocks.Call)
    requires TasksInv(s) && s.calls[c] <= 1
    ensures forall k :: 0 <= k < |s.locks.handed| && s.locks.handed[k].task.call == c ==> c in s.calls
    ensures SameSends(s.locks.handed, c)
  {
    AllHandedOver(s);
    forall k | 0 <= k < |s.locks.handed| && s.locks.handed[k].task.call == c ensures c in s.calls {
      assert HandedOver(s, k);
      HasTask(s, s.locks.handed[k].task);
    }
    forall j, k | 0 <= j < k < |s.locks.handed| && s.locks.handed[j].task.call == s.locks.handed[k].task.call == c
      ensures s.locks.handed[j] == s.locks.handed[k]
    {
      assert HandedOver(s, j) && HandedOver(s, k);
      OneTask(s, s.locks.handed[j].task, s.locks.handed[k].task);
      assert TaskLocks.HandedBy(s.locks, s.locks.handed[k].task, s.locks.handed[k].nonce);
    }
  }

  lemma TasksOnce(s: System, c: TaskLocks.Call)
    requires TasksInv(s) && s.calls[c] <= 1
    ensures forall t, u :: t in s.locks.tasks && u in s.locks.tasks && t.call == u.call == c ==> t == u
    ensures forall t :: t in s.locks.sent && t.call == c ==> t in s.locks.tasks && s.locks.sent[t] <= s.calls[c]
  {
    forall t, u | t in s.locks.tasks && u in s.locks.tasks && t.call == u.call == c ensures t == u {
      OneTask(s, t, u);
    }
    forall t | t in s.locks.sent && t.call == c ensures t in s.locks.tasks && s.locks.sent[t] <= s.calls[c] {
      assert s.locks.sent[t] <= (if t in s.locks.tasks && !TaskLocks.BeforeSend(s.locks.tasks[t]) then 1 else 0);
      HasTask(s, t);
    }
  }

  // Over the whole life of a process each project and epoch gets at most one force call, only for an
  // epoch whose deadline, counted from the moment its release was seen, had passed, and at most
  // one task and one successful transaction. All its transactions that reached the chain, also
  // from bodies that raised after that, carry the same nonce, so at most one of them can be mined.
  lemma AtMostOnceNeverEarly(cfg: Settings, now: real, nonce: int, es: seq<Event>, c: TaskLocks.Call)
    requires Run(cfg, Start(now, nonce), es) && UniqueReleases(Exec(cfg, Start(now, nonce), es).seen)
    ensures var s := Exec(cfg, Start(now, nonce), es);
      && s.calls[c] <= 1
      && (forall t, u :: t in s.locks.tasks && u in s.locks.tasks && t.call == u.call == c ==> t == u)
      && (forall t :: t in s.locks.sent && t.call == c ==> t in s.locks.tasks && s.locks.sent[t] <= s.calls[c])
      && (forall k :: 0 <= k < |s.locks.handed| && s.locks.handed[k].task.call == c ==> c in s.calls)
      && SameSends(s.locks.handed, c)
      && (c in s.calls ==>
            exists release :: Seen(release, EpochReleased(c.epoch)) in s.seen
                           && release + (cfg.window * cfg.blockTime) as real + 30.0 < s.now)
  {
    StartInv(cfg, now, nonce);
    RunInv(cfg, Start(now, nonce), es);
    var s := Exec(cfg, Start(now, nonce), es);
    assert CallOk(s, c);
    TasksOnce(s, c);
    HandedOnce(s, c);
    if c in s.calls {
      var i :| 0 <= i < |s.sweeps| && c in s.sweeps[i].calls;
      assert FromHistory(s, s.sweeps[i]) && NotEarly(cfg, s, s.sweeps[i]);
      var x :| x in s.sweeps[i].order && x.1 == c.epoch;
      assert Seen(x.0, EpochReleased(c.epoch)) in s.seen;
    }
  }

  // An epoch due at a sweep leaves the pending set in that sweep and is never pending again.
  lemma DueLeavesPending(cfg: Settings, now: real, nonce: int, es: seq<Event>, from: real, at: real,
                         order: seq<(real, nat)>, more: seq<Event>, x: (real, nat))
    requires Run(cfg, Start(now, nonce), es)
    requires var s := Exec(cfg, Start(now, nonce), es);
      && Enabled(cfg, s, RunSweep(from, at, order)) && x in s.tables.pending
      && x.0 + (cfg.window * cfg.blockTime) as real + 30.0 < from
      && Run(cfg, Step(cfg, s, RunSweep(from, at, order)), more)
      && UniqueReleases(Exec(cfg, Step(cfg, s, RunSweep(from, at, order)), more).seen)
    ensures var s := Exec(cfg, Start(now, nonce), es);
      forall y :: y in Exec(cfg, Step(cfg, s, RunSweep(from, at, order)), more).tables.pending ==> y.1 != x.1
  {
    var s := Exec(cfg, Start(now, nonce), es);
    var e := RunSweep(from, at, order);
    var s1 := Step(cfg, s, e);
    SeenGrows(cfg, s1, more);
    UniquePrefix(s1.seen, Exec(cfg, s1, more).seen);
    StartInv(cfg, now, nonce);
    RunInv(cfg, Start(now, nonce), es);
    StepInv(cfg, s, e);
    assert x in Due(cfg, s.tables, from) && x in order;
    assert x.1 in s1.swept;
    SweptGrows(cfg, s1, more);
    RunInv(cfg, s1, more);
  }

  lemma {:induction false} SweptGrows(cfg: Settings, s: System, es: seq<Event>)
    requires Run(cfg, s, es)
    ensures s.swept <= Exec(cfg, s, es).swept
    decreases |es|
  {
    if es != [] {
      SweptGrows(cfg, Step(cfg, s, es[0]), es[1..]);
    }
  }

  // --- No release is forgotten ----------------------------------------------------------------

  lemma {:induction false} RunKept(cfg: Settings, s: System, es: seq<Event>, epoch: nat)
    requires Kept(s, epoch) && Run(cfg, s, es)
    ensures Kept(Exec(cfg, s, es), epoch)
    decreases |es|
  {
    if es != [] {
      StepKept(cfg, s, es[0], epoch);
      RunKept(cfg, Step(cfg, s, es[0]), es[1..], epoch);
    }
  }

  // Every release that was seen is pending or was due in some sweep, whatever the epoch ids.
  lemma NoReleaseForgotten(cfg: Settings, now: real, nonce: int, es: seq<Event>, epoch: nat)
    requires Run(cfg, Start(now, nonce), es) && HasEvent(Exec(cfg, Start(now, nonce), es).seen, EpochReleased(epoch))
    ensures var s := Exec(cfg, Start(now, nonce), es);
      epoch in s.swept || exists x :: x in s.tables.pending && x.1 == epoch
  {
    RunKept(cfg, Start(now, nonce), es, epoch);
  }
}
