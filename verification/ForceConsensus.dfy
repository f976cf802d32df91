/**
 * The force-consensus service as the program writes it (force_consensus.py), proved to follow
 * ForceTables and BlockCursor.
 */
module ForceConsensusService {
  import opened Wrappers
  import TaskLocks
  import opened ForceTables
  import BlockCursor
  import EventScan

  lemma CallBagAppend(t: Tables, order: seq<(real, nat)>, x: (real, nat))
    ensures CallBag(t, order + [x]) == CallBag(t, order) + multiset(CallsFor(t, x.1))
  {
    assert (order + [x])[..|order|] == order;
  }

  lemma TouchedAppend(t: Tables, order: seq<(real, nat)>, x: (real, nat))
    ensures var u := Touched(t, order);
      Touched(t, order + [x]) == u.(submitted := Touch(u.submitted, x.1), finalized := Touch(u.finalized, x.1))
  {
    assert (order + [x])[..|order|] == order;
  }

  lemma {:induction false} RunAppend(cfg: Settings, s: System, es: seq<Event>, e: Event)
    requires ForceTables.Run(cfg, s, es) && Enabled(cfg, Exec(cfg, s, es), e)
    ensures ForceTables.Run(cfg, s, es + [e])
    ensures Exec(cfg, s, es + [e]) == Step(cfg, Exec(cfg, s, es), e)
    decreases |es|
  {
    if es == [] {
      assert [e][1..] == [];
      assert es + [e] == [e];
    } else {
      RunAppend(cfg, Step(cfg, s, es[0]), es[1..], e);
      assert (es + [e])[1..] == es[1..] + [e];
    }
  }

  // The clock values read for the logs do not go back.
  predicate Foldable(now: real, logs: seq<(real, LogEvent)>)
    decreases |logs|
  {
    logs != [] ==> logs[0].0 >= now && Foldable(logs[0].0, logs[1..])
  }

  function Sightings(logs: seq<(real, LogEvent)>): seq<Event> {
    if logs == [] then [] else Sightings(logs[..|logs| - 1]) + [See(logs[|logs| - 1].0, logs[|logs| - 1].1)]
  }

  function Entries(logs: seq<(real, LogEvent)>): seq<LogEvent> {
    if logs == [] then [] else Entries(logs[..|logs| - 1]) + [logs[|logs| - 1].1]
  }

  // The log entries that a history folds in.
  function Folded(history: seq<Event>): seq<LogEvent> {
    if history == [] then []
    else
      var e := history[|history| - 1];
      Folded(history[..|history| - 1]) + if e.See? then [e.ev] else []
  }

  lemma FoldedAppend(history: seq<Event>, e: Event)
    ensures Folded(history + [e]) == Folded(history) + if e.See? then [e.ev] else []
  {
    assert (history + [e])[..|history|] == history;
  }

  lemma {:induction false} FoldedSightings(history: seq<Event>, logs: seq<(real, LogEvent)>)
    ensures Folded(history + Sightings(logs)) == Folded(history) + Entries(logs)
  {
    if logs == [] {
      assert history + Sightings(logs) == history;
    } else {
      var front, x := logs[..|logs| - 1], logs[|logs| - 1];
      FoldedSightings(history, front);
      FoldedAppend(history + Sightings(front), See(x.0, x.1));
      assert history + Sightings(logs) == history + Sightings(front) + [See(x.0, x.1)];
    }
  }

  lemma Associative(a: seq<LogEvent>, b: seq<LogEvent>, c: seq<LogEvent>)
    ensures a + b + c == a + (b + c)
  {
  }

  lemma StepEvents(cfg: Settings, s: System, e: Event)
    requires Enabled(cfg, s, e)
    ensures EventScan.Events(Step(cfg, s, e).seen) == EventScan.Events(s.seen) + if e.See? then [e.ev] else []
  {
  }

  // A history sees what it folds in, so the laws of EventScan apply to the object's history.
  lemma {:induction false} SeenIsFolded(cfg: Settings, s: System, es: seq<Event>)
    requires ForceTables.Run(cfg, s, es)
    ensures EventScan.Events(Exec(cfg, s, es).seen) == EventScan.Events(s.seen) + Folded(es)
    decreases |es|
  {
    if es != [] {
      var s1 := Step(cfg, s, es[0]);
      SeenIsFolded(cfg, s1, es[1..]);
      FoldedCons(es);
      StepEvents(cfg, s, es[0]);
      Associative(EventScan.Events(s.seen), if es[0].See? then [es[0].ev] else [], Folded(es[1..]));
    }
  }

  lemma {:induction false} FoldedCons(es: seq<Event>)
    requires es != []
    ensures Folded(es) == (if es[0].See? then [es[0].ev] else []) + Folded(es[1..])
  {
    if |es| == 1 {
      assert es[..0] == [] && es[1..] == [];
    } else {
      var front, x := es[..|es| - 1], es[|es| - 1];
      FoldedCons(front);
      FoldedAppend(front, x);
      FoldedAppend(front[1..], x);
      assert es == front + [x] && es[1..] == front[1..] + [x];
      Associative(if es[0].See? then [es[0].ev] else [], Folded(front[1..]), if x.See? then [x.ev] else []);
    }
  }

  function ScanResult(dies: bool): BlockCursor.Result {
    if dies then BlockCursor.ScanOkThenCrash else BlockCursor.ScanOk
  }

  // The range a turn scans, if any.
  function ScanRange(buffer: nat, s: BlockCursor.State, head: nat, fails: bool): Option<BlockCursor.Range> {
    var last := BlockCursor.Choose(buffer, s, head).last;
    if fails || last == head then None else Some(BlockCursor.Range(last + 1, head))
  }

  // A turn that scans without losing the process adds one range to its scans.
  lemma TurnScans(buffer: nat, s: BlockCursor.State, head: nat)
    requires BlockCursor.Choose(buffer, s, head).last != head
    ensures var last := BlockCursor.Choose(buffer, s, head).last;
      var s' := BlockCursor.Step(buffer, s, BlockCursor.Turn(head, BlockCursor.ScanOk));
      s'.scans == s.scans + [BlockCursor.Range(last + 1, head)] && s'.last == head && s'.stored == Some(head)
  {
  }

  // One that is lost after the scan has not persisted anything.
  lemma TurnDies(buffer: nat, s: BlockCursor.State, head: nat)
    ensures BlockCursor.Step(buffer, s, BlockCursor.Turn(head, BlockCursor.ScanOkThenCrash)).stored
         == BlockCursor.Choose(buffer, s, head).stored
  {
  }

  // The cursor after a turn. A process that dies inside the fetch is lost after a failed scan.
  function AfterTurn(buffer: nat, s: BlockCursor.State, head: nat, fails: bool, dies: bool): BlockCursor.State {
    if !fails then BlockCursor.Step(buffer, s, BlockCursor.Turn(head, ScanResult(dies)))
    else
      var s1 := BlockCursor.Step(buffer, s, BlockCursor.Turn(head, BlockCursor.ScanFails));
      if dies && s1.last != head then BlockCursor.Step(buffer, s1, BlockCursor.Crash) else s1
  }

  lemma TurnIdle(buffer: nat, s: BlockCursor.State, head: nat, fails: bool, dies: bool)
    requires var s1 := BlockCursor.Choose(buffer, s, head); s1.last == head || fails
    ensures var s1, s' := BlockCursor.Choose(buffer, s, head), AfterTurn(buffer, s, head, fails, dies);
      && s'.stored == s.stored && s'.allScans == s.allScans
      && (s1.last == head || !dies ==> s'.scans == s.scans && s'.last == s1.last)
  {
  }

  // Neither the calls nor the touched tables depend on the pending set.
  lemma {:induction false} PendingIrrelevant(t: Tables, pending: set<(real, nat)>, order: seq<(real, nat)>)
    ensures CallBag(t.(pending := pending), order) == CallBag(t, order)
    ensures var u, v := Touched(t.(pending := pending), order), Touched(t, order);
      u.submitted == v.submitted && u.finalized == v.finalized && u.pending == pending
  {
    if order != [] {
      PendingIrrelevant(t, pending, order[..|order| - 1]);
    }
  }

  lemma SweepEffect(t: Tables, order: seq<(real, nat)>)
    ensures var u := Touched(t.(pending := {}), order);
      SweepTables(t, order) == Tables(t.pending - (set x | x in order), u.finalized, u.submitted)
    ensures CallBag(t.(pending := {}), order) == CallBag(t, order)
  {
    PendingIrrelevant(t, {}, order);
    PendingIrrelevant(t, t.pending - (set x | x in order), order);
  }

  predicate SameLock(l: TaskLocks.Locks, l': TaskLocks.Locks) {
    l'.nonce == l.nonce && l'.permits == l.permits && l'.owner == l.owner && l'.depth == l.depth
  }

  lemma CallsForTouched(t: Tables, order: seq<(real, nat)>, epoch: nat)
    ensures CallsFor(Touched(t, order), epoch) == CallsFor(t, epoch)
  {
    TouchedSame(t, order, epoch);
  }

  function ProjectCalls(projects: set<string>, epoch: nat): set<TaskLocks.Call> {
    set p | p in projects :: TaskLocks.Call(p, epoch)
  }

  lemma ProjectCallsAdd(projects: set<string>, p: string, epoch: nat)
    requires p !in projects
    ensures multiset(ProjectCalls(projects + {p}, epoch))
         == multiset(ProjectCalls(projects, epoch)) + multiset{TaskLocks.Call(p, epoch)}
  {
    assert ProjectCalls(projects + {p}, epoch) == ProjectCalls(projects, epoch) + {TaskLocks.Call(p, epoch)};
    assert TaskLocks.Call(p, epoch) !in ProjectCalls(projects, epoch);
  }

  // Append the calls for the given projects, in whatever order the set is iterated.
  method AppendCalls(projects: set<string>, epoch: nat, txnTasks: seq<TaskLocks.Call>)
    returns (calls: seq<TaskLocks.Call>)
    ensures multiset(calls) == multiset(txnTasks) + multiset(ProjectCalls(projects, epoch))
  {
    calls := txnTasks;
    var rest := projects;
    assert projects - rest == {};
    while rest != {}
      invariant rest <= projects
      invariant multiset(calls) == multiset(txnTasks) + multiset(ProjectCalls(projects - rest, epoch))
      decreases |rest|
    {
      var p :| p in rest;
      ProjectCallsAdd(projects - rest, p, epoch);
      assert projects - rest + {p} == projects - (rest - {p});
      calls := calls + [TaskLocks.Call(p, epoch)];
      rest := rest - {p};
    }
    assert projects - rest == projects;
  }

  // The clock does not go back.
  ghost predicate GoesOn(clock: nat -> real) {
    forall i: nat, j: nat :: i <= j ==> clock(i) <= clock(j)
  }

  class ForceConsensus {
    const cfg: Settings
    const maxBlockBuffer: nat

    var pendingEpochs: set<(real, nat)>
    var finalizedEpochs: Table
    var projectsSubmitted: Table
    var nonce: int
    var permits: int
    var lockOwner: Option<TaskLocks.TaskId>
    var lockDepth: int
    var lastProcessedBlock: int
    var redis: Option<int>

    // The chain it watches; the system this object is part of (with the progress of all tasks), where
    // it started and what has happened since; and the cursor's history.
    ghost const chain: EventScan.Chain
    ghost var sys: System
    ghost const sys0: System
    ghost var history: seq<Event>
    ghost var cursor: BlockCursor.State

    ghost predicate Valid()
      reads this
    {
      && ForceTables.Run(cfg, sys0, history) && sys == Exec(cfg, sys0, history)
      && sys.tables == Tables(pendingEpochs, finalizedEpochs, projectsSubmitted)
      && nonce == sys.locks.nonce && permits == sys.locks.permits
      && lockOwner == sys.locks.owner && lockDepth == sys.locks.depth
      && lastProcessedBlock == cursor.last && redis == cursor.stored
    }

    // What was folded in is exactly what the chain holds in the blocks scanned by this process.
    ghost predicate Synced()
      reads this
    {
      Folded(history) == EventScan.Gather(chain, cursor.scans)
    }

    // A new process, with the cursor that earlier ones have left.
    constructor (cfg: Settings, maxBlockBuffer: nat, now: real, nonce: int, stored: Option<int>,
                 ghost chain: EventScan.Chain, ghost left: BlockCursor.State)
      requires left.last == 0 && left.began == None && left.scans == [] && left.stored == stored
      ensures Valid() && Synced() && this.cfg == cfg && this.maxBlockBuffer == maxBlockBuffer && this.chain == chain
      ensures sys == sys0 == ForceTables.Start(now, nonce) && history == [] && cursor == left
    {
      this.chain := chain;
      this.cfg, this.maxBlockBuffer := cfg, maxBlockBuffer;
      pendingEpochs, finalizedEpochs, projectsSubmitted := {}, map[], map[];
      this.nonce, permits, lockOwner, lockDepth := nonce, TaskLocks.PERMITS, None, 0;
      lastProcessedBlock, redis := 0, stored;
      sys, sys0, history := ForceTables.Start(now, nonce), ForceTables.Start(now, nonce), [];
      cursor := left;
    }

    // Record that event e has happened.
    ghost method Take(e: Event)
      requires ForceTables.Run(cfg, sys0, history) && sys == Exec(cfg, sys0, history) && Enabled(cfg, sys, e)
      modifies this`sys, this`history
      ensures ForceTables.Run(cfg, sys0, history) && sys == Exec(cfg, sys0, history)
      ensures sys == Step(cfg, old(sys), e) && history == old(history) + [e]
    {
      RunAppend(cfg, sys0, history, e);
      sys, history := Step(cfg, sys, e), history + [e];
    }

    // The same for a sweep and for an action of a task, with what they leave alone.
    ghost method TakeSweep(now: real, at: real, order: seq<(real, nat)>)
      requires ForceTables.Run(cfg, sys0, history) && sys == Exec(cfg, sys0, history)
      requires sys.now <= now <= at && Splits(cfg, sys.tables, now, at, order)
      modifies this`sys, this`history
      ensures ForceTables.Run(cfg, sys0, history) && sys == Exec(cfg, sys0, history)
      ensures history == old(history) + [RunSweep(now, at, order)]
      ensures sys.tables == SweepTables(old(sys.tables), order)
      ensures SameLock(old(sys.locks), sys.locks)
    {
      Take(RunSweep(now, at, order));
    }

    ghost method TakeAct(now: real, t: TaskLocks.TaskId, a: TaskLocks.Act)
      requires ForceTables.Run(cfg, sys0, history) && sys == Exec(cfg, sys0, history)
      requires Enabled(cfg, sys, Act(now, t, a))
      modifies this`sys, this`history
      ensures ForceTables.Run(cfg, sys0, history) && sys == Exec(cfg, sys0, history)
      ensures history == old(history) + [Act(now, t, a)]
      ensures sys.tables == old(sys.tables)
      ensures sys.locks == TaskLocks.Apply(cfg.retries, old(sys.locks), t, a)
    {
      Take(Act(now, t, a));
    }

    ghost method TakeClean(now: real, i: nat, epochId: nat)
      requires ForceTables.Run(cfg, sys0, history) && sys == Exec(cfg, sys0, history)
      requires Enabled(cfg, sys, Clean(now, i)) && epochId == sys.sweeps[i].order[|sys.sweeps[i].order| - 1].1
      modifies this`sys, this`history
      ensures ForceTables.Run(cfg, sys0, history) && sys == Exec(cfg, sys0, history)
      ensures history == old(history) + [Clean(now, i)]
      ensures SameLock(old(sys.locks), sys.locks) && sys.tables == CleanTables(old(sys.tables), epochId)
    {
      Take(Clean(now, i));
    }

    ghost method TakeAcquire(now: real, t: TaskLocks.TaskId)
      requires ForceTables.Run(cfg, sys0, history) && sys == Exec(cfg, sys0, history)
      requires Enabled(cfg, sys, Act(now, t, TaskLocks.TakeLock))
      modifies this`sys, this`history
      ensures ForceTables.Run(cfg, sys0, history) && sys == Exec(cfg, sys0, history)
      ensures history == old(history) + [Act(now, t, TaskLocks.TakeLock)]
      ensures sys.tables == old(sys.tables)
      ensures var l, l' := old(sys.locks), sys.locks;
        && l'.permits == l.permits && l'.owner == Some(t) && l'.depth == l.depth + 1 && l'.nonce == l.nonce
    {
      TakeAct(now, t, TaskLocks.TakeLock);
    }

    ghost method TakeFailure(now: real, t: TaskLocks.TaskId)
      requires ForceTables.Run(cfg, sys0, history) && sys == Exec(cfg, sys0, history)
      requires Enabled(cfg, sys, Act(now, t, TaskLocks.LockFails))
      modifies this`sys, this`history
      ensures ForceTables.Run(cfg, sys0, history) && sys == Exec(cfg, sys0, history)
      ensures history == old(history) + [Act(now, t, TaskLocks.LockFails)]
      ensures sys.tables == old(sys.tables)
      ensures var l, l' := old(sys.locks), sys.locks;
        && l'.permits == l.permits + 1 && l'.owner == l.owner && l'.depth == l.depth && l'.nonce == l.nonce
    {
      TakeAct(now, t, TaskLocks.LockFails);
    }

    ghost method TakeFinish(now: real, t: TaskLocks.TaskId, account: nat)
      requires ForceTables.Run(cfg, sys0, history) && sys == Exec(cfg, sys0, history)
      requires now >= sys.now && InBody(t)
      modifies this`sys, this`history
      ensures ForceTables.Run(cfg, sys0, history) && sys == Exec(cfg, sys0, history)
      ensures history == old(history) + [Act(now, t, TaskLocks.BodyOk(account))]
      ensures sys.tables == old(sys.tables)
      ensures var l, l' := old(sys.locks), sys.locks;
        && l'.permits == l.permits + 1 && l'.depth == l.depth - 1
        && l'.owner == (if l.depth == 1 then None else l.owner)
        && l'.nonce == (if l.tasks[t].op.Make? then l.nonce + 1 else account)
    {
      TakeAct(now, t, TaskLocks.BodyOk(account));
    }

    // One iteration of the loop in get_events, reading the clock for a released epoch.
    method FoldEvent(now: real, ev: LogEvent)
      requires Valid() && now >= sys.now
      modifies this`pendingEpochs, this`finalizedEpochs, this`projectsSubmitted, this`sys, this`history
      ensures Valid() && history == old(history) + [See(now, ev)] && sys == Step(cfg, old(sys), See(now, ev))
    {
      match ev {
        case EpochReleased(e) =>
          pendingEpochs := pendingEpochs + {(now, e)};
        case SnapshotFinalized(e, p) =>
          finalizedEpochs := AddTo(finalizedEpochs, e, p);
        case SnapshotSubmitted(e, p) =>
          projectsSubmitted := AddTo(projectsSubmitted, e, p);
      }
      Take(See(now, ev));
    }

    // get_events: fold the logs it fetched, each with the clock value read for it.
    method GetEvents(logs: seq<(real, LogEvent)>)
      requires Valid() && Foldable(sys.now, logs)
      modifies this`pendingEpochs, this`finalizedEpochs, this`projectsSubmitted, this`sys, this`history
      ensures Valid() && history == old(history) + Sightings(logs)
    {
      var i := 0;
      while i < |logs|
        invariant 0 <= i <= |logs| && Valid() && Foldable(sys.now, logs[i..])
        invariant history == old(history) + Sightings(logs[..i])
      {
        assert logs[i..][0] == logs[i] && logs[i..][1..] == logs[i + 1..];
        assert logs[..i + 1][..i] == logs[..i];
        FoldEvent(logs[i].0, logs[i].1);
        i := i + 1;
      }
      assert logs[..|logs|] == logs;
    }

    // The first loop of _force_complete_consensus: split the due epochs off the pending set, in
    // whatever order the set is iterated. clock gives what the clock reads for one after the other;
    // at is what it reads when the loop is through.
    method CollectDue(clock: nat -> real) returns (order: seq<(real, nat)>, at: real)
      requires sys.tables.pending == pendingEpochs && GoesOn(clock)
      ensures Splits(cfg, sys.tables, clock(0), at, order) && clock(0) <= at
      ensures forall x :: x in pendingEpochs && x.0 + (cfg.window * cfg.blockTime) as real + 30.0 < clock(0) ==>
                x in order
      ensures forall x :: x in order ==>
                x in pendingEpochs && x.0 + (cfg.window * cfg.blockTime) as real + 30.0 < at
    {
      order := [];
      var rest := pendingEpochs;
      var n := 0;
      while rest != {}
        invariant rest <= pendingEpochs
        invariant forall x :: x in pendingEpochs - rest && Deadline(cfg, x.0) < clock(0) ==> x in order
        invariant forall x :: x in order ==> x in pendingEpochs - rest && Deadline(cfg, x.0) < clock(n)
        invariant forall i, j :: 0 <= i < j < |order| ==> order[i] != order[j]
        decreases |rest|
      {
        var x :| x in rest;
        rest := rest - {x};
        assert clock(0) <= clock(n) <= clock(n + 1);
        if Deadline(cfg, x.0) < clock(n) {
          assert x !in order;
          order := order + [x];
        }
        n := n + 1;
      }
      at := clock(n);
    }

    // The second loop, for one epoch: read its tables and append one call per project.
    method CallsForEpoch(epoch: nat, txnTasks: seq<TaskLocks.Call>) returns (calls: seq<TaskLocks.Call>)
      modifies this`projectsSubmitted, this`finalizedEpochs
      ensures projectsSubmitted == Touch(old(projectsSubmitted), epoch)
      ensures finalizedEpochs == Touch(old(finalizedEpochs), epoch)
      ensures multiset(calls) == multiset(txnTasks)
                + multiset(CallsFor(Tables({}, old(finalizedEpochs), old(projectsSubmitted)), epoch))
    {
      var projects := At(projectsSubmitted, epoch) - At(finalizedEpochs, epoch);
      projectsSubmitted, finalizedEpochs := Touch(projectsSubmitted, epoch), Touch(finalizedEpochs, epoch);
      calls := AppendCalls(projects, epoch, txnTasks);
    }

    // The loop over all epochs to process.
    method BuildTasks(order: seq<(real, nat)>) returns (txnTasks: seq<TaskLocks.Call>)
      modifies this`projectsSubmitted, this`finalizedEpochs
      ensures Tables({}, finalizedEpochs, projectsSubmitted)
           == Touched(Tables({}, old(finalizedEpochs), old(projectsSubmitted)), order)
      ensures multiset(txnTasks) == CallBag(Tables({}, old(finalizedEpochs), old(projectsSubmitted)), order)
    {
      ghost var t := Tables({}, finalizedEpochs, projectsSubmitted);
      txnTasks := [];
      var i := 0;
      while i < |order|
        invariant 0 <= i <= |order|
        invariant Tables({}, finalizedEpochs, projectsSubmitted) == Touched(t, order[..i])
        invariant multiset(txnTasks) == CallBag(t, order[..i])
      {
        CallsForTouched(t, order[..i], order[i].1);
        CallBagAppend(t, order[..i], order[i]);
        TouchedAppend(t, order[..i], order[i]);
        assert order[..i + 1] == order[..i] + [order[i]];
        txnTasks := CallsForEpoch(order[i].1, txnTasks);
        i := i + 1;
      }
      assert order[..|order|] == order;
    }

    // Both loops of _force_complete_consensus.
    method SplitDue(clock: nat -> real) returns (txnTasks: seq<TaskLocks.Call>, order: seq<(real, nat)>, at: real)
      requires GoesOn(clock) && sys.tables == Tables(pendingEpochs, finalizedEpochs, projectsSubmitted)
      modifies this`pendingEpochs, this`finalizedEpochs, this`projectsSubmitted
      ensures Splits(cfg, sys.tables, clock(0), at, order) && clock(0) <= at
      ensures Tables(pendingEpochs, finalizedEpochs, projectsSubmitted) == SweepTables(sys.tables, order)
      ensures multiset(txnTasks) == CallBag(sys.tables, order)
    {
      order, at := CollectDue(clock);
      SweepEffect(sys.tables, order);
      pendingEpochs := pendingEpochs - set x | x in order;
      txnTasks := BuildTasks(order);
    }

    // _force_complete_consensus up to the point where it awaits its tasks.
    method Sweep(clock: nat -> real) returns (txnTasks: seq<TaskLocks.Call>, order: seq<(real, nat)>, at: real)
      requires Valid() && GoesOn(clock) && clock(0) >= sys.now
      modifies this`pendingEpochs, this`finalizedEpochs, this`projectsSubmitted, this`sys, this`history
      ensures Valid() && history == old(history) + [RunSweep(clock(0), at, order)]
      ensures Splits(cfg, old(sys.tables), clock(0), at, order)
      ensures multiset(txnTasks) == CallBag(old(sys.tables), order)
    {
      txnTasks, order, at := SplitDue(clock);
      TakeSweep(clock(0), at, order);
    }

    // The rest of _force_complete_consensus, once the tasks of the i-th sweep have finished: delete
    // the tables of the epoch its loop ended on.
    method CleanUp(now: real, epochId: nat, ghost i: nat)
      requires Valid() && now >= sys.now && i < |sys.sweeps| && !sys.sweeps[i].cleaned && sys.sweeps[i].order != []
      requires forall t :: t in sys.sweeps[i].tasks ==> InState(t, TaskLocks.Finished)
      requires epochId == sys.sweeps[i].order[|sys.sweeps[i].order| - 1].1
      modifies this`pendingEpochs, this`finalizedEpochs, this`projectsSubmitted, this`sys, this`history
      ensures Valid() && history == old(history) + [Clean(now, i)]
    {
      finalizedEpochs := Drop(finalizedEpochs, epochId);
      projectsSubmitted := Drop(projectsSubmitted, epochId);
      TakeClean(now, i, epochId);
    }

    ghost predicate InState(t: TaskLocks.TaskId, pc: TaskLocks.Pc)
      reads this`sys
    {
      t in sys.locks.tasks && sys.locks.tasks[t] == pc
    }

    ghost predicate InBody(t: TaskLocks.TaskId)
      reads this`sys
    {
      t in sys.locks.tasks && sys.locks.tasks[t].Body?
    }

    // --- The decorator, from one await to the next --------------------------------------------

    method TakePermit(now: real, t: TaskLocks.TaskId)
      requires Valid() && now >= sys.now && permits > 0 && t in sys.locks.tasks && sys.locks.tasks[t].Wait?
      modifies this`permits, this`sys, this`history
      ensures Valid() && history == old(history) + [Act(now, t, TaskLocks.TakePermit)]
    {
      permits := permits - 1;
      TakeAct(now, t, TaskLocks.TakePermit);
    }

    // Acquiring the writer lock; when that raises, the permit is returned.
    method TakeLock(now: real, t: TaskLocks.TaskId, raises: bool)
      requires Valid() && now >= sys.now && t in sys.locks.tasks && sys.locks.tasks[t].Lock?
      requires !raises ==> lockOwner == None || lockOwner == Some(t)
      modifies this`permits, this`lockOwner, this`lockDepth, this`sys, this`history
      ensures Valid()
      ensures history == old(history) + [Act(now, t, if raises then TaskLocks.LockFails else TaskLocks.TakeLock)]
    {
      if raises {
        permits := permits + 1;
        TakeFailure(now, t);
      } else {
        lockOwner, lockDepth := Some(t), lockDepth + 1;
        TakeAcquire(now, t);
      }
    }

    // A body that has not raised: its effect on the nonce, then permit and lock are given back.
    method LeaveBody(newNonce: int)
      modifies this`nonce, this`permits, this`lockOwner, this`lockDepth
      ensures nonce == newNonce
      ensures permits == old(permits) + 1 && lockDepth == old(lockDepth) - 1
      ensures lockOwner == if old(lockDepth) == 1 then None else old(lockOwner)
    {
      nonce := newNonce;
      permits := permits + 1;
      lockDepth := lockDepth - 1;
      if lockDepth == 0 {
        lockOwner := None;
      }
    }

    // The end of _make_transaction: the nonce is used up and permit and lock are given back.
    method FinishTransaction(now: real, t: TaskLocks.TaskId)
      requires Valid() && now >= sys.now && InBody(t) && sys.locks.tasks[t].op.Make?
      modifies this`nonce, this`permits, this`lockOwner, this`lockDepth, this`sys, this`history
      ensures Valid() && history == old(history) + [Act(now, t, TaskLocks.BodyOk(0))]
      ensures nonce == old(nonce) + 1
    {
      LeaveBody(nonce + 1);
      TakeFinish(now, t, 0);
    }

    // The end of _reset_nonce: the nonce is the account's, read from the chain.
    method FinishReset(now: real, t: TaskLocks.TaskId, account: nat)
      requires Valid() && now >= sys.now && InBody(t) && !sys.locks.tasks[t].op.Make?
      modifies this`nonce, this`permits, this`lockOwner, this`lockDepth, this`sys, this`history
      ensures Valid() && history == old(history) + [Act(now, t, TaskLocks.BodyOk(account))]
      ensures nonce == account
    {
      LeaveBody(account);
      TakeFinish(now, t, account);
    }

    // A body that raises, after its transaction has reached the chain or before: permit, writer lock
    // and nonce stay as they are.
    method RaiseFromBody(now: real, t: TaskLocks.TaskId, ghost reached: bool)
      requires Valid() && now >= sys.now && InBody(t) && (reached ==> sys.locks.tasks[t].op.Make?)
      modifies this`sys, this`history
      ensures Valid() && history == old(history) + [Act(now, t, TaskLocks.BodyRaises(reached))]
    {
      TakeAct(now, t, TaskLocks.BodyRaises(reached));
    }

    // The task of `_call_force_complete_consensus` after its transaction: the receipt was fine or not
    // looked at, reports a failure, or could not be had.
    ghost method AfterReceipt(now: real, t: TaskLocks.TaskId, receipt: TaskLocks.Receipt)
      requires Valid() && now >= sys.now && InState(t, TaskLocks.Sent)
      modifies this`sys, this`history
      ensures Valid() && history == old(history) + [Act(now, t, TaskLocks.AfterSend(receipt))]
      ensures InState(t, match receipt
                         case Fine => TaskLocks.Finished
                         case Failed => TaskLocks.Wait(TaskLocks.ResetInner)
                         case Unavailable => TaskLocks.Handler)
    {
      TakeAct(now, t, TaskLocks.AfterSend(receipt));
    }

    // ... and in its exception handler, once the notification has gone through or raised.
    ghost method AfterNotification(now: real, t: TaskLocks.TaskId, ok: bool)
      requires Valid() && now >= sys.now && InState(t, TaskLocks.Handler)
      modifies this`sys, this`history
      ensures Valid() && history == old(history) + [Act(now, t, TaskLocks.Notify(ok))]
      ensures InState(t, if ok then TaskLocks.Wait(TaskLocks.ResetOuter) else TaskLocks.Finished)
    {
      TakeAct(now, t, TaskLocks.Notify(ok));
    }

    // --- The block cursor ---------------------------------------------------------------------

    // Where the turn starts from: use Redis only if no cursor is in memory, and catch up.
    method ChooseCursor(head: nat)
      requires Valid()
      modifies this`lastProcessedBlock, this`cursor
      ensures Valid() && cursor == BlockCursor.Choose(maxBlockBuffer, old(cursor), head)
    {
      cursor := BlockCursor.Choose(maxBlockBuffer, cursor, head);
      if lastProcessedBlock == 0 {
        if redis.Some? {
          lastProcessedBlock := redis.value;
        } else {
          lastProcessedBlock := head - 1;
        }
      }
      if head - lastProcessedBlock >= maxBlockBuffer {
        lastProcessedBlock := head - maxBlockBuffer;
      }
    }

    // The end of a turn of run() that began in cursor state `was` and whose events are folded in.
    method Persist(head: nat, ghost was: BlockCursor.State)
      requires Valid() && cursor == BlockCursor.Choose(maxBlockBuffer, was, head) && cursor.last != head
      requires Folded(history)
            == EventScan.Gather(chain, was.scans) + EventScan.Logs(chain, cursor.last + 1, head)
      modifies this`lastProcessedBlock, this`redis, this`cursor
      ensures Valid() && Synced()
      ensures cursor == BlockCursor.Step(maxBlockBuffer, was, BlockCursor.Turn(head, BlockCursor.ScanOk))
    {
      TurnScans(maxBlockBuffer, was, head);
      EventScan.GatherAppend(chain, was.scans, BlockCursor.Range(cursor.last + 1, head));
      lastProcessedBlock := head;
      redis := Some(head);
      cursor := BlockCursor.Step(maxBlockBuffer, was, BlockCursor.Turn(head, BlockCursor.ScanOk));
    }

    // The second half of a turn: fetch the events, move the cursor, persist it.
    method ScanAndPersist(head: nat, dies: bool, logs: seq<(real, LogEvent)>, ghost was: BlockCursor.State)
      requires Valid() && Folded(history) == EventScan.Gather(chain, was.scans)
      requires cursor == BlockCursor.Choose(maxBlockBuffer, was, head) && cursor.last != head
      requires Foldable(sys.now, logs) && Entries(logs) == EventScan.Logs(chain, cursor.last + 1, head)
      modifies this`lastProcessedBlock, this`redis, this`cursor
      modifies this`pendingEpochs, this`finalizedEpochs, this`projectsSubmitted, this`sys, this`history
      ensures !dies ==> Valid() && Synced()
      ensures redis == cursor.stored && history == old(history) + Sightings(logs)
      ensures cursor == BlockCursor.Step(maxBlockBuffer, was, BlockCursor.Turn(head, ScanResult(dies)))
    {
      FoldedSightings(history, logs);
      GetEvents(logs);
      if dies {
        TurnDies(maxBlockBuffer, was, head);
        cursor := BlockCursor.Step(maxBlockBuffer, was, BlockCursor.Turn(head, ScanResult(dies)));
      } else {
        Persist(head, was);
      }
    }

    // One turn of run() for the head it read: choose the cursor, scan up to the head, persist. fails
    // says that fetching the events raises or is cut short, dies that the process is lost meanwhile or
    // after the scan, before the cursor is persisted; logs is what was fetched, with the clock values read for it. A
    // lost process leaves nothing but the stored cursor. The scanned range, if any, is returned.
    method Turn(head: nat, fails: bool, dies: bool, logs: seq<(real, LogEvent)>)
      returns (scanned: Option<BlockCursor.Range>, crashed: bool)
      requires Valid() && Synced()
      requires var last := BlockCursor.Choose(maxBlockBuffer, cursor, head).last;
        !fails && last != head ==>
          Foldable(sys.now, logs) && Entries(logs) == EventScan.Logs(chain, last + 1, head)
      modifies this`lastProcessedBlock, this`redis, this`cursor
      modifies this`pendingEpochs, this`finalizedEpochs, this`projectsSubmitted, this`sys, this`history
      ensures !crashed ==> Valid() && Synced()
      ensures cursor == AfterTurn(maxBlockBuffer, old(cursor), head, fails, dies) && redis == cursor.stored
      ensures crashed <==> dies && BlockCursor.Choose(maxBlockBuffer, old(cursor), head).last != head
      ensures scanned == ScanRange(maxBlockBuffer, old(cursor), head, fails)
      ensures history == old(history) + if scanned.Some? then Sightings(logs) else []
    {
      scanned, crashed := None, false;
      ghost var was := cursor;
      ChooseCursor(head);
      if lastProcessedBlock == head || fails {
        TurnIdle(maxBlockBuffer, was, head, fails, dies);
        crashed := dies && lastProcessedBlock != head;
        cursor := AfterTurn(maxBlockBuffer, was, head, fails, dies);
        return;
      }
      scanned, crashed := Some(BlockCursor.Range(lastProcessedBlock + 1, head)), dies;
      ScanAndPersist(head, dies, logs, was);
    }
  }

  lemma StartSeesFolded(cfg: Settings, now: real, nonce: int, history: seq<Event>)
    requires ForceTables.Run(cfg, ForceTables.Start(now, nonce), history)
    ensures EventScan.Events(Exec(cfg, ForceTables.Start(now, nonce), history).seen) == Folded(history)
  {
    SeenIsFolded(cfg, ForceTables.Start(now, nonce), history);
    assert EventScan.Events([]) == [];
  }

  // An object that is synced, after the turns `es` of a process, on a chain that releases each epoch
  // once, has seen each release at most once.
  lemma SyncedSeesOnce(o: ForceConsensus, now: real, nonce: int, stored: Option<int>,
                       before: seq<BlockCursor.Event>, es: seq<BlockCursor.Event>)
    requires o.Valid() && o.Synced() && o.sys0 == ForceTables.Start(now, nonce)
    requires BlockCursor.Process(o.maxBlockBuffer, stored, before, es) && EventScan.ReleasesOnce(o.chain)
    requires o.cursor == BlockCursor.Reached(o.maxBlockBuffer, stored, before, es)
    ensures EventScan.Events(o.sys.seen) == EventScan.Gather(o.chain, o.cursor.scans)
    ensures UniqueReleases(o.sys.seen)
  {
    StartSeesFolded(o.cfg, now, nonce, o.history);
    EventScan.ReleasesSeenOnce(o.chain, o.maxBlockBuffer, stored, before, es, o.sys.seen);
  }
}
