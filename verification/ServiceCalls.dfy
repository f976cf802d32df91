/** How often each project and epoch is called, over all processes of the service. */
module ServiceCalls {
  import opened Wrappers
  import opened ForceTables
  import opened ForceRuns
  import opened ServiceLife
  import ForceSafety
  import BlockCursor
  import EventScan
  import TaskLocks

  // --- Counting -------------------------------------------------------------------------------

  // The calls made by all processes so far.
  function Calls(s: Life, c: TaskLocks.Call): nat {
    s.calls[c] + s.sys.calls[c]
  }

  // The process is lost after it has made the call, before the fetch that saw the epoch's release is
  // persisted: the next process may do it all over again.
  predicate Redoes(s: Life, e: LifeEvent, c: TaskLocks.Call) {
    e.Crash? && c.epoch in s.recent && c in s.sys.calls
  }

  ghost function Redos(w: World, s: Life, es: seq<LifeEvent>, c: TaskLocks.Call): nat
    requires LifeRun(w, s, es)
    decreases |es|
  {
    if es == [] then 0
    else (if Redoes(s, es[0], c) then 1 else 0) + Redos(w, LifeStep(w, s, es[0]), es[1..], c)
  }

  // After r such losses: earlier processes have made r calls, or one more if the epoch is persisted
  // and this process has not seen it.
  ghost predicate CallsBound(s: Life, c: TaskLocks.Call, r: nat) {
    if c.epoch in s.saved && !HasSeen(s, c.epoch) then r <= s.calls[c] <= 1 + r else s.calls[c] == r
  }

  // A process makes a call at most once, for an epoch whose release it has seen.
  lemma OwnCalls(w: World, s: Life, c: TaskLocks.Call)
    requires LifeInv(w, s)
    ensures s.sys.calls[c] <= 1
    ensures c in s.sys.calls ==> HasSeen(s, c.epoch)
  {
    assert CallOk(s.sys, c);
  }

  // What a fetch under way has seen is not persisted.
  lemma RecentUnsaved(w: World, s: Life, epoch: nat)
    requires LifeInv(w, s) && epoch in s.recent
    ensures epoch !in s.saved
  {
    assert EpochOk(w, s, epoch);
    NotBoth(w, s, epoch);
  }

  lemma StepCallsBound(w: World, s: Life, e: LifeEvent, c: TaskLocks.Call, r: nat)
    requires LifeInv(w, s) && CallsBound(s, c, r) && LifeEnabled(w, s, e)
    ensures CallsBound(LifeStep(w, s, e), c, r + if Redoes(s, e, c) then 1 else 0)
  {
    assert EpochOk(w, s, c.epoch);
    match e
    case Fold(_) =>
      FoldUnique(w, s, e);
      FoldSeen(w, s, e, c.epoch);
    case Save =>
      assert HasSeen(LifeStep(w, s, e), c.epoch) == HasSeen(s, c.epoch);
    case Crash(_, _) =>
      OwnCalls(w, s, c);
      if c.epoch in s.recent {
        RecentUnsaved(w, s, c.epoch);
      }
    case _ =>
      assert LifeStep(w, s, e).sys.seen == s.sys.seen;
  }

  lemma {:induction false} RunCallsBound(w: World, s: Life, es: seq<LifeEvent>, c: TaskLocks.Call, r: nat)
    requires LifeInv(w, s) && CallsBound(s, c, r) && LifeRun(w, s, es)
    ensures LifeInv(w, LifeExec(w, s, es)) && CallsBound(LifeExec(w, s, es), c, r + Redos(w, s, es, c))
    decreases |es|
  {
    if es != [] {
      StepLife(w, s, es[0]);
      StepCallsBound(w, s, es[0], c, r);
      RunCallsBound(w, LifeStep(w, s, es[0]), es[1..], c, r + if Redoes(s, es[0], c) then 1 else 0);
    }
  }

  // Over all processes, whatever is lost at any step: a project and epoch is called once for every
  // process that is lost between the call and the persisting of the fetch that saw the epoch's
  // release, and otherwise at most once.
  lemma CallsAreRedosOrOneMore(w: World, stored: Option<int>, now: real, nonce: int, es: seq<LifeEvent>,
                               c: TaskLocks.Call)
    requires w.buffer >= 1 && EventScan.ReleasesOnce(w.chain) && BlockCursor.Stored(stored)
    requires LifeRun(w, Init(stored, now, nonce), es)
    ensures var r := Redos(w, Init(stored, now, nonce), es, c);
      r <= Calls(LifeExec(w, Init(stored, now, nonce), es), c) <= 1 + r
  {
    var s0 := Init(stored, now, nonce);
    InitInv(w, stored, now, nonce);
    RunCallsBound(w, s0, es, c, 0);
    OwnCalls(w, LifeExec(w, s0, es), c);
  }

  // So each project and epoch gets at most one force call unless a process is lost just there.
  lemma AtMostOneCall(w: World, stored: Option<int>, now: real, nonce: int, es: seq<LifeEvent>, c: TaskLocks.Call)
    requires w.buffer >= 1 && EventScan.ReleasesOnce(w.chain) && BlockCursor.Stored(stored)
    requires LifeRun(w, Init(stored, now, nonce), es)
    ensures Calls(LifeExec(w, Init(stored, now, nonce), es), c) >= 2 ==> Redos(w, Init(stored, now, nonce), es, c) >= 1
    ensures Redos(w, Init(stored, now, nonce), es, c) >= 2 ==> Calls(LifeExec(w, Init(stored, now, nonce), es), c) >= 2
  {
    CallsAreRedosOrOneMore(w, stored, now, nonce, es, c);
  }

  // --- Prompt sweeps --------------------------------------------------------------------------

  // What a fetch under way has seen released was seen after it began.
  ghost predicate RecentInv(s: Life) {
    forall x :: x in s.sys.tables.pending && x.1 in s.recent ==> s.fetching.Some? && x.0 >= s.fetching.value.since
  }

  // ... and, as long as no sweep was hasty, is not swept.
  predicate RecentUnswept(s: Life) {
    s.recent !! s.sys.swept
  }

  // A sweep that finds an epoch due although the fetch that saw its release is not persisted yet.
  ghost predicate Hasty(s: Life, e: LifeEvent) {
    e.Inner? && e.e.RunSweep? && exists x :: x in e.e.order && x.1 in s.recent
  }

  // A sweep that ends within the submission window (and 30 seconds) of the fetch under way is not
  // hasty.
  lemma PromptIsNotHasty(w: World, s: Life, e: LifeEvent)
    requires LifeInv(w, s) && RecentInv(s) && e.Inner? && e.e.RunSweep? && LifeEnabled(w, s, e)
    requires s.fetching.Some? ==>
      e.e.at <= s.fetching.value.since + (w.cfg.window * w.cfg.blockTime) as real + 30.0
    ensures !Hasty(s, e)
  {
    forall x | x in e.e.order ensures x.1 !in s.recent {
      assert x in Due(w.cfg, s.sys.tables, e.e.at);
    }
  }

  // A sweep that ends later than that.
  predicate Late(w: World, s: Life, e: LifeEvent) {
    && e.Inner? && e.e.RunSweep? && s.fetching.Some?
    && e.e.at > s.fetching.value.since + (w.cfg.window * w.cfg.blockTime) as real + 30.0
  }

  ghost predicate EverLate(w: World, s: Life, es: seq<LifeEvent>)
    requires LifeRun(w, s, es)
    decreases |es|
  {
    es != [] && (Late(w, s, es[0]) || EverLate(w, LifeStep(w, s, es[0]), es[1..]))
  }

  lemma StepRecent(w: World, s: Life, e: LifeEvent)
    requires LifeInv(w, s) && RecentInv(s) && LifeEnabled(w, s, e)
    ensures RecentInv(LifeStep(w, s, e))
  {
    var s' := LifeStep(w, s, e);
    if e.Fold? && s.todo[0].EpochReleased? {
      FoldUnique(w, s, e);
      forall x | x in s'.sys.tables.pending && x.1 in s'.recent ensures x.0 >= s'.fetching.value.since {
        if x in s.sys.tables.pending && x.1 == s.todo[0].epoch {
          ForceSafety.SeenHas(s.sys.seen, ForceTables.Seen(x.0, EpochReleased(x.1)));
          assert false;
        }
      }
    } else if e.Inner? && e.e.RunSweep? {
      TouchedSame(s.sys.tables.(pending := s.sys.tables.pending - set x | x in e.e.order), e.e.order, 0);
    }
  }

  lemma StepUnswept(w: World, s: Life, e: LifeEvent)
    requires LifeInv(w, s) && RecentInv(s) && RecentUnswept(s) && LifeEnabled(w, s, e) && !Late(w, s, e)
    ensures RecentUnswept(LifeStep(w, s, e))
  {
    if e.Fold? && s.todo[0].EpochReleased? {
      FoldUnique(w, s, e);
      assert s.todo[0].epoch !in s.sys.swept;
    } else if e.Inner? && e.e.RunSweep? {
      PromptIsNotHasty(w, s, e);
    }
  }

  lemma {:induction false} RunPrompt(w: World, s: Life, es: seq<LifeEvent>, c: TaskLocks.Call)
    requires LifeInv(w, s) && RecentInv(s) && RecentUnswept(s) && LifeRun(w, s, es) && !EverLate(w, s, es)
    ensures Redos(w, s, es, c) == 0
    decreases |es|
  {
    if es != [] {
      assert CallOk(s.sys, c);
      StepLife(w, s, es[0]);
      StepRecent(w, s, es[0]);
      StepUnswept(w, s, es[0]);
      RunPrompt(w, LifeStep(w, s, es[0]), es[1..], c);
    }
  }

  // No process is lost just there when every sweep ends within the submission window (and 30 seconds)
  // of the fetch it runs beside; then each project and epoch is called at most once.
  lemma PromptRuns(w: World, stored: Option<int>, now: real, nonce: int, es: seq<LifeEvent>, c: TaskLocks.Call)
    requires w.buffer >= 1 && EventScan.ReleasesOnce(w.chain) && BlockCursor.Stored(stored)
    requires LifeRun(w, Init(stored, now, nonce), es) && !EverLate(w, Init(stored, now, nonce), es)
    ensures Redos(w, Init(stored, now, nonce), es, c) == 0
    ensures Calls(LifeExec(w, Init(stored, now, nonce), es), c) <= 1
  {
    InitInv(w, stored, now, nonce);
    RunPrompt(w, Init(stored, now, nonce), es, c);
    CallsAreRedosOrOneMore(w, stored, now, nonce, es, c);
  }
}
