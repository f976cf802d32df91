/** What holds on every interleaving of event scans, sweeps, transaction tasks and cleanups. */
module ForceSafety {
  import TaskLocks
  import opened ForceTables

  lemma HasEventAppend(seen: seq<Seen>, x: Seen, ev: LogEvent)
    ensures HasEvent(seen + [x], ev) <==> HasEvent(seen, ev) || x.ev == ev
  {
    if HasEvent(seen, ev) {
      var k :| 0 <= k < |seen| && seen[k].ev == ev;
      assert (seen + [x])[k].ev == ev;
    }
    if x.ev == ev {
      assert (seen + [x])[|seen|].ev == ev;
    }
  }

  // --- The tables agree with the history ------------------------------------------------------

  // Until an epoch is swept its table entries are exactly the events seen for it.
  ghost predicate TableInv(s: System) {
    forall e, p :: e !in s.swept ==>
      && (p in At(s.tables.submitted, e) <==> HasEvent(s.seen, SnapshotSubmitted(e, p)))
      && (p in At(s.tables.finalized, e) <==> HasEvent(s.seen, SnapshotFinalized(e, p)))
  }

  // Pending epochs were released when they say, only once, and have not been swept.
  ghost predicate PendingInv(s: System) {
    && (forall x :: x in s.tables.pending ==> Seen(x.0, EpochReleased(x.1)) in s.seen && x.1 !in s.swept)
    && (forall x, y :: x in s.tables.pending && y in s.tables.pending && x.1 == y.1 ==> x == y)
    && (forall e :: e in s.swept ==> HasEvent(s.seen, EpochReleased(e)))
  }

  // The epochs of every sweep are swept ones, and cleaning up only concerns those.
  ghost predicate SweptInv(s: System) {
    forall i, k :: 0 <= i < |s.sweeps| && 0 <= k < |s.sweeps[i].order| ==> s.sweeps[i].order[k].1 in s.swept
  }

  lemma SeeTable(cfg: Settings, s: System, e: Event)
    requires e.See? && TableInv(s)
    ensures TableInv(Step(cfg, s, e))
  {
    forall ev ensures HasEvent(s.seen + [Seen(e.at, e.ev)], ev) <==> HasEvent(s.seen, ev) || e.ev == ev {
      HasEventAppend(s.seen, Seen(e.at, e.ev), ev);
    }
  }

  lemma SweepTable(cfg: Settings, s: System, e: Event)
    requires e.RunSweep? && TableInv(s)
    ensures TableInv(Step(cfg, s, e))
  {
    forall ep ensures
      var u := SweepTables(s.tables, e.order);
      At(u.submitted, ep) == At(s.tables.submitted, ep) && At(u.finalized, ep) == At(s.tables.finalized, ep)
    {
      TouchedSame(s.tables.(pending := s.tables.pending - set x | x in e.order), e.order, ep);
    }
  }

  lemma CleanTable(cfg: Settings, s: System, e: Event)
    requires e.Clean? && TableInv(s) && SweptInv(s) && Enabled(cfg, s, e)
    ensures TableInv(Step(cfg, s, e))
  {
    var sw := s.sweeps[e.sweep];
    var last := sw.order[|sw.order| - 1].1;
    assert last in s.swept;
    forall ep | ep !in s.swept ensures
      var u := CleanTables(s.tables, last);
      At(u.submitted, ep) == At(s.tables.submitted, ep) && At(u.finalized, ep) == At(s.tables.finalized, ep)
    {
      CleanLeavesOthers(s.tables, last, ep);
    }
  }

  lemma StepTable(cfg: Settings, s: System, e: Event)
    requires TableInv(s) && SweptInv(s) && Enabled(cfg, s, e)
    ensures TableInv(Step(cfg, s, e))
  {
    match e
    case See(_, _) => SeeTable(cfg, s, e);
    case RunSweep(_, _, _) => SweepTable(cfg, s, e);
    case Act(_, _, _) =>
    case Clean(_, _) => CleanTable(cfg, s, e);
  }

  lemma NewRelease(seen: seq<Seen>, x: Seen)
    requires UniqueReleases(seen + [x]) && x.ev.EpochReleased?
    ensures !HasEvent(seen, x.ev)
  {
    assert (seen + [x])[|seen|] == x;
    forall k | 0 <= k < |seen| ensures seen[k].ev != x.ev {
      assert (seen + [x])[k] == seen[k];
    }
  }

  lemma SeePending(cfg: Settings, s: System, e: Event)
    requires e.See? && PendingInv(s) && UniqueReleases(Step(cfg, s, e).seen)
    ensures PendingInv(Step(cfg, s, e))
  {
    var x := Seen(e.at, e.ev);
    forall ev ensures HasEvent(s.seen + [x], ev) <==> HasEvent(s.seen, ev) || e.ev == ev {
      HasEventAppend(s.seen, x, ev);
    }
    if e.ev.EpochReleased? {
      NewRelease(s.seen, x);
      forall y | y in s.tables.pending ensures y.1 != e.ev.epoch {
        SeenHas(s.seen, Seen(y.0, EpochReleased(y.1)));
      }
      assert x in s.seen + [x];
    }
  }

  lemma SeenHas(seen: seq<Seen>, x: Seen)
    requires x in seen
    ensures HasEvent(seen, x.ev)
  {
    var k :| 0 <= k < |seen| && seen[k] == x;
  }

  lemma SweepPending(cfg: Settings, s: System, e: Event)
    requires e.RunSweep? && PendingInv(s) && Enabled(cfg, s, e)
    ensures PendingInv(Step(cfg, s, e))
    ensures forall x :: x in s.tables.pending && Deadline(cfg, x.0) < e.from ==> x !in Step(cfg, s, e).tables.pending
  {
    TouchedSame(s.tables.(pending := s.tables.pending - set x | x in e.order), e.order, 0);
    forall x | x in e.order ensures x in s.tables.pending && HasEvent(s.seen, EpochReleased(x.1)) {
      assert x in Due(cfg, s.tables, e.at);
      SeenHas(s.seen, Seen(x.0, EpochReleased(x.1)));
    }
  }

  lemma StepPending(cfg: Settings, s: System, e: Event)
    requires PendingInv(s) && Enabled(cfg, s, e) && UniqueReleases(Step(cfg, s, e).seen)
    ensures PendingInv(Step(cfg, s, e))
  {
    match e
    case See(_, _) => SeePending(cfg, s, e);
    case RunSweep(_, _, _) => SweepPending(cfg, s, e);
    case Act(_, _, _) =>
    case Clean(_, _) =>
  }

  // No release is forgotten: it is pending or has been swept, whatever the epoch ids.
  ghost predicate Kept(s: System, epoch: nat) {
    HasEvent(s.seen, EpochReleased(epoch)) ==> epoch in s.swept || exists x :: x in s.tables.pending && x.1 == epoch
  }

  lemma StepKept(cfg: Settings, s: System, e: Event, epoch: nat)
    requires Kept(s, epoch) && Enabled(cfg, s, e)
    ensures Kept(Step(cfg, s, e), epoch)
  {
    var s' := Step(cfg, s, e);
    match e
    case See(at, ev) =>
      HasEventAppend(s.seen, Seen(at, ev), EpochReleased(epoch));
      if ev == EpochReleased(epoch) {
        assert (at, epoch) in s'.tables.pending;
      } else if x :| x in s.tables.pending && x.1 == epoch {
        assert x in s'.tables.pending;
      }
    case RunSweep(_, _, order) =>
      TouchedSame(s.tables.(pending := s.tables.pending - set x | x in order), order, 0);
      if x :| x in s.tables.pending && x.1 == epoch {
        assert x in order ==> x.1 in s'.swept;
        assert x !in order ==> x in s'.tables.pending;
      }
    case Act(_, _, _) =>
    case Clean(_, _) =>
  }

  lemma StepSwept(cfg: Settings, s: System, e: Event)
    requires SweptInv(s) && Enabled(cfg, s, e)
    ensures SweptInv(Step(cfg, s, e))
  {
  }

  // --- The calls ------------------------------------------------------------------------------

  // A sweep's calls are exactly the submissions seen so far that have not been seen finalized.
  ghost predicate FromHistory(s: System, sw: Sweep) {
    && sw.horizon <= |s.seen|
    && forall t :: t in sw.calls <==>
         && (exists x :: x in sw.order && x.1 == t.epoch)
         && HasEvent(s.seen[..sw.horizon], SnapshotSubmitted(t.epoch, t.project))
         && !HasEvent(s.seen[..sw.horizon], SnapshotFinalized(t.epoch, t.project))
  }

  // Every epoch of a sweep was due then.
  ghost predicate NotEarly(cfg: Settings, s: System, sw: Sweep) {
    && sw.at <= s.now
    && forall x :: x in sw.order ==> Deadline(cfg, x.0) < sw.at && Seen(x.0, EpochReleased(x.1)) in s.seen
  }

  ghost predicate SweepsInv(cfg: Settings, s: System) {
    forall i :: 0 <= i < |s.sweeps| ==> FromHistory(s, s.sweeps[i]) && NotEarly(cfg, s, s.sweeps[i])
  }

  lemma SweepFromHistory(cfg: Settings, s: System, e: Event)
    requires e.RunSweep? && TableInv(s) && PendingInv(s) && Enabled(cfg, s, e)
    ensures var s' := Step(cfg, s, e);
      FromHistory(s', s'.sweeps[|s.sweeps|]) && NotEarly(cfg, s', s'.sweeps[|s.sweeps|])
  {
    var sw := Step(cfg, s, e).sweeps[|s.sweeps|];
    assert s.seen[..|s.seen|] == s.seen;
    forall x | x in e.order ensures x in Due(cfg, s.tables, e.at) {
    }
    forall t: TaskLocks.Call
      ensures t in sw.calls <==>
        (exists x :: x in e.order && x.1 == t.epoch) && t.project in Forced(s.tables, t.epoch)
    {
      if x :| x in e.order && x.1 == t.epoch && t.project in Forced(s.tables, t.epoch) {
        assert TaskLocks.Call(t.project, x.1) in CallSet(s.tables, e.order);
      }
    }
  }

  lemma KeepSweep(cfg: Settings, s: System, s': System, sw: Sweep)
    requires FromHistory(s, sw) && NotEarly(cfg, s, sw) && s.now <= s'.now && s.seen <= s'.seen
    ensures FromHistory(s', sw) && NotEarly(cfg, s', sw)
  {
    assert s'.seen[..sw.horizon] == s.seen[..sw.horizon];
  }

  lemma StepSweeps(cfg: Settings, s: System, e: Event)
    requires SweepsInv(cfg, s) && TableInv(s) && PendingInv(s) && Enabled(cfg, s, e)
    ensures SweepsInv(cfg, Step(cfg, s, e))
  {
    var s' := Step(cfg, s, e);
    forall i | 0 <= i < |s'.sweeps| ensures FromHistory(s', s'.sweeps[i]) && NotEarly(cfg, s', s'.sweeps[i]) {
      if i == |s.sweeps| {
        SweepFromHistory(cfg, s, e);
      } else {
        KeepSweep(cfg, s, s', s.sweeps[i]);
      }
    }
  }
}
