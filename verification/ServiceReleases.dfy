/** What becomes of every release, over all processes of the service. */
module ServiceReleases {
  import opened Wrappers
  import opened ForceTables
  import opened ForceRuns
  import opened ServiceLife
  import ForceSafety
  import BlockCursor
  import BlockCoverage
  import EventScan

  // It was swept by some process, or the running one keeps it pending.
  ghost predicate Handled(s: Life, epoch: nat) {
    epoch in s.swept || epoch in s.sys.swept || Pending(s, epoch)
  }

  // The process is lost while it keeps the epoch pending, its block has been persisted, and no earlier
  // process has swept it.
  ghost predicate Drops(s: Life, e: LifeEvent, epoch: nat) {
    e.Crash? && epoch in s.saved && epoch !in s.swept && Pending(s, epoch)
  }

  ghost predicate EverDrops(w: World, s: Life, es: seq<LifeEvent>, epoch: nat)
    requires LifeRun(w, s, es)
    decreases |es|
  {
    es != [] && (Drops(s, es[0], epoch) || EverDrops(w, LifeStep(w, s, es[0]), es[1..], epoch))
  }

  // Its block is persisted, and neither has any process swept it nor has this one seen it.
  ghost predicate Gone(s: Life, epoch: nat) {
    epoch in s.saved && epoch !in s.swept && !HasSeen(s, epoch)
  }

  ghost predicate KeptOrHandled(s: Life, epoch: nat) {
    (epoch in s.saved ==> Handled(s, epoch)) && ForceSafety.Kept(s.sys, epoch)
  }

  lemma PendingSeen(w: World, s: Life, epoch: nat)
    requires Inv(w.cfg, s.sys)
    ensures Pending(s, epoch) ==> HasSeen(s, epoch) && epoch !in s.sys.swept
    ensures epoch in s.sys.swept ==> HasSeen(s, epoch)
  {
    if x :| x in s.sys.tables.pending && x.1 == epoch {
      ForceSafety.SeenHas(s.sys.seen, ForceTables.Seen(x.0, EpochReleased(epoch)));
    }
  }

  lemma StepHandled(w: World, s: Life, e: LifeEvent, epoch: nat)
    requires LifeInv(w, s) && KeptOrHandled(s, epoch) && LifeEnabled(w, s, e) && !Drops(s, e, epoch)
    ensures KeptOrHandled(LifeStep(w, s, e), epoch)
  {
    var s' := LifeStep(w, s, e);
    assert EpochOk(w, s, epoch);
    match e
    case Fail(_) =>
      assert Pending(s', epoch) == Pending(s, epoch);
    case Begin(_, _) =>
      assert Pending(s', epoch) == Pending(s, epoch);
    case Fold(at) =>
      ForceSafety.StepKept(w.cfg, s.sys, See(at, s.todo[0]), epoch);
      if Handled(s, epoch) {
        FoldHandled(w, s, e, epoch);
      }
    case Save =>
      assert Pending(s', epoch) == Pending(s, epoch);
    case Inner(e1) =>
      ForceSafety.StepKept(w.cfg, s.sys, e1, epoch);
      if Handled(s, epoch) {
        InnerHandled(w, s, e, epoch);
      }
    case Crash(_, _) =>
      assert !Pending(s', epoch);
  }

  lemma FoldHandled(w: World, s: Life, e: LifeEvent, epoch: nat)
    requires LifeInv(w, s) && e.Fold? && LifeEnabled(w, s, e) && Handled(s, epoch)
    ensures Handled(LifeStep(w, s, e), epoch)
  {
    if x :| x in s.sys.tables.pending && x.1 == epoch {
      assert x in LifeStep(w, s, e).sys.tables.pending;
    }
  }

  lemma InnerHandled(w: World, s: Life, e: LifeEvent, epoch: nat)
    requires LifeInv(w, s) && e.Inner? && LifeEnabled(w, s, e) && Handled(s, epoch)
    ensures Handled(LifeStep(w, s, e), epoch)
  {
    var s' := LifeStep(w, s, e);
    if x :| x in s.sys.tables.pending && x.1 == epoch {
      PendingSeen(w, s, epoch);
      ForceSafety.StepKept(w.cfg, s.sys, e.e, epoch);
    }
  }

  lemma DropGone(w: World, s: Life, e: LifeEvent, epoch: nat)
    requires LifeInv(w, s) && LifeEnabled(w, s, e) && Drops(s, e, epoch)
    ensures Gone(LifeStep(w, s, e), epoch)
  {
    assert EpochOk(w, s, epoch);
    PendingSeen(w, s, epoch);
  }

  lemma StepGone(w: World, s: Life, e: LifeEvent, epoch: nat)
    requires LifeInv(w, s) && Gone(s, epoch) && LifeEnabled(w, s, e)
    ensures Gone(LifeStep(w, s, e), epoch)
  {
    assert EpochOk(w, s, epoch);
    if e.Fold? {
      FoldSeen(w, s, e, epoch);
      if s.todo[0] == EpochReleased(epoch) {
        assert s.todo[0] in s.todo;
        NotBoth(w, s, epoch);
        assert false;
      }
    } else if e.Crash? {
      PendingSeen(w, s, epoch);
    }
  }

  lemma {:induction false} RunGone(w: World, s: Life, es: seq<LifeEvent>, epoch: nat)
    requires LifeInv(w, s) && Gone(s, epoch) && LifeRun(w, s, es)
    ensures Gone(LifeExec(w, s, es), epoch) && LifeInv(w, LifeExec(w, s, es))
    decreases |es|
  {
    if es != [] {
      StepLife(w, s, es[0]);
      StepGone(w, s, es[0], epoch);
      RunGone(w, LifeStep(w, s, es[0]), es[1..], epoch);
    }
  }

  lemma {:induction false} RunHandled(w: World, s: Life, es: seq<LifeEvent>, epoch: nat)
    requires LifeInv(w, s) && KeptOrHandled(s, epoch) && LifeRun(w, s, es)
    ensures var s' := LifeExec(w, s, es);
      && LifeInv(w, s')
      && if EverDrops(w, s, es, epoch) then Gone(s', epoch) else KeptOrHandled(s', epoch)
    decreases |es|
  {
    if es != [] {
      StepLife(w, s, es[0]);
      if Drops(s, es[0], epoch) {
        DropGone(w, s, es[0], epoch);
        RunGone(w, LifeStep(w, s, es[0]), es[1..], epoch);
      } else {
        StepHandled(w, s, es[0], epoch);
        RunHandled(w, LifeStep(w, s, es[0]), es[1..], epoch);
      }
    }
  }

  // Exactly when a release is lost, over all processes: one whose block has been persisted has been
  // swept by some process or is pending, if and only if no process was lost while it kept it
  // pending after that, with no sweep of it by an earlier one.
  lemma LostExactlyWhenDropped(w: World, stored: Option<int>, now: real, nonce: int, es: seq<LifeEvent>, epoch: nat)
    requires w.buffer >= 1 && EventScan.ReleasesOnce(w.chain) && BlockCursor.Stored(stored)
    requires LifeRun(w, Init(stored, now, nonce), es)
    requires epoch in LifeExec(w, Init(stored, now, nonce), es).saved
    ensures Handled(LifeExec(w, Init(stored, now, nonce), es), epoch)
       <==> !EverDrops(w, Init(stored, now, nonce), es, epoch)
  {
    InitInv(w, stored, now, nonce);
    RunHandled(w, Init(stored, now, nonce), es, epoch);
    PendingSeen(w, LifeExec(w, Init(stored, now, nonce), es), epoch);
  }

  // --- Every persisted block ------------------------------------------------------------------

  predicate Skipped(s: Life, b: int) {
    BlockCursor.Skipped(s.cursor.allSkips, b) >= 1
  }

  ghost predicate AllIn(w: World, b: int, epochs: set<nat>) {
    forall epoch :: EpochReleased(epoch) in w.chain(b) ==> epoch in epochs
  }

  // The block lies above the anchor and above the stored cursor.
  predicate Unstored(s: Life, b: int) {
    b > s.anchor && (s.cursor.stored.Some? ==> b > s.cursor.stored.value)
  }

  // A block above the anchor whose cursor is persisted was skipped or its releases are on record; one
  // that the process has passed beyond that was skipped; and one in the range of a fetch has its
  // releases folded in or still to be.
  ghost predicate BlockOk(w: World, s: Life, b: int) {
    && (s.cursor.stored.Some? && s.anchor < b <= s.cursor.stored.value ==> Skipped(s, b) || AllIn(w, b, s.saved))
    && (s.cursor.began.Some? && Unstored(s, b) && b <= s.cursor.last ==> Skipped(s, b))
    && (s.fetching.Some? && s.fetching.value.lo < b <= s.fetching.value.head ==>
          forall epoch :: EpochReleased(epoch) in w.chain(b) ==>
            EpochReleased(epoch) in s.todo || epoch in s.recent)
  }

  // A turn skips what lies between its origin and the cursor it chooses.
  lemma TurnedSkips(w: World, s: Life, head: nat, result: BlockCursor.Result, b: int)
    requires w.buffer >= 1 && BlockCursor.Bounds(s.cursor) && head >= s.cursor.head
    ensures BlockCursor.Skipped(Turned(w, s, head, result).allSkips, b) >= 1
       <==> Skipped(s, b) || BlockCursor.Origin(s.cursor, head) < b <= Lo(w, s, head)
  {
    var origin := BlockCursor.Origin(s.cursor, head);
    BlockCursor.ChooseBounds(w.buffer, s.cursor, head);
    BlockCursor.StepScans(w.buffer, s.cursor, BlockCursor.Turn(head, result));
    BlockCoverage.ChooseSkips(w.buffer, s.cursor, head);
    if Lo(w, s, head) != origin {
      BlockCursor.SkippedAppend(s.cursor.allSkips,
                                BlockCursor.Skip(BlockCursor.Range(origin + 1, Lo(w, s, head)), head), b);
    }
  }

  predicate BelowIt(s: Life, head: nat, b: int) {
    && Anchor(s, head) < b <= BlockCursor.Origin(s.cursor, head)
    && (s.cursor.stored.Some? ==> s.cursor.stored.value < b)
  }

  // What lies below the origin of a turn but above the stored cursor has been skipped.
  lemma BelowOrigin(w: World, s: Life, head: nat, b: int)
    requires LifeInv(w, s) && BlockOk(w, s, b) && head >= s.cursor.head
    requires BelowIt(s, head, b)
    ensures Skipped(s, b)
  {
    BlockCursor.ChooseBounds(w.buffer, s.cursor, head);
  }

  lemma SaveBlock(w: World, s: Life, e: LifeEvent, b: int)
    requires LifeInv(w, s) && BlockOk(w, s, b) && e.Save? && LifeEnabled(w, s, e)
    ensures BlockOk(w, LifeStep(w, s, e), b)
  {
    var head := s.fetching.value.head;
    TurnedStored(w, s, head, BlockCursor.ScanOk);
    TurnedSkips(w, s, head, BlockCursor.ScanOk, b);
    BlockCursor.TurnMoves(w.buffer, s.cursor, BlockCursor.Turn(head, BlockCursor.ScanOk));
    if BelowIt(s, head, b) {
      BelowOrigin(w, s, head, b);
    }
  }

  lemma FailBlock(w: World, s: Life, e: LifeEvent, b: int)
    requires LifeInv(w, s) && BlockOk(w, s, b) && e.Fail? && LifeEnabled(w, s, e)
    ensures BlockOk(w, LifeStep(w, s, e), b)
  {
    TurnedStored(w, s, e.head, BlockCursor.ScanFails);
    TurnedSkips(w, s, e.head, BlockCursor.ScanFails, b);
    BlockCursor.TurnMoves(w.buffer, s.cursor, BlockCursor.Turn(e.head, BlockCursor.ScanFails));
    if BelowIt(s, e.head, b) {
      BelowOrigin(w, s, e.head, b);
    }
  }

  lemma CrashBlock(w: World, s: Life, e: LifeEvent, b: int)
    requires LifeInv(w, s) && BlockOk(w, s, b) && e.Crash? && LifeEnabled(w, s, e)
    ensures BlockOk(w, LifeStep(w, s, e), b)
  {
    LeftBounds(w, s);
    assert Left(w, s).began.None?;
    if s.fetching.Some? {
      TurnedSkips(w, s, s.fetching.value.head, BlockCursor.ScanOkThenCrash, b);
      TurnedSkips(w, s, s.fetching.value.head, BlockCursor.ScanFails, b);
    }
  }

  lemma StepBlock(w: World, s: Life, e: LifeEvent, b: int)
    requires LifeInv(w, s) && BlockOk(w, s, b) && LifeEnabled(w, s, e)
    ensures BlockOk(w, LifeStep(w, s, e), b)
  {
    match e
    case Fail(_) => FailBlock(w, s, e, b);
    case Begin(_, _) => BeginBlock(w, s, e, b);
    case Fold(_) => FoldBlock(w, s, e, b);
    case Save => SaveBlock(w, s, e, b);
    case Inner(_) =>
    case Crash(_, _) => CrashBlock(w, s, e, b);
  }

  lemma BeginBlock(w: World, s: Life, e: LifeEvent, b: int)
    requires LifeInv(w, s) && BlockOk(w, s, b) && e.Begin? && LifeEnabled(w, s, e)
    ensures BlockOk(w, LifeStep(w, s, e), b)
  {
    var lo := Lo(w, s, e.head);
    forall epoch | lo < b <= e.head && EpochReleased(epoch) in w.chain(b)
      ensures EpochReleased(epoch) in EventScan.Logs(w.chain, lo + 1, e.head)
    {
      EventScan.LogsHas(w.chain, lo + 1, e.head, EpochReleased(epoch), b);
    }
  }

  lemma FoldBlock(w: World, s: Life, e: LifeEvent, b: int)
    requires LifeInv(w, s) && BlockOk(w, s, b) && e.Fold? && LifeEnabled(w, s, e)
    ensures BlockOk(w, LifeStep(w, s, e), b)
  {
    assert s.todo == [s.todo[0]] + s.todo[1..];
  }

  lemma {:induction false} RunBlock(w: World, s: Life, es: seq<LifeEvent>, b: int)
    requires LifeInv(w, s) && BlockOk(w, s, b) && LifeRun(w, s, es)
    ensures BlockOk(w, LifeExec(w, s, es), b)
    decreases |es|
  {
    if es != [] {
      StepLife(w, s, es[0]);
      StepBlock(w, s, es[0], b);
      RunBlock(w, LifeStep(w, s, es[0]), es[1..], b);
    }
  }

  // The anchor: as long as a cursor is stored it stays, so with one stored at the start it is that one.
  lemma {:induction false} AnchorStays(w: World, s: Life, es: seq<LifeEvent>)
    requires LifeInv(w, s) && s.cursor.stored.Some? && LifeRun(w, s, es)
    ensures LifeExec(w, s, es).anchor == s.anchor && LifeExec(w, s, es).cursor.stored.Some?
    decreases |es|
  {
    if es != [] {
      StepLife(w, s, es[0]);
      StepStored(w, s, es[0]);
      AnchorStays(w, LifeStep(w, s, es[0]), es[1..]);
    }
  }

  lemma StepStored(w: World, s: Life, e: LifeEvent)
    requires LifeInv(w, s) && s.cursor.stored.Some? && LifeEnabled(w, s, e)
    ensures LifeStep(w, s, e).cursor.stored.Some? && LifeStep(w, s, e).anchor == s.anchor
  {
    match e
    case Fail(head) => TurnedStored(w, s, head, BlockCursor.ScanFails);
    case Save => TurnedStored(w, s, s.fetching.value.head, BlockCursor.ScanOk);
    case Crash(_, _) => LeftBounds(w, s);
    case _ =>
  }

  // The fate of every release at or below the stored cursor, whatever crashes at any step. Above the
  // anchor: the block was skipped, or the release has been swept by some process or is pending,
  // unless, exactly, a process was lost while it kept it pending after its block was persisted. At
  // or below the anchor: the release is not on record, and is handled only if a process that was
  // lost before it could persist its cursor has swept it.
  lemma FateOfARelease(w: World, stored: Option<int>, now: real, nonce: int, es: seq<LifeEvent>, epoch: nat, b: int)
    requires w.buffer >= 1 && EventScan.ReleasesOnce(w.chain) && BlockCursor.Stored(stored)
    requires LifeRun(w, Init(stored, now, nonce), es) && EpochReleased(epoch) in w.chain(b)
    requires var c := LifeExec(w, Init(stored, now, nonce), es).cursor; c.stored.Some? && b <= c.stored.value
    ensures var s := LifeExec(w, Init(stored, now, nonce), es);
      && (b > s.anchor ==>
            Skipped(s, b) || (Handled(s, epoch) <==> !EverDrops(w, Init(stored, now, nonce), es, epoch)))
      && (b <= s.anchor ==> epoch !in s.saved && (Handled(s, epoch) <==> epoch in s.swept))
  {
    InitInv(w, stored, now, nonce);
    RunLife(w, Init(stored, now, nonce), es);
    RunBlock(w, Init(stored, now, nonce), es, b);
    var s := LifeExec(w, Init(stored, now, nonce), es);
    if b <= s.anchor {
      BelowAnchor(w, s, epoch, b);
    } else if !Skipped(s, b) {
      assert AllIn(w, b, s.saved);
      LostExactlyWhenDropped(w, stored, now, nonce, es, epoch);
    }
  }

  lemma BelowAnchor(w: World, s: Life, epoch: nat, b: int)
    requires LifeInv(w, s) && EpochReleased(epoch) in w.chain(b) && b <= s.anchor
    ensures epoch !in s.saved && (Handled(s, epoch) <==> epoch in s.swept)
  {
    assert EpochOk(w, s, epoch);
    PendingSeen(w, s, epoch);
  }
}
