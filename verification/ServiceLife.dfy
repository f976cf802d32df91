/**
 * The force-consensus service over all its processes: block cursor, fetches, event tables and tasks,
 * with crashes at any step. Memory is lost in a crash, the stored cursor is not.
 */
module ServiceLife {
  import opened Wrappers
  import opened ForceTables
  import opened ForceRuns
  import ForceSafety
  import BlockCursor
  import EventScan
  import TaskLocks

  // A fetch under way: it fetched blocks lo + 1 to head, from the clock value since on.
  datatype Fetch = Fetch(lo: int, head: nat, since: real)

  // cursor is as before the turn whose fetch is under way; todo are the entries it has not folded in
  // yet, recent the epochs it has seen released. swept and calls are those of earlier processes,
  // saved the epochs seen released whose block has been persisted. anchor is the cursor stored at the
  // start, or the one of the latest turn that found none in memory nor stored.
  datatype Life = Life(cursor: BlockCursor.State, anchor: int, sys: System, fetching: Option<Fetch>,
                       todo: seq<LogEvent>, recent: set<nat>, saved: set<nat>,
                       swept: set<nat>, calls: multiset<TaskLocks.Call>)

  datatype LifeEvent =
    | Fail(head: nat)                // a turn with nothing to fetch, or whose fetch raises
    | Begin(head: nat, since: real)  // a fetch succeeds
    | Fold(at: real)                 // its next entry is folded in
    | Save                           // the cursor is persisted
    | Inner(e: Event)    // a sweep, a task's action or a cleanup
    | Crash(now: real, nonce: int)   // the process is lost, and a new one reads its nonce

  datatype World = World(cfg: Settings, chain: EventScan.Chain, buffer: nat)

  function Init(stored: Option<int>, now: real, nonce: int): Life {
    Life(BlockCursor.Start(stored), if stored.Some? then stored.value else 0, ForceTables.Start(now, nonce),
         None, [], {}, {}, {}, multiset{})
  }

  // A turn that finds no cursor starts from the block before the head.
  function Anchor(s: Life, head: nat): int {
    if s.cursor.last == 0 && s.cursor.stored.None? then head - 1 else s.anchor
  }

  function Lo(w: World, s: Life, head: nat): int {
    BlockCursor.Choose(w.buffer, s.cursor, head).last
  }

  ghost predicate LifeEnabled(w: World, s: Life, e: LifeEvent) {
    match e
    case Fail(head) => s.fetching.None? && head >= s.cursor.head
    case Begin(head, since) =>
      s.fetching.None? && head >= s.cursor.head && Lo(w, s, head) != head && since >= s.sys.now
    case Fold(at) => s.fetching.Some? && s.todo != [] && at >= s.sys.now && at >= s.fetching.value.since
    case Save => s.fetching.Some? && s.todo == []
    case Inner(e) => !e.See? && Enabled(w.cfg, s.sys, e)
    case Crash(now, _) => now >= s.sys.now
  }

  function Turned(w: World, s: Life, head: nat, result: BlockCursor.Result): BlockCursor.State {
    BlockCursor.Step(w.buffer, s.cursor, BlockCursor.Turn(head, result))
  }

  // The cursor that a lost process leaves.
  function Left(w: World, s: Life): BlockCursor.State {
    if s.fetching.None? then BlockCursor.Lose(s.cursor)
    else if s.todo == [] then Turned(w, s, s.fetching.value.head, BlockCursor.ScanOkThenCrash)
    else BlockCursor.Lose(Turned(w, s, s.fetching.value.head, BlockCursor.ScanFails))
  }

  function LifeStep(w: World, s: Life, e: LifeEvent): Life
    requires LifeEnabled(w, s, e)
  {
    match e
    case Fail(head) => s.(cursor := Turned(w, s, head, BlockCursor.ScanFails), anchor := Anchor(s, head))
    case Begin(head, since) =>
      var lo := Lo(w, s, head);
      s.(fetching := Some(Fetch(lo, head, since)), todo := EventScan.Logs(w.chain, lo + 1, head),
         anchor := Anchor(s, head))
    case Fold(at) =>
      s.(sys := Step(w.cfg, s.sys, See(at, s.todo[0])), todo := s.todo[1..],
         recent := s.recent + if s.todo[0].EpochReleased? then {s.todo[0].epoch} else {})
    case Save =>
      s.(cursor := Turned(w, s, s.fetching.value.head, BlockCursor.ScanOk), fetching := None,
         saved := s.saved + s.recent, recent := {})
    case Inner(e) => s.(sys := Step(w.cfg, s.sys, e))
    case Crash(now, nonce) =>
      s.(cursor := Left(w, s), sys := ForceTables.Start(now, nonce), fetching := None, todo := [], recent := {},
         swept := s.swept + s.sys.swept, calls := s.calls + s.sys.calls)
  }

  ghost predicate LifeRun(w: World, s: Life, es: seq<LifeEvent>)
    decreases |es|
  {
    es == [] || (LifeEnabled(w, s, es[0]) && LifeRun(w, LifeStep(w, s, es[0]), es[1..]))
  }

  ghost function LifeExec(w: World, s: Life, es: seq<LifeEvent>): Life
    requires LifeRun(w, s, es)
    decreases |es|
  {
    if es == [] then s else LifeExec(w, LifeStep(w, s, es[0]), es[1..])
  }

  // --- Where releases are ---------------------------------------------------------------------

  ghost predicate Released(chain: EventScan.Chain, epoch: nat, lo: int, hi: int) {
    exists b :: lo < b <= hi && EpochReleased(epoch) in chain(b)
  }

  ghost predicate HasSeen(s: Life, epoch: nat) {
    HasEvent(s.sys.seen, EpochReleased(epoch))
  }

  ghost predicate Pending(s: Life, epoch: nat) {
    exists x :: x in s.sys.tables.pending && x.1 == epoch
  }

  ghost predicate FetchInv(w: World, s: Life) {
    && (s.fetching.None? ==> s.todo == [] && s.recent == {})
    && (s.fetching.Some? ==>
          var f := s.fetching.value; f.head >= s.cursor.head && f.lo == Lo(w, s, f.head) < f.head)
  }

  // The anchor lies at or below every cursor, and a fetch that began with none is anchored at its own.
  predicate AnchorInv(s: Life) {
    && (s.cursor.stored.Some? ==> s.anchor <= s.cursor.stored.value)
    && (s.cursor.began.Some? && (s.cursor.last != 0 || s.cursor.stored.Some?) ==> s.anchor <= s.cursor.last)
    && (s.fetching.Some? ==> s.anchor <= s.fetching.value.lo && Anchor(s, s.fetching.value.head) == s.anchor)
  }

  // What a fetch under way still has to fold in and what it has folded in lies in its range; what is
  // persisted lies above the anchor, up to the stored cursor; all that was seen is one or the other.
  ghost predicate EpochOk(w: World, s: Life, epoch: nat) {
    && (EpochReleased(epoch) in s.todo ==>
          && s.fetching.Some? && Released(w.chain, epoch, s.fetching.value.lo, s.fetching.value.head)
          && multiset(s.todo)[EpochReleased(epoch)] == 1 && epoch !in s.recent)
    && (epoch in s.recent ==>
          && s.fetching.Some? && Released(w.chain, epoch, s.fetching.value.lo, s.fetching.value.head)
          && HasSeen(s, epoch))
    && (epoch in s.saved ==>
          s.cursor.stored.Some? && Released(w.chain, epoch, s.anchor, s.cursor.stored.value))
    && (HasSeen(s, epoch) ==> epoch in s.recent || epoch in s.saved)
  }

  ghost predicate LifeInv(w: World, s: Life) {
    && w.buffer >= 1 && EventScan.ReleasesOnce(w.chain)
    && BlockCursor.Bounds(s.cursor) && FetchInv(w, s) && AnchorInv(s)
    && Inv(w.cfg, s.sys) && UniqueReleases(s.sys.seen)
    && (forall epoch :: EpochOk(w, s, epoch))
  }

  // A release cannot lie both at or below the stored cursor and in the range of a fetch.
  lemma NotBoth(w: World, s: Life, epoch: nat)
    requires w.buffer >= 1 && EventScan.ReleasesOnce(w.chain) && BlockCursor.Bounds(s.cursor) && FetchInv(w, s)
    requires s.fetching.Some? && Released(w.chain, epoch, s.fetching.value.lo, s.fetching.value.head)
    ensures !(s.cursor.stored.Some? && Released(w.chain, epoch, s.anchor, s.cursor.stored.value))
  {
    BlockCursor.ChooseBounds(w.buffer, s.cursor, s.fetching.value.head);
  }

  lemma ReleasedWithin(chain: EventScan.Chain, epoch: nat, lo: int, hi: int, lo': int, hi': int)
    requires Released(chain, epoch, lo, hi) && lo' <= lo && hi <= hi'
    ensures Released(chain, epoch, lo', hi')
  {
    var b :| lo < b <= hi && EpochReleased(epoch) in chain(b);
  }

  // No turn starts below the anchor it leaves.
  lemma TurnAnchor(w: World, s: Life, head: nat)
    requires w.buffer >= 1 && BlockCursor.Bounds(s.cursor) && AnchorInv(s) && head >= s.cursor.head
    ensures Anchor(s, head) <= BlockCursor.Origin(s.cursor, head) <= Lo(w, s, head) <= head
  {
    BlockCursor.ChooseBounds(w.buffer, s.cursor, head);
  }

  lemma {:induction false} LogsFrom(chain: EventScan.Chain, lo: int, hi: int, epoch: nat)
    requires EpochReleased(epoch) in EventScan.Logs(chain, lo + 1, hi)
    ensures Released(chain, epoch, lo, hi)
    decreases hi - lo
  {
    if EpochReleased(epoch) !in chain(hi) {
      LogsFrom(chain, lo, hi - 1, epoch);
    }
  }

  lemma LogsOnce(chain: EventScan.Chain, lo: int, hi: int, epoch: nat)
    requires EventScan.ReleasesOnce(chain) && EpochReleased(epoch) in EventScan.Logs(chain, lo + 1, hi)
    ensures Released(chain, epoch, lo, hi) && multiset(EventScan.Logs(chain, lo + 1, hi))[EpochReleased(epoch)] == 1
  {
    LogsFrom(chain, lo, hi, epoch);
    var b :| lo < b <= hi && EpochReleased(epoch) in chain(b);
    EventScan.LogsCount(chain, lo + 1, hi, EpochReleased(epoch), b);
  }

  lemma BeginEpoch(w: World, s: Life, e: LifeEvent, epoch: nat)
    requires LifeInv(w, s) && e.Begin? && LifeEnabled(w, s, e)
    ensures EpochOk(w, LifeStep(w, s, e), epoch)
  {
    var s' := LifeStep(w, s, e);
    assert EpochOk(w, s, epoch);
    assert HasSeen(s', epoch) == HasSeen(s, epoch);
    if EpochReleased(epoch) in s'.todo {
      LogsOnce(w.chain, Lo(w, s, e.head), e.head, epoch);
    }
  }

  lemma BeginInv(w: World, s: Life, e: LifeEvent)
    requires LifeInv(w, s) && e.Begin? && LifeEnabled(w, s, e)
    ensures LifeInv(w, LifeStep(w, s, e))
  {
    var s' := LifeStep(w, s, e);
    BlockCursor.ChooseBounds(w.buffer, s.cursor, e.head);
    TurnAnchor(w, s, e.head);
    forall epoch ensures EpochOk(w, s', epoch) {
      BeginEpoch(w, s, e, epoch);
    }
  }

  // Folding in the next entry.
  lemma FoldSeen(w: World, s: Life, e: LifeEvent, epoch: nat)
    requires e.Fold? && LifeEnabled(w, s, e)
    ensures HasSeen(LifeStep(w, s, e), epoch) <==> HasSeen(s, epoch) || s.todo[0] == EpochReleased(epoch)
    ensures EpochReleased(epoch) in LifeStep(w, s, e).todo ==> EpochReleased(epoch) in s.todo
    ensures var n, n' := multiset(s.todo)[EpochReleased(epoch)], multiset(LifeStep(w, s, e).todo)[EpochReleased(epoch)];
      n == n' + if s.todo[0] == EpochReleased(epoch) then 1 else 0
  {
    ForceSafety.HasEventAppend(s.sys.seen, ForceTables.Seen(e.at, s.todo[0]), EpochReleased(epoch));
    assert s.todo == [s.todo[0]] + s.todo[1..];
  }

  // The entry is new: an epoch's release is seen only once.
  lemma FoldUnique(w: World, s: Life, e: LifeEvent)
    requires LifeInv(w, s) && e.Fold? && LifeEnabled(w, s, e)
    ensures UniqueReleases(LifeStep(w, s, e).sys.seen)
    ensures s.todo[0].EpochReleased? ==> !HasSeen(s, s.todo[0].epoch) && s.todo[0].epoch !in s.saved
  {
    if s.todo[0].EpochReleased? {
      var epoch := s.todo[0].epoch;
      assert s.todo[0] in s.todo && EpochOk(w, s, epoch);
      NotBoth(w, s, epoch);
      assert !HasSeen(s, epoch);
      UniqueAppend(s.sys.seen, ForceTables.Seen(e.at, s.todo[0]));
    } else {
      UniqueAppend(s.sys.seen, ForceTables.Seen(e.at, s.todo[0]));
    }
  }

  lemma UniqueAppend(seen: seq<ForceTables.Seen>, x: ForceTables.Seen)
    requires UniqueReleases(seen) && (x.ev.EpochReleased? ==> !HasEvent(seen, x.ev))
    ensures UniqueReleases(seen + [x])
  {
  }

  lemma FoldEpoch(w: World, s: Life, e: LifeEvent, epoch: nat)
    requires LifeInv(w, s) && e.Fold? && LifeEnabled(w, s, e)
    ensures EpochOk(w, LifeStep(w, s, e), epoch)
  {
    assert EpochOk(w, s, epoch);
    FoldSeen(w, s, e, epoch);
    FoldUnique(w, s, e);
    if s.todo[0] == EpochReleased(epoch) {
      assert s.todo[0] in s.todo;
    }
  }

  lemma FoldInv(w: World, s: Life, e: LifeEvent)
    requires LifeInv(w, s) && e.Fold? && LifeEnabled(w, s, e)
    ensures LifeInv(w, LifeStep(w, s, e))
  {
    FoldUnique(w, s, e);
    StepInv(w.cfg, s.sys, See(e.at, s.todo[0]));
    forall epoch ensures EpochOk(w, LifeStep(w, s, e), epoch) {
      FoldEpoch(w, s, e, epoch);
    }
  }

  // Turns move the stored cursor as the cursor model says.
  lemma TurnedStored(w: World, s: Life, head: nat, result: BlockCursor.Result)
    ensures Turned(w, s, head, result).stored
         == if result == BlockCursor.ScanOk && Lo(w, s, head) != head then Some(head) else s.cursor.stored
  {
  }

  lemma SaveInv(w: World, s: Life, e: LifeEvent)
    requires LifeInv(w, s) && e.Save? && LifeEnabled(w, s, e)
    ensures LifeInv(w, LifeStep(w, s, e))
  {
    var s' := LifeStep(w, s, e);
    var head := s.fetching.value.head;
    TurnAnchor(w, s, head);
    BlockCursor.ChooseBounds(w.buffer, s.cursor, head);
    BlockCursor.StepBounds(w.buffer, s.cursor, BlockCursor.Turn(head, BlockCursor.ScanOk));
    BlockCursor.TurnMoves(w.buffer, s.cursor, BlockCursor.Turn(head, BlockCursor.ScanOk));
    TurnedStored(w, s, head, BlockCursor.ScanOk);
    forall epoch ensures EpochOk(w, s', epoch) {
      assert EpochOk(w, s, epoch);
      assert HasSeen(s', epoch) == HasSeen(s, epoch);
      if epoch in s.recent {
        ReleasedWithin(w.chain, epoch, s.fetching.value.lo, head, s.anchor, head);
      } else if epoch in s.saved {
        ReleasedWithin(w.chain, epoch, s.anchor, s.cursor.stored.value, s.anchor, head);
      }
    }
  }

  lemma FailInv(w: World, s: Life, e: LifeEvent)
    requires LifeInv(w, s) && e.Fail? && LifeEnabled(w, s, e)
    ensures LifeInv(w, LifeStep(w, s, e))
  {
    var s' := LifeStep(w, s, e);
    TurnAnchor(w, s, e.head);
    BlockCursor.ChooseBounds(w.buffer, s.cursor, e.head);
    BlockCursor.StepBounds(w.buffer, s.cursor, BlockCursor.Turn(e.head, BlockCursor.ScanFails));
    BlockCursor.TurnMoves(w.buffer, s.cursor, BlockCursor.Turn(e.head, BlockCursor.ScanFails));
    TurnedStored(w, s, e.head, BlockCursor.ScanFails);
    forall epoch ensures EpochOk(w, s', epoch) {
      assert EpochOk(w, s, epoch);
      assert HasSeen(s', epoch) == HasSeen(s, epoch);
    }
  }

  lemma InnerInv(w: World, s: Life, e: LifeEvent)
    requires LifeInv(w, s) && e.Inner? && LifeEnabled(w, s, e)
    ensures LifeInv(w, LifeStep(w, s, e))
  {
    var s' := LifeStep(w, s, e);
    assert s'.sys.seen == s.sys.seen;
    StepInv(w.cfg, s.sys, e.e);
    forall epoch ensures EpochOk(w, s', epoch) {
      assert EpochOk(w, s, epoch);
      assert HasSeen(s', epoch) == HasSeen(s, epoch);
    }
  }

  lemma LeftBounds(w: World, s: Life)
    requires w.buffer >= 1 && BlockCursor.Bounds(s.cursor) && FetchInv(w, s)
    ensures BlockCursor.Bounds(Left(w, s)) && Left(w, s).stored == s.cursor.stored && Left(w, s).began.None?
  {
    if s.fetching.Some? {
      var head := s.fetching.value.head;
      BlockCursor.StepBounds(w.buffer, s.cursor, BlockCursor.Turn(head, BlockCursor.ScanOkThenCrash));
      BlockCursor.StepBounds(w.buffer, s.cursor, BlockCursor.Turn(head, BlockCursor.ScanFails));
      TurnedStored(w, s, head, BlockCursor.ScanOkThenCrash);
      TurnedStored(w, s, head, BlockCursor.ScanFails);
    }
  }

  lemma CrashInv(w: World, s: Life, e: LifeEvent)
    requires LifeInv(w, s) && e.Crash? && LifeEnabled(w, s, e)
    ensures LifeInv(w, LifeStep(w, s, e))
  {
    var s' := LifeStep(w, s, e);
    LeftBounds(w, s);
    StartInv(w.cfg, e.now, e.nonce);
    forall epoch ensures EpochOk(w, s', epoch) {
      assert EpochOk(w, s, epoch);
    }
  }

  lemma StepLife(w: World, s: Life, e: LifeEvent)
    requires LifeInv(w, s) && LifeEnabled(w, s, e)
    ensures LifeInv(w, LifeStep(w, s, e))
  {
    match e
    case Fail(_) => FailInv(w, s, e);
    case Begin(_, _) => BeginInv(w, s, e);
    case Fold(_) => FoldInv(w, s, e);
    case Save => SaveInv(w, s, e);
    case Inner(_) => InnerInv(w, s, e);
    case Crash(_, _) => CrashInv(w, s, e);
  }

  lemma InitInv(w: World, stored: Option<int>, now: real, nonce: int)
    requires w.buffer >= 1 && EventScan.ReleasesOnce(w.chain) && BlockCursor.Stored(stored)
    ensures LifeInv(w, Init(stored, now, nonce))
  {
    StartInv(w.cfg, now, nonce);
  }

  lemma {:induction false} RunLife(w: World, s: Life, es: seq<LifeEvent>)
    requires LifeInv(w, s) && LifeRun(w, s, es)
    ensures LifeInv(w, LifeExec(w, s, es))
    decreases |es|
  {
    if es != [] {
      StepLife(w, s, es[0]);
      RunLife(w, LifeStep(w, s, es[0]), es[1..]);
    }
  }
}
