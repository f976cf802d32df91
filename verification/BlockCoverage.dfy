/**
 * Which blocks are scanned or skipped over all processes of force_consensus.py, whatever is lost in
 * between.
 */
module BlockCoverage {
  import opened Wrappers
  import opened BlockCursor

  // --- What one turn adds ---------------------------------------------------------------------

  lemma ChooseSkips(buffer: nat, s: State, head: nat)
    ensures var s1 := Choose(buffer, s, head);
      && s1.allScans == s.allScans
      && s1.allSkips == if s1.last == Origin(s, head) then s.allSkips
                        else s.allSkips + [Skip(Range(Origin(s, head) + 1, s1.last), head)]
  {
  }

  lemma SkipCovered(s: State, s': State, k: Skip, b: int)
    requires s'.allSkips == s.allSkips + [k] && s'.allScans == s.allScans
    ensures Covered(s', b) <==> Covered(s, b) || Within(k.range, b)
  {
    SkippedAppend(s.allSkips, k, b);
  }

  lemma ScanCovered(s: State, s': State, r: Range, b: int)
    requires s'.allScans == s.allScans + [r] && s'.allSkips == s.allSkips
    ensures Covered(s', b) <==> Covered(s, b) || Within(r, b)
  {
    ScannedAppend(s.allScans, r, b);
  }

  lemma SameCovered(s: State, s': State, b: int)
    requires s'.allScans == s.allScans && s'.allSkips == s.allSkips
    ensures Covered(s', b) == Covered(s, b)
  {
  }

  lemma ChooseCovered(buffer: nat, s: State, head: nat, b: int)
    requires buffer >= 1 && Bounds(s) && head >= s.head
    ensures var s1 := Choose(buffer, s, head);
      Covered(s1, b) <==> Covered(s, b) || Origin(s, head) < b <= s1.last
  {
    var s1 := Choose(buffer, s, head);
    var origin := Origin(s, head);
    ChooseBounds(buffer, s, head);
    ChooseSkips(buffer, s, head);
    if s1.last != origin {
      SkipCovered(s, s1, Skip(Range(origin + 1, s1.last), head), b);
    } else {
      SameCovered(s, s1, b);
    }
  }

  // What a whole turn covers.
  lemma TurnCovered(buffer: nat, s: State, e: Event, b: int)
    requires buffer >= 1 && Bounds(s) && Enabled(s, e) && e.Turn?
    ensures Covered(Step(buffer, s, e), b) <==> Covered(s, b) || Origin(s, e.head) < b <= End(buffer, s, e)
  {
    var s1 := Choose(buffer, s, e.head);
    ChooseBounds(buffer, s, e.head);
    ChooseCovered(buffer, s, e.head, b);
    StepScans(buffer, s, e);
    if s1.last == e.head || e.result == ScanFails {
      SameCovered(s1, Step(buffer, s, e), b);
    } else {
      ScanCovered(s1, Step(buffer, s, e), Range(s1.last + 1, e.head), b);
    }
  }

  // --- The invariants -------------------------------------------------------------------------

  predicate Above(s: State, b: int) {
    s.first.Some? && s.first.value < b
  }

  // reach is the first cursor or the highest block that was scanned or skipped.
  ghost predicate ReachInv(s: State) {
    && (s.first.None? ==> forall b :: !Covered(s, b))
    && (s.first.Some? ==> s.first.value <= s.reach <= s.head && (s.first.value < s.reach ==> Covered(s, s.reach)))
    && (forall b :: b > s.reach ==> !Covered(s, b))
  }

  // No block above base is missing up to `reach`, and all cursors lie there or at base.
  ghost predicate Whole(s: State) {
    && (s.first.Some? ==> s.first.value <= s.base)
    && (forall b :: s.first.Some? && s.base < b <= s.reach ==> Covered(s, b))
    && (s.began.Some? ==> s.last <= Max(s.base, s.reach))
    && (s.stored.Some? ==> s.stored.value <= Max(s.base, s.reach))
  }

  // Block g is missing, and every place a turn may start from lies above it.
  predicate Gap(s: State, g: int) {
    && Above(s, g) && !Covered(s, g) && g < s.head
    && (s.began.Some? ==> g <= s.last)
    && (s.stored.Some? ==> g <= s.stored.value)
  }

  ghost predicate HasGap(s: State) {
    exists g :: Gap(s, g)
  }

  lemma StepReach(buffer: nat, s: State, e: Event)
    requires buffer >= 1 && Bounds(s) && ReachInv(s) && Enabled(s, e)
    ensures ReachInv(Step(buffer, s, e))
  {
    var s' := Step(buffer, s, e);
    if e.Crash? {
      assert forall b :: Covered(s', b) == Covered(s, b);
    } else {
      ChooseBounds(buffer, s, e.head);
      forall b ensures b > s'.reach ==> !Covered(s', b) {
        TurnCovered(buffer, s, e, b);
      }
      TurnCovered(buffer, s, e, s'.reach);
    }
  }

  // Where choosing the cursor leaves them.
  lemma ChooseCursors(buffer: nat, s: State, head: nat)
    requires buffer >= 1 && Bounds(s) && ReachInv(s) && Whole(s) && head >= s.head
    ensures var s1 := Choose(buffer, s, head);
      && Origin(s, head) <= Max(s1.base, s.reach) && s1.reach <= Max(s.reach, s1.last)
      && s1.first.Some? && s1.first.value <= s1.base
      && s1.last <= Max(s1.base, s1.reach)
      && (s1.stored.Some? ==> s1.stored.value <= Max(s1.base, s1.reach))
  {
    ChooseBounds(buffer, s, head);
  }

  // Where a turn that starts below or at `reach`, or loses blocks, leaves the cursors.
  lemma TurnCursors(buffer: nat, s: State, e: Event)
    requires buffer >= 1 && Bounds(s) && ReachInv(s) && Whole(s) && Enabled(s, e) && e.Turn?
    ensures var s' := Step(buffer, s, e);
      && Origin(s, e.head) <= Max(s'.base, s.reach) && s'.reach <= Max(s.reach, End(buffer, s, e))
      && s'.first.Some? && s'.first.value <= s'.base
      && (s'.began.Some? ==> s'.last <= Max(s'.base, s'.reach))
      && (s'.stored.Some? ==> s'.stored.value <= Max(s'.base, s'.reach))
  {
    ChooseBounds(buffer, s, e.head);
    ChooseCursors(buffer, s, e.head);
  }

  lemma StepWhole(buffer: nat, s: State, e: Event)
    requires buffer >= 1 && Bounds(s) && ReachInv(s) && Whole(s) && Enabled(s, e)
    ensures Whole(Step(buffer, s, e))
  {
    var s' := Step(buffer, s, e);
    if e.Crash? {
      assert forall b :: Covered(s', b) == Covered(s, b);
    } else {
      TurnCursors(buffer, s, e);
      forall b | s'.base < b <= s'.reach ensures Covered(s', b) {
        TurnCovered(buffer, s, e, b);
      }
    }
  }

  lemma GapOpens(buffer: nat, s: State, e: Event)
    requires buffer >= 1 && Bounds(s) && ReachInv(s) && Enabled(s, e) && e.Turn? && Loses(s, e.head)
    ensures Gap(Step(buffer, s, e), s.reach + 1)
  {
    ChooseBounds(buffer, s, e.head);
    TurnCovered(buffer, s, e, s.reach + 1);
  }

  lemma GapStays(buffer: nat, s: State, e: Event, g: int)
    requires buffer >= 1 && Bounds(s) && Gap(s, g) && Enabled(s, e)
    ensures Gap(Step(buffer, s, e), g)
  {
    if e.Turn? {
      ChooseBounds(buffer, s, e.head);
      TurnCovered(buffer, s, e, g);
    } else {
      assert Covered(Step(buffer, s, e), g) == Covered(s, g);
    }
  }

  // Some turn of the run loses blocks.
  ghost predicate EverLoses(buffer: nat, s: State, es: seq<Event>)
    requires Run(buffer, s, es)
    decreases |es|
  {
    es != [] && ((es[0].Turn? && Loses(s, es[0].head)) || EverLoses(buffer, Step(buffer, s, es[0]), es[1..]))
  }

  lemma {:induction false} RunCoverage(buffer: nat, s: State, es: seq<Event>)
    requires buffer >= 1 && Bounds(s) && ReachInv(s) && Whole(s) && Run(buffer, s, es)
    ensures var s' := Exec(buffer, s, es); Bounds(s') && ReachInv(s') && Whole(s')
    decreases |es|
  {
    if es != [] {
      StepBounds(buffer, s, es[0]);
      StepReach(buffer, s, es[0]);
      StepWhole(buffer, s, es[0]);
      RunCoverage(buffer, Step(buffer, s, es[0]), es[1..]);
    }
  }

  lemma {:induction false} RunGap(buffer: nat, s: State, es: seq<Event>, g: int)
    requires buffer >= 1 && Bounds(s) && Gap(s, g) && Run(buffer, s, es)
    ensures Gap(Exec(buffer, s, es), g)
    decreases |es|
  {
    if es != [] {
      StepBounds(buffer, s, es[0]);
      GapStays(buffer, s, es[0], g);
      RunGap(buffer, Step(buffer, s, es[0]), es[1..], g);
    }
  }

  // The counting base is the first cursor.
  predicate BaseIsFirst(s: State) {
    s.first.Some? ==> s.base == s.first.value
  }

  lemma {:induction false} RunBase(buffer: nat, s: State, es: seq<Event>)
    requires buffer >= 1 && Bounds(s) && ReachInv(s) && BaseIsFirst(s) && Run(buffer, s, es)
    ensures var s' := Exec(buffer, s, es);
      if EverLoses(buffer, s, es) then HasGap(s') else BaseIsFirst(s')
    decreases |es|
  {
    if es != [] {
      var s1 := Step(buffer, s, es[0]);
      StepBounds(buffer, s, es[0]);
      StepReach(buffer, s, es[0]);
      if es[0].Turn? && Loses(s, es[0].head) {
        GapOpens(buffer, s, es[0]);
        RunGap(buffer, s1, es[1..], s.reach + 1);
        assert Gap(Exec(buffer, s, es), s.reach + 1);
      } else {
        RunBase(buffer, s1, es[1..]);
        assert EverLoses(buffer, s, es) == EverLoses(buffer, s1, es[1..]);
      }
    }
  }

  lemma StartInv(stored: Option<int>)
    requires Stored(stored)
    ensures var s := Start(stored); Bounds(s) && ReachInv(s) && Whole(s) && BaseIsFirst(s)
  {
  }

  // --- The laws -------------------------------------------------------------------------------

  // At-least-once scanning: for any sequence of crashes at any step, no block at or below the
  // persisted cursor is both unscanned and unskipped, counted from where the latest turn that lost
  // blocks started, or from the first cursor when none did.
  lemma NothingLeftOut(buffer: nat, stored: Option<int>, es: seq<Event>, b: int)
    requires buffer >= 1 && Stored(stored) && Run(buffer, Start(stored), es)
    ensures var s := Exec(buffer, Start(stored), es);
      s.stored.Some? && s.base < b <= s.stored.value ==> Covered(s, b)
  {
    StartInv(stored);
    RunCoverage(buffer, Start(stored), es);
  }

  // The counting base never moves once something is persisted.
  lemma {:induction false} BaseStays(buffer: nat, s: State, es: seq<Event>)
    requires s.stored.Some? && s.first.Some? && Run(buffer, s, es)
    ensures var s' := Exec(buffer, s, es); s'.stored.Some? && s'.base == s.base
    decreases |es|
  {
    if es != [] {
      BaseStays(buffer, Step(buffer, s, es[0]), es[1..]);
    }
  }

  // What `reach` in Loses stands for, on every run: the first cursor as long as nothing beyond it
  // was scanned or skipped, else the highest block that was.
  lemma ReachIsTheTop(buffer: nat, stored: Option<int>, es: seq<Event>)
    requires buffer >= 1 && Stored(stored) && Run(buffer, Start(stored), es)
    ensures var s := Exec(buffer, Start(stored), es);
      && (forall b :: Covered(s, b) ==> s.first.Some? && b <= s.reach)
      && (s.first.Some? ==> s.reach == s.first.value || Covered(s, s.reach))
  {
    StartInv(stored);
    RunCoverage(buffer, Start(stored), es);
  }

  // The first cursor: what was stored at the start, else one below the head of the first turn.
  lemma {:induction false} FirstStays(buffer: nat, s: State, es: seq<Event>)
    requires s.first.Some? && Run(buffer, s, es)
    ensures Exec(buffer, s, es).first == s.first
    decreases |es|
  {
    if es != [] {
      FirstStays(buffer, Step(buffer, s, es[0]), es[1..]);
    }
  }

  lemma {:induction false} FirstCursor(buffer: nat, stored: Option<int>, es: seq<Event>)
    requires Run(buffer, Start(stored), es)
    ensures var first := Exec(buffer, Start(stored), es).first;
      && (stored.Some? ==> first == stored)
      && (stored.None? && es != [] && es[0].Turn? ==> first == Some(es[0].head - 1))
  {
    if stored.Some? {
      FirstStays(buffer, Start(stored), es);
    } else if es != [] && es[0].Turn? {
      FirstStays(buffer, Step(buffer, Start(stored), es[0]), es[1..]);
    }
  }

  // Crash coverage, exactly: on every run that has persisted a cursor, every block after the first
  // cursor up to the stored one was scanned or skipped if and only if no turn started over at
  // head - 1, with nothing in memory nor in Redis, above what had been scanned or skipped.
  lemma CoverageExact(buffer: nat, stored: Option<int>, es: seq<Event>)
    requires buffer >= 1 && Stored(stored) && Run(buffer, Start(stored), es)
    requires Exec(buffer, Start(stored), es).stored.Some?
    ensures var s := Exec(buffer, Start(stored), es);
      && s.first.Some?
      && ((forall b :: s.first.value < b <= s.stored.value ==> Covered(s, b))
          <==> !EverLoses(buffer, Start(stored), es))
  {
    var s := Exec(buffer, Start(stored), es);
    StartInv(stored);
    RunCoverage(buffer, Start(stored), es);
    RunBase(buffer, Start(stored), es);
    if EverLoses(buffer, Start(stored), es) {
      var g :| Gap(s, g);
      assert s.first.value < g <= s.stored.value && !Covered(s, g);
    }
  }

  // While nothing is stored, no process is lost and no turn takes its cursor of 0 for none.
  ghost predicate SafeUntilStored(buffer: nat, s: State, es: seq<Event>)
    requires Run(buffer, s, es)
    decreases |es|
  {
    es == [] || s.stored.Some?
    || (!LosesProcess(es[0]) && !Forgets(s, es[0].head) && SafeUntilStored(buffer, Step(buffer, s, es[0]), es[1..]))
  }

  lemma {:induction false} RunSafe(buffer: nat, s: State, es: seq<Event>)
    requires buffer >= 1 && Bounds(s) && ReachInv(s) && Run(buffer, s, es) && SafeUntilStored(buffer, s, es)
    requires s.stored.None? && s.first.Some? ==> s.began.Some? && (s.last == 0 ==> s.reach >= 0)
    ensures !EverLoses(buffer, s, es)
    decreases |es|
  {
    if es != [] {
      StepBounds(buffer, s, es[0]);
      StepReach(buffer, s, es[0]);
      if es[0].Turn? {
        ChooseBounds(buffer, s, es[0].head);
      }
      RunSafe(buffer, Step(buffer, s, es[0]), es[1..]);
    }
  }

  // If no process is lost before the first cursor is persisted and no cursor of 0 forgotten, in
  // particular if one was stored at the start, no turn ever loses blocks, whatever crashes come
  // later, and the counting base is the first cursor.
  lemma SafeFirstProcess(buffer: nat, stored: Option<int>, es: seq<Event>)
    requires buffer >= 1 && Stored(stored) && Run(buffer, Start(stored), es)
    requires SafeUntilStored(buffer, Start(stored), es)
    ensures BaseIsFirst(Exec(buffer, Start(stored), es)) && !EverLoses(buffer, Start(stored), es)
  {
    StartInv(stored);
    RunSafe(buffer, Start(stored), es);
    RunBase(buffer, Start(stored), es);
  }

  // --- Runs that lose blocks ------------------------------------------------------------------

  lemma RunCons(buffer: nat, s: State, e: Event, es: seq<Event>)
    requires Enabled(s, e) && Run(buffer, Step(buffer, s, e), es)
    ensures Run(buffer, s, [e] + es) && Exec(buffer, s, [e] + es) == Exec(buffer, Step(buffer, s, e), es)
    ensures EverLoses(buffer, s, [e] + es)
       <==> (e.Turn? && Loses(s, e.head)) || EverLoses(buffer, Step(buffer, s, e), es)
  {
    assert ([e] + es)[1..] == es;
  }

  // The run loses block b, which lies between its first cursor and the stored one.
  ghost predicate LosesBlock(buffer: nat, es: seq<Event>, b: int) {
    && Run(buffer, Start(None), es) && EverLoses(buffer, Start(None), es)
    && var s := Exec(buffer, Start(None), es);
       s.first.Some? && s.stored.Some? && s.first.value < b <= s.stored.value && !Covered(s, b)
  }

  lemma {:induction false} NotScanned(rs: seq<Range>, b: int)
    requires forall r :: r in rs ==> !Within(r, b)
    ensures Scanned(rs, b) == 0
  {
    if rs != [] {
      NotScanned(rs[..|rs| - 1], b);
    }
  }

  // The first process dies after its scan, before it could persist its cursor, and the head moves
  // on meanwhile.
  lemma LostAfterScan(b: int)
    requires 11 <= b <= 49
    ensures LosesBlock(100, [Turn(10, ScanOkThenCrash), Turn(50, ScanOk)], b)
  {
    var s1 := State(0, None, None, 9, Some(9), 10, 10, [], [], [Range(10, 10)], []);
    var s2 := State(50, Some(50), Some(49), 49, Some(9), 50, 50,
                    [Range(50, 50)], [], [Range(10, 10), Range(50, 50)], []);
    AfterScanSteps(s1, s2);
    NotScanned(s2.allScans, b);
    RunCons(100, s1, Turn(50, ScanOk), []);
    assert [Turn(50, ScanOk)] + [] == [Turn(50, ScanOk)];
    RunCons(100, Start(None), Turn(10, ScanOkThenCrash), [Turn(50, ScanOk)]);
    assert [Turn(10, ScanOkThenCrash)] + [Turn(50, ScanOk)] == [Turn(10, ScanOkThenCrash), Turn(50, ScanOk)];
  }

  lemma AfterScanSteps(s1: State, s2: State)
    requires s1 == State(0, None, None, 9, Some(9), 10, 10, [], [], [Range(10, 10)], [])
    requires s2 == State(50, Some(50), Some(49), 49, Some(9), 50, 50,
                         [Range(50, 50)], [], [Range(10, 10), Range(50, 50)], [])
    ensures Step(100, Start(None), Turn(10, ScanOkThenCrash)) == s1
    ensures Step(100, s1, Turn(50, ScanOk)) == s2
  {
  }

  // It dies after a failed scan.
  lemma LostAfterFailure(b: int)
    requires 10 <= b <= 49
    ensures LosesBlock(100, [Turn(10, ScanFails), Crash, Turn(50, ScanOk)], b)
  {
    var s1 := State(9, None, Some(9), 9, Some(9), 9, 10, [], [], [], []);
    var s2 := s1.(last := 0, began := None);
    var s3 := State(50, Some(50), Some(49), 49, Some(9), 50, 50, [Range(50, 50)], [], [Range(50, 50)], []);
    AfterFailureSteps(s1, s2, s3);
    NotScanned(s3.allScans, b);
    RunCons(100, s2, Turn(50, ScanOk), []);
    assert [Turn(50, ScanOk)] + [] == [Turn(50, ScanOk)];
    RunCons(100, s1, Crash, [Turn(50, ScanOk)]);
    assert [Crash] + [Turn(50, ScanOk)] == [Crash, Turn(50, ScanOk)];
    RunCons(100, Start(None), Turn(10, ScanFails), [Crash, Turn(50, ScanOk)]);
    assert [Turn(10, ScanFails)] + [Crash, Turn(50, ScanOk)] == [Turn(10, ScanFails), Crash, Turn(50, ScanOk)];
  }

  lemma AfterFailureSteps(s1: State, s2: State, s3: State)
    requires s1 == State(9, None, Some(9), 9, Some(9), 9, 10, [], [], [], [])
    requires s2 == s1.(last := 0, began := None)
    requires s3 == State(50, Some(50), Some(49), 49, Some(9), 50, 50, [Range(50, 50)], [], [Range(50, 50)], [])
    ensures Step(100, Start(None), Turn(10, ScanFails)) == s1
    ensures Step(100, s1, Crash) == s2
    ensures Step(100, s2, Turn(50, ScanOk)) == s3
  {
  }

  // A cursor of 0 is taken for none: one process alone loses blocks 1 to 4 after a failed scan at
  // block 1.
  lemma ZeroCursorLosesBlocks(b: int)
    requires 1 <= b <= 4
    ensures LosesBlock(20, [Turn(1, ScanFails), Turn(5, ScanOk)], b)
    ensures EverForgets(20, Start(None), [Turn(1, ScanFails), Turn(5, ScanOk)])
  {
    var s1 := State(0, None, Some(0), 0, Some(0), 0, 1, [], [], [], []);
    var s2 := State(5, Some(5), Some(0), 4, Some(0), 5, 5, [Range(5, 5)], [], [Range(5, 5)], []);
    ZeroCursorSteps(s1, s2);
    NotScanned(s2.allScans, b);
    RunCons(20, s1, Turn(5, ScanOk), []);
    assert [Turn(5, ScanOk)] + [] == [Turn(5, ScanOk)];
    RunCons(20, Start(None), Turn(1, ScanFails), [Turn(5, ScanOk)]);
    assert [Turn(1, ScanFails)] + [Turn(5, ScanOk)] == [Turn(1, ScanFails), Turn(5, ScanOk)];
    assert EverForgets(20, s1, [Turn(5, ScanOk)]);
    assert [Turn(1, ScanFails), Turn(5, ScanOk)][1..] == [Turn(5, ScanOk)];
  }

  lemma ZeroCursorSteps(s1: State, s2: State)
    requires s1 == State(0, None, Some(0), 0, Some(0), 0, 1, [], [], [], [])
    requires s2 == State(5, Some(5), Some(0), 4, Some(0), 5, 5, [Range(5, 5)], [], [Range(5, 5)], [])
    ensures Step(20, Start(None), Turn(1, ScanFails)) == s1
    ensures Step(20, s1, Turn(5, ScanOk)) == s2
  {
  }

  // What a process forgets need not be lost over all processes: here block 1 was scanned by an
  // earlier process that died before it could persist its cursor.
  lemma ForgottenNotLost()
    ensures var before, es := [Turn(1, ScanOkThenCrash)], [Turn(1, ScanFails), Turn(2, ScanOk)];
      && Run(20, Start(None), before + es) && !EverLoses(20, Start(None), before + es)
      && Process(20, None, before, es) && EverForgets(20, Fresh(20, None, before, es), es)
  {
    var s1 := State(0, None, None, 0, Some(0), 1, 1, [], [], [Range(1, 1)], []);
    var s2 := s1.(began := Some(0));
    var s3 := State(2, Some(2), Some(0), 0, Some(0), 2, 2, [Range(2, 2)], [], [Range(1, 1), Range(2, 2)], []);
    ForgottenSteps(s1, s2, s3);
    RunCons(20, s2, Turn(2, ScanOk), []);
    assert [Turn(2, ScanOk)] + [] == [Turn(2, ScanOk)];
    var es := [Turn(1, ScanFails), Turn(2, ScanOk)];
    RunCons(20, s1, Turn(1, ScanFails), [Turn(2, ScanOk)]);
    assert [Turn(1, ScanFails)] + [Turn(2, ScanOk)] == es;
    RunCons(20, Start(None), Turn(1, ScanOkThenCrash), es);
    RunCons(20, Start(None), Turn(1, ScanOkThenCrash), []);
    assert [Turn(1, ScanOkThenCrash)] + [] == [Turn(1, ScanOkThenCrash)];
    assert EverForgets(20, s2, [Turn(2, ScanOk)]);
    assert es[1..] == [Turn(2, ScanOk)];
  }

  lemma ForgottenSteps(s1: State, s2: State, s3: State)
    requires s1 == State(0, None, None, 0, Some(0), 1, 1, [], [], [Range(1, 1)], [])
    requires s2 == s1.(began := Some(0))
    requires s3 == State(2, Some(2), Some(0), 0, Some(0), 2, 2, [Range(2, 2)], [], [Range(1, 1), Range(2, 2)], [])
    ensures Step(20, Start(None), Turn(1, ScanOkThenCrash)) == s1
    ensures Step(20, s1, Turn(1, ScanFails)) == s2
    ensures Step(20, s2, Turn(2, ScanOk)) == s3
  {
  }
}
