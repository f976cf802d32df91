/**
 * The block cursor of force_consensus.py: which blocks one turn of the main loop scans, and where
 * the cursor goes, across failing scans, crashes and restarts. 0 is taken for "no cursor yet".
 */
module BlockCursor {
  import opened Wrappers

  datatype Range = Range(lo: int, hi: int)

  // Blocks given up because the cursor had fallen too far behind `head`.
  datatype Skip = Skip(range: Range, head: int)

  datatype Result = ScanFails | ScanOk | ScanOkThenCrash

  // One turn of the loop with the head it read, or the loss of the process.
  datatype Event = Turn(head: nat, result: Result) | Crash

  // last and stored are _last_processed_block and its copy in Redis. The rest is bookkeeping: the
  // cursor the process began with, the one of the latest turn that lost blocks or of the very first
  // turn, the very first cursor, the highest block scanned or skipped (or the first cursor), the
  // latest head, and the ranges scanned and skipped by this process and overall.
  datatype State = State(last: int, stored: Option<int>, began: Option<int>, base: int,
                         first: Option<int>, reach: int, head: nat,
                         scans: seq<Range>, skips: seq<Skip>, allScans: seq<Range>, allSkips: seq<Skip>)

  function Start(stored: Option<int>): State {
    var v := if stored.Some? then stored.value else 0;
    State(0, stored, None, v, stored, v, if v >= 0 then v else 0, [], [], [], [])
  }

  // Stored cursors are heads.
  predicate Stored(stored: Option<int>) {
    stored.Some? ==> stored.value >= 0
  }

  function Max(a: int, b: int): int {
    if a < b then b else a
  }

  // Where the turn starts from: memory, else Redis, else the block before the head.
  function Origin(s: State, head: nat): int {
    if s.last != 0 then s.last else if s.stored.Some? then s.stored.value else head - 1
  }

  // ... moved up when it is max_block_buffer or more behind.
  function Bumped(buffer: nat, origin: int, head: nat): int {
    if head - origin >= buffer then head - buffer else origin
  }

  // The turn takes its cursor of 0 for none: there is no stored one, and head - 1 lies higher.
  predicate Forgets(s: State, head: nat) {
    s.began.Some? && s.last == 0 && s.stored.None? && head > 1
  }

  // The turn starts over at head - 1 although blocks below that are still due: neither memory nor
  // Redis holds a cursor, this is not the first turn of all, and what was scanned or skipped so
  // far ends below head - 1.
  predicate Loses(s: State, head: nat) {
    s.last == 0 && s.stored.None? && s.first.Some? && head - 1 > s.reach
  }

  // The state after the cursor has been chosen, before scanning.
  function Choose(buffer: nat, s: State, head: nat): State {
    var origin := Origin(s, head);
    var last := Bumped(buffer, origin, head);
    var skip := if last == origin then [] else [Skip(Range(origin + 1, last), head)];
    s.(last := last, head := head,
       began := if s.began.None? then Some(origin) else s.began,
       base := if s.first.None? || Loses(s, head) then origin else s.base,
       first := if s.first.None? then Some(origin) else s.first,
       reach := if s.first.None? then last else if last == origin then s.reach else Max(s.reach, last),
       skips := s.skips + skip, allSkips := s.allSkips + skip)
  }

  // Memory is lost.
  function Lose(s: State): State {
    s.(last := 0, began := None, scans := [], skips := [])
  }

  function Step(buffer: nat, s: State, e: Event): State {
    match e
    case Crash => Lose(s)
    case Turn(head, result) =>
      var s1 := Choose(buffer, s, head);
      if s1.last == head || result == ScanFails then s1
      else
        var r := Range(s1.last + 1, head);
        var s2 := s1.(scans := s1.scans + [r], allScans := s1.allScans + [r], reach := Max(s1.reach, head));
        if result == ScanOkThenCrash then Lose(s2)
        else s2.(last := head, stored := Some(head))
  }

  // Heads never go down.
  predicate Enabled(s: State, e: Event) {
    e.Turn? ==> e.head >= s.head
  }

  ghost predicate Run(buffer: nat, s: State, es: seq<Event>)
    decreases |es|
  {
    es == [] || (Enabled(s, es[0]) && Run(buffer, Step(buffer, s, es[0]), es[1..]))
  }

  ghost function Exec(buffer: nat, s: State, es: seq<Event>): State
    requires Run(buffer, s, es)
    decreases |es|
  {
    if es == [] then s else Exec(buffer, Step(buffer, s, es[0]), es[1..])
  }

  // --- Counting -------------------------------------------------------------------------------

  predicate Within(r: Range, b: int) {
    r.lo <= b <= r.hi
  }

  // How often block b was scanned or skipped.
  function Scanned(rs: seq<Range>, b: int): nat {
    if rs == [] then 0 else Scanned(rs[..|rs| - 1], b) + if Within(rs[|rs| - 1], b) then 1 else 0
  }

  function Skipped(ks: seq<Skip>, b: int): nat {
    if ks == [] then 0 else Skipped(ks[..|ks| - 1], b) + if Within(ks[|ks| - 1].range, b) then 1 else 0
  }

  lemma ScannedAppend(rs: seq<Range>, r: Range, b: int)
    ensures Scanned(rs + [r], b) == Scanned(rs, b) + if Within(r, b) then 1 else 0
  {
    assert (rs + [r])[..|rs|] == rs;
  }

  lemma SkippedAppend(ks: seq<Skip>, k: Skip, b: int)
    ensures Skipped(ks + [k], b) == Skipped(ks, b) + if Within(k.range, b) then 1 else 0
  {
    assert (ks + [k])[..|ks|] == ks;
  }

  // How often block b was touched by this process.
  function Touched(s: State, b: int): nat {
    Scanned(s.scans, b) + Skipped(s.skips, b)
  }

  predicate Covered(s: State, b: int) {
    Scanned(s.allScans, b) >= 1 || Skipped(s.allSkips, b) >= 1
  }

  // --- Where cursors lie ----------------------------------------------------------------------

  predicate Bounds(s: State) {
    && (s.stored.Some? ==> 0 <= s.stored.value <= s.head)
    && s.last <= s.head
    && (s.first.None? ==> s.began.None? && s.stored.None?)
    && (s.began.None? ==> s.last == 0 && s.scans == [] && s.skips == [])
    && (s.began.Some? ==>
          s.began.value <= s.last && if s.stored.Some? then s.stored.value <= s.last else s.last < s.head)
  }

  // A turn starts no lower than the process has come, and exactly there unless it forgets.
  lemma ChooseBounds(buffer: nat, s: State, head: nat)
    requires buffer >= 1 && Bounds(s) && head >= s.head
    ensures var origin, last := Origin(s, head), Choose(buffer, s, head).last;
      && origin <= last <= head && head - last <= buffer
      && (s.began.Some? ==> s.last <= origin && (origin == s.last <==> !Forgets(s, head)))
      && (s.stored.Some? ==> s.stored.value <= origin)
      && (s.stored.None? ==> last < head)
  {
  }

  // Where a turn gets to.
  function End(buffer: nat, s: State, e: Event): int
    requires e.Turn?
  {
    if e.result == ScanFails then Bumped(buffer, Origin(s, e.head), e.head) else e.head
  }

  lemma StepBounds(buffer: nat, s: State, e: Event)
    requires buffer >= 1 && Bounds(s) && Enabled(s, e)
    ensures Bounds(Step(buffer, s, e))
  {
    if e.Turn? {
      ChooseBounds(buffer, s, e.head);
    }
  }

  // No range is longer than the buffer, and only blocks at least a buffer below the head are skipped.
  ghost predicate SizeInv(buffer: nat, s: State) {
    && (forall r :: r in s.allScans ==> 1 <= r.hi - r.lo + 1 <= buffer)
    && (forall k, b :: k in s.allSkips && Within(k.range, b) ==> k.head - b >= buffer)
    && (forall k :: k in s.skips ==> k in s.allSkips)
  }

  lemma StepSize(buffer: nat, s: State, e: Event)
    requires buffer >= 1 && Bounds(s) && SizeInv(buffer, s) && Enabled(s, e)
    ensures SizeInv(buffer, Step(buffer, s, e))
  {
    if e.Turn? {
      ChooseBounds(buffer, s, e.head);
    }
  }

  // --- What one turn touches ------------------------------------------------------------------

  lemma ChooseTouched(buffer: nat, s: State, head: nat, b: int)
    requires buffer >= 1 && Bounds(s) && head >= s.head
    ensures var s1 := Choose(buffer, s, head);
      Touched(s1, b) == Touched(s, b) + if Origin(s, head) < b <= s1.last then 1 else 0
  {
    var s1 := Choose(buffer, s, head);
    var origin := Origin(s, head);
    ChooseBounds(buffer, s, head);
    if s1.last != origin {
      SkippedAppend(s.skips, Skip(Range(origin + 1, s1.last), head), b);
    } else {
      assert s1.skips == s.skips;
    }
  }

  // A turn scans all that is left up to the head, unless its scan fails.
  lemma StepScans(buffer: nat, s: State, e: Event)
    requires e.Turn?
    ensures var s1 := Choose(buffer, s, e.head);
      var s' := Step(buffer, s, e);
      var scan := if s1.last == e.head || e.result == ScanFails then [] else [Range(s1.last + 1, e.head)];
      && s'.allSkips == s1.allSkips && s'.allScans == s1.allScans + scan
      && (e.result != ScanOkThenCrash ==> s'.skips == s1.skips && s'.scans == s1.scans + scan)
  {
  }

  // A turn that does not lose the process touches everything from its origin to its end, once.
  lemma TurnTouched(buffer: nat, s: State, e: Event, b: int)
    requires buffer >= 1 && Bounds(s) && Enabled(s, e) && !LosesProcess(e)
    ensures Touched(Step(buffer, s, e), b)
         == Touched(s, b) + if Origin(s, e.head) < b <= End(buffer, s, e) then 1 else 0
  {
    var s1 := Choose(buffer, s, e.head);
    ChooseBounds(buffer, s, e.head);
    ChooseTouched(buffer, s, e.head, b);
    StepScans(buffer, s, e);
    if s1.last != e.head && e.result != ScanFails {
      ScannedAppend(s1.scans, Range(s1.last + 1, e.head), b);
    }
  }

  lemma TurnMoves(buffer: nat, s: State, e: Event)
    requires !LosesProcess(e)
    ensures var s' := Step(buffer, s, e);
      && s'.last == End(buffer, s, e)
      && s'.began == if s.began.None? then Some(Origin(s, e.head)) else s.began
  {
  }

  // --- Within a process -----------------------------------------------------------------------

  predicate LosesProcess(e: Event) {
    e.Crash? || e.result == ScanOkThenCrash
  }

  predicate OneProcess(es: seq<Event>) {
    forall e :: e in es ==> !LosesProcess(e)
  }

  // This process has touched no block twice, and none outside the range it has worked on.
  predicate OnceAt(s: State, b: int) {
    Touched(s, b) <= if s.began.Some? && s.began.value < b <= s.last then 1 else 0
  }

  ghost predicate AtMostOnce(s: State) {
    forall b :: OnceAt(s, b)
  }

  // ... and none in this range was missed.
  ghost predicate Exact(s: State) {
    forall b :: Touched(s, b) == if s.began.Some? && s.began.value < b <= s.last then 1 else 0
  }

  // Block g was missed, and the process has passed it.
  predicate Missed(s: State, g: int) {
    s.began.Some? && s.began.value < g <= s.last && Touched(s, g) == 0
  }

  lemma StepAtMostOnce(buffer: nat, s: State, e: Event)
    requires buffer >= 1 && Bounds(s) && AtMostOnce(s) && Enabled(s, e)
    ensures AtMostOnce(Step(buffer, s, e))
  {
    var s' := Step(buffer, s, e);
    forall b ensures OnceAt(s', b) {
      assert OnceAt(s, b);
      if !LosesProcess(e) {
        ChooseBounds(buffer, s, e.head);
        TurnTouched(buffer, s, e, b);
        TurnMoves(buffer, s, e);
      } else if e.Turn? && Choose(buffer, s, e.head).last == e.head {
        ChooseTouched(buffer, s, e.head, b);
        ChooseBounds(buffer, s, e.head);
      }
    }
  }

  lemma StepExact(buffer: nat, s: State, e: Event)
    requires buffer >= 1 && Bounds(s) && Exact(s) && Enabled(s, e) && !LosesProcess(e) && !Forgets(s, e.head)
    ensures Exact(Step(buffer, s, e))
  {
    ChooseBounds(buffer, s, e.head);
    TurnMoves(buffer, s, e);
    forall b ensures Touched(Step(buffer, s, e), b)
                  == if Step(buffer, s, e).began.value < b <= Step(buffer, s, e).last then 1 else 0
    {
      TurnTouched(buffer, s, e, b);
    }
  }

  lemma ForgetMisses(buffer: nat, s: State, e: Event)
    requires buffer >= 1 && Bounds(s) && AtMostOnce(s) && Enabled(s, e) && !LosesProcess(e) && Forgets(s, e.head)
    ensures Missed(Step(buffer, s, e), 1)
  {
    ChooseBounds(buffer, s, e.head);
    assert OnceAt(s, 1);
    TurnTouched(buffer, s, e, 1);
    TurnMoves(buffer, s, e);
  }

  lemma StepMissed(buffer: nat, s: State, e: Event, g: int)
    requires buffer >= 1 && Bounds(s) && Missed(s, g) && Enabled(s, e) && !LosesProcess(e)
    ensures Missed(Step(buffer, s, e), g)
  {
    ChooseBounds(buffer, s, e.head);
    TurnTouched(buffer, s, e, g);
    TurnMoves(buffer, s, e);
  }

  lemma {:induction false} RunMissed(buffer: nat, s: State, es: seq<Event>, g: int)
    requires buffer >= 1 && Bounds(s) && Missed(s, g) && OneProcess(es) && Run(buffer, s, es)
    ensures Missed(Exec(buffer, s, es), g)
    decreases |es|
  {
    if es != [] {
      assert !LosesProcess(es[0]) && OneProcess(es[1..]);
      StepBounds(buffer, s, es[0]);
      StepMissed(buffer, s, es[0], g);
      RunMissed(buffer, Step(buffer, s, es[0]), es[1..], g);
    }
  }

  // Some turn of the process takes its cursor of 0 for none.
  ghost predicate EverForgets(buffer: nat, s: State, es: seq<Event>)
    requires Run(buffer, s, es)
    decreases |es|
  {
    es != [] && ((es[0].Turn? && Forgets(s, es[0].head)) || EverForgets(buffer, Step(buffer, s, es[0]), es[1..]))
  }

  lemma {:induction false} RunExact(buffer: nat, s: State, es: seq<Event>)
    requires buffer >= 1 && Bounds(s) && AtMostOnce(s) && Exact(s) && OneProcess(es) && Run(buffer, s, es)
    ensures if EverForgets(buffer, s, es) then Missed(Exec(buffer, s, es), 1) else Exact(Exec(buffer, s, es))
    decreases |es|
  {
    if es != [] {
      assert !LosesProcess(es[0]) && OneProcess(es[1..]);
      StepBounds(buffer, s, es[0]);
      StepAtMostOnce(buffer, s, es[0]);
      if Forgets(s, es[0].head) {
        ForgetMisses(buffer, s, es[0]);
        RunMissed(buffer, Step(buffer, s, es[0]), es[1..], 1);
      } else {
        StepExact(buffer, s, es[0]);
        RunExact(buffer, Step(buffer, s, es[0]), es[1..]);
      }
    }
  }

  lemma {:induction false} RunInv(buffer: nat, s: State, es: seq<Event>)
    requires buffer >= 1 && Bounds(s) && AtMostOnce(s) && SizeInv(buffer, s) && Run(buffer, s, es)
    ensures var s' := Exec(buffer, s, es); Bounds(s') && AtMostOnce(s') && SizeInv(buffer, s')
    decreases |es|
  {
    if es != [] {
      StepBounds(buffer, s, es[0]);
      StepAtMostOnce(buffer, s, es[0]);
      StepSize(buffer, s, es[0]);
      RunInv(buffer, Step(buffer, s, es[0]), es[1..]);
    }
  }

  // The cursor a process began with stays on record as long as the process lives.
  lemma {:induction false} BeganStays(buffer: nat, s: State, es: seq<Event>)
    requires s.began.Some? && OneProcess(es) && Run(buffer, s, es)
    ensures Exec(buffer, s, es).began == s.began
    decreases |es|
  {
    if es != [] {
      assert !LosesProcess(es[0]) && OneProcess(es[1..]);
      BeganStays(buffer, Step(buffer, s, es[0]), es[1..]);
    }
  }

  // A process of the service, from its first turn on, within any run.
  ghost predicate Process(buffer: nat, stored: Option<int>, before: seq<Event>, es: seq<Event>) {
    && buffer >= 1 && Stored(stored) && Run(buffer, Start(stored), before)
    && var s0 := Exec(buffer, Start(stored), before);
       && s0.began.None? && Run(buffer, s0, es)
       && es != [] && es[0].Turn? && OneProcess(es)
  }

  // The state it begins in and the one it has reached; the cursor it begins with is the stored one,
  // else the block before the head.
  ghost function Fresh(buffer: nat, stored: Option<int>, before: seq<Event>, es: seq<Event>): State
    requires Process(buffer, stored, before, es)
  {
    Exec(buffer, Start(stored), before)
  }

  ghost function Reached(buffer: nat, stored: Option<int>, before: seq<Event>, es: seq<Event>): State
    requires Process(buffer, stored, before, es)
  {
    Exec(buffer, Fresh(buffer, stored, before, es), es)
  }

  ghost function Began(buffer: nat, stored: Option<int>, before: seq<Event>, es: seq<Event>): int
    requires Process(buffer, stored, before, es)
  {
    var s0 := Fresh(buffer, stored, before, es);
    if s0.stored.Some? then s0.stored.value else es[0].head - 1
  }

  lemma ProcessInv(buffer: nat, stored: Option<int>, before: seq<Event>, es: seq<Event>)
    requires Process(buffer, stored, before, es)
    ensures var s0 := Fresh(buffer, stored, before, es);
      Bounds(s0) && AtMostOnce(s0) && SizeInv(buffer, s0) && Exact(s0)
    ensures var s := Reached(buffer, stored, before, es);
      && Bounds(s) && AtMostOnce(s) && SizeInv(buffer, s)
      && s.began == Some(Began(buffer, stored, before, es))
  {
    var s0 := Fresh(buffer, stored, before, es);
    RunInv(buffer, Start(stored), before);
    RunInv(buffer, s0, es);
    assert !LosesProcess(es[0]) && OneProcess(es[1..]);
    TurnMoves(buffer, s0, es[0]);
    BeganStays(buffer, Step(buffer, s0, es[0]), es[1..]);
  }

  // In every process of every run, whatever scans fail, each block is scanned or skipped at most
  // once, and only after the cursor the process began with and up to the one it has reached. No
  // scanned range is longer than max_block_buffer, and a block is skipped only when it is at
  // least max_block_buffer below the head.
  lemma TouchesAtMostOnce(buffer: nat, stored: Option<int>, before: seq<Event>, es: seq<Event>, b: int)
    requires Process(buffer, stored, before, es)
    ensures var s := Reached(buffer, stored, before, es);
      && Touched(s, b) <= (if Began(buffer, stored, before, es) < b <= s.last then 1 else 0)
      && (forall r :: r in s.allScans ==> 1 <= r.hi - r.lo + 1 <= buffer)
      && (forall k :: k in s.allSkips && Within(k.range, b) ==> k.head - b >= buffer)
      && (forall k :: k in s.skips ==> k in s.allSkips)
  {
    ProcessInv(buffer, stored, before, es);
    assert OnceAt(Reached(buffer, stored, before, es), b);
  }

  // A process scans or skips each block after the cursor it began with, up to the one it has
  // reached, exactly once and no other, if and only if none of its turns takes its cursor of 0
  // for none.
  lemma EachBlockOnce(buffer: nat, stored: Option<int>, before: seq<Event>, es: seq<Event>)
    requires Process(buffer, stored, before, es)
    ensures var s := Reached(buffer, stored, before, es);
      var began := Began(buffer, stored, before, es);
      (forall b :: Touched(s, b) == if began < b <= s.last then 1 else 0)
      <==> !EverForgets(buffer, Fresh(buffer, stored, before, es), es)
  {
    var s := Reached(buffer, stored, before, es);
    ProcessInv(buffer, stored, before, es);
    RunExact(buffer, Fresh(buffer, stored, before, es), es);
    if EverForgets(buffer, Fresh(buffer, stored, before, es), es) {
      assert Missed(s, 1);
    }
  }

  // Heads above block 1 rule that out.
  lemma {:induction false} NeverForgets(buffer: nat, s: State, es: seq<Event>)
    requires buffer >= 1 && Bounds(s) && Run(buffer, s, es)
    requires forall e :: e in es && e.Turn? ==> e.head >= 2
    requires s.began.Some? ==> s.last >= 1 || s.stored.Some?
    ensures !EverForgets(buffer, s, es)
    decreases |es|
  {
    if es != [] {
      assert es[0] in es;
      StepBounds(buffer, s, es[0]);
      if es[0].Turn? {
        ChooseBounds(buffer, s, es[0].head);
      }
      NeverForgets(buffer, Step(buffer, s, es[0]), es[1..]);
    }
  }

  lemma {:induction false} SkippedIn(ks: seq<Skip>, b: int) returns (k: Skip)
    requires Skipped(ks, b) >= 1
    ensures k in ks && Within(k.range, b)
  {
    k := ks[|ks| - 1];
    if !Within(k.range, b) {
      k := SkippedIn(ks[..|ks| - 1], b);
    }
  }
}
