/** Runs of the service over several processes: what hasty sweeps and crashes can do. */
module ServiceRuns {
  import opened Wrappers
  import opened ForceTables
  import opened ServiceLife
  import opened ServiceCalls
  import opened ServiceReleases
  import BlockCursor
  import EventScan
  import TaskLocks

  // Epoch 7 is released in block 10, where a project submits for it, too.
  function Block10(b: int): seq<LogEvent> {
    if b == 10 then [EpochReleased(7), SnapshotSubmitted(7, "p")] else []
  }

  function Example(): World {
    World(Settings(0, 0, 1), Block10, 100)
  }

  lemma ExampleOnce()
    ensures EventScan.ReleasesOnce(Example().chain)
  {
    forall e, b ensures multiset(Block10(b))[EpochReleased(e)] <= 1 {
      if b == 10 {
        assert multiset(Block10(b)) == multiset{EpochReleased(7), SnapshotSubmitted(7, "p")};
      }
    }
  }

  lemma RunCons(w: World, s: Life, e: LifeEvent, es: seq<LifeEvent>)
    requires LifeEnabled(w, s, e) && LifeRun(w, LifeStep(w, s, e), es)
    ensures LifeRun(w, s, [e] + es) && LifeExec(w, s, [e] + es) == LifeExec(w, LifeStep(w, s, e), es)
    ensures EverDrops(w, s, [e] + es, 7) <==> Drops(s, e, 7) || EverDrops(w, LifeStep(w, s, e), es, 7)
    ensures Redos(w, s, [e] + es, Called()) == (if Redoes(s, e, Called()) then 1 else 0)
                                             + Redos(w, LifeStep(w, s, e), es, Called())
  {
    assert ([e] + es)[1..] == es;
  }

  function Called(): TaskLocks.Call {
    TaskLocks.Call("p", 7)
  }

  // A process about to fetch block 10.
  predicate Ready(s: Life, t: real) {
    && s.cursor.last == 0 && s.cursor.began == None && s.cursor.head <= 10
    && (s.cursor.stored == Some(9) || s.cursor.stored == None)
    && s.fetching == None && s.sys == ForceTables.Start(t, 0) && s.recent == {}
  }

  // It has fetched block 10 and folded its entries in.
  predicate Fetched(s: Life, t: real) {
    && s.fetching == Some(Fetch(9, 10, t)) && s.todo == [] && s.recent == {7}
    && s.sys.now == t && s.sys.calls == multiset{}
    && s.sys.tables == Tables({(t, 7)}, map[], map[7 := {"p"}])
  }

  // Its steps: the fetch, the release, the submission.
  lemma BeginBlock10(s: Life, t: real) returns (s1: Life)
    requires Ready(s, t)
    ensures LifeEnabled(Example(), s, Begin(10, t)) && s1 == LifeStep(Example(), s, Begin(10, t))
    ensures s1.fetching == Some(Fetch(9, 10, t)) && s1.todo == [EpochReleased(7), SnapshotSubmitted(7, "p")]
    ensures s1 == s.(fetching := s1.fetching, todo := s1.todo, anchor := s1.anchor)
  {
    var chain := Example().chain;
    assert EventScan.Logs(chain, 10, 10) == EventScan.Logs(chain, 10, 9) + chain(10);
    s1 := LifeStep(Example(), s, Begin(10, t));
  }

  lemma FoldRelease(s1: Life, t: real) returns (s2: Life)
    requires s1.fetching == Some(Fetch(9, 10, t)) && s1.todo == [EpochReleased(7), SnapshotSubmitted(7, "p")]
    requires s1.sys == ForceTables.Start(t, 0) && s1.recent == {}
    ensures LifeEnabled(Example(), s1, Fold(t)) && s2 == LifeStep(Example(), s1, Fold(t))
    ensures s2.todo == [SnapshotSubmitted(7, "p")] && s2.recent == {7} && s2.fetching == s1.fetching
    ensures s2.sys.tables == Tables({(t, 7)}, map[], map[]) && s2.sys.now == t && s2.sys.calls == multiset{}
    ensures s2.cursor == s1.cursor && s2.calls == s1.calls && s2.saved == s1.saved
  {
    s2 := LifeStep(Example(), s1, Fold(t));
  }

  lemma FoldSubmission(s2: Life, t: real) returns (s3: Life)
    requires s2.fetching == Some(Fetch(9, 10, t)) && s2.todo == [SnapshotSubmitted(7, "p")] && s2.recent == {7}
    requires s2.sys.tables == Tables({(t, 7)}, map[], map[]) && s2.sys.now == t && s2.sys.calls == multiset{}
    ensures LifeEnabled(Example(), s2, Fold(t)) && s3 == LifeStep(Example(), s2, Fold(t))
    ensures Fetched(s3, t) && s3.cursor == s2.cursor && s3.calls == s2.calls && s3.saved == s2.saved
  {
    s3 := LifeStep(Example(), s2, Fold(t));
    assert s3.sys.tables.submitted == AddTo(map[], 7, "p") == map[7 := {} + {"p"}];
    assert {} + {"p"} == {"p"};
  }

  lemma FetchBlock10(s: Life, t: real) returns (s1: Life, s2: Life, s3: Life)
    requires Ready(s, t)
    ensures var w := Example();
      && LifeEnabled(w, s, Begin(10, t)) && s1 == LifeStep(w, s, Begin(10, t))
      && LifeEnabled(w, s1, Fold(t)) && s2 == LifeStep(w, s1, Fold(t))
      && LifeEnabled(w, s2, Fold(t)) && s3 == LifeStep(w, s2, Fold(t))
    ensures Fetched(s3, t) && s3.cursor == s.cursor && s3.calls == s.calls && s3.saved == s.saved
  {
    s1 := BeginBlock10(s, t);
    s2 := FoldRelease(s1, t);
    s3 := FoldSubmission(s2, t);
  }

  lemma SaveAndCrash(s: Life, s3: Life) returns (s4: Life)
    requires s == Init(Some(9), 0.0, 0) && Fetched(s3, 0.0)
    requires s3.cursor == s.cursor && s3.calls == s.calls && s3.saved == s.saved && s3.swept == {} && s3.sys.swept == {}
    ensures LifeEnabled(Example(), s3, Save) && s4 == LifeStep(Example(), s3, Save)
    ensures Drops(s4, Crash(0.0, 0), 7) && LifeEnabled(Example(), s4, Crash(0.0, 0))
    ensures var s5 := LifeStep(Example(), s4, Crash(0.0, 0));
      s5.cursor.stored == Some(10) && !Handled(s5, 7)
  {
    s4 := LifeStep(Example(), s3, Save);
    TurnedStored(Example(), s3, 10, BlockCursor.ScanOk);
    assert (0.0, 7) in s4.sys.tables.pending && s4.saved == {7};
  }

  // A process dies after the epoch's release is seen and its block persisted, before the sweep that
  // would find it due: no later process will.
  lemma CrashDropsRelease() returns (es: seq<LifeEvent>)
    ensures var w, s := Example(), Init(Some(9), 0.0, 0);
      && EventScan.ReleasesOnce(w.chain) && LifeRun(w, s, es) && EverDrops(w, s, es, 7)
      && LifeExec(w, s, es).cursor.stored == Some(10) && !Handled(LifeExec(w, s, es), 7)
  {
    var w, s := Example(), Init(Some(9), 0.0, 0);
    ExampleOnce();
    var s1, s2, s3 := FetchBlock10(s, 0.0);
    var s4 := SaveAndCrash(s, s3);
    RunCons(w, s4, Crash(0.0, 0), []);
    RunCons(w, s3, Save, [Crash(0.0, 0)] + []);
    es := Prefixed(s, s1, s2, s3, 0.0, [Save] + ([Crash(0.0, 0)] + []));
  }

  // The events of a fetch of block 10, before those of `rest`.
  lemma Prefixed(s: Life, s1: Life, s2: Life, s3: Life, t: real, rest: seq<LifeEvent>) returns (es: seq<LifeEvent>)
    requires var w := Example();
      && LifeEnabled(w, s, Begin(10, t)) && s1 == LifeStep(w, s, Begin(10, t))
      && LifeEnabled(w, s1, Fold(t)) && s2 == LifeStep(w, s1, Fold(t))
      && LifeEnabled(w, s2, Fold(t)) && s3 == LifeStep(w, s2, Fold(t))
      && LifeRun(w, s3, rest)
    ensures var w := Example();
      && LifeRun(w, s, es) && LifeExec(w, s, es) == LifeExec(w, s3, rest)
      && (EverDrops(w, s, es, 7) <==> EverDrops(w, s3, rest, 7))
      && Redos(w, s, es, Called()) == Redos(w, s3, rest, Called())
  {
    var w := Example();
    RunCons(w, s2, Fold(t), rest);
    RunCons(w, s1, Fold(t), [Fold(t)] + rest);
    RunCons(w, s, Begin(10, t), [Fold(t)] + ([Fold(t)] + rest));
    es := [Begin(10, t)] + ([Fold(t)] + ([Fold(t)] + rest));
  }

  // Nothing is stored. The first process fetches block 10 and dies before it persists its cursor; the
  // next one starts at block 11. No turn loses blocks, since block 10 was scanned, and no process
  // was lost with a release on record, yet its release is forgotten: it lies at the anchor.
  lemma CoveredButForgotten() returns (es: seq<LifeEvent>)
    ensures var w, s := Example(), Init(None, 0.0, 0);
      && EventScan.ReleasesOnce(w.chain) && LifeRun(w, s, es) && !EverDrops(w, s, es, 7)
      && var s' := LifeExec(w, s, es);
         && s'.cursor.stored == Some(11) && s'.cursor.base == 9 && s'.anchor == 10
         && !Skipped(s', 10) && !Handled(s', 7)
  {
    var w, s := Example(), Init(None, 0.0, 0);
    ExampleOnce();
    var s1, s2, s3 := FetchBlock10(s, 0.0);
    var s4, s5, s6 := StartOver(s, s3);
    RunCons(w, s5, Save, []);
    RunCons(w, s4, Begin(11, 0.0), [Save] + []);
    RunCons(w, s3, Crash(0.0, 0), [Begin(11, 0.0)] + ([Save] + []));
    es := Prefixed(s, s1, s2, s3, 0.0, [Crash(0.0, 0)] + ([Begin(11, 0.0)] + ([Save] + [])));
  }

  lemma StartOver(s: Life, s3: Life) returns (s4: Life, s5: Life, s6: Life)
    requires s == Init(None, 0.0, 0) && Fetched(s3, 0.0)
    requires s3.cursor == s.cursor && s3.saved == s.saved && s3.swept == {} && s3.sys.swept == {}
    ensures LifeEnabled(Example(), s3, Crash(0.0, 0)) && s4 == LifeStep(Example(), s3, Crash(0.0, 0))
    ensures LifeEnabled(Example(), s4, Begin(11, 0.0)) && s5 == LifeStep(Example(), s4, Begin(11, 0.0))
    ensures LifeEnabled(Example(), s5, Save) && s6 == LifeStep(Example(), s5, Save)
    ensures !Drops(s3, Crash(0.0, 0), 7)
    ensures s6.cursor.stored == Some(11) && s6.cursor.base == 9 && s6.anchor == 10
    ensures !Skipped(s6, 10) && !Handled(s6, 7)
  {
    s4 := LifeStep(Example(), s3, Crash(0.0, 0));
    s5 := NextBegin(s4);
    TurnedStored(Example(), s5, 11, BlockCursor.ScanOk);
    s6 := LifeStep(Example(), s5, Save);
  }

  lemma NextBegin(s4: Life) returns (s5: Life)
    requires s4.cursor.last == 0 && s4.cursor.stored == None && s4.cursor.head == 10
    requires s4.fetching == None && s4.todo == [] && s4.sys.now == 0.0
    ensures LifeEnabled(Example(), s4, Begin(11, 0.0)) && s5 == LifeStep(Example(), s4, Begin(11, 0.0))
    ensures s5 == s4.(fetching := Some(Fetch(10, 11, 0.0)), anchor := 10)
  {
    var chain := Example().chain;
    s5 := LifeStep(Example(), s4, Begin(11, 0.0));
    assert EventScan.Logs(chain, 11, 11) == EventScan.Logs(chain, 11, 10) + chain(11);
  }

  // The sweep beside the fetch reads the clock 31 seconds later and finds the epoch due.
  lemma SweepBlock10(s: Life, t: real) returns (e: LifeEvent, s1: Life)
    requires Fetched(s, t)
    ensures e == Inner(RunSweep(t + 31.0, t + 31.0, [(t, 7)])) && LifeEnabled(Example(), s, e)
    ensures Hasty(s, e) && s1 == LifeStep(Example(), s, e)
    ensures s1.sys.calls[Called()] == 1 && s1.sys.now == t + 31.0
    ensures s1.cursor == s.cursor && s1.fetching == s.fetching && s1.todo == [] && s1.calls == s.calls
    ensures s1.recent == s.recent
  {
    var order := [(t, 7)];
    e := Inner(RunSweep(t + 31.0, t + 31.0, order));
    assert order[0].1 == 7;
    s1 := LifeStep(Example(), s, e);
    assert order[..0] == [] && CallBag(s.sys.tables, []) == multiset{};
    assert CallsFor(s.sys.tables, 7) == {Called()};
    assert CallBag(s.sys.tables, order) == multiset{Called()};
  }

  // A process that is lost after its hasty sweep leaves the next one to fetch block 10 again.
  lemma CrashReady(s: Life, s4: Life, t: real)
    requires Ready(s, t) && s4.cursor == s.cursor && s4.calls == s.calls && s4.recent == {7}
    requires s4.fetching == Some(Fetch(9, 10, t)) && s4.todo == []
    requires s4.sys.now == t + 31.0 && s4.sys.calls[Called()] == 1
    ensures LifeEnabled(Example(), s4, Crash(t + 31.0, 0)) && Redoes(s4, Crash(t + 31.0, 0), Called())
    ensures var s5 := LifeStep(Example(), s4, Crash(t + 31.0, 0));
      Ready(s5, t + 31.0) && s5.calls[Called()] == s.calls[Called()] + 1
  {
  }

  // Hasty sweeps, each but the last followed by a crash before the cursor is persisted: after n such
  // crashes one project and epoch is called for the n + 1-st time.
  lemma {:induction false} HastySweepsCallAgain(s: Life, t: real, n: nat) returns (es: seq<LifeEvent>)
    requires Ready(s, t)
    ensures var w := Example();
      && LifeRun(w, s, es) && Redos(w, s, es, Called()) == n
      && Calls(LifeExec(w, s, es), Called()) == s.calls[Called()] + n + 1
    decreases n
  {
    var w := Example();
    var s1, s2, s3 := FetchBlock10(s, t);
    var e, s4 := SweepBlock10(s3, t);
    var rest: seq<LifeEvent> := [];
    if n > 0 {
      var crash := Crash(t + 31.0, 0);
      CrashReady(s, s4, t);
      rest := HastySweepsCallAgain(LifeStep(w, s4, crash), t + 31.0, n - 1);
      RunCons(w, s4, crash, rest);
      rest := [crash] + rest;
    }
    RunCons(w, s3, e, rest);
    es := Prefixed(s, s1, s2, s3, t, [e] + rest);
  }

  // So the bound on the calls is reached for every number of such crashes.
  lemma CallsAreTight(n: nat) returns (es: seq<LifeEvent>)
    ensures var w, s := Example(), Init(Some(9), 0.0, 0);
      && EventScan.ReleasesOnce(w.chain) && LifeRun(w, s, es)
      && Redos(w, s, es, Called()) == n && Calls(LifeExec(w, s, es), Called()) == 1 + n
  {
    ExampleOnce();
    es := HastySweepsCallAgain(Init(Some(9), 0.0, 0), 0.0, n);
  }
}
