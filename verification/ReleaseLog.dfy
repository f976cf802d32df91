/** What every run's list of release attempts looks like. */
module ReleaseLog {
  import opened Wrappers
  import opened ReleaseMachine
  import opened ReleaseDrift

  // Whether the attempt after l is made at the high gas price: in the main loop after a failure; in
  // the first release after a collision or a timeout whose nonce reset went through, not after a
  // call that returned, and otherwise as before.
  predicate HighGasAfter(l: Sent) {
    if !l.first then !l.advanced
    else match l.fault
         case NoFault => false
         case NonceCollision => !l.resetFails || l.highGas
         case TimeExhausted => !l.resetFails || l.highGas
         case Underpriced => l.highGas
         case OtherError => l.highGas
  }

  // The attempt after l uses the same nonce or the next one, where no reset comes between.
  predicate NonceAfter(l: Sent, nonce: int) {
    && (l.fault == NoFault && (l.first || l.advanced) ==> nonce == l.nonce + 1)
    && (l.first && l.fault != NoFault && (l.fault == Underpriced || l.fault == OtherError || l.resetFails) ==>
          nonce == l.nonce)
  }

  // The latest attempt of the running process and what it leaves behind.
  predicate LastInv(s: State) {
    s.log != [] && s.log[|s.log| - 1].boot == s.boots && !s.phase.Down? ==>
      var l := s.log[|s.log| - 1];
      && s.force == HighGasAfter(l) && NonceAfter(l, s.nonce)
      && (l.advanced ==> MainPhase(s.phase) && l.epoch.end >= 0 && Cursor(s) == l.epoch.end + 1)
      && (!l.advanced && !l.first ==> MainPhase(s.phase) && s.force)
      && (!l.advanced && l.first ==> s.phase.First? && s.phase.epoch == l.epoch)
  }

  // Each attempt is for exactly one epoch height of blocks and stays within its limit; first-release
  // attempts wait for their receipt; an attempt of the main loop that waited for its receipt
  // counts as done only if the contract has accepted the epoch (receipt status 1).
  predicate WellSent(cfg: Config, l: Sent) {
    && l.epoch.end - l.epoch.begin + 1 == cfg.height
    && l.epoch.end <= l.limit
    && (l.first ==> l.checked)
    && (l.checked && l.advanced && !l.first ==> l.fate == Accepted)
  }

  // Two consecutive attempts, of one process or of two.
  predicate Follows(a: Sent, b: Sent) {
    && (a.boot != b.boot ==> !b.highGas)
    && (a.boot == b.boot ==> FollowsInProcess(a, b))
  }

  predicate FollowsInProcess(a: Sent, b: Sent) {
    && b.highGas == HighGasAfter(a) && NonceAfter(a, b.nonce)
    && (a.advanced ==> !b.first && b.epoch.begin == a.epoch.end + 1)
    && (!a.advanced && !a.first ==> b.checked)
    && (!a.advanced && a.first ==> b.first && b.epoch == a.epoch)
  }

  ghost predicate LogInv(cfg: Config, s: State) {
    && (forall i :: 0 <= i < |s.log| ==> s.log[i].boot <= s.boots && WellSent(cfg, s.log[i]))
    && (forall i :: 0 < i < |s.log| ==> Follows(s.log[i - 1], s.log[i]))
    && (s.log != [] ==> !s.log[0].highGas)
  }

  predicate PhaseInv(cfg: Config, s: State) {
    && (!s.phase.Down? && (s.log == [] || s.log[|s.log| - 1].boot != s.boots) ==> !s.force)
    && (MainPhase(s.phase) ==> s.begin >= 0)
    && (s.phase.AwaitStart? ==> s.log != [] ==> s.log[|s.log| - 1].boot < s.boots)
    && (s.phase.InRound? ==> s.phase.cur >= 1 && s.phase.cur + cfg.height - 1 <= s.phase.stop)
    && (s.phase.First? ==> s.phase.epoch.end - s.phase.epoch.begin + 1 == cfg.height)
  }

  lemma FirstPhase(cfg: Config, s: State, o: Outcome)
    requires cfg.height >= 1 && PhaseInv(cfg, s) && s.phase.First? && Possible(cfg, s, o)
    ensures PhaseInv(cfg, SendFirst(cfg, s, o)) && LastInv(SendFirst(cfg, s, o))
  {
  }

  lemma MainSendPhase(cfg: Config, s: State, o: Outcome)
    requires cfg.height >= 1 && PhaseInv(cfg, s) && s.phase.InRound? && Possible(cfg, s, o)
    ensures PhaseInv(cfg, SendMain(cfg, s, o)) && LastInv(SendMain(cfg, s, o))
  {
  }

  lemma StepPhase(cfg: Config, s: State, e: Event)
    requires cfg.height >= 1 && LogInv(cfg, s) && LastInv(s) && PhaseInv(cfg, s) && Enabled(cfg, s, e)
    ensures PhaseInv(cfg, Step(cfg, s, e)) && LastInv(Step(cfg, s, e))
  {
    if e.Send? {
      if s.phase.First? {
        FirstPhase(cfg, s, e.o);
      } else {
        MainSendPhase(cfg, s, e.o);
      }
    }
  }

  lemma EntryFollows(cfg: Config, s: State, o: Outcome, advanced: bool)
    requires s.phase.InRound? ==> advanced == Advances(s, o)
    requires cfg.height >= 1 && LogInv(cfg, s) && LastInv(s) && PhaseInv(cfg, s) && Enabled(cfg, s, Send(o))
    ensures var l := Entry(cfg, s, o, advanced);
      WellSent(cfg, l) && if s.log == [] then !l.highGas else Follows(s.log[|s.log| - 1], l)
  {
  }

  lemma LogAppend(cfg: Config, s: State, s': State, l: Sent)
    requires LogInv(cfg, s) && s'.boots == s.boots && s'.log == s.log + [l]
    requires l.boot == s.boots && WellSent(cfg, l)
    requires if s.log == [] then !l.highGas else Follows(s.log[|s.log| - 1], l)
    ensures LogInv(cfg, s')
  {
  }

  lemma StepLog(cfg: Config, s: State, e: Event)
    requires cfg.height >= 1 && LogInv(cfg, s) && LastInv(s) && PhaseInv(cfg, s) && Enabled(cfg, s, e)
    ensures LogInv(cfg, Step(cfg, s, e))
  {
    if e.Send? {
      var advanced := if s.phase.First? then FirstDone(e.o) else Advances(s, e.o);
      EntryFollows(cfg, s, e.o, advanced);
      LogAppend(cfg, s, Step(cfg, s, e), Entry(cfg, s, e.o, advanced));
    }
  }

  lemma {:induction false} RunLog(cfg: Config, s: State, es: seq<Event>)
    requires cfg.height >= 1 && LogInv(cfg, s) && LastInv(s) && PhaseInv(cfg, s) && Run(cfg, s, es)
    ensures var s' := Exec(cfg, s, es); LogInv(cfg, s') && LastInv(s') && PhaseInv(cfg, s')
    decreases |es|
  {
    if es != [] {
      StepPhase(cfg, s, es[0]);
      StepLog(cfg, s, es[0]);
      RunLog(cfg, Step(cfg, s, es[0]), es[1..]);
    }
  }

  // --- The head each attempt goes by ----------------------------------------------------------

  // The head that was read last.
  function LatestHead(es: seq<Event>): Option<nat> {
    if es == [] then None
    else
      match es[|es| - 1]
      case Poll(Some(h)) => Some(h)
      case FirstHead(Some(h)) => Some(h)
      case _ => LatestHead(es[..|es| - 1])
  }

  // How many attempts there are among the events.
  function Attempts(es: seq<Event>): nat {
    if es == [] then 0 else Attempts(es[..|es| - 1]) + if es[|es| - 1].Send? then 1 else 0
  }

  // The k-th event is attempt number i, and its limit is the offset head read last before it.
  ghost predicate GoesBy(cfg: Config, es: seq<Event>, l: Sent, i: nat, k: nat) {
    && k < |es| && es[k].Send? && Attempts(es[..k]) == i
    && LatestHead(es[..k]).Some? && l.limit == LatestHead(es[..k]).value - cfg.offset
  }

  ghost predicate GoesBySome(cfg: Config, es: seq<Event>, l: Sent, i: nat) {
    exists k: nat :: GoesBy(cfg, es, l, i, k)
  }

  ghost predicate Tied(cfg: Config, es: seq<Event>, s: State) {
    && Attempts(es) == |s.log|
    && (s.phase.InRound? ==> LatestHead(es).Some? && s.phase.stop == LatestHead(es).value - cfg.offset)
    && (s.phase.First? ==> LatestHead(es).Some? && s.phase.epoch.end == LatestHead(es).value - cfg.offset)
    && (forall i :: 0 <= i < |s.log| ==> GoesBySome(cfg, es, s.log[i], i))
  }

  lemma AttemptsAppend(es: seq<Event>, e: Event)
    ensures (es + [e])[..|es|] == es
    ensures Attempts(es + [e]) == Attempts(es) + if e.Send? then 1 else 0
    ensures e.Send? ==> LatestHead(es + [e]) == LatestHead(es)
  {
    assert (es + [e])[..|es|] == es;
  }

  lemma GoesByAppend(cfg: Config, es: seq<Event>, e: Event, l: Sent, i: nat, k: nat)
    requires GoesBy(cfg, es, l, i, k)
    ensures GoesBy(cfg, es + [e], l, i, k)
  {
    assert (es + [e])[..k] == es[..k];
  }

  // Events that are no attempts leave the log as it is.
  lemma KeepTied(cfg: Config, es: seq<Event>, s: State, s': State, e: Event)
    requires Tied(cfg, es, s) && s'.log == s.log && !e.Send?
    requires s'.phase.InRound? ==>
      LatestHead(es + [e]).Some? && s'.phase.stop == LatestHead(es + [e]).value - cfg.offset
    requires s'.phase.First? ==>
      LatestHead(es + [e]).Some? && s'.phase.epoch.end == LatestHead(es + [e]).value - cfg.offset
    ensures Tied(cfg, es + [e], s')
  {
    AttemptsAppend(es, e);
    forall i | 0 <= i < |s'.log| ensures GoesBySome(cfg, es + [e], s'.log[i], i) {
      assert s'.log[i] == s.log[i];
      var k: nat :| GoesBy(cfg, es, s.log[i], i, k);
      GoesByAppend(cfg, es, e, s.log[i], i, k);
    }
  }

  lemma SendTied(cfg: Config, es: seq<Event>, s: State, s': State, e: Event, l: Sent)
    requires Tied(cfg, es, s) && e.Send? && s'.log == s.log + [l]
    requires LatestHead(es).Some? && l.limit == LatestHead(es).value - cfg.offset
    requires s'.phase.InRound? ==> s'.phase.stop == l.limit
    requires s'.phase.First? ==> s'.phase.epoch.end == l.limit
    ensures Tied(cfg, es + [e], s')
  {
    var n := |s.log|;
    AttemptsAppend(es, e);
    forall i | 0 <= i < |s'.log| ensures GoesBySome(cfg, es + [e], s'.log[i], i) {
      if i < n {
        assert s'.log[i] == s.log[i];
        var k: nat :| GoesBy(cfg, es, s.log[i], i, k);
        GoesByAppend(cfg, es, e, s.log[i], i, k);
      } else {
        assert s'.log[i] == l;
        assert GoesBy(cfg, es + [e], l, n, |es|);
      }
    }
  }

  lemma StepTied(cfg: Config, es: seq<Event>, s: State, e: Event)
    requires Tied(cfg, es, s) && Enabled(cfg, s, e)
    ensures Tied(cfg, es + [e], Step(cfg, s, e))
  {
    var s' := Step(cfg, s, e);
    if e.Send? {
      var l := Entry(cfg, s, e.o, if s.phase.First? then FirstDone(e.o) else Advances(s, e.o));
      SendTied(cfg, es, s, s', e, l);
    } else {
      assert (es + [e])[..|es|] == es;
      KeepTied(cfg, es, s, s', e);
    }
  }

  lemma {:induction false} RunTied(cfg: Config, s: State, before: seq<Event>, es: seq<Event>)
    requires Tied(cfg, before, s) && Run(cfg, s, es)
    ensures Tied(cfg, before + es, Exec(cfg, s, es))
    decreases |es|
  {
    if es == [] {
      assert before + es == before;
    } else {
      StepTied(cfg, before, s, es[0]);
      RunTied(cfg, Step(cfg, s, es[0]), before + [es[0]], es[1..]);
      assert before + [es[0]] + es[1..] == before + es;
    }
  }

  // The i-th attempt of a run is its k-th event; its epoch ends no later than head - offset, for the
  // head read last before it.
  ghost predicate WithinHead(cfg: Config, es: seq<Event>, l: Sent, i: nat) {
    exists k: nat :: GoesBy(cfg, es, l, i, k) && l.epoch.end <= LatestHead(es[..k]).value - cfg.offset
  }

  // On every run, faults and restarts included: every attempted epoch has exactly `height` blocks
  // and ends no later than head - offset for the head read last before the attempt; within one
  // process it begins right after the previous attempt unless that one failed; after a failure in
  // the main loop the next attempt waits for its receipt, so that all do until one is accepted; and
  // it is made at the high gas price exactly as HighGasAfter says, the first of a process never.
  lemma AttemptsAreSafe(cfg: Config, chain: Chain, es: seq<Event>)
    requires cfg.height >= 1 && Run(cfg, Init(chain), es)
    ensures var log := Exec(cfg, Init(chain), es).log;
      && (forall i :: 0 <= i < |log| ==> WellSent(cfg, log[i]) && WithinHead(cfg, es, log[i], i))
      && (forall i :: 0 < i < |log| ==> Follows(log[i - 1], log[i]))
      && (log != [] ==> !log[0].highGas)
  {
    RunLog(cfg, Init(chain), es);
    RunTied(cfg, Init(chain), [], es);
    assert [] + es == es;
    var log := Exec(cfg, Init(chain), es).log;
    forall i | 0 <= i < |log| ensures WithinHead(cfg, es, log[i], i) {
      assert WellSent(cfg, log[i]) && GoesBySome(cfg, es, log[i], i);
      var k: nat :| GoesBy(cfg, es, log[i], i, k);
    }
  }

  // --- How often receipts are checked ---------------------------------------------------------

  // The unchecked attempts at the end of the log.
  function Trailing(log: seq<Sent>): nat {
    if log == [] || log[|log| - 1].checked then 0 else 1 + Trailing(log[..|log| - 1])
  }

  lemma {:induction false} TrailingBound(log: seq<Sent>, i: nat)
    requires i < |log| && (forall j :: i <= j < |log| ==> !log[j].checked)
    ensures Trailing(log) >= |log| - i
    decreases |log|
  {
    if i < |log| - 1 {
      TrailingBound(log[..|log| - 1], i);
    }
  }

  ghost predicate CadenceInv(s: State) {
    && Trailing(s.log) <= Since(s.counter)
    && forall i :: 0 <= i <= |s.log| - CHECK_EVERY ==> CheckedWithin(s.log, i)
  }

  // One of the ten attempts from i on waits for its receipt.
  ghost predicate CheckedWithin(log: seq<Sent>, i: nat)
    requires i + CHECK_EVERY <= |log|
  {
    exists j :: i <= j < i + CHECK_EVERY && log[j].checked
  }

  lemma CadenceAppend(s: State, l: Sent)
    requires CadenceInv(s) && (l.checked || s.counter % CHECK_EVERY != 0)
    ensures Trailing(s.log + [l]) <= Since(s.counter + 1)
    ensures forall i :: 0 <= i <= |s.log| + 1 - CHECK_EVERY ==> CheckedWithin(s.log + [l], i)
  {
    var log := s.log + [l];
    assert log[..|log| - 1] == s.log;
    if !l.checked {
      SinceNext(s.counter);
    }
    forall i | 0 <= i <= |s.log| + 1 - CHECK_EVERY
      ensures CheckedWithin(log, i)
    {
      if i <= |s.log| - CHECK_EVERY {
        assert CheckedWithin(s.log, i);
        var j :| i <= j < i + CHECK_EVERY && s.log[j].checked;
        assert log[j].checked;
      } else if forall j :: i <= j < |log| ==> !log[j].checked {
        TrailingBound(log, i);
      }
    }
  }

  lemma SendCadence(cfg: Config, s: State, o: Outcome)
    requires CadenceInv(s) && Enabled(cfg, s, Send(o))
    ensures CadenceInv(Step(cfg, s, Send(o)))
  {
    var l := Entry(cfg, s, o, if s.phase.First? then FirstDone(o) else Advances(s, o));
    var s' := Step(cfg, s, Send(o));
    CadenceAppend(s, l);
    assert s'.log == s.log + [l] && s'.counter == s.counter + 1;
  }

  lemma StepCadence(cfg: Config, s: State, e: Event)
    requires CadenceInv(s) && Enabled(cfg, s, e)
    ensures CadenceInv(Step(cfg, s, e))
  {
    if e.Send? {
      SendCadence(cfg, s, e.o);
    } else {
      var s' := Step(cfg, s, e);
      assert s'.log == s.log && (s'.counter == s.counter || s'.counter == 0);
    }
  }

  lemma {:induction false} RunCadence(cfg: Config, s: State, es: seq<Event>)
    requires CadenceInv(s) && Run(cfg, s, es)
    ensures CadenceInv(Exec(cfg, s, es))
    decreases |es|
  {
    if es != [] {
      StepCadence(cfg, s, es[0]);
      RunCadence(cfg, Step(cfg, s, es[0]), es[1..]);
    }
  }

  // On every run, any ten consecutive release attempts, also across restarts, include one that
  // waits for its receipt.
  lemma TenAttemptsIncludeACheck(cfg: Config, chain: Chain, es: seq<Event>, i: nat)
    requires Run(cfg, Init(chain), es) && i + 10 <= |Exec(cfg, Init(chain), es).log|
    ensures exists j :: i <= j < i + 10 && Exec(cfg, Init(chain), es).log[j].checked
  {
    RunCadence(cfg, Init(chain), es);
    assert CheckedWithin(Exec(cfg, Init(chain), es).log, i);
  }

  // How many attempts the process run `boot` has made, as the log's latest ones.
  function InProcess(log: seq<Sent>, boot: nat): nat {
    if log == [] || log[|log| - 1].boot != boot then 0 else 1 + InProcess(log[..|log| - 1], boot)
  }

  ghost predicate CountInv(s: State) {
    && (!s.phase.Down? ==> s.counter == InProcess(s.log, s.boots))
    && (forall i :: 0 <= i < |s.log| ==> s.log[i].boot <= s.boots && CheckedExactly(s.log, i))
  }

  // Attempt i waits for its receipt exactly if it is a first release, is forced, or comes after a
  // multiple of ten attempts of its process.
  predicate CheckedExactly(log: seq<Sent>, i: nat)
    requires i < |log|
  {
    log[i].checked <==> log[i].first || log[i].highGas || InProcess(log[..i], log[i].boot) % 10 == 0
  }

  lemma CountAppend(s: State, l: Sent)
    requires CountInv(s) && !s.phase.Down? && l.boot == s.boots
    requires l.checked <==> l.first || l.highGas || s.counter % 10 == 0
    ensures InProcess(s.log + [l], s.boots) == s.counter + 1
    ensures forall i :: 0 <= i <= |s.log| ==> (s.log + [l])[i].boot <= s.boots && CheckedExactly(s.log + [l], i)
  {
    var log := s.log + [l];
    assert log[..|s.log|] == s.log;
    forall i | 0 <= i <= |s.log| ensures log[i].boot <= s.boots && CheckedExactly(log, i) {
      if i < |s.log| {
        assert log[i] == s.log[i] && log[..i] == s.log[..i] && CheckedExactly(s.log, i);
      }
    }
  }

  lemma SendCount(cfg: Config, s: State, o: Outcome)
    requires CountInv(s) && Enabled(cfg, s, Send(o))
    ensures CountInv(Step(cfg, s, Send(o)))
  {
    var l := Entry(cfg, s, o, if s.phase.First? then FirstDone(o) else Advances(s, o));
    var s' := Step(cfg, s, Send(o));
    CountAppend(s, l);
    assert s'.log == s.log + [l] && s'.counter == s.counter + 1 && s'.boots == s.boots;
  }

  lemma StepCount(cfg: Config, s: State, e: Event)
    requires CountInv(s) && Enabled(cfg, s, e)
    ensures CountInv(Step(cfg, s, e))
  {
    if e.Send? {
      SendCount(cfg, s, e.o);
    } else {
      var s' := Step(cfg, s, e);
      assert s'.log == s.log;
      if e.Restart? || e.StartFails? {
        assert s'.boots == s.boots + 1 && s'.counter == 0;
        assert s.log != [] ==> s.log[|s.log| - 1].boot <= s.boots;
        assert InProcess(s.log, s'.boots) == 0;
      }
    }
  }

  lemma {:induction false} RunCount(cfg: Config, s: State, es: seq<Event>)
    requires CountInv(s) && Run(cfg, s, es)
    ensures CountInv(Exec(cfg, s, es))
    decreases |es|
  {
    if es != [] {
      StepCount(cfg, s, es[0]);
      RunCount(cfg, Step(cfg, s, es[0]), es[1..]);
    }
  }

  // On every run, which attempts wait for their receipt, exactly.
  lemma CheckedExactlyThen(cfg: Config, chain: Chain, es: seq<Event>, i: nat)
    requires Run(cfg, Init(chain), es) && i < |Exec(cfg, Init(chain), es).log|
    ensures CheckedExactly(Exec(cfg, Init(chain), es).log, i)
  {
    RunCount(cfg, Init(chain), es);
  }

  // --- The first release ----------------------------------------------------------------------

  // How many of the latest attempts were first-release attempts of process run `boot`.
  function FirstTries(log: seq<Sent>, boot: nat): nat {
    if log == [] || log[|log| - 1].boot != boot || !log[|log| - 1].first then 0
    else 1 + FirstTries(log[..|log| - 1], boot)
  }

  ghost predicate TriesInv(cfg: Config, s: State) {
    && (s.phase.First? ==> FirstTries(s.log, s.boots) == s.phase.tries < (if cfg.retries < 1 then 1 else cfg.retries))
    && (s.phase.AwaitStart? ==> FirstTries(s.log, s.boots) == 0)
    && FirstTries(s.log, s.boots) <= (if cfg.retries < 1 then 1 else cfg.retries)
    && (forall i :: 0 <= i < |s.log| ==> s.log[i].boot <= s.boots)
  }

  lemma TriesAppend(log: seq<Sent>, l: Sent)
    ensures FirstTries(log + [l], l.boot) == if l.first then 1 + FirstTries(log, l.boot) else 0
  {
    assert (log + [l])[..|log|] == log;
  }

  lemma SendFirstTries(cfg: Config, s: State, o: Outcome)
    requires TriesInv(cfg, s) && Enabled(cfg, s, Send(o)) && s.phase.First?
    ensures TriesInv(cfg, SendFirst(cfg, s, o))
  {
    var l := Entry(cfg, s, o, FirstDone(o));
    var log := s.log + [l];
    TriesAppend(s.log, l);
    assert l.boot == s.boots && l.first;
    var s' := SendFirst(cfg, s, o);
    assert s'.log == log && s'.boots == s.boots;
    TriesCase(cfg, s, s', log);
  }

  lemma TriesCase(cfg: Config, s: State, s': State, log: seq<Sent>)
    requires TriesInv(cfg, s) && s.phase.First?
    requires s'.log == log && s'.boots == s.boots && FirstTries(log, s.boots) == 1 + s.phase.tries
    requires |log| == |s.log| + 1 && log[..|s.log|] == s.log && log[|s.log|].boot == s.boots
    requires s'.phase.First? ==> s.phase.tries + 1 < cfg.retries && s'.phase.tries == s.phase.tries + 1
    requires !s'.phase.AwaitStart?
    ensures TriesInv(cfg, s')
  {
    forall i | 0 <= i < |log| ensures log[i].boot <= s.boots {
      assert i < |s.log| ==> log[i] == log[..|s.log|][i];
    }
  }

  lemma SendMainTries(cfg: Config, s: State, o: Outcome)
    requires TriesInv(cfg, s) && Enabled(cfg, s, Send(o)) && s.phase.InRound?
    ensures TriesInv(cfg, SendMain(cfg, s, o))
  {
    var l := Entry(cfg, s, o, Advances(s, o));
    TriesAppend(s.log, l);
    var s' := SendMain(cfg, s, o);
    assert s'.log == s.log + [l] && s'.boots == s.boots && l.boot == s.boots && !l.first;
    assert !s'.phase.First? && !s'.phase.AwaitStart?;
  }

  lemma BootTries(cfg: Config, s: State)
    requires TriesInv(cfg, s)
    ensures TriesInv(cfg, Boot(cfg, s))
  {
    assert FirstTries(s.log, s.boots + 1) == 0;
  }

  lemma StepTries(cfg: Config, s: State, e: Event)
    requires TriesInv(cfg, s) && Enabled(cfg, s, e)
    ensures TriesInv(cfg, Step(cfg, s, e))
  {
    match e
    case Restart => BootTries(cfg, s);
    case StartFails => BootTries(cfg, s);
    case StartPassed =>
    case FirstHead(_) =>
    case Poll(_) =>
    case Send(o) => if s.phase.First? { SendFirstTries(cfg, s, o); } else { SendMainTries(cfg, s, o); }
  }

  lemma {:induction false} RunTries(cfg: Config, s: State, es: seq<Event>)
    requires TriesInv(cfg, s) && Run(cfg, s, es)
    ensures TriesInv(cfg, Exec(cfg, s, es))
    decreases |es|
  {
    if es != [] {
      StepTries(cfg, s, es[0]);
      RunTries(cfg, Step(cfg, s, es[0]), es[1..]);
    }
  }

  // The handover: on every run the first release makes at most `retries` attempts in one process
  // (one, when fewer are configured), and when it succeeds the contract's last epoch is the one it
  // asked for and the main loop begins exactly one block later.
  lemma FirstReleaseHandover(cfg: Config, chain: Chain, es: seq<Event>, o: Outcome)
    requires cfg.height >= 1 && Run(cfg, Init(chain), es)
    requires var s := Exec(cfg, Init(chain), es); s.phase.First? && Enabled(cfg, s, Send(o))
    ensures FirstTries(Exec(cfg, Init(chain), es).log, Exec(cfg, Init(chain), es).boots)
          < if cfg.retries < 1 then 1 else cfg.retries
    ensures var s := Exec(cfg, Init(chain), es);
      var s' := SendFirst(cfg, s, o);
      s'.phase.Idle? <==> FirstDone(o)
    ensures var s := Exec(cfg, Init(chain), es);
      var s' := SendFirst(cfg, s, o);
      FirstDone(o) ==>
        && s'.chain.contract == Last(s.phase.epoch.end)
        && s'.begin == s'.chain.contract.end + 1 > 0
  {
    RunTries(cfg, Init(chain), es);
  }
}
