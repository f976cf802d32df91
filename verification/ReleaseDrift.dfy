/** How far the releaser's cursor and nonce can drift from the contract and the account. */
module ReleaseDrift {
  import opened Arith
  import opened Wrappers
  import opened ReleaseMachine

  // Attempts made since the counter last stood at a receipt-checked slot.
  function Since(counter: nat): (n: nat) {
    (counter + CHECK_EVERY - 1) % CHECK_EVERY
  }

  lemma SinceNext(counter: nat)
    requires counter % CHECK_EVERY != 0
    ensures Since(counter + 1) == Since(counter) + 1
  {
  }

  // How far the releaser can be off right now: nothing while an attempt is being forced.
  function Slack(s: State): nat {
    if s.force then 0 else Since(s.counter)
  }

  // The block the next main-loop attempt begins at.
  function Cursor(s: State): int
    requires MainPhase(s.phase)
  {
    if s.phase.InRound? then s.phase.cur else s.begin
  }

  predicate IsLag(k: nat, d: int, h: int) {
    d == k * h
  }

  // d is one of 0, h, ..., m * h.
  ghost predicate LagAtMost(d: int, h: int, m: nat) {
    exists k: nat :: k <= m && IsLag(k, d, h)
  }

  lemma LagZero(h: int, m: nat)
    ensures LagAtMost(0, h, m)
  {
    assert IsLag(0, 0, h);
  }

  lemma LagNext(d: int, h: int, m: nat)
    requires LagAtMost(d, h, m)
    ensures LagAtMost(d + h, h, m + 1)
  {
    var k: nat :| k <= m && IsLag(k, d, h);
    MulStep(k, h);
    assert IsLag(k + 1, d + h, h);
  }

  lemma LagPositive(d: int, h: int, m: nat)
    requires LagAtMost(d, h, m) && h >= 1
    ensures d >= 0
  {
    var k: nat :| k <= m && IsLag(k, d, h);
    MulMonotone(0, k, h);
  }

  lemma LagWider(d: int, h: int, m: nat, m': nat)
    requires LagAtMost(d, h, m) && m <= m'
    ensures LagAtMost(d, h, m')
  {
    var k: nat :| k <= m && IsLag(k, d, h);
  }

  // --- The cursor -----------------------------------------------------------------------------

  // The releaser reads an end block of 0 back as "no epoch".
  predicate ReadsEmpty(c: Contract) {
    c.Empty? || c.end == 0
  }

  // The starts from which the cursor can always be brought back: the contract does not end at block
  // 0, and no first release can make it do so; or it ends at block 0 and the releaser is configured
  // to begin right after it.
  predicate DriftSafe(cfg: Config, c: Contract) {
    match c
    case Empty =>
      !(cfg.firstRelease && cfg.tickerBegin == 0 && cfg.height == 1 && cfg.size == 1 && cfg.offset >= 0)
    case Last(end) => end != 0 || cfg.tickerBegin == 1
  }

  ghost predicate MainDrift(cfg: Config, s: State)
    requires MainPhase(s.phase)
  {
    && s.begin >= 0
    && (s.phase.InRound? ==> s.phase.cur >= 1 && s.phase.cur + cfg.height - 1 <= s.phase.stop)
    && (ReadsEmpty(s.chain.contract) ==> Checked(s) && Cursor(s) == s.begin)
    && (s.chain.contract == Last(0) ==> s.begin == 1)
    && (s.chain.contract.Last? ==> LagAtMost(Cursor(s) - (s.chain.contract.end + 1), cfg.height, Slack(s)))
  }

  ghost predicate DriftInv(cfg: Config, s: State) {
    && DriftSafe(cfg, s.chain.contract)
    && (MainPhase(s.phase) ==> MainDrift(cfg, s))
    && (s.phase.AwaitStart? ==> s.chain.contract.Empty? && cfg.firstRelease && cfg.tickerBegin == 0)
    && (s.phase.First? ==>
          && cfg.firstRelease && cfg.tickerBegin == 0
          && s.phase.epoch.end - s.phase.epoch.begin + 1 == cfg.height
          && s.phase.epoch.end + cfg.offset >= 0
          && (s.chain.contract.Last? ==> s.chain.contract.end == s.phase.epoch.end))
  }

  lemma BootDrift(cfg: Config, s: State)
    requires cfg.height >= 1 && DriftSafe(cfg, s.chain.contract)
    ensures DriftInv(cfg, Boot(cfg, s))
    ensures MainPhase(Boot(cfg, s).phase) && s.chain.contract.Last? ==> Cursor(Boot(cfg, s)) == s.chain.contract.end + 1
  {
    LagZero(cfg.height, Slack(Boot(cfg, s)));
  }

  // After a failure the cursor is back at the contract's next block, or never left its start.
  lemma RecoverDrift(cfg: Config, s: State, o: Outcome)
    requires cfg.height >= 1 && DriftSafe(cfg, s.chain.contract) && s.begin >= 0
    requires s.chain.contract == Last(0) ==> s.begin == 1
    ensures DriftInv(cfg, Recover(s, o))
    ensures MainPhase(Recover(s, o).phase) && s.chain.contract.Last? ==>
              Cursor(Recover(s, o)) == s.chain.contract.end + 1
  {
    LagZero(cfg.height, 0);
  }

  // An accepted epoch brings the cursor to the contract's next block.
  lemma AcceptedDrift(cfg: Config, s: State, o: Outcome)
    requires cfg.height >= 1 && DriftInv(cfg, s) && s.phase.InRound? && Possible(cfg, s, o)
    requires Advances(s, o) && o.fate == Accepted
    ensures DriftInv(cfg, SendMain(cfg, s, o))
    ensures SendMain(cfg, s, o).chain.contract == Last(s.phase.cur + cfg.height - 1)
    ensures Cursor(SendMain(cfg, s, o)) == s.phase.cur + cfg.height
  {
    LagZero(cfg.height, Slack(SendMain(cfg, s, o)));
  }

  // An unnoticed loss moves the cursor one epoch further ahead.
  lemma LostDrift(cfg: Config, s: State, o: Outcome)
    requires cfg.height >= 1 && DriftInv(cfg, s) && s.phase.InRound? && Possible(cfg, s, o)
    requires Advances(s, o) && o.fate != Accepted
    ensures DriftInv(cfg, SendMain(cfg, s, o))
  {
    var c := s.chain.contract;
    SinceNext(s.counter);
    LagNext(s.phase.cur - (c.end + 1), cfg.height, Since(s.counter));
    var s' := SendMain(cfg, s, o);
    assert s'.chain.contract == c && Slack(s') == Since(s.counter) + 1;
    assert Cursor(s') - (c.end + 1) == s.phase.cur - (c.end + 1) + cfg.height;
  }

  lemma FailedDrift(cfg: Config, s: State, o: Outcome)
    requires cfg.height >= 1 && DriftInv(cfg, s) && s.phase.InRound? && Possible(cfg, s, o)
    requires !Advances(s, o)
    ensures DriftInv(cfg, SendMain(cfg, s, o))
  {
    var ep := NextEpoch(cfg, s);
    var s1 := s.(chain := Settle(s.chain, ep, o.fate), counter := s.counter + 1,
                 log := s.log + [Entry(cfg, s, o, false)]);
    RecoverDrift(cfg, s1, o);
  }

  lemma SendFirstDrift(cfg: Config, s: State, o: Outcome)
    requires cfg.height >= 1 && DriftInv(cfg, s) && s.phase.First? && Possible(cfg, s, o)
    ensures DriftInv(cfg, SendFirst(cfg, s, o))
    ensures FirstDone(o) ==> s.phase.epoch.end >= 1 && SendFirst(cfg, s, o).chain.contract == Last(s.phase.epoch.end)
  {
    LagZero(cfg.height, Slack(SendFirst(cfg, s, o)));
  }

  lemma SendDrift(cfg: Config, s: State, o: Outcome)
    requires cfg.height >= 1 && DriftInv(cfg, s) && Enabled(cfg, s, Send(o))
    ensures DriftInv(cfg, Step(cfg, s, Send(o)))
  {
    if s.phase.First? {
      SendFirstDrift(cfg, s, o);
    } else if !Advances(s, o) {
      FailedDrift(cfg, s, o);
    } else if o.fate == Accepted {
      AcceptedDrift(cfg, s, o);
    } else {
      LostDrift(cfg, s, o);
    }
  }

  // A head read either sets the cursor, starts a round at it, or changes nothing.
  lemma PollDrift(cfg: Config, s: State, head: Option<nat>)
    requires cfg.height >= 1 && DriftInv(cfg, s) && Enabled(cfg, s, Poll(head))
    ensures DriftInv(cfg, Step(cfg, s, Poll(head)))
  {
    if head.Some? {
      var s' := StartRound(cfg, s, head.value);
      if s.begin == 0 {
        if s.chain.contract.Last? {
          LagPositive(Cursor(s) - (s.chain.contract.end + 1), cfg.height, Slack(s));
          assert false;
        }
      } else {
        assert Cursor(s') == Cursor(s) && s'.begin == s.begin && Slack(s') == Slack(s);
      }
    }
  }

  lemma FirstHeadDrift(cfg: Config, s: State, head: Option<nat>)
    requires cfg.height >= 1 && DriftInv(cfg, s) && Enabled(cfg, s, FirstHead(head))
    ensures DriftInv(cfg, Step(cfg, s, FirstHead(head)))
  {
  }

  lemma StepDrift(cfg: Config, s: State, e: Event)
    requires cfg.height >= 1 && DriftInv(cfg, s) && Enabled(cfg, s, e)
    ensures DriftInv(cfg, Step(cfg, s, e))
  {
    match e
    case Restart => BootDrift(cfg, s);
    case StartFails =>
    case StartPassed =>
    case FirstHead(head) => FirstHeadDrift(cfg, s, head);
    case Poll(head) => PollDrift(cfg, s, head);
    case Send(o) => SendDrift(cfg, s, o);
  }

  lemma {:induction false} RunDrift(cfg: Config, s: State, es: seq<Event>)
    requires cfg.height >= 1 && DriftInv(cfg, s) && Run(cfg, s, es)
    ensures DriftInv(cfg, Exec(cfg, s, es))
    decreases |es|
  {
    if es != [] {
      StepDrift(cfg, s, es[0]);
      RunDrift(cfg, Step(cfg, s, es[0]), es[1..]);
    }
  }

  // In the main loop the next block to attempt is 0, h, ..., 9h blocks ahead of the contract's next
  // block, and it equals it while an attempt is being forced. A retry of the first release can lie
  // behind, by one epoch: the one the contract has already taken.
  ghost predicate DriftOk(cfg: Config, s: State) {
    s.chain.contract.Last? ==>
      var next := s.chain.contract.end + 1;
      && (MainPhase(s.phase) ==> LagAtMost(Cursor(s) - next, cfg.height, if s.force then 0 else 9))
      && (s.phase.First? ==> s.phase.epoch.begin - next == -cfg.height)
  }

  // This holds on every run, whatever is accepted, reverted, lost or raised.
  lemma BoundedDrift(cfg: Config, chain: Chain, es: seq<Event>)
    requires cfg.height >= 1 && DriftSafe(cfg, chain.contract) && Run(cfg, Init(chain), es)
    ensures DriftOk(cfg, Exec(cfg, Init(chain), es))
  {
    RunDrift(cfg, Init(chain), es);
    var s := Exec(cfg, Init(chain), es);
    if MainPhase(s.phase) && s.chain.contract.Last? && !s.force {
      LagWider(Cursor(s) - (s.chain.contract.end + 1), cfg.height, Slack(s), 9);
    }
  }

  // The attempt brings the releaser in line: it got a receipt with status 1, or it failed and
  // recovery went through.
  predicate Realigns(s: State, o: Outcome) {
    (Advances(s, o) && Checked(s)) || (!Advances(s, o) && !RecoveryRaises(o))
  }

  // After each such attempt the nonce is the account's, and the flag says whether it failed. This
  // needs no assumption on the start.
  lemma NonceGoesToZero(cfg: Config, s: State, o: Outcome)
    requires s.phase.InRound? && Enabled(cfg, s, Send(o)) && Realigns(s, o)
    ensures var s' := Step(cfg, s, Send(o));
      MainPhase(s'.phase) && s'.nonce == s'.chain.account && s'.force == !Advances(s, o)
  {
  }

  // On any run from a safe start the cursor is then exactly the contract's next block, too.
  lemma DriftGoesToZero(cfg: Config, chain: Chain, es: seq<Event>, o: Outcome)
    requires cfg.height >= 1 && DriftSafe(cfg, chain.contract) && Run(cfg, Init(chain), es)
    requires var s := Exec(cfg, Init(chain), es); s.phase.InRound? && Enabled(cfg, s, Send(o)) && Realigns(s, o)
    ensures Run(cfg, Init(chain), es + [Send(o)])
    ensures var s' := Exec(cfg, Init(chain), es + [Send(o)]);
      && MainPhase(s'.phase) && (s'.chain.contract.Last? ==> Cursor(s') == s'.chain.contract.end + 1)
      && s'.nonce == s'.chain.account && s'.force == !Advances(Exec(cfg, Init(chain), es), o)
  {
    var s := Exec(cfg, Init(chain), es);
    RunDrift(cfg, Init(chain), es);
    RunAppend(cfg, Init(chain), es, Send(o));
    NonceGoesToZero(cfg, s, o);
    if Advances(s, o) {
      AcceptedDrift(cfg, s, o);
    } else {
      RecoverDrift(cfg, s.(chain := Settle(s.chain, NextEpoch(cfg, s), o.fate), counter := s.counter + 1,
                           log := s.log + [Entry(cfg, s, o, false)]), o);
    }
  }

  // When an attempt of the main loop ends the process: exactly when its exception handler raises. The
  // handler runs when the call raised, or when recovering from a receipt without status 1 did.
  lemma HandlerEndsProcess(cfg: Config, s: State, o: Outcome)
    requires s.phase.InRound? && Enabled(cfg, s, Send(o))
    ensures Step(cfg, s, Send(o)).phase.Down? <==>
      o.outerFault && (o.fault != NoFault || (o.innerFault && o.fate != Accepted && Checked(s)))
  {
  }

  // Recovery realigns the cursor exactly when the contract's last end is not 0 (or the cursor
  // happens to be at block 1 already).
  lemma RecoveryExact(s: State, o: Outcome)
    requires !RecoveryRaises(o) && s.chain.contract.Last?
    ensures Recover(s, o).begin == s.chain.contract.end + 1 <==> (s.chain.contract.end != 0 || s.begin == 1)
  {
  }

  // --- An empty contract ----------------------------------------------------------------------

  // With an empty contract every attempt is checked and the cursor is at its start, wherever that is.
  predicate EmptyInv(s: State) {
    && (MainPhase(s.phase) ==> s.begin >= 0)
    && (s.phase.InRound? ==> s.phase.cur >= 1)
    && (MainPhase(s.phase) && s.chain.contract.Empty? ==> Checked(s) && Cursor(s) == s.begin)
  }

  lemma StepEmpty(cfg: Config, s: State, e: Event)
    requires cfg.height >= 1 && EmptyInv(s) && Enabled(cfg, s, e)
    ensures EmptyInv(Step(cfg, s, e))
  {
    if e.Send? {
      SendEmpty(cfg, s, e.o);
    }
  }

  lemma SendEmpty(cfg: Config, s: State, o: Outcome)
    requires cfg.height >= 1 && EmptyInv(s) && Enabled(cfg, s, Send(o))
    ensures EmptyInv(Step(cfg, s, Send(o)))
  {
  }

  ghost predicate StillAtStart(s: State) {
    && (forall i :: 0 <= i < |s.log| ==> s.log[i].boot <= s.boots)
    && (MainPhase(s.phase) && s.chain.contract.Empty? ==>
          forall i :: 0 <= i < |s.log| && s.log[i].boot == s.boots ==>
            s.log[i].checked && !s.log[i].advanced && s.log[i].epoch.begin == s.begin >= 1)
  }

  lemma SendStillAtStart(cfg: Config, s: State, o: Outcome)
    requires cfg.height >= 1 && StillAtStart(s) && Enabled(cfg, s, Send(o))
    requires s.phase.InRound? ==> s.phase.cur >= 1 && (s.chain.contract.Empty? ==> Checked(s) && s.phase.cur == s.begin)
    ensures StillAtStart(Step(cfg, s, Send(o)))
  {
    var s' := Step(cfg, s, Send(o));
    if s.phase.InRound? {
      var l := Entry(cfg, s, o, Advances(s, o));
      assert s'.log == s.log + [l] && s'.boots == s.boots;
      if MainPhase(s'.phase) && s'.chain.contract.Empty? {
        assert s.chain.contract.Empty? && o.fate != Accepted && !Advances(s, o) && s'.begin == s.begin;
      }
    } else {
      assert MainPhase(s'.phase) ==> FirstDone(o) && s'.chain.contract.Last?;
    }
  }

  lemma StepStillAtStart(cfg: Config, s: State, e: Event)
    requires cfg.height >= 1 && EmptyInv(s) && StillAtStart(s) && Enabled(cfg, s, e)
    ensures StillAtStart(Step(cfg, s, e))
  {
    if e.Send? {
      SendStillAtStart(cfg, s, e.o);
    }
  }

  lemma {:induction false} RunStillAtStart(cfg: Config, s: State, es: seq<Event>)
    requires cfg.height >= 1 && EmptyInv(s) && StillAtStart(s) && Run(cfg, s, es)
    ensures EmptyInv(Exec(cfg, s, es)) && StillAtStart(Exec(cfg, s, es))
    decreases |es|
  {
    if es != [] {
      StepEmpty(cfg, s, es[0]);
      StepStillAtStart(cfg, s, es[0]);
      RunStillAtStart(cfg, Step(cfg, s, es[0]), es[1..]);
    }
  }

  // As long as the contract is empty, every attempt of this process waited for its receipt and
  // failed, all were for the same first epoch, and the cursor is still at its start.
  lemma EmptyContract(cfg: Config, chain: Chain, es: seq<Event>)
    requires cfg.height >= 1 && Run(cfg, Init(chain), es)
    ensures var s := Exec(cfg, Init(chain), es);
      MainPhase(s.phase) && s.chain.contract.Empty? ==>
        && Cursor(s) == s.begin
        && forall i :: 0 <= i < |s.log| && s.log[i].boot == s.boots ==>
             s.log[i].checked && !s.log[i].advanced && s.log[i].epoch.begin == s.begin
  {
    RunStillAtStart(cfg, Init(chain), es);
  }

  // --- The configured begin -------------------------------------------------------------------

  // While the contract is empty and a begin is configured, all is done from there.
  ghost predicate AtTicker(cfg: Config, s: State) {
    s.chain.contract.Empty? ==>
      && !s.phase.AwaitStart? && !s.phase.First?
      && (MainPhase(s.phase) ==> s.begin == cfg.tickerBegin)
      && forall i :: 0 <= i < |s.log| ==> s.log[i].epoch.begin == cfg.tickerBegin
  }

  lemma StepAtTicker(cfg: Config, s: State, e: Event)
    requires cfg.height >= 1 && cfg.tickerBegin >= 1 && EmptyInv(s) && AtTicker(cfg, s) && Enabled(cfg, s, e)
    ensures AtTicker(cfg, Step(cfg, s, e))
  {
    if e.Send? && s.phase.InRound? && Step(cfg, s, e).chain.contract.Empty? {
      assert Step(cfg, s, e).log == s.log + [Entry(cfg, s, e.o, Advances(s, e.o))];
    }
  }

  lemma {:induction false} RunAtTicker(cfg: Config, s: State, es: seq<Event>)
    requires cfg.height >= 1 && cfg.tickerBegin >= 1 && EmptyInv(s) && AtTicker(cfg, s) && Run(cfg, s, es)
    ensures AtTicker(cfg, Exec(cfg, s, es))
    decreases |es|
  {
    if es != [] {
      StepEmpty(cfg, s, es[0]);
      StepAtTicker(cfg, s, es[0]);
      RunAtTicker(cfg, Step(cfg, s, es[0]), es[1..]);
    }
  }

  // On every run, with a configured begin: as long as the contract is empty, every attempt of every
  // process begins exactly at the configured block.
  lemma FirstEpochIsConfigured(cfg: Config, chain: Chain, es: seq<Event>, i: nat)
    requires cfg.height >= 1 && cfg.tickerBegin >= 1 && Run(cfg, Init(chain), es)
    requires var s := Exec(cfg, Init(chain), es); s.chain.contract.Empty? && i < |s.log|
    ensures Exec(cfg, Init(chain), es).log[i].epoch
         == Epoch(cfg.tickerBegin, cfg.tickerBegin + cfg.height - 1)
  {
    RunAtTicker(cfg, Init(chain), es);
    RunHeights(cfg, Init(chain), es);
  }

  lemma {:induction false} RunHeights(cfg: Config, s: State, es: seq<Event>)
    requires Run(cfg, s, es) && HeightsOk(cfg, s)
    ensures HeightsOk(cfg, Exec(cfg, s, es))
    decreases |es|
  {
    if es != [] {
      if es[0].Send? {
        var advanced := if s.phase.First? then FirstDone(es[0].o) else Advances(s, es[0].o);
        assert Step(cfg, s, es[0]).log == s.log + [Entry(cfg, s, es[0].o, advanced)];
      }
      RunHeights(cfg, Step(cfg, s, es[0]), es[1..]);
    }
  }

  ghost predicate HeightsOk(cfg: Config, s: State) {
    && (s.phase.First? ==> s.phase.epoch.end - s.phase.epoch.begin + 1 == cfg.height)
    && forall i :: 0 <= i < |s.log| ==> s.log[i].epoch.end - s.log[i].epoch.begin + 1 == cfg.height
  }
}
