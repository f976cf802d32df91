/** The drift bounds are the real ones: where they fail, and that they are reached. */
module ReleaseDriftExact {
  import opened Arith
  import opened Wrappers
  import opened ReleaseMachine
  import opened ReleaseDrift

  // --- Starts from which the bound fails ------------------------------------------------------

  // With a contract that ends at block 0 and a cursor past block 1, one raised attempt leaves the
  // releaser forcing attempts from a block the contract does not accept.
  lemma FailOnce(cfg: Config, s0: State, es: seq<Event>) returns (es': seq<Event>)
    requires cfg.height >= 1 && Run(cfg, s0, es)
    requires var s := Exec(cfg, s0, es); s.phase.Idle? && s.chain.contract == Last(0) && s.begin >= 2
    ensures Run(cfg, s0, es')
    ensures var s' := Exec(cfg, s0, es');
      s'.phase.Idle? && s'.force && s'.chain.contract == Last(0) && s'.begin == Exec(cfg, s0, es).begin
  {
    var s := Exec(cfg, s0, es);
    var enough := s.begin + cfg.height - 1 + cfg.offset;
    var head: nat := if enough < 0 then 0 else enough;
    RunAppend(cfg, s0, es, Poll(Some(head)));
    RunAppend(cfg, s0, es + [Poll(Some(head))], Send(Outcome(Discarded, OtherError, false, false)));
    es' := es + [Poll(Some(head))] + [Send(Outcome(Discarded, OtherError, false, false))];
  }

  lemma NotOk(cfg: Config, s: State)
    requires s.phase.Idle? && s.force && s.chain.contract == Last(0) && s.begin >= 2
    ensures !DriftOk(cfg, s)
  {
    assert !IsLag(0, s.begin - 1, cfg.height);
  }

  // The contract ends at block 0 and the main loop begins elsewhere than at block 1.
  lemma LateBegin(cfg: Config, chain: Chain) returns (es: seq<Event>)
    requires cfg.height >= 1 && chain.contract == Last(0) && cfg.tickerBegin != 1
    requires cfg.tickerBegin != 0 || !cfg.firstRelease
    ensures Run(cfg, Init(chain), es) && !DriftOk(cfg, Exec(cfg, Init(chain), es))
  {
    var s0 := Init(chain);
    RunAppend(cfg, s0, [], Restart);
    es := [] + [Restart];
    if cfg.tickerBegin == 0 {
      RunAppend(cfg, s0, es, Poll(Some(2)));
      es := es + [Poll(Some(2))];
    }
    es := FailOnce(cfg, s0, es);
    NotOk(cfg, Exec(cfg, s0, es));
  }

  // The contract ends at block 0 and a first release is attempted.
  lemma FirstReleaseOff(cfg: Config, chain: Chain) returns (es: seq<Event>)
    requires cfg.height >= 1 && chain.contract == Last(0) && cfg.tickerBegin == 0 && cfg.firstRelease
    ensures Run(cfg, Init(chain), es) && !DriftOk(cfg, Exec(cfg, Init(chain), es))
  {
    var head: nat := if cfg.offset == 0 then 1 else 0;
    RunAppend(cfg, Init(chain), [], Restart);
    RunAppend(cfg, Init(chain), [] + [Restart], FirstHead(Some(head)));
    es := [] + [Restart] + [FirstHead(Some(head))];
  }

  // With epochs of one block, the first release can itself make the contract end at block 0; the
  // next lost attempt goes unnoticed and cannot be made up for.
  lemma GenesisEndReached(cfg: Config, chain: Chain) returns (es: seq<Event>)
    requires chain.contract.Empty? && !DriftSafe(cfg, chain.contract)
    ensures Run(cfg, Init(chain), es)
    ensures var s := Exec(cfg, Init(chain), es);
      s.phase.Idle? && s.force && s.chain.contract == Last(0) && s.begin == 2
  {
    var s0 := Init(chain);
    RunAppend(cfg, s0, [], Restart);
    es := [] + [Restart];
    RunAppend(cfg, s0, es, FirstHead(Some(cfg.offset)));
    es := es + [FirstHead(Some(cfg.offset))];
    assert Exec(cfg, s0, es).phase == First(Epoch(0, 0), 0);
    RunAppend(cfg, s0, es, Send(Outcome(Accepted, NoFault, false, false)));
    es := es + [Send(Outcome(Accepted, NoFault, false, false))];
    RunAppend(cfg, s0, es, Poll(Some(cfg.offset + 1)));
    es := es + [Poll(Some(cfg.offset + 1))];
    assert Exec(cfg, s0, es).phase == InRound(1, 1);
    RunAppend(cfg, s0, es, Send(Outcome(Discarded, NoFault, false, false)));
    es := es + [Send(Outcome(Discarded, NoFault, false, false))];
    es := FailOnce(cfg, s0, es);
  }

  // The drift bound holds on every run if and only if the start is a safe one.
  lemma BoundedDriftExact(cfg: Config, chain: Chain)
    requires cfg.height >= 1
    ensures (forall es :: Run(cfg, Init(chain), es) ==> DriftOk(cfg, Exec(cfg, Init(chain), es)))
            <==> DriftSafe(cfg, chain.contract)
  {
    if DriftSafe(cfg, chain.contract) {
      forall es | Run(cfg, Init(chain), es) ensures DriftOk(cfg, Exec(cfg, Init(chain), es)) {
        BoundedDrift(cfg, chain, es);
      }
    } else if chain.contract.Empty? {
      var es := GenesisEndReached(cfg, chain);
      NotOk(cfg, Exec(cfg, Init(chain), es));
    } else if cfg.tickerBegin == 0 && cfg.firstRelease {
      var es := FirstReleaseOff(cfg, chain);
    } else {
      var es := LateBegin(cfg, chain);
    }
  }

  // In such a state no continuation of the process ever gets an epoch accepted: the cursor stays
  // where it is and every attempt is forced, until the process ends.
  predicate OffForGood(s: State, begin: int) {
    && s.chain.contract == Last(0) && begin >= 2
    && (s.phase.Down? || (MainPhase(s.phase) && s.force && s.begin == begin && Cursor(s) == begin))
  }

  lemma {:induction false} NeverRealigns(cfg: Config, s: State, es: seq<Event>, begin: int)
    requires cfg.height >= 1 && OffForGood(s, begin) && Run(cfg, s, es)
    requires forall e :: e in es ==> !e.Restart? && !e.StartFails?
    ensures OffForGood(Exec(cfg, s, es), begin)
    decreases |es|
  {
    if es != [] {
      assert es[0] in es;
      NeverRealigns(cfg, Step(cfg, s, es[0]), es[1..], begin);
    }
  }

  // --- The bounds are reached -----------------------------------------------------------------

  function Lost(k: nat): seq<Event> {
    if k == 0 then [] else [Send(Outcome(Discarded, NoFault, false, false))] + Lost(k - 1)
  }

  // k sends lost in a row between two receipt checks, none of them noticed.
  lemma {:induction false} Lose(cfg: Config, s: State, k: nat)
    requires cfg.height >= 1 && MainPhase(s.phase) && !s.force
    requires k > 0 ==> 1 <= s.counter % CHECK_EVERY <= CHECK_EVERY - k
    requires k > 0 ==> s.phase.InRound? && s.phase.cur + k * cfg.height - 1 <= s.phase.stop
    ensures Run(cfg, s, Lost(k))
    ensures var s' := Exec(cfg, s, Lost(k));
      MainPhase(s'.phase) && Cursor(s') == Cursor(s) + k * cfg.height && s'.nonce == s.nonce + k && s'.chain == s.chain
    decreases k
  {
    if k > 0 {
      var e := Send(Outcome(Discarded, NoFault, false, false));
      var s1 := Step(cfg, s, e);
      MulStep(k - 1, cfg.height);
      assert Lost(k)[1..] == Lost(k - 1) && Cursor(s1) == Cursor(s) + cfg.height;
      if k > 1 {
        MulMonotone(1, k - 1, cfg.height);
      }
      Lose(cfg, s1, k - 1);
    }
  }

  // From every contract that holds an epoch, some run has the cursor 9 epochs ahead of the contract
  // and the nonce 9 ahead of the account.
  lemma DriftIsTight(cfg: Config, chain: Chain) returns (es: seq<Event>)
    requires cfg.height == cfg.size >= 1 && chain.contract.Last? && chain.contract.end >= 1
    ensures Run(cfg, Init(chain), es)
    ensures var s := Exec(cfg, Init(chain), es);
      && MainPhase(s.phase) && s.chain.contract.Last?
      && Cursor(s) - (s.chain.contract.end + 1) == 9 * cfg.height
      && s.nonce - s.chain.account == 9
  {
    var s0 := Init(chain);
    var enough := chain.contract.end + CHECK_EVERY * cfg.height + cfg.offset;
    var head: nat := if enough < 0 then 0 else enough;
    RunAppend(cfg, s0, [], Restart);
    es := [] + [Restart];
    RunAppend(cfg, s0, es, Poll(Some(head)));
    es := es + [Poll(Some(head))];
    assert Exec(cfg, s0, es).phase == InRound(chain.contract.end + 1, head - cfg.offset);
    RunAppend(cfg, s0, es, Send(Outcome(Accepted, NoFault, false, false)));
    es := es + [Send(Outcome(Accepted, NoFault, false, false))];
    var s := Exec(cfg, s0, es);
    assert s.phase == InRound(chain.contract.end + cfg.height + 1, head - cfg.offset) && s.counter == 1;
    Lose(cfg, s, CHECK_EVERY - 1);
    RunConcat(cfg, s0, es, Lost(CHECK_EVERY - 1));
    es := es + Lost(CHECK_EVERY - 1);
  }
}
