/** Self-stabilisation: what becomes of any reachable state once the environment stops failing. */
module ReleaseRecovery {
  import opened Wrappers
  import opened ReleaseMachine
  import opened ReleaseDrift
  import opened ReleaseSchedule

  // The chain can take the attempt that is due.
  predicate Acceptable(cfg: Config, s: State)
    requires s.phase.InRound?
  {
    s.nonce == s.chain.account && Accepts(cfg.size, s.chain.contract, NextEpoch(cfg, s))
  }

  // The environment adds no fault of its own: a send that the chain can take is accepted and reported
  // back, and recovery goes through. Any other send may revert, vanish or raise, as it likes.
  predicate Healthy(cfg: Config, s: State, e: Event) {
    || e.Poll?
    || (e.Send? && s.phase.InRound? && !e.o.innerFault && !e.o.outerFault
        && (Acceptable(cfg, s) ==> e.o.fate == Accepted && e.o.fault == NoFault))
  }

  ghost predicate HealthyRun(cfg: Config, s: State, es: seq<Event>)
    decreases |es|
  {
    es == [] || (Enabled(cfg, s, es[0]) && Healthy(cfg, s, es[0]) && HealthyRun(cfg, Step(cfg, s, es[0]), es[1..]))
  }

  lemma {:induction false} HealthyRuns(cfg: Config, s: State, es: seq<Event>)
    requires HealthyRun(cfg, s, es)
    ensures Run(cfg, s, es)
    decreases |es|
  {
    if es != [] {
      HealthyRuns(cfg, Step(cfg, s, es[0]), es[1..]);
    }
  }

  function Sends(es: seq<Event>): nat {
    if es == [] then 0 else (if es[0].Send? then 1 else 0) + Sends(es[1..])
  }

  // The sends until one has waited for its receipt, that one included.
  function UntilCheck(s: State): (n: nat)
    ensures n >= 1 && (Checked(s) <==> n == 1 || s.phase.First?)
  {
    if s.force || s.counter % CHECK_EVERY == 0 then 1 else CHECK_EVERY - s.counter % CHECK_EVERY + 1
  }

  lemma FailureAligns(cfg: Config, s: State, o: Outcome)
    requires cfg.height == cfg.size >= 1 && DriftInv(cfg, s) && s.phase.InRound?
    requires Enabled(cfg, s, Send(o)) && Healthy(cfg, s, Send(o)) && !Advances(s, o)
    ensures Aligned(cfg, Step(cfg, s, Send(o)))
  {
    var s' := Step(cfg, s, Send(o));
    assert s'.phase.Idle? && s'.nonce == s'.chain.account;
  }

  lemma AcceptedAligns(cfg: Config, s: State, o: Outcome)
    requires cfg.height == cfg.size >= 1 && s.phase.InRound? && s.phase.cur >= 1
    requires Enabled(cfg, s, Send(o)) && Advances(s, o) && o.fate == Accepted
    ensures Aligned(cfg, Step(cfg, s, Send(o)))
  {
  }

  // A healthy send that is checked, or that fails, aligns the releaser; one that is neither brings the
  // next checked one closer.
  lemma CheckAligns(cfg: Config, s: State, o: Outcome)
    requires cfg.height == cfg.size >= 1 && DriftInv(cfg, s) && s.phase.InRound?
    requires Enabled(cfg, s, Send(o)) && Healthy(cfg, s, Send(o))
    ensures Checked(s) || !Advances(s, o) ==> Aligned(cfg, Step(cfg, s, Send(o)))
    ensures !Checked(s) && Advances(s, o) ==>
      var s' := Step(cfg, s, Send(o)); MainPhase(s'.phase) && UntilCheck(s') == UntilCheck(s) - 1
  {
    if !Advances(s, o) {
      FailureAligns(cfg, s, o);
    } else if Checked(s) {
      AcceptedAligns(cfg, s, o);
    }
  }

  // An aligned releaser stays so: its healthy sends are all accepted.
  lemma AlignedStays(cfg: Config, s: State, e: Event)
    requires Aligned(cfg, s) && Enabled(cfg, s, e) && Healthy(cfg, s, e)
    ensures Aligned(cfg, Step(cfg, s, e))
    ensures e.Send? ==> e.o.fate == Accepted && e.o.fault == NoFault
  {
  }

  lemma {:induction false} RunAligned(cfg: Config, s: State, es: seq<Event>)
    requires Aligned(cfg, s) && HealthyRun(cfg, s, es) && Run(cfg, s, es)
    ensures Aligned(cfg, Exec(cfg, s, es)) && FaultFree(es)
    decreases |es|
  {
    if es != [] {
      AlignedStays(cfg, s, es[0]);
      RunAligned(cfg, Step(cfg, s, es[0]), es[1..]);
    }
  }

  lemma {:induction false} RunAligns(cfg: Config, s: State, es: seq<Event>)
    requires cfg.height == cfg.size >= 1 && DriftInv(cfg, s) && MainPhase(s.phase)
    requires HealthyRun(cfg, s, es) && Run(cfg, s, es) && Sends(es) >= UntilCheck(s)
    ensures Aligned(cfg, Exec(cfg, s, es))
    decreases |es|
  {
    var e := es[0];
    var s1 := Step(cfg, s, e);
    StepDrift(cfg, s, e);
    if e.Poll? {
      assert UntilCheck(s1) == UntilCheck(s);
      RunAligns(cfg, s1, es[1..]);
    } else {
      CheckAligns(cfg, s, e.o);
      if Checked(s) || !Advances(s, e.o) {
        RunAligned(cfg, s1, es[1..]);
      } else {
        RunAligns(cfg, s1, es[1..]);
      }
    }
  }

  // The environment can always act so in a round, and a round is always to be had.
  lemma HealthyPossible(cfg: Config, s: State) returns (e: Event)
    requires cfg.height >= 1 && s.phase.InRound?
    ensures e.Send? && Enabled(cfg, s, e) && Healthy(cfg, s, e) && MainPhase(Step(cfg, s, e).phase)
  {
    var fate := if Acceptable(cfg, s) then Accepted else if s.nonce == s.chain.account then Reverted else Discarded;
    e := Send(Outcome(fate, if fate == Discarded && Checked(s) then TimeExhausted else NoFault, false, false));
  }

  lemma PollPossible(cfg: Config, s: State) returns (e: Event)
    requires cfg.height >= 1 && s.phase.Idle? && s.begin >= 0
    ensures e.Poll? && Enabled(cfg, s, e) && Healthy(cfg, s, e)
    ensures var s' := Step(cfg, s, e); if s.begin == 0 then s'.phase.Idle? && s'.begin >= 1 else s'.phase.InRound?
  {
    var enough := if s.begin == 0 then 1 else s.begin + cfg.height - 1 + cfg.offset;
    e := Poll(Some(if enough < 0 then 0 else enough));
  }

  // From every such state there is a healthy run with any number of sends.
  lemma {:induction false} HealingExists(cfg: Config, s: State, n: nat) returns (es: seq<Event>)
    requires cfg.height >= 1 && DriftInv(cfg, s) && MainPhase(s.phase)
    ensures HealthyRun(cfg, s, es) && Sends(es) >= n
    decreases n, if s.phase.InRound? then 0 else if s.begin == 0 then 2 else 1
  {
    if n == 0 {
      es := [];
    } else {
      var e;
      if s.phase.InRound? {
        e := HealthyPossible(cfg, s);
      } else {
        e := PollPossible(cfg, s);
      }
      StepDrift(cfg, s, e);
      var rest := HealingExists(cfg, Step(cfg, s, e), if e.Send? then n - 1 else n);
      es := [e] + rest;
      assert es[1..] == rest;
    }
  }

  // From every state of the main loop that any run reaches from a safe start, however far off cursor
  // and nonce are: once the environment stops failing, ten sends are enough to bring them in line
  // with contract and account. From then on all sends are accepted, and what is released depends
  // on the highest offset head alone.
  lemma SelfStabilises(cfg: Config, chain: Chain, es: seq<Event>, healing: seq<Event>, after: seq<Event>)
    requires cfg.height == cfg.size >= 1 && DriftSafe(cfg, chain.contract) && Run(cfg, Init(chain), es)
    requires var s := Exec(cfg, Init(chain), es);
      MainPhase(s.phase) && HealthyRun(cfg, s, healing) && Sends(healing) >= 10
    ensures var s := Exec(cfg, Init(chain), es);
      Run(cfg, s, healing) && Aligned(cfg, Exec(cfg, s, healing))
    ensures var s := Exec(cfg, Init(chain), es);
      var s1 := Exec(cfg, s, healing);
      s1.phase.Idle? && HealthyRun(cfg, s1, after) && Run(cfg, s1, after) && Exec(cfg, s1, after).phase.Idle? ==>
        var s2 := Exec(cfg, s1, after);
        var top := Top(cfg.offset, None, after);
        var n: int := if top.None? then 0 else EpochsUpTo(s1.begin, cfg.height, top.value);
        && n >= 0 && FaultFree(after) && Aligned(cfg, s2)
        && s2.begin == s1.begin + n * cfg.height
        && Epochs(s2.log) == Epochs(s1.log) + EpochList(s1.begin, cfg.height, n)
  {
    var s := Exec(cfg, Init(chain), es);
    RunDrift(cfg, Init(chain), es);
    HealthyRuns(cfg, s, healing);
    RunAligns(cfg, s, healing);
    var s1 := Exec(cfg, s, healing);
    if s1.phase.Idle? && HealthyRun(cfg, s1, after) && Run(cfg, s1, after) && Exec(cfg, s1, after).phase.Idle? {
      RunAligned(cfg, s1, after);
      ScheduleIndependence(cfg, s1, after);
    }
  }
}
