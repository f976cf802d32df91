/** The releaser's local nonce against the account nonce, under nonce-ordered mining. */
module ReleaseNonce {
  import opened Wrappers
  import opened ReleaseMachine
  import opened ReleaseDrift

  predicate NonceInv(s: State) {
    var d := s.nonce - s.chain.account;
    && (s.phase.AwaitStart? ==> d == 0)
    && (s.phase.First? ==> -1 <= d <= 0)
    && (MainPhase(s.phase) ==> -1 <= d <= Slack(s))
  }

  lemma SendMainNonce(cfg: Config, s: State, o: Outcome)
    requires NonceInv(s) && s.phase.InRound? && Possible(cfg, s, o)
    ensures NonceInv(SendMain(cfg, s, o))
    ensures var s' := SendMain(cfg, s, o); !s'.phase.Down? ==> s'.nonce >= s'.chain.account
  {
    if Advances(s, o) && !Checked(s) {
      SinceNext(s.counter);
    }
  }

  lemma StepNonce(cfg: Config, s: State, e: Event)
    requires NonceInv(s) && Enabled(cfg, s, e)
    ensures NonceInv(Step(cfg, s, e))
  {
    if e.Send? && s.phase.InRound? {
      SendMainNonce(cfg, s, e.o);
    }
  }

  lemma {:induction false} RunNonce(cfg: Config, s: State, es: seq<Event>)
    requires NonceInv(s) && Run(cfg, s, es)
    ensures NonceInv(Exec(cfg, s, es))
    decreases |es|
  {
    if es != [] {
      StepNonce(cfg, s, es[0]);
      RunNonce(cfg, Step(cfg, s, es[0]), es[1..]);
    }
  }

  // On every run the local nonce is at most 9 ahead of the account nonce and at most 1 behind it,
  // not ahead at all during the first release or while an attempt is being forced.
  lemma NonceBand(cfg: Config, chain: Chain, es: seq<Event>)
    requires Run(cfg, Init(chain), es)
    ensures var s := Exec(cfg, Init(chain), es);
      !s.phase.Down? ==>
        -1 <= s.nonce - s.chain.account <= if s.phase.First? || s.force then 0 else 9
  {
    RunNonce(cfg, Init(chain), es);
  }

  // A first-release attempt that goes on to another try although its transaction was mined, the
  // call raised, and no reset followed.
  predicate Stale(cfg: Config, s: State, e: Event) {
    && s.phase.First? && e.Send? && s.phase.tries + 1 < cfg.retries
    && e.o.fate != Discarded
    && (e.o.fault == OtherError || ((e.o.fault == NonceCollision || e.o.fault == TimeExhausted) && e.o.innerFault))
  }

  ghost predicate EverStale(cfg: Config, s: State, es: seq<Event>)
    requires Run(cfg, s, es)
    decreases |es|
  {
    es != [] && (Stale(cfg, s, es[0]) || EverStale(cfg, Step(cfg, s, es[0]), es[1..]))
  }

  // The local nonce is never behind the account nonce while the process runs, from s on.
  ghost predicate NeverBehind(cfg: Config, s: State, es: seq<Event>)
    requires Run(cfg, s, es)
    decreases |es|
  {
    && (!s.phase.Down? ==> s.nonce >= s.chain.account)
    && (es != [] ==> NeverBehind(cfg, Step(cfg, s, es[0]), es[1..]))
  }

  lemma StaleStep(cfg: Config, s: State, e: Event)
    requires NonceInv(s) && Enabled(cfg, s, e)
    requires !s.phase.Down? ==> s.nonce >= s.chain.account
    ensures var s' := Step(cfg, s, e); (!s'.phase.Down? && s'.nonce < s'.chain.account) <==> Stale(cfg, s, e)
  {
    if e.Send? && s.phase.InRound? {
      SendMainNonce(cfg, s, e.o);
    }
  }

  // Exactly when the band is 0..9: a run lets the local nonce fall behind the account nonce if and
  // only if it contains a stale first-release attempt.
  lemma {:induction false} NonceBandExact(cfg: Config, s: State, es: seq<Event>)
    requires NonceInv(s) && Run(cfg, s, es)
    requires !s.phase.Down? ==> s.nonce >= s.chain.account
    ensures NeverBehind(cfg, s, es) <==> !EverStale(cfg, s, es)
    decreases |es|
  {
    if es != [] {
      var s' := Step(cfg, s, es[0]);
      StepNonce(cfg, s, es[0]);
      StaleStep(cfg, s, es[0]);
      if !Stale(cfg, s, es[0]) {
        NonceBandExact(cfg, s', es[1..]);
      }
    }
  }

  // Two events in a row.
  lemma RunTwo(cfg: Config, s: State, s1: State, s2: State, a: Event, b: Event)
    requires Enabled(cfg, s, a) && s1 == Step(cfg, s, a)
    requires Enabled(cfg, s1, b) && s2 == Step(cfg, s1, b)
    ensures Run(cfg, s, [a, b]) && Exec(cfg, s, [a, b]) == s2
  {
    assert [a, b][1..] == [b] && [b][1..] == [];
    assert Run(cfg, s2, []) && Exec(cfg, s2, []) == s2;
    assert Run(cfg, s1, [b]) && Exec(cfg, s1, [b]) == s2;
  }

  // The process starts on an empty contract and reads its first head.
  lemma FirstReleaseBegins(cfg: Config)
    requires cfg == Config(10, 2, 10, 5, 0, true)
    ensures Run(cfg, Init(Chain(Empty, 7)), [Restart, FirstHead(Some(111))])
    ensures Exec(cfg, Init(Chain(Empty, 7)), [Restart, FirstHead(Some(111))])
         == State(Chain(Empty, 7), First(Epoch(100, 109), 0), 0, 7, 0, false, 1, [])
  {
    var s0 := Init(Chain(Empty, 7));
    var s1 := Step(cfg, s0, Restart);
    RunTwo(cfg, s0, s1, Step(cfg, s1, FirstHead(Some(111))), Restart, FirstHead(Some(111)));
  }

  // The first send is mined but its receipt is lost; the retry is refused as underpriced.
  lemma LostThenRefused(cfg: Config, s: State, lost: Event, refused: Event)
    requires cfg == Config(10, 2, 10, 5, 0, true)
    requires s == State(Chain(Empty, 7), First(Epoch(100, 109), 0), 0, 7, 0, false, 1, [])
    requires lost == Send(Outcome(Accepted, OtherError, false, false))
    requires refused == Send(Outcome(Discarded, Underpriced, false, false))
    ensures Run(cfg, s, [lost, refused])
    ensures var s' := Exec(cfg, s, [lost, refused]);
      s'.phase.Idle? && s'.chain == Chain(Last(109), 8) && s'.begin == 110 && s'.nonce == 7
  {
    var s1 := SendFirst(cfg, s, lost.o);
    assert s1.phase == First(Epoch(100, 109), 1) && s1.nonce == 7 && s1.chain == Chain(Last(109), 8);
    RunTwo(cfg, s, s1, SendFirst(cfg, s1, refused.o), lost, refused);
  }

  // The band really reaches -1, also in the main loop: the releaser goes on with a used nonce.
  lemma BehindInMainLoop()
    ensures var cfg := Config(10, 2, 10, 5, 0, true);
      var es := [Restart, FirstHead(Some(111))] + [Send(Outcome(Accepted, OtherError, false, false)),
                                                   Send(Outcome(Discarded, Underpriced, false, false))];
      && Run(cfg, Init(Chain(Empty, 7)), es)
      && var s := Exec(cfg, Init(Chain(Empty, 7)), es);
         s.phase.Idle? && s.chain == Chain(Last(109), 8) && s.begin == 110 && s.nonce == 7
  {
    var cfg := Config(10, 2, 10, 5, 0, true);
    var s0 := Init(Chain(Empty, 7));
    var lost := Send(Outcome(Accepted, OtherError, false, false));
    var refused := Send(Outcome(Discarded, Underpriced, false, false));
    FirstReleaseBegins(cfg);
    LostThenRefused(cfg, Exec(cfg, s0, [Restart, FirstHead(Some(111))]), lost, refused);
    RunConcat(cfg, s0, [Restart, FirstHead(Some(111))], [lost, refused]);
  }
}
