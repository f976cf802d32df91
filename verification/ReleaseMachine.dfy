/**
 * The epoch releaser (epoch_generator.py) as a state machine over its atomic steps, together with
 * the contract and account it talks to. The environment chooses what happens to every send, which
 * reads fail, what head is seen and when the process is restarted.
 */
module ReleaseMachine {
  import opened Wrappers

  // Every tenth release attempt waits for its receipt (`_check_receipt_every`).
  const CHECK_EVERY: nat := 10

  // height, offset, retries, tickerBegin and firstRelease come from the settings; size is the
  // contract's EPOCH_SIZE. tickerBegin is 0 when unset, firstRelease says that
  // epoch_release_start_timestamp is set.
  datatype Config = Config(height: int, offset: int, size: int, retries: int, tickerBegin: nat, firstRelease: bool)

  datatype Epoch = Epoch(begin: int, end: int)

  // --- The contract and the account -----------------------------------------------------------

  datatype Contract = Empty | Last(end: nat)

  datatype Chain = Chain(contract: Contract, account: nat)

  // The contract accepts an epoch only of its own size and only directly after its last one.
  predicate Accepts(size: int, c: Contract, ep: Epoch) {
    && 0 <= ep.begin <= ep.end
    && ep.end - ep.begin + 1 == size
    && (c.Last? ==> ep.begin == c.end + 1)
  }

  // What becomes of a transaction before the next send or contract read.
  datatype Fate = Accepted | Reverted | Discarded

  // Only a transaction carrying the account nonce is mined.
  predicate CanSettle(size: int, chain: Chain, nonce: int, ep: Epoch, fate: Fate) {
    match fate
    case Accepted => nonce == chain.account && Accepts(size, chain.contract, ep)
    case Reverted => nonce == chain.account
    case Discarded => true
  }

  function Settle(chain: Chain, ep: Epoch, fate: Fate): Chain
    requires fate == Accepted ==> 0 <= ep.end
  {
    match fate
    case Accepted => Chain(Last(ep.end), chain.account + 1)
    case Reverted => chain.(account := chain.account + 1)
    case Discarded => chain
  }

  // The transaction with this nonce was mined and released this epoch.
  predicate Included(chain: Chain, nonce: int, ep: Epoch) {
    chain.account == nonce + 1 && chain.contract.Last? && chain.contract.end == ep.end
  }

  // `_fetch_epoch_from_contract`: an end block of 0 reads as "no epoch".
  function FetchEpoch(c: Contract): int {
    if c.Last? && c.end != 0 then c.end + 1 else -1
  }

  // --- The process ----------------------------------------------------------------------------

  // What the send call raises, if anything.
  datatype Fault = NoFault | NonceCollision | TimeExhausted | Underpriced | OtherError

  // innerFault and outerFault say that recovering (notifying, re-reading nonce and epoch) raises:
  // inside the try block, and inside the exception handler.
  datatype Outcome = Outcome(fate: Fate, fault: Fault, innerFault: bool, outerFault: bool)

  // What may come of one send. A receipt means the transaction was mined; "underpriced" during the
  // first release means that the earlier attempt was included.
  predicate MayHappen(size: int, chain: Chain, nonce: int, ep: Epoch, checked: bool, first: bool, o: Outcome) {
    && CanSettle(size, chain, nonce, ep, o.fate)
    && (checked && o.fault == NoFault ==> o.fate != Discarded)
    && (first && o.fault == Underpriced ==> o.fate == Discarded && Included(chain, nonce, ep))
  }

  datatype Phase =
    | Down                                // not running
    | AwaitStart                          // waiting for the start time of the first release
    | First(epoch: Epoch, tries: nat)     // retrying the first release
    | Idle                                // between rounds of the main loop
    | InRound(cur: int, stop: int)        // releasing cur.. up to stop, the offset head of this round

  // One release attempt: in which process run, on which path, for which epoch, up to which block
  // releasing was allowed, how it was sent and what came of it; resetFails says that re-reading the
  // nonce inside the try block raises.
  datatype Sent = Sent(boot: nat, first: bool, epoch: Epoch, limit: int, nonce: int, checked: bool,
                       highGas: bool, fate: Fate, fault: Fault, resetFails: bool, advanced: bool)

  // begin, nonce, counter and force are begin_block_epoch, _nonce, release_counter and _force_tx.
  datatype State = State(chain: Chain, phase: Phase, begin: int, nonce: int, counter: nat, force: bool,
                         boots: nat, log: seq<Sent>)

  datatype Event =
    | Restart                       // the process (re)starts, from whatever state it was in
    | StartFails                    // the process (re)starts and dies of a raising first read
    | StartPassed                   // the start time of the first release lies in the past
    | FirstHead(head: Option<nat>)  // head read of the first release, None when it raises
    | Poll(head: Option<nat>)       // head read of the main loop
    | Send(o: Outcome)              // one release attempt

  function Init(chain: Chain): State {
    State(chain, Down, 0, -1, 0, false, 0, [])
  }

  predicate MainPhase(p: Phase) {
    p.Idle? || p.InRound?
  }

  // Whether the next attempt waits for its receipt.
  predicate Checked(s: State) {
    s.phase.First? || s.counter % CHECK_EVERY == 0 || s.force
  }

  function NextEpoch(cfg: Config, s: State): Epoch
    requires s.phase.First? || s.phase.InRound?
  {
    if s.phase.First? then s.phase.epoch else Epoch(s.phase.cur, s.phase.cur + cfg.height - 1)
  }

  // The main loop goes on to the next epoch.
  predicate Advances(s: State, o: Outcome) {
    o.fault == NoFault && (Checked(s) ==> o.fate == Accepted)
  }

  // Recovery raises as well, which ends the process.
  predicate RecoveryRaises(o: Outcome) {
    o.outerFault && (o.fault != NoFault || o.innerFault)
  }

  // What the environment may do with the attempt that state s is about to make.
  predicate Possible(cfg: Config, s: State, o: Outcome)
    requires s.phase.First? || s.phase.InRound?
  {
    MayHappen(cfg.size, s.chain, s.nonce, NextEpoch(cfg, s), Checked(s), s.phase.First?, o)
  }

  predicate Enabled(cfg: Config, s: State, e: Event) {
    match e
    case Restart => true
    case StartFails => true
    case StartPassed => s.phase.AwaitStart?
    case FirstHead(_) => s.phase.AwaitStart?
    case Poll(_) => s.phase.Idle?
    case Send(o) => (s.phase.First? || s.phase.InRound?) && Possible(cfg, s, o)
  }

  function Entry(cfg: Config, s: State, o: Outcome, advanced: bool): Sent
    requires s.phase.First? || s.phase.InRound?
  {
    Sent(s.boots, s.phase.First?, NextEpoch(cfg, s), if s.phase.First? then s.phase.epoch.end else s.phase.stop,
         s.nonce, Checked(s), s.force, o.fate, o.fault, o.innerFault, advanced)
  }

  // setup() and the start of run().
  function Boot(cfg: Config, s: State): State {
    var fetched := FetchEpoch(s.chain.contract);
    var begin := if fetched != -1 then fetched else cfg.tickerBegin;
    s.(phase := if cfg.firstRelease && begin == 0 then AwaitStart else Idle, begin := begin,
       nonce := s.chain.account, counter := 0, force := false, boots := s.boots + 1)
  }

  // A main-loop head read: choose where to begin, wait for enough blocks, or start a round.
  function StartRound(cfg: Config, s: State, head: nat): State {
    if s.begin == 0 then s.(begin := head)
    else
      var stop := head - cfg.offset;
      if stop - s.begin + 1 >= cfg.height then s.(phase := InRound(s.begin, stop)) else s
  }

  // After a failed attempt of the main loop: nonce and cursor are read back from the chain.
  function Recover(s: State, o: Outcome): State {
    if RecoveryRaises(o) then s.(phase := Down)
    else
      var fetched := FetchEpoch(s.chain.contract);
      s.(phase := Idle, nonce := s.chain.account, begin := if fetched != -1 then fetched else s.begin, force := true)
  }

  function SendMain(cfg: Config, s: State, o: Outcome): State
    requires s.phase.InRound? && Possible(cfg, s, o)
  {
    var ep := NextEpoch(cfg, s);
    var ok := Advances(s, o);
    var s1 := s.(chain := Settle(s.chain, ep, o.fate), counter := s.counter + 1, log := s.log + [Entry(cfg, s, o, ok)]);
    if !ok then Recover(s1, o)
    else
      var s2 := s1.(nonce := s.nonce + 1, force := if Checked(s) then false else s.force);
      if ep.end + cfg.height <= s.phase.stop then s2.(phase := InRound(ep.end + 1, s.phase.stop))
      else s2.(phase := Idle, begin := ep.end + 1)
  }

  // Whether this attempt ends the first release successfully: status 1, or "replacement
  // transaction underpriced".
  predicate FirstDone(o: Outcome) {
    o.fault == Underpriced || (o.fault == NoFault && o.fate == Accepted)
  }

  // Nonce and force flag after a first-release attempt; the first-release path advances the nonce
  // before it looks at the receipt, and resets it only on a collision or a timeout. A reset is
  // skipped when the account nonce reads 0.
  function FirstNonce(s: State, o: Outcome, account: nat): (int, bool) {
    match o.fault
    case NoFault => (s.nonce + 1, false)
    case NonceCollision =>
      if o.innerFault then (s.nonce, s.force) else (if account != 0 then account else s.nonce, true)
    case TimeExhausted => if o.innerFault then (s.nonce, s.force) else (if account != 0 then account else s.nonce, true)
    case Underpriced => (s.nonce, s.force)
    case OtherError => (s.nonce, s.force)
  }

  function SendFirst(cfg: Config, s: State, o: Outcome): State
    requires s.phase.First? && Possible(cfg, s, o)
  {
    var ep := s.phase.epoch;
    var chain := Settle(s.chain, ep, o.fate);
    var (nonce, force) := FirstNonce(s, o, chain.account);
    var s1 := s.(chain := chain, counter := s.counter + 1, nonce := nonce, force := force,
                 log := s.log + [Entry(cfg, s, o, FirstDone(o))]);
    if FirstDone(o) then s1.(phase := Idle, begin := ep.end + 1)
    else if s.phase.tries + 1 >= cfg.retries then s1.(phase := Down)
    else s1.(phase := First(ep, s.phase.tries + 1))
  }

  function Step(cfg: Config, s: State, e: Event): State
    requires Enabled(cfg, s, e)
  {
    match e
    case Restart => Boot(cfg, s)
    case StartFails => s.(phase := Down, nonce := s.chain.account, counter := 0, force := false, boots := s.boots + 1)
    case StartPassed => s.(phase := Down)
    case FirstHead(head) =>
      if head.None? then s.(phase := Down)
      else var end := head.value - cfg.offset; s.(phase := First(Epoch(end - cfg.height + 1, end), 0))
    case Poll(head) => if head.None? then s else StartRound(cfg, s, head.value)
    case Send(o) => if s.phase.First? then SendFirst(cfg, s, o) else SendMain(cfg, s, o)
  }

  // What may become of an attempt of the main loop, written out: the chain takes only an epoch of its
  // size right behind its last one, mines only at the account's nonce, and a receipt exists only for
  // a mined transaction. Anything else may happen, and any call or recovery may raise.
  lemma MainOutcomes(cfg: Config, s: State, o: Outcome)
    requires s.phase.InRound? && cfg.height >= 1 && s.phase.cur >= 0
    ensures Enabled(cfg, s, Send(o)) <==>
      && (o.fate == Accepted ==>
            s.nonce == s.chain.account && cfg.height == cfg.size
            && (s.chain.contract.Last? ==> s.phase.cur == s.chain.contract.end + 1))
      && (o.fate == Reverted ==> s.nonce == s.chain.account)
      && (o.fault == NoFault && (s.force || s.counter % 10 == 0) ==> o.fate != Discarded)
  {
  }

  // --- Runs -----------------------------------------------------------------------------------

  // es can happen from s, one event after the other.
  ghost predicate Run(cfg: Config, s: State, es: seq<Event>)
    decreases |es|
  {
    es == [] || (Enabled(cfg, s, es[0]) && Run(cfg, Step(cfg, s, es[0]), es[1..]))
  }

  ghost function Exec(cfg: Config, s: State, es: seq<Event>): State
    requires Run(cfg, s, es)
    decreases |es|
  {
    if es == [] then s else Exec(cfg, Step(cfg, s, es[0]), es[1..])
  }

  lemma {:induction false} RunAppend(cfg: Config, s: State, es: seq<Event>, e: Event)
    requires Run(cfg, s, es) && Enabled(cfg, Exec(cfg, s, es), e)
    ensures Run(cfg, s, es + [e])
    ensures Exec(cfg, s, es + [e]) == Step(cfg, Exec(cfg, s, es), e)
    decreases |es|
  {
    if es == [] {
      assert [e][1..] == [];
      assert es + [e] == [e];
    } else {
      RunAppend(cfg, Step(cfg, s, es[0]), es[1..], e);
      assert (es + [e])[1..] == es[1..] + [e];
    }
  }

  lemma {:induction false} RunSplit(cfg: Config, s: State, a: seq<Event>, b: seq<Event>)
    requires Run(cfg, s, a) && Run(cfg, s, a + b)
    ensures Run(cfg, Exec(cfg, s, a), b)
    ensures Exec(cfg, s, a + b) == Exec(cfg, Exec(cfg, s, a), b)
    decreases |a|
  {
    if a == [] {
      assert a + b == b;
    } else {
      assert (a + b)[1..] == a[1..] + b;
      RunSplit(cfg, Step(cfg, s, a[0]), a[1..], b);
    }
  }

  lemma {:induction false} RunConcat(cfg: Config, s: State, a: seq<Event>, b: seq<Event>)
    requires Run(cfg, s, a) && Run(cfg, Exec(cfg, s, a), b)
    ensures Run(cfg, s, a + b) && Exec(cfg, s, a + b) == Exec(cfg, Exec(cfg, s, a), b)
    decreases |a|
  {
    if a == [] {
      assert a + b == b;
    } else {
      RunConcat(cfg, Step(cfg, s, a[0]), a[1..], b);
      assert (a + b)[1..] == a[1..] + b;
    }
  }
}
