/** The epoch releaser as the program writes it (epoch_generator.py), proved to follow ReleaseMachine. */
module EpochGenerators {
  import opened Chunks
  import opened Wrappers
  import opened ReleaseMachine
  import opened ReleaseDrift
  import opened ReleaseSchedule

  // A transaction as it is handed over, and whether its receipt is waited for.
  datatype Tx = Tx(nonce: int, ep: Epoch, highGas: bool, checked: bool)

  function TxOf(l: Sent): Tx {
    Tx(l.nonce, l.epoch, l.highGas, l.checked)
  }

  function TxsOf(log: seq<Sent>): seq<Tx> {
    if log == [] then [] else TxsOf(log[..|log| - 1]) + [TxOf(log[|log| - 1])]
  }

  lemma TxsAppend(log: seq<Sent>, l: Sent)
    ensures TxsOf(log + [l]) == TxsOf(log) + [TxOf(l)]
  {
    assert (log + [l])[..|log|] == log;
  }

  // What a first-release attempt leaves behind, and one of the main loop.
  lemma FirstEffects(cfg: Config, s: State, o: Outcome)
    requires s.phase.First? && Enabled(cfg, s, Send(o))
    ensures var s' := Step(cfg, s, Send(o));
      && s'.chain == Settle(s.chain, s.phase.epoch, o.fate) && s'.counter == s.counter + 1
      && (s'.nonce, s'.force) == FirstNonce(s, o, s'.chain.account)
      && TxsOf(s'.log) == TxsOf(s.log) + [Tx(s.nonce, s.phase.epoch, s.force, true)]
  {
    TxsAppend(s.log, Entry(cfg, s, o, FirstDone(o)));
  }

  lemma MainEffects(cfg: Config, s: State, o: Outcome)
    requires s.phase.InRound? && Enabled(cfg, s, Send(o))
    ensures var s' := Step(cfg, s, Send(o));
      && s'.chain == Settle(s.chain, NextEpoch(cfg, s), o.fate) && s'.counter == s.counter + 1
      && TxsOf(s'.log) == TxsOf(s.log) + [Tx(s.nonce, NextEpoch(cfg, s), s.force, Checked(s))]
      && (Advances(s, o) ==> s'.nonce == s.nonce + 1 && s'.force == (if Checked(s) then false else s.force))
      && (!Advances(s, o) ==> s'.phase == if RecoveryRaises(o) then Down else Idle)
      && (!Advances(s, o) && RecoveryRaises(o) ==> s'.nonce == s.nonce && s'.force == s.force)
      && (!Advances(s, o) && !RecoveryRaises(o) ==>
            && s'.nonce == s'.chain.account && s'.force
            && s'.begin == if FetchEpoch(s'.chain.contract) != -1 then FetchEpoch(s'.chain.contract) else s.begin)
  {
    TxsAppend(s.log, Entry(cfg, s, o, Advances(s, o)));
  }

  /** The anchor chain: the contract, the account, and whatever happens to a transaction. */
  class Network {
    var chain: Chain
    ghost var txs: seq<Tx>

    constructor (chain: Chain)
      ensures this.chain == chain && txs == []
    {
      this.chain, txs := chain, [];
    }

    method Send(size: int, nonce: int, ep: Epoch, highGas: bool, checked: bool, first: bool) returns (o: Outcome)
      modifies this
      ensures MayHappen(size, old(chain), nonce, ep, checked, first, o)
      ensures chain == Settle(old(chain), ep, o.fate)
      ensures txs == old(txs) + [Tx(nonce, ep, highGas, checked)]
    {
      txs := txs + [Tx(nonce, ep, highGas, checked)];
      assert MayHappen(size, chain, nonce, ep, checked, first, Outcome(Discarded, OtherError, false, false));
      o :| MayHappen(size, chain, nonce, ep, checked, first, o);
      assert MayHappen(size, chain, nonce, ep, checked, first, o);
      assert CanSettle(size, chain, nonce, ep, o.fate);
      chain := Settle(chain, ep, o.fate);
    }
  }

  // Where the machine stands when the loop of a round arrives at its k-th chunk.
  ghost predicate AtChunk(cfg: Config, s: State, cs: seq<Chunk>, stop: int, k: nat)
    requires k <= |cs|
  {
    if k < |cs| && cs[k].end - cs[k].begin + 1 == cfg.height then s.phase == InRound(cs[k].begin, stop)
    else s.phase.Idle? && s.begin == if k < |cs| then cs[k].begin else stop + 1
  }

  // Having released the k-th chunk, the machine stands at the next one.
  lemma NextChunk(cfg: Config, s: State, cs: seq<Chunk>, start: int, stop: int, k: nat, o: Outcome)
    requires cfg.height >= 1 && k < |cs| && Regular(cs, start, stop, cfg.height)
    requires s.phase == InRound(cs[k].begin, stop) && cs[k].end - cs[k].begin + 1 == cfg.height
    requires Enabled(cfg, s, Send(o)) && Advances(s, o)
    ensures AtChunk(cfg, Step(cfg, s, Send(o)), cs, stop, k + 1)
  {
    if k + 1 < |cs| {
      RegularWithin(cs, start, stop, cfg.height, k + 1);
    }
  }

  // The effect of a round without faults, read off the history.
  lemma RoundEffect(cfg: Config, s0: State, before: seq<Event>, head: nat, sends: seq<Event>)
    requires cfg.height >= 1 && ReleaseMachine.Run(cfg, s0, before)
    requires ReleaseMachine.Run(cfg, s0, before + [Poll(Some(head))] + sends)
    requires Exec(cfg, s0, before).phase.Idle? && Exec(cfg, s0, before).begin >= 1
    requires FaultFree(sends) && forall e :: e in sends ==> e.Send?
    requires Exec(cfg, s0, before + [Poll(Some(head))] + sends).phase.Idle?
    ensures var begin, begin' := Exec(cfg, s0, before).begin, Exec(cfg, s0, before + [Poll(Some(head))] + sends).begin;
      var stop := head - cfg.offset;
      begin' == begin + EpochsUpTo(begin, cfg.height, stop) * cfg.height && stop - begin' + 1 < cfg.height
  {
    var es := [Poll(Some(head))] + sends;
    assert before + [Poll(Some(head))] + sends == before + es;
    RunSplit(cfg, s0, before, es);
    RoundResult(cfg, Exec(cfg, s0, before), head, sends);
  }

  datatype Result = Done | Raised

  // The head reads of a turn: one.
  lemma HeadsOfTurn(history: seq<Event>, head: Option<nat>, sends: seq<Event>)
    requires forall e :: e in sends ==> e.Send?
    ensures Heads(history + [Poll(head)] + sends) == Heads(history) + [head]
  {
    HeadsConcat(history, [Poll(head)]);
    HeadsConcat(history + [Poll(head)], sends);
    NoHeads(sends);
    assert [Poll(head)][1..] == [];
  }

  lemma HeadsUpTo(before: seq<Option<nat>>, heads: seq<Option<nat>>, i: nat)
    requires i <= |heads|
    ensures before + heads[..i] <= before + heads
    ensures i > 0 ==> before + heads[..i] == before + heads[..i - 1] + [heads[i - 1]]
  {
    assert before + heads == before + heads[..i] + heads[i..];
  }

  class EpochGenerator {
    const cfg: Config
    const net: Network
    var nonce: int
    var releaseCounter: nat
    var forceTx: bool

    // The machine's state, the state it started in and the events since.
    ghost var s: State
    ghost const s0: State
    ghost var history: seq<Event>

    ghost predicate Valid()
      reads this, net
    {
      && cfg.height >= 1
      && s0 == Init(s0.chain)
      && ReleaseMachine.Run(cfg, s0, history)
      && s == Exec(cfg, s0, history)
      && nonce == s.nonce && releaseCounter == s.counter && forceTx == s.force && net.chain == s.chain
      && net.txs == TxsOf(s.log)
    }

    constructor (cfg: Config, net: Network)
      requires cfg.height >= 1 && net.txs == []
      ensures Valid() && this.cfg == cfg && this.net == net && history == []
      ensures s == s0 == Init(net.chain)
    {
      this.cfg, this.net := cfg, net;
      nonce, releaseCounter, forceTx := -1, 0, false;
      s, s0, history := Init(net.chain), Init(net.chain), [];
    }

    // Record that event e has happened.
    ghost method Take(e: Event)
      requires ReleaseMachine.Run(cfg, s0, history) && s == Exec(cfg, s0, history) && Enabled(cfg, s, e)
      modifies this`s, this`history
      ensures ReleaseMachine.Run(cfg, s0, history) && s == Exec(cfg, s0, history)
      ensures s == Step(cfg, old(s), e) && history == old(history) + [e]
    {
      RunAppend(cfg, s0, history, e);
      s, history := Step(cfg, s, e), history + [e];
    }

    // The same for an attempt, with what it leaves behind.
    ghost method TakeFirst(o: Outcome)
      requires ReleaseMachine.Run(cfg, s0, history) && s == Exec(cfg, s0, history)
      requires s.phase.First? && Enabled(cfg, s, Send(o))
      modifies this`s, this`history
      ensures ReleaseMachine.Run(cfg, s0, history) && s == Exec(cfg, s0, history)
      ensures history == old(history) + [Send(o)] && s == Step(cfg, old(s), Send(o))
      ensures s.chain == Settle(old(s).chain, old(s).phase.epoch, o.fate) && s.counter == old(s).counter + 1
      ensures (s.nonce, s.force) == FirstNonce(old(s), o, s.chain.account)
      ensures TxsOf(s.log) == TxsOf(old(s).log) + [Tx(old(s).nonce, old(s).phase.epoch, old(s).force, true)]
    {
      FirstEffects(cfg, s, o);
      Take(Send(o));
    }

    ghost method TakeMain(o: Outcome)
      requires ReleaseMachine.Run(cfg, s0, history) && s == Exec(cfg, s0, history)
      requires s.phase.InRound? && Enabled(cfg, s, Send(o))
      modifies this`s, this`history
      ensures ReleaseMachine.Run(cfg, s0, history) && s == Exec(cfg, s0, history)
      ensures history == old(history) + [Send(o)] && s == Step(cfg, old(s), Send(o))
      ensures s.chain == Settle(old(s).chain, NextEpoch(cfg, old(s)), o.fate) && s.counter == old(s).counter + 1
      ensures TxsOf(s.log)
           == TxsOf(old(s).log) + [Tx(old(s).nonce, NextEpoch(cfg, old(s)), old(s).force, Checked(old(s)))]
      ensures Advances(old(s), o) ==>
        s.nonce == old(s).nonce + 1 && s.force == (if Checked(old(s)) then false else old(s).force)
      ensures !Advances(old(s), o) ==> s.phase == if RecoveryRaises(o) then Down else Idle
      ensures !Advances(old(s), o) && RecoveryRaises(o) ==> s.nonce == old(s).nonce && s.force == old(s).force
      ensures !Advances(old(s), o) && !RecoveryRaises(o) ==>
        && s.nonce == s.chain.account && s.force
        && s.begin == if FetchEpoch(s.chain.contract) != -1 then FetchEpoch(s.chain.contract) else old(s).begin
    {
      MainEffects(cfg, s, o);
      Take(Send(o));
    }

    // `_fetch_epoch_from_contract`
    method FetchEpochFromContract() returns (begin: int)
      ensures begin == match net.chain.contract
                       case Last(end) => if end != 0 then end + 1 else -1
                       case Empty => -1
    {
      var lastEnd := if net.chain.contract.Last? then net.chain.contract.end else 0;
      if lastEnd != 0 {
        return lastEnd + 1;
      } else {
        return -1;
      }
    }

    // `_reset_nonce`: an account nonce of 0 is not taken over.
    method ResetNonce()
      modifies this`nonce
      ensures nonce == if net.chain.account != 0 then net.chain.account else old(nonce)
    {
      var correctNonce := net.chain.account;
      if correctNonce != 0 {
        nonce := correctNonce;
      }
    }

    // setup() and the start of run(); raises says that a read of the nonce or of the last epoch
    // raises, which ends the process.
    method Start(raises: bool) returns (begin: int, crashed: bool)
      requires Valid()
      modifies this
      ensures Valid() && history == old(history) + [if raises then StartFails else Restart] && crashed == raises
      ensures !crashed ==> begin == match net.chain.contract
                                    case Last(end) => if end != 0 then end + 1 else cfg.tickerBegin
                                    case Empty => cfg.tickerBegin
      ensures !crashed ==> nonce == net.chain.account && releaseCounter == 0 && !forceTx
      ensures !crashed ==> begin == s.begin && s.phase == if cfg.firstRelease && begin == 0 then AwaitStart else Idle
      ensures crashed ==> s.phase.Down?
    {
      nonce, releaseCounter, forceTx := net.chain.account, 0, false;
      begin, crashed := 0, raises;
      if raises {
        Take(StartFails);
        return;
      }
      var lastContractEpoch := FetchEpochFromContract();
      if lastContractEpoch != -1 {
        begin := lastContractEpoch;
      } else {
        begin := cfg.tickerBegin;
      }
      Take(Restart);
    }

    // The body of `_release_epoch_with_retry`: one send and what follows from it.
    method AttemptFirst(ep: Epoch) returns (r: Result, o: Outcome)
      requires nonce == s.nonce && forceTx == s.force
      modifies this`nonce, this`releaseCounter, this`forceTx, net
      ensures MayHappen(cfg.size, old(net.chain), old(nonce), ep, true, true, o)
      ensures net.chain == Settle(old(net.chain), ep, o.fate)
      ensures net.txs == old(net.txs) + [Tx(old(nonce), ep, old(forceTx), true)]
      ensures releaseCounter == old(releaseCounter) + 1
      ensures o.fault == NoFault ==> nonce == old(nonce) + 1 && !forceTx
      ensures (o.fault == NonceCollision || o.fault == TimeExhausted) && !o.innerFault ==>
        forceTx && nonce == if net.chain.account != 0 then net.chain.account else old(nonce)
      ensures o.fault == Underpriced || o.fault == OtherError || (o.fault != NoFault && o.innerFault) ==>
        nonce == old(nonce) && forceTx == old(forceTx)
      ensures r == Done <==> o.fault == Underpriced || (o.fault == NoFault && o.fate == Accepted)
    {
      releaseCounter := releaseCounter + 1;
      o := net.Send(cfg.size, nonce, ep, forceTx, true, true);
      match o.fault {
        case NoFault =>
          nonce := nonce + 1;
          forceTx := false;
          r := if o.fate == Accepted then Done else Raised;
        case NonceCollision =>
          if !o.innerFault {
            ResetNonce();
            forceTx := true;
          }
          r := Raised;
        case TimeExhausted =>
          if !o.innerFault {
            ResetNonce();
            forceTx := true;
          }
          r := Raised;
        case Underpriced =>
          r := Done;  // no further retry: it has been included
        case OtherError =>
          r := Raised;
      }
    }

    // One try of `_release_epoch_with_retry`.
    method TryFirst(ep: Epoch) returns (r: Result, ghost o: Outcome)
      requires Valid() && s.phase.First? && s.phase.epoch == ep
      modifies this, net
      ensures Valid() && history == old(history) + [Send(o)]
      ensures r == Done ==> s.phase.Idle? && s.begin == ep.end + 1 > 0 && net.chain.contract == Last(ep.end)
      ensures r == Raised ==>
        s.phase == if old(s).phase.tries + 1 >= cfg.retries then Down else First(ep, old(s).phase.tries + 1)
    {
      var outcome;
      r, outcome := AttemptFirst(ep);
      o := outcome;
      TakeFirst(outcome);
    }

    // `_release_epoch_with_retry`: try until it works or the configured number of tries is used up.
    method ReleaseEpochWithRetry(ep: Epoch) returns (r: Result, ghost sends: seq<Event>)
      requires Valid() && s.phase == First(ep, 0)
      modifies this, net
      ensures Valid() && history == old(history) + sends && (forall e :: e in sends ==> e.Send?)
      ensures 1 <= |sends| <= if cfg.retries < 1 then 1 else cfg.retries
      ensures r == Done ==> s.phase.Idle? && s.begin == ep.end + 1 > 0 && net.chain.contract == Last(ep.end)
      ensures r == Raised ==> s.phase.Down?
    {
      ghost var o: Outcome;
      r, o := TryFirst(ep);
      sends := [Send(o)];
      var attempt := 1;
      while r == Raised && attempt < cfg.retries
        invariant Valid() && history == old(history) + sends && |sends| == attempt
        invariant forall e :: e in sends ==> e.Send?
        invariant attempt >= 1 && (attempt == 1 || attempt <= cfg.retries)
        invariant r == Done ==> s.phase.Idle? && s.begin == ep.end + 1 > 0 && net.chain.contract == Last(ep.end)
        invariant r == Raised ==> s.phase == if attempt >= cfg.retries then Down else First(ep, attempt)
        decreases cfg.retries - attempt
      {
        r, o := TryFirst(ep);
        sends := sends + [Send(o)];
        attempt := attempt + 1;
      }
    }

    // `_wait_and_release_first_epoch`: 0 when the start time has passed or the release failed; a
    // failing head read (None) ends the process as well.
    method WaitAndReleaseFirstEpoch(startPassed: bool, head: Option<nat>) returns (begin: int, ghost sends: seq<Event>)
      requires Valid() && s.phase.AwaitStart?
      modifies this, net
      ensures Valid() && history == old(history) + [if startPassed then StartPassed else FirstHead(head)] + sends
      ensures forall e :: e in sends ==> e.Send?
      ensures begin == 0 ==> s.phase.Down?
      ensures begin != 0 ==>
        && !startPassed && head.Some?
        && s.phase.Idle? && begin == s.begin == head.value - cfg.offset + 1
        && begin > 0 && net.chain.contract == Last(begin - 1)
    {
      sends, begin := [], 0;
      if startPassed {
        Take(StartPassed);
        return;
      }
      Take(FirstHead(head));
      if head.None? {
        return;
      }
      var end := head.value - cfg.offset;
      var r;
      r, sends := ReleaseEpochWithRetry(Epoch(end - cfg.height + 1, end));
      if r == Done {
        begin := end + 1;
      }
    }

    // Re-read nonce and last epoch after a failure and force the next attempt.
    method Resync(beginBlock: int) returns (begin: int)
      modifies this`nonce, this`forceTx
      ensures nonce == net.chain.account && forceTx
      ensures begin == if FetchEpoch(net.chain.contract) != -1 then FetchEpoch(net.chain.contract) else beginBlock
    {
      nonce := net.chain.account;
      var lastContractEpoch := FetchEpochFromContract();
      begin := beginBlock;
      if lastContractEpoch != -1 {
        begin := lastContractEpoch;
      }
      forceTx := true;
    }

    // The try block for one chunk: which way it is sent, what is done with its receipt. more tells
    // the round to go on, handle that the exception handler takes over.
    method TrySend(beginBlock: int, ep: Epoch) returns (o: Outcome, begin: int, more: bool, handle: bool)
      modifies this`nonce, this`releaseCounter, this`forceTx, net
      ensures var checked := old(releaseCounter) % 10 == 0 || old(forceTx);
        && MayHappen(cfg.size, old(net.chain), old(nonce), ep, checked, false, o)
        && net.chain == Settle(old(net.chain), ep, o.fate)
        && net.txs == old(net.txs) + [Tx(old(nonce), ep, old(forceTx), checked)]
        && releaseCounter == old(releaseCounter) + 1
        && more == (o.fault == NoFault && (checked ==> o.fate == Accepted))
        && handle == (o.fault != NoFault || (checked && o.fate != Accepted && o.innerFault))
        && (more ==> nonce == old(nonce) && forceTx == (if checked then false else old(forceTx)))
      ensures handle ==> nonce == old(nonce) && forceTx == old(forceTx)
      ensures more || handle ==> begin == beginBlock
      ensures !more && !handle ==> nonce == net.chain.account && forceTx
      ensures !more && !handle ==>
        begin == if FetchEpoch(net.chain.contract) != -1 then FetchEpoch(net.chain.contract) else beginBlock
    {
      begin, more, handle := beginBlock, true, false;
      if releaseCounter % CHECK_EVERY == 0 || forceTx {
        releaseCounter := releaseCounter + 1;
        o := net.Send(cfg.size, nonce, ep, forceTx, true, false);
        if o.fault != NoFault {
          handle, more := true, false;
        } else if o.fate != Accepted {  // receipt status other than 1
          more := false;
          if o.innerFault {
            handle := true;
          } else {
            begin := Resync(begin);
          }
        } else {
          forceTx := false;
        }
      } else {
        releaseCounter := releaseCounter + 1;
        o := net.Send(cfg.size, nonce, ep, false, false, false);
        if o.fault != NoFault {
          handle, more := true, false;
        }
      }
    }

    // The release of one chunk of the main loop. `more` tells the round to go on; when it is false
    // the round ends with the cursor at `begin`, or the process with it (crashed).
    method ReleaseChunk(beginBlock: int, ep: Epoch) returns (more: bool, begin: int, crashed: bool, ghost o: Outcome)
      requires Valid() && s.phase.InRound? && s.begin == beginBlock && NextEpoch(cfg, s) == ep
      modifies this, net
      ensures Valid() && history == old(history) + [Send(o)]
      ensures Enabled(cfg, old(s), Send(o)) && s == Step(cfg, old(s), Send(o))
      ensures more == Advances(old(s), o)
      ensures more ==> begin == beginBlock && !crashed
      ensures !more ==> crashed == s.phase.Down? && (!crashed ==> s.phase.Idle? && s.begin == begin)
    {
      var outcome, handle;
      crashed := false;
      outcome, begin, more, handle := TrySend(beginBlock, ep);
      if handle {  // the exception handler
        if outcome.outerFault {
          crashed := true;
        } else {
          begin := Resync(begin);
        }
      } else if more {
        nonce := nonce + 1;
      }
      o := outcome;
      TakeMain(outcome);
    }

    // One round of the main loop: release the chunks of beginBlock..stop one after the other.
    method Round(beginBlock: int, head: nat) returns (begin: int, crashed: bool, ghost sends: seq<Event>)
      requires Valid() && s.phase.Idle? && s.begin == beginBlock != 0
      requires head - cfg.offset - beginBlock + 1 >= cfg.height
      modifies this, net
      ensures Valid() && history == old(history) + [Poll(Some(head))] + sends
      ensures forall e :: e in sends ==> e.Send?
      ensures if crashed then s.phase.Down? else s.phase.Idle? && s.begin == begin
    {
      var stop := head - cfg.offset;
      Take(Poll(Some(head)));
      var cs := Cut(beginBlock, stop, cfg.height);
      sends, crashed, begin := [], false, beginBlock;
      var k := 0;
      while k < |cs|
        invariant Valid() && 0 <= k <= |cs| && !crashed
        invariant history == old(history) + [Poll(Some(head))] + sends && forall e :: e in sends ==> e.Send?
        invariant AtChunk(cfg, s, cs, stop, k)
        invariant s.begin == beginBlock == begin || s.phase.Idle?
        decreases |cs| - k
      {
        if cs[k].end - cs[k].begin + 1 < cfg.height {
          begin := cs[k].begin;  // too short: wait for more blocks
          return;
        }
        var more;
        ghost var o;
        ghost var before := s;
        more, begin, crashed, o := ReleaseChunk(begin, Epoch(cs[k].begin, cs[k].end));
        sends := sends + [Send(o)];
        if !more {
          return;
        }
        NextChunk(cfg, before, cs, beginBlock, stop, k, o);
        k := k + 1;
      }
      begin := stop + 1;
    }

    // The body of the main loop for one head read; a failing read (None) is skipped. Without a
    // fault the cursor moves by all whole epochs up to the offset head.
    method PollOnce(beginBlock: int, head: Option<nat>) returns (begin: int, crashed: bool, ghost sends: seq<Event>)
      requires Valid() && s.phase.Idle? && s.begin == beginBlock
      modifies this, net
      ensures Valid() && history == old(history) + [Poll(head)] + sends
      ensures forall e :: e in sends ==> e.Send?
      ensures if crashed then s.phase.Down? else s.phase.Idle? && s.begin == begin
      ensures head.None? ==> begin == beginBlock && !crashed
      ensures head.Some? && beginBlock == 0 ==> begin == head.value && !crashed
      ensures head.Some? && beginBlock >= 1 && FaultFree(sends) && !crashed ==>
        var stop := head.value - cfg.offset;
        begin == beginBlock + EpochsUpTo(beginBlock, cfg.height, stop) * cfg.height && stop - begin + 1 < cfg.height
    {
      sends, crashed, begin := [], false, beginBlock;
      if head.None? {
        Take(Poll(head));
      } else if beginBlock == 0 {
        Take(Poll(head));
        begin := head.value;
      } else if head.value - cfg.offset - beginBlock + 1 < cfg.height {
        Take(Poll(head));
      } else {
        begin, crashed, sends := Round(beginBlock, head.value);
      }
      assert history == old(history) + [Poll(head)] + sends;
      if head.Some? && beginBlock >= 1 && FaultFree(sends) && !crashed {
        RoundEffect(cfg, s0, old(history), head.value, sends);
      }
    }

    // run() from a start of the process on, up to its main loop.
    method Begin(raises: bool, startPassed: bool, firstHead: Option<nat>) returns (begin: int, crashed: bool)
      requires Valid()
      modifies this, net
      ensures Valid() && old(history) + [if raises then StartFails else Restart] <= history
      ensures raises ==> crashed
      ensures if crashed then s.phase.Down? else s.phase.Idle? && s.begin == begin
      ensures Heads(history) == Heads(old(history))
    {
      begin, crashed := Start(raises);
      HeadsConcat(old(history), [if raises then StartFails else Restart]);
      if !crashed && cfg.firstRelease && begin == 0 {
        ghost var h := history;
        ghost var sends;
        begin, sends := WaitAndReleaseFirstEpoch(startPassed, firstHead);
        crashed := begin == 0;  // unable to release the first epoch
        ghost var first := [if startPassed then StartPassed else FirstHead(firstHead)];
        HeadsConcat(h, first);
        HeadsConcat(h + first, sends);
        NoHeads(sends);
      }
    }

    // One turn of the main loop, for one head read.
    method Turn(begin0: int, head: Option<nat>) returns (begin: int, crashed: bool)
      requires Valid() && s.phase.Idle? && s.begin == begin0
      modifies this, net
      ensures Valid() && old(history) <= history && Heads(history) == Heads(old(history)) + [head]
      ensures if crashed then s.phase.Down? else s.phase.Idle? && s.begin == begin
    {
      ghost var h := history;
      ghost var sends;
      begin, crashed, sends := PollOnce(begin0, head);
      HeadsOfTurn(h, head, sends);
    }

    // The main loop, for the head reads it gets to see.
    method Loop(begin0: int, heads: seq<Option<nat>>) returns (begin: int, crashed: bool)
      requires Valid() && s.phase.Idle? && s.begin == begin0
      modifies this, net
      ensures Valid() && old(history) <= history
      ensures if crashed then s.phase.Down? else s.phase.Idle? && s.begin == begin
      ensures Heads(history) <= Heads(old(history)) + heads
      ensures !crashed ==> Heads(history) == Heads(old(history)) + heads
    {
      begin, crashed := begin0, false;
      ghost var before := Heads(history);
      var i := 0;
      HeadsUpTo(before, heads, 0);
      while i < |heads| && !crashed
        invariant Valid() && old(history) <= history
        invariant if crashed then s.phase.Down? else s.phase.Idle? && s.begin == begin
        invariant 0 <= i <= |heads| && Heads(history) == before + heads[..i] <= before + heads
        decreases |heads| - i
      {
        begin, crashed := Turn(begin, heads[i]);
        HeadsUpTo(before, heads, i + 1);
        i := i + 1;
      }
      assert i == |heads| ==> heads[..i] == heads;
    }

    // run() from a start of the process on, for the head reads it gets to see. Whatever happens to
    // its transactions, at the end its cursor is 0, h, ..., 9h blocks ahead of the contract.
    method Run(raises: bool, startPassed: bool, firstHead: Option<nat>, heads: seq<Option<nat>>)
      returns (begin: int, crashed: bool)
      requires Valid()
      modifies this, net
      ensures Valid() && old(history) + [if raises then StartFails else Restart] <= history
      ensures if crashed then s.phase.Down? else s.phase.Idle? && s.begin == begin
      ensures Heads(history) <= Heads(old(history)) + heads
      ensures !crashed ==> Heads(history) == Heads(old(history)) + heads
      ensures !crashed && DriftSafe(cfg, s0.chain.contract) && net.chain.contract.Last? ==>
        LagAtMost(begin - (net.chain.contract.end + 1), cfg.height, if forceTx then 0 else 9)
    {
      begin, crashed := Begin(raises, startPassed, firstHead);
      if crashed {
        return;
      }
      begin, crashed := Loop(begin, heads);
      if DriftSafe(cfg, s0.chain.contract) {
        BoundedDrift(cfg, s0.chain, history);
      }
    }
  }
}
