/** Fault-free runs: what is released does not depend on when the head is polled. */
module ReleaseSchedule {
  import opened Arith
  import opened Wrappers
  import opened ReleaseMachine
  import opened ReleaseDrift

  // Head reads may fail or return anything; every send is accepted and reported back.
  ghost predicate FaultFree(es: seq<Event>) {
    forall e :: e in es ==> e.Poll? || (e.Send? && e.o.fate == Accepted && e.o.fault == NoFault)
  }

  // The highest offset head among `top` and those read in es.
  function Top(offset: int, top: Option<int>, es: seq<Event>): Option<int>
    decreases |es|
  {
    if es == [] then top
    else Top(offset, Higher(offset, top, es[0]), es[1..])
  }

  function Higher(offset: int, top: Option<int>, e: Event): Option<int> {
    if e.Poll? && e.head.Some? && (top.None? || top.value < e.head.value - offset)
    then Some(e.head.value - offset)
    else top
  }

  // How many epochs of h blocks fit between begin and stop: max(0, floor((stop - begin + 1) / h)).
  function EpochsUpTo(begin: int, h: int, stop: int): int
    requires h >= 1
  {
    if stop < begin then 0 else (stop - begin + 1) / h
  }

  // The first n epochs from begin on.
  function EpochList(begin: int, h: int, n: nat): (r: seq<Epoch>) {
    if n == 0 then [] else EpochList(begin, h, n - 1) + [Epoch(begin + (n - 1) * h, begin + n * h - 1)]
  }

  function Epochs(log: seq<Sent>): (r: seq<Epoch>)
    ensures |r| == |log| && forall i :: 0 <= i < |log| ==> r[i] == log[i].epoch
  {
    if log == [] then [] else Epochs(log[..|log| - 1]) + [log[|log| - 1].epoch]
  }

  lemma EpochsAppend(log: seq<Sent>, l: Sent)
    ensures Epochs(log + [l]) == Epochs(log) + [l.epoch]
  {
  }

  lemma EpochListNext(begin: int, h: int, n: nat)
    ensures EpochList(begin, h, n + 1) == EpochList(begin, h, n) + [Epoch(begin + n * h, begin + n * h + h - 1)]
  {
    MulStep(n, h);
  }

  // --- The invariant --------------------------------------------------------------------------

  // n epochs have been released since the cursor stood at begin, and top is the highest offset
  // head seen since.
  ghost predicate Released(cfg: Config, s: State, begin: int, before: seq<Sent>, n: nat, top: Option<int>) {
    && begin >= 1
    && MainPhase(s.phase)
    && Cursor(s) == begin + n * cfg.height
    && Cursor(s) >= 1
    && Epochs(s.log) == Epochs(before) + EpochList(begin, cfg.height, n)
    && (n == 0 || (top.Some? && Cursor(s) <= top.value + 1))
    && (s.phase.Idle? && top.Some? ==> top.value < s.begin + cfg.height - 1)
    && (s.phase.InRound? ==> top == Some(s.phase.stop) && s.phase.cur + cfg.height - 1 <= s.phase.stop)
  }

  lemma ReleasedEpochs(cfg: Config, s: State, o: Outcome, begin: int, before: seq<Sent>, n: nat)
    requires s.phase.InRound? && s.phase.cur == begin + n * cfg.height
    requires Epochs(s.log) == Epochs(before) + EpochList(begin, cfg.height, n)
    ensures Epochs(s.log + [Entry(cfg, s, o, true)]) == Epochs(before) + EpochList(begin, cfg.height, n + 1)
  {
    EpochsAppend(s.log, Entry(cfg, s, o, true));
    EpochListNext(begin, cfg.height, n);
  }

  lemma ReleasedSend(cfg: Config, s: State, o: Outcome, begin: int, before: seq<Sent>, n: nat, top: Option<int>)
    requires cfg.height >= 1 && Released(cfg, s, begin, before, n, top)
    requires s.phase.InRound? && Possible(cfg, s, o) && o.fate == Accepted && o.fault == NoFault
    ensures Released(cfg, SendMain(cfg, s, o), begin, before, n + 1, top)
  {
    MulStep(n, cfg.height);
    ReleasedEpochs(cfg, s, o, begin, before, n);
    var s' := SendMain(cfg, s, o);
    assert Cursor(s') == s.phase.cur + cfg.height;
    assert s'.log == s.log + [Entry(cfg, s, o, true)];
  }

  lemma ReleasedPoll(cfg: Config, s: State, head: nat, begin: int, before: seq<Sent>, n: nat, top: Option<int>)
    requires cfg.height >= 1 && Released(cfg, s, begin, before, n, top) && s.phase.Idle?
    ensures Released(cfg, StartRound(cfg, s, head), begin, before, n, Higher(cfg.offset, top, Poll(Some(head))))
  {
  }

  lemma {:induction false} RunReleased(cfg: Config, s: State, es: seq<Event>,
                                       begin: int, before: seq<Sent>, n: nat, top: Option<int>) returns (n': nat)
    requires cfg.height >= 1 && Released(cfg, s, begin, before, n, top)
    requires Run(cfg, s, es) && FaultFree(es)
    ensures Released(cfg, Exec(cfg, s, es), begin, before, n', Top(cfg.offset, top, es))
    decreases |es|
  {
    if es == [] {
      n' := n;
    } else {
      var e := es[0];
      assert e in es;
      if e.Send? {
        ReleasedSend(cfg, s, e.o, begin, before, n, top);
        n' := RunReleased(cfg, Step(cfg, s, e), es[1..], begin, before, n + 1, top);
      } else {
        if e.head.Some? {
          ReleasedPoll(cfg, s, e.head.value, begin, before, n, top);
        }
        n' := RunReleased(cfg, Step(cfg, s, e), es[1..], begin, before, n, Higher(cfg.offset, top, e));
      }
    }
  }

  // Reaching the end of what fits pins down how many epochs were released.
  lemma CountIs(begin: int, h: int, stop: int, n: nat)
    requires h >= 1 && stop < begin + n * h + h - 1 && (n == 0 || begin + n * h <= stop + 1)
    ensures EpochsUpTo(begin, h, stop) == n
  {
    if stop >= begin {
      DivUnique(stop - begin + 1, h, n, stop - begin + 1 - n * h);
    } else if n > 0 {
      MulMonotone(1, n, h);
    }
  }

  // For heads observed in any order and of any length, a fault-free run that has come to rest has
  // released exactly max(0, floor((maxHead - offset - begin + 1) / h)) epochs: the first ones from
  // where it began, in order.
  lemma ScheduleIndependence(cfg: Config, s: State, es: seq<Event>)
    requires cfg.height >= 1 && s.phase.Idle? && s.begin >= 1
    requires Run(cfg, s, es) && FaultFree(es) && Exec(cfg, s, es).phase.Idle?
    ensures var s' := Exec(cfg, s, es);
      var top := Top(cfg.offset, None, es);
      var n: int := if top.None? then 0 else EpochsUpTo(s.begin, cfg.height, top.value);
      && n >= 0
      && s'.begin == s.begin + n * cfg.height
      && Epochs(s'.log) == Epochs(s.log) + EpochList(s.begin, cfg.height, n)
  {
    var n := RunReleased(cfg, s, es, s.begin, s.log, 0, None);
    var top := Top(cfg.offset, None, es);
    if top.Some? {
      CountIs(s.begin, cfg.height, top.value, n);
    }
  }

  // Two schedules with the same highest head release the same epochs, whatever else they saw; in
  // particular the same as a single poll at the highest head.
  lemma SameTopSameEpochs(cfg: Config, s: State, es: seq<Event>, es': seq<Event>)
    requires cfg.height >= 1 && s.phase.Idle? && s.begin >= 1
    requires Run(cfg, s, es) && FaultFree(es) && Exec(cfg, s, es).phase.Idle?
    requires Run(cfg, s, es') && FaultFree(es') && Exec(cfg, s, es').phase.Idle?
    requires Top(cfg.offset, None, es) == Top(cfg.offset, None, es')
    ensures Epochs(Exec(cfg, s, es).log) == Epochs(Exec(cfg, s, es').log)
    ensures Exec(cfg, s, es).begin == Exec(cfg, s, es').begin
  {
    ScheduleIndependence(cfg, s, es);
    ScheduleIndependence(cfg, s, es');
  }

  // One fault-free round moves the cursor by all whole epochs that fit and leaves fewer than
  // `height` blocks.
  lemma RoundResult(cfg: Config, s: State, head: nat, sends: seq<Event>)
    requires cfg.height >= 1 && s.phase.Idle? && s.begin >= 1
    requires Run(cfg, s, [Poll(Some(head))] + sends) && FaultFree(sends)
    requires Exec(cfg, s, [Poll(Some(head))] + sends).phase.Idle?
    requires forall e :: e in sends ==> e.Send?
    ensures var begin := Exec(cfg, s, [Poll(Some(head))] + sends).begin;
      var stop := head - cfg.offset;
      && begin == s.begin + EpochsUpTo(s.begin, cfg.height, stop) * cfg.height
      && stop - begin + 1 < cfg.height
  {
    var es := [Poll(Some(head))] + sends;
    assert es[1..] == sends;
    var n := RunReleased(cfg, s, es, s.begin, s.log, 0, None);
    TopOfSends(cfg.offset, Some(head - cfg.offset), sends);
    CountIs(s.begin, cfg.height, head - cfg.offset, n);
  }

  lemma {:induction false} TopOfSends(offset: int, top: Option<int>, sends: seq<Event>)
    requires forall e :: e in sends ==> e.Send?
    ensures Top(offset, top, sends) == top
  {
    if sends != [] {
      assert sends[0] in sends;
      TopOfSends(offset, top, sends[1..]);
    }
  }

  // --- Fault-free runs exist ------------------------------------------------------------------

  // Contract and account are where the releaser believes them to be.
  predicate Aligned(cfg: Config, s: State) {
    && cfg.height == cfg.size >= 1
    && MainPhase(s.phase)
    && Cursor(s) >= 1
    && s.nonce == s.chain.account
    && (s.chain.contract.Last? ==> Cursor(s) == s.chain.contract.end + 1)
    && (s.phase.InRound? ==> s.phase.cur + cfg.height - 1 <= s.phase.stop)
  }

  // From an aligned state every round can be completed without a fault.
  lemma {:induction false} RoundCompletes(cfg: Config, s: State) returns (sends: seq<Event>)
    requires Aligned(cfg, s)
    ensures (forall e :: e in sends ==> e.Send?) && FaultFree(sends) && Run(cfg, s, sends)
    ensures Exec(cfg, s, sends).phase.Idle? && Aligned(cfg, Exec(cfg, s, sends))
    decreases if s.phase.InRound? then s.phase.stop - s.phase.cur + 1 else 0
  {
    if s.phase.Idle? {
      sends := [];
    } else {
      var o := Outcome(Accepted, NoFault, false, false);
      var rest := RoundCompletes(cfg, Step(cfg, s, Send(o)));
      sends := [Send(o)] + rest;
      assert sends[1..] == rest;
    }
  }

  // For every list of head reads there is a fault-free run with exactly these reads that comes to
  // rest after each of them.
  lemma {:induction false} SchedulesExist(cfg: Config, s: State, polls: seq<Option<nat>>) returns (es: seq<Event>)
    requires Aligned(cfg, s) && s.phase.Idle?
    ensures Run(cfg, s, es) && FaultFree(es) && Exec(cfg, s, es).phase.Idle?
    ensures Heads(es) == polls
    decreases |polls|
  {
    if polls == [] {
      es := [];
    } else {
      var s1 := Step(cfg, s, Poll(polls[0]));
      var sends := RoundCompletes(cfg, s1);
      var rest := SchedulesExist(cfg, Exec(cfg, s1, sends), polls[1..]);
      RunConcat(cfg, s1, sends, rest);
      HeadsConcat(sends, rest);
      NoHeads(sends);
      es := [Poll(polls[0])] + (sends + rest);
      assert es[1..] == sends + rest;
    }
  }

  function Heads(es: seq<Event>): seq<Option<nat>> {
    if es == [] then []
    else (if es[0].Poll? then [es[0].head] else []) + Heads(es[1..])
  }

  lemma {:induction false} HeadsConcat(a: seq<Event>, b: seq<Event>)
    ensures Heads(a + b) == Heads(a) + Heads(b)
  {
    if a == [] {
      assert a + b == b;
    } else {
      var first := if a[0].Poll? then [a[0].head] else [];
      HeadsConcat(a[1..], b);
      assert (a + b)[0] == a[0] && (a + b)[1..] == a[1..] + b;
      assert Heads(a + b) == first + Heads(a[1..] + b);
      assert first + (Heads(a[1..]) + Heads(b)) == (first + Heads(a[1..])) + Heads(b);
    }
  }

  lemma {:induction false} NoHeads(es: seq<Event>)
    requires forall e :: e in es ==> !e.Poll?
    ensures Heads(es) == []
  {
    if es != [] {
      assert es[0] in es;
      NoHeads(es[1..]);
    }
  }
}
