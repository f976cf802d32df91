/**
 * What each task does from its creation to its end, told by what its actions come to: tries, receipt,
 * resets and notification, as `_call_force_complete_consensus` prescribes them.
 */
module TaskScripts {
  import opened Wrappers
  import opened TaskLocks
  import opened ForceTables
  import opened ForceTasks

  // The actions of task t among the events that decide how it goes on; getting a permit and the lock
  // is left out.
  function Script(es: seq<ForceTables.Event>, t: TaskId): seq<TaskLocks.Act> {
    if es == [] then []
    else
      var e := es[|es| - 1];
      Script(es[..|es| - 1], t)
      + if e.Act? && e.task == t && !e.act.TakePermit? && !e.act.TakeLock? then [e.act] else []
  }

  // A locked call that failed.
  predicate Fails(a: TaskLocks.Act) {
    a.BodyRaises? || a.LockFails?
  }

  // n failed tries in a row.
  predicate Tries(script: seq<TaskLocks.Act>, n: nat) {
    |script| == n && forall i :: 0 <= i < n ==> Fails(script[i])
  }

  // Fewer than the configured number of tries, at least one, have failed.
  predicate Trying(retries: int, script: seq<TaskLocks.Act>) {
    Tries(script, |script|) && |script| < if retries < 1 then 1 else retries
  }

  predicate SentAfter(retries: int, script: seq<TaskLocks.Act>) {
    script != [] && Last(script).BodyOk? && Trying(retries, Front(script))
  }

  // The transaction was handed over and its receipt reports a failure.
  predicate Failed(retries: int, script: seq<TaskLocks.Act>) {
    script != [] && Last(script) == AfterSend(Receipt.Failed) && SentAfter(retries, Front(script))
  }

  // What leads to the exception handler: all tries failed; the receipt could not be had; or it reports
  // a failure, and a reset of the nonce has been tried.
  predicate Excepted(retries: int, script: seq<TaskLocks.Act>) {
    || Tries(script, if retries < 1 then 1 else retries)
    || (script != [] && Last(script) == AfterSend(Unavailable) && SentAfter(retries, Front(script)))
    || (script != [] && (Last(script).BodyOk? || Fails(Last(script))) && Failed(retries, Front(script)))
  }

  // The handler's notification went through: the nonce is to be reset.
  predicate Notified(retries: int, script: seq<TaskLocks.Act>) {
    script != [] && Last(script) == Notify(true) && Excepted(retries, Front(script))
  }

  // The task is through: its transaction was handed over with no failure seen; or it ended in the
  // handler, whose notification raised or was followed by a try to reset the nonce.
  predicate Through(retries: int, script: seq<TaskLocks.Act>) {
    && script != []
    && (|| (Last(script) == AfterSend(Fine) && SentAfter(retries, Front(script)))
        || (Last(script) == Notify(false) && Excepted(retries, Front(script)))
        || ((Last(script).BodyOk? || Fails(Last(script))) && Notified(retries, Front(script))))
  }

  function Last(script: seq<TaskLocks.Act>): TaskLocks.Act
    requires script != []
  {
    script[|script| - 1]
  }

  function Front(script: seq<TaskLocks.Act>): seq<TaskLocks.Act>
    requires script != []
  {
    script[..|script| - 1]
  }

  // Where a task stands and what it has done belong together.
  predicate Matches(retries: int, script: seq<TaskLocks.Act>, pc: Pc) {
    match pc
    case Sent => SentAfter(retries, script)
    case Handler => Excepted(retries, script)
    case Finished => Through(retries, script)
    case _ => match pc.op
              case Make(n) => Trying(retries, script) && n == |script|
              case ResetInner => Failed(retries, script)
              case ResetOuter => Notified(retries, script)
  }

  ghost predicate ScriptInv(cfg: Settings, l: Locks, es: seq<ForceTables.Event>, t: TaskId) {
    if t in l.tasks then Matches(cfg.retries, Script(es, t), l.tasks[t]) else Script(es, t) == []
  }

  lemma ScriptAppend(es: seq<ForceTables.Event>, e: ForceTables.Event, t: TaskId)
    ensures Script(es + [e], t) == Script(es, t)
              + if e.Act? && e.task == t && !e.act.TakePermit? && !e.act.TakeLock? then [e.act] else []
  {
    assert (es + [e])[..|es|] == es;
  }

  lemma FrontLast(script: seq<TaskLocks.Act>, a: TaskLocks.Act)
    ensures Front(script + [a]) == script && Last(script + [a]) == a
  {
  }

  lemma BodyMatches(retries: int, script: seq<TaskLocks.Act>, op: Op, a: TaskLocks.Act)
    requires a.BodyOk? && Matches(retries, script, Wait(op))
    ensures Matches(retries, script + [a], AfterSuccess(op))
  {
    FrontLast(script, a);
  }

  lemma FailureMatches(retries: int, script: seq<TaskLocks.Act>, op: Op, a: TaskLocks.Act)
    requires Fails(a) && Matches(retries, script, Wait(op))
    ensures Matches(retries, script + [a], AfterFailure(retries, op))
  {
    FrontLast(script, a);
  }

  lemma AfterSendMatches(retries: int, script: seq<TaskLocks.Act>, receipt: Receipt)
    requires SentAfter(retries, script)
    ensures Matches(retries, script + [AfterSend(receipt)],
                    match receipt case Fine => Finished case Failed => Wait(ResetInner) case Unavailable => Handler)
  {
    FrontLast(script, AfterSend(receipt));
  }

  lemma NotifyMatches(retries: int, script: seq<TaskLocks.Act>, ok: bool)
    requires Excepted(retries, script)
    ensures Matches(retries, script + [Notify(ok)], if ok then Wait(ResetOuter) else Finished)
  {
    FrontLast(script, Notify(ok));
  }

  lemma ActMatches(retries: int, l: Locks, t: TaskId, a: TaskLocks.Act, script: seq<TaskLocks.Act>)
    requires TaskLocks.Enabled(l, t, a) && Matches(retries, script, l.tasks[t])
    ensures var script' := script + if a.TakePermit? || a.TakeLock? then [] else [a];
      Matches(retries, script', Apply(retries, l, t, a).tasks[t])
  {
    match a
    case TakePermit => assert script + [] == script;
    case TakeLock => assert script + [] == script;
    case LockFails => FailureMatches(retries, script, l.tasks[t].op, a);
    case BodyOk(_) => BodyMatches(retries, script, l.tasks[t].op, a);
    case BodyRaises(_) => FailureMatches(retries, script, l.tasks[t].op, a);
    case AfterSend(receipt) => AfterSendMatches(retries, script, receipt);
    case Notify(ok) => NotifyMatches(retries, script, ok);
  }

  // Other events than actions of the task leave it and its script alone, once it exists.
  lemma OtherScript(cfg: Settings, s: System, e: ForceTables.Event, script: seq<TaskLocks.Act>, t: TaskId)
    requires SerialInv(s) && ForceTables.Enabled(cfg, s, e) && !(e.Act? && e.task == t)
    requires if t in s.locks.tasks then Matches(cfg.retries, script, s.locks.tasks[t]) else script == []
    ensures var l' := Step(cfg, s, e).locks;
      if t in l'.tasks then Matches(cfg.retries, script, l'.tasks[t]) else script == []
  {
    if e.Act? {
      ApplyRank(cfg.retries, s.locks, e.task, e.act);
    } else if e.RunSweep? {
      SweepIsFresh(s, e.order);
      SpawnMatches(cfg.retries, s.locks, TaskSet(s.tables, e.order, s.serial), script, t);
    }
  }

  lemma StepScript(cfg: Settings, s: System, es: seq<ForceTables.Event>, e: ForceTables.Event, t: TaskId)
    requires SerialInv(s) && ScriptInv(cfg, s.locks, es, t) && ForceTables.Enabled(cfg, s, e)
    ensures ScriptInv(cfg, Step(cfg, s, e).locks, es + [e], t)
  {
    var script := Script(es, t);
    ScriptAppend(es, e, t);
    if e.Act? && e.task == t {
      ActMatches(cfg.retries, s.locks, t, e.act, script);
    } else {
      assert Script(es + [e], t) == script;
      OtherScript(cfg, s, e, script, t);
    }
  }

  lemma SpawnMatches(retries: int, l: Locks, added: set<TaskId>, script: seq<TaskLocks.Act>, t: TaskId)
    requires added !! l.tasks.Keys
    requires if t in l.tasks then Matches(retries, script, l.tasks[t]) else script == []
    ensures var l' := Spawn(l, added);
      if t in l'.tasks then Matches(retries, script, l'.tasks[t]) else script == []
  {
    if t in added {
      assert Spawn(l, added).tasks[t] == Wait(Make(0));
    }
  }

  lemma {:induction false} RunScript(cfg: Settings, s: System, before: seq<ForceTables.Event>,
                                     es: seq<ForceTables.Event>, t: TaskId)
    requires SerialInv(s) && ScriptInv(cfg, s.locks, before, t) && Run(cfg, s, es)
    ensures ScriptInv(cfg, Exec(cfg, s, es).locks, before + es, t)
    decreases |es|
  {
    if es == [] {
      assert before + es == before;
    } else {
      StepScript(cfg, s, before, es[0], t);
      StepSerials(cfg, s, es[0]);
      RunScript(cfg, Step(cfg, s, es[0]), before + [es[0]], es[1..], t);
      assert before + [es[0]] + es[1..] == before + es;
    }
  }

  // On every run, whatever events are seen and however the tasks interleave: a task that has finished
  // has done one of exactly these. At most the configured number of tries less one failed and one
  // was made; then its receipt was fine or not looked at. Or something went wrong, and it ended in
  // the handler: all tries had failed, at least one; or the receipt could not be had; or it reported
  // a failure and the nonce reset was tried. In the handler the notification raised, or another
  // nonce reset was tried.
  lemma FinishedTasksAreThrough(cfg: Settings, now: real, nonce: int, es: seq<ForceTables.Event>, t: TaskId)
    requires Run(cfg, Start(now, nonce), es)
    requires var l := Exec(cfg, Start(now, nonce), es).locks; t in l.tasks && l.tasks[t] == Finished
    ensures Through(cfg.retries, Script(es, t))
  {
    RunScript(cfg, Start(now, nonce), [], es, t);
    assert [] + es == es;
  }

  // On every run a task's locked body that runs to its end is either its transaction, exactly when it
  // has done nothing yet but fewer failed tries than configured, and then the nonce goes up by one
  // and the transaction is handed over; or a reset, and then the nonce is the one read from the chain
  // and counting starts afresh.
  lemma BodiesSendOrReset(cfg: Settings, now: real, nonce: int, es: seq<ForceTables.Event>,
                          at: real, t: TaskId, account: nat)
    requires Run(cfg, Start(now, nonce), es)
    requires ForceTables.Enabled(cfg, Exec(cfg, Start(now, nonce), es), Act(at, t, BodyOk(account)))
    ensures var l := Exec(cfg, Start(now, nonce), es).locks;
      var l' := Apply(cfg.retries, l, t, BodyOk(account));
      if forall a :: a in Script(es, t) ==> Fails(a) then
        && |Script(es, t)| < (if cfg.retries < 1 then 1 else cfg.retries)
        && l'.nonce == l.nonce + 1 && l'.handed == l.handed + [Send(t, l.nonce)] && l'.sent[t] == l.sent[t] + 1
      else
        l'.nonce == account && l'.sends == [] && l'.handed == l.handed
  {
    StartTasks(now, nonce);
    RunTasks(cfg, Start(now, nonce), es);
    RunScript(cfg, Start(now, nonce), [], es, t);
    assert [] + es == es;
    BodyIs(cfg.retries, Exec(cfg, Start(now, nonce), es).locks, t, account, Script(es, t));
  }

  lemma BodyIs(retries: int, l: Locks, t: TaskId, account: nat, script: seq<TaskLocks.Act>)
    requires NonceInv(l) && TaskLocks.Enabled(l, t, BodyOk(account)) && Matches(retries, script, l.tasks[t])
    ensures var l' := Apply(retries, l, t, BodyOk(account));
      if forall a :: a in script ==> Fails(a) then
        && |script| < (if retries < 1 then 1 else retries)
        && l'.nonce == l.nonce + 1 && l'.handed == l.handed + [Send(t, l.nonce)] && l'.sent[t] == l.sent[t] + 1
      else
        l'.nonce == account && l'.sends == [] && l'.handed == l.handed
  {
    assert InBody(l, t);
    if l.tasks[t].op.Make? {
      assert forall i :: 0 <= i < |script| ==> Fails(script[i]);
    } else {
      assert Last(script) in script;
    }
  }
}
