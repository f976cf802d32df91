/**
 * The transaction tasks of force_consensus.py under the decorator of utils/helpers.py: each locked
 * call takes one of 20 permits, then the writer lock, runs its body, and gives both back, unless the
 * body raises. Tasks interleave at every await. The writer lock is reentrant for its own task.
 */
module TaskLocks {
  import opened Wrappers

  // `asyncio.Semaphore(value=20)`
  const PERMITS: nat := 20

  // One `_call_force_complete_consensus(project, epochId)`, and the task that runs it. The serial
  // number tells the tasks of equal calls apart.
  datatype Call = Call(project: string, epoch: nat)

  datatype TaskId = TaskId(call: Call, serial: nat)

  // The locked calls a task makes: `_make_transaction` (after `tries` failed tries), and
  // `_reset_nonce` from inside the try block or from the exception handler.
  datatype Op = Make(tries: nat) | ResetInner | ResetOuter

  datatype Pc =
    | Wait(op: Op)               // before the semaphore
    | Lock(op: Op)               // holding a permit, before the writer lock
    | Body(op: Op, nonce: int)   // inside the locked body, entered with this nonce
    | Sent                       // transaction handed over
    | Handler                    // in the exception handler
    | Finished

  datatype Send = Send(task: TaskId, nonce: int)

  // owner and depth are the writer lock; leaks counts locked bodies that raised; sends are the
  // successful transactions since the nonce was last read from the chain, as `base`; sent counts
  // successful transactions by task over the whole run; handed lists all transactions that reached
  // the chain, also those whose body raised after that.
  datatype Locks = Locks(tasks: map<TaskId, Pc>, permits: int, owner: Option<TaskId>, depth: int, leaks: nat,
                         nonce: int, base: int, sends: seq<Send>, sent: multiset<TaskId>, handed: seq<Send>)

  datatype Receipt = Fine | Failed | Unavailable

  datatype Act =
    | TakePermit
    | TakeLock
    | LockFails             // acquiring the writer lock raises: the permit is returned
    | BodyOk(account: nat)  // account is what a reset reads from the chain
    | BodyRaises(reached: bool)  // whether its transaction, if it makes one, has reached the chain
    | AfterSend(receipt: Receipt)
    | Notify(ok: bool)

  function Init(nonce: int): Locks {
    Locks(map[], PERMITS, None, 0, 0, nonce, nonce, [], multiset{}, [])
  }

  // Where a task goes when its locked call fails; tries are bounded by the configured number.
  function AfterFailure(retries: int, op: Op): Pc {
    match op
    case Make(n) => if n + 1 < retries then Wait(Make(n + 1)) else Handler
    case ResetInner => Handler
    case ResetOuter => Finished
  }

  function AfterSuccess(op: Op): Pc {
    match op
    case Make(_) => Sent
    case ResetInner => Handler
    case ResetOuter => Finished
  }

  predicate Enabled(l: Locks, t: TaskId, a: Act) {
    && t in l.tasks
    && var pc := l.tasks[t];
       match a
       case TakePermit => pc.Wait? && l.permits > 0
       case TakeLock => pc.Lock? && (l.owner == None || l.owner == Some(t))
       case LockFails => pc.Lock?
       case BodyOk(_) => pc.Body?
       case BodyRaises(reached) => pc.Body? && (reached ==> pc.op.Make?)
       case AfterSend(_) => pc.Sent?
       case Notify(_) => pc.Handler?
  }

  // The lock after one release.
  function Release(l: Locks): Locks {
    l.(depth := l.depth - 1, owner := if l.depth == 1 then None else l.owner)
  }

  // A body that ran to its end: its effect on the nonce, then permit and lock are given back.
  function Complete(l: Locks, t: TaskId, op: Op, nonce: int, account: nat): Locks {
    var l1 := Release(l.(permits := l.permits + 1, tasks := l.tasks[t := AfterSuccess(op)]));
    if op.Make? then
      l1.(nonce := l.nonce + 1, sends := l.sends + [Send(t, nonce)], sent := l.sent + multiset{t},
          handed := l.handed + [Send(t, nonce)])
    else l1.(nonce := account, base := account, sends := [])
  }

  function Apply(retries: int, l: Locks, t: TaskId, a: Act): Locks
    requires Enabled(l, t, a)
  {
    var pc := l.tasks[t];
    match a
    case TakePermit => l.(permits := l.permits - 1, tasks := l.tasks[t := Lock(pc.op)])
    case TakeLock => l.(owner := Some(t), depth := l.depth + 1, tasks := l.tasks[t := Body(pc.op, l.nonce)])
    case LockFails => l.(permits := l.permits + 1, tasks := l.tasks[t := AfterFailure(retries, pc.op)])
    case BodyOk(account) => Complete(l, t, pc.op, pc.nonce, account)
    case BodyRaises(reached) =>
      l.(leaks := l.leaks + 1, tasks := l.tasks[t := AfterFailure(retries, pc.op)],
         handed := l.handed + if reached then [Send(t, pc.nonce)] else [])
    case AfterSend(r) =>
      var next := match r case Fine => Finished case Failed => Wait(ResetInner) case Unavailable => Handler;
      l.(tasks := l.tasks[t := next])
    case Notify(ok) => l.(tasks := l.tasks[t := if ok then Wait(ResetOuter) else Finished])
  }

  // New tasks start at their first try.
  function Spawn(l: Locks, added: set<TaskId>): Locks {
    l.(tasks := l.tasks + map t | t in added :: Wait(Make(0)))
  }

  // --- Permits --------------------------------------------------------------------------------

  predicate Holding(pc: Pc) {
    pc.Lock? || pc.Body?
  }

  // The tasks inside the decorator: each holds one permit.
  function Holders(tasks: map<TaskId, Pc>): set<TaskId> {
    set t | t in tasks && Holding(tasks[t])
  }

  lemma HoldersUpdate(tasks: map<TaskId, Pc>, t: TaskId, pc: Pc)
    requires t in tasks
    ensures |Holders(tasks[t := pc])|
         == |Holders(tasks)| - (if Holding(tasks[t]) then 1 else 0) + (if Holding(pc) then 1 else 0)
  {
    var rest := Holders(tasks) - {t};
    assert Holders(tasks[t := pc]) == if Holding(pc) then rest + {t} else rest;
    assert Holders(tasks) == if Holding(tasks[t]) then rest + {t} else rest;
  }

  // Free permits, calls in progress and calls whose body raised always add up to 20.
  ghost predicate PermitInv(l: Locks) {
    && l.permits >= 0
    && l.permits + |Holders(l.tasks)| + l.leaks == 20
  }

  lemma ApplyPermits(retries: int, l: Locks, t: TaskId, a: Act)
    requires PermitInv(l) && Enabled(l, t, a)
    ensures PermitInv(Apply(retries, l, t, a))
  {
    HoldersUpdate(l.tasks, t, Apply(retries, l, t, a).tasks[t]);
    assert Apply(retries, l, t, a).tasks == l.tasks[t := Apply(retries, l, t, a).tasks[t]];
  }

  lemma SpawnPermits(l: Locks, added: set<TaskId>)
    requires PermitInv(l) && added !! l.tasks.Keys
    ensures PermitInv(Spawn(l, added))
  {
    assert Holders(Spawn(l, added).tasks) == Holders(l.tasks);
  }

  // --- The writer lock and the nonce ----------------------------------------------------------

  predicate InBody(l: Locks, t: TaskId) {
    t in l.tasks && l.tasks[t].Body?
  }

  // At most one task is in a locked body, and it owns the lock; the lock is held once for it and
  // once for every body that raised.
  ghost predicate LockInv(l: Locks) {
    && (forall t :: InBody(l, t) ==> l.owner == Some(t))
    && (l.owner == None <==> l.depth == 0)
    && l.depth == l.leaks + (if l.owner.Some? && InBody(l, l.owner.value) then 1 else 0)
  }

  ghost predicate NonceInv(l: Locks) {
    && l.nonce == l.base + |l.sends|
    && (forall i :: 0 <= i < |l.sends| ==> l.sends[i].nonce == l.base + i)
    && (forall t :: InBody(l, t) ==> l.tasks[t].nonce == l.nonce)
  }

  lemma ApplyLock(retries: int, l: Locks, t: TaskId, a: Act)
    requires LockInv(l) && Enabled(l, t, a)
    ensures LockInv(Apply(retries, l, t, a))
  {
    var l' := Apply(retries, l, t, a);
    assert forall u :: u != t ==> (InBody(l', u) <==> InBody(l, u));
    if a.BodyOk? || a.BodyRaises? {
      assert InBody(l, t) && !InBody(l', t);
    } else {
      assert !InBody(l, t);
    }
  }

  lemma CompleteNonce(retries: int, l: Locks, t: TaskId, account: nat)
    requires LockInv(l) && NonceInv(l) && Enabled(l, t, BodyOk(account))
    ensures NonceInv(Apply(retries, l, t, BodyOk(account)))
  {
    var l' := Apply(retries, l, t, BodyOk(account));
    assert InBody(l, t) && l.tasks[t].nonce == l.nonce;
    forall u ensures !InBody(l', u) {
      assert u != t ==> (InBody(l', u) <==> InBody(l, u));
    }
  }

  lemma ApplyNonce(retries: int, l: Locks, t: TaskId, a: Act)
    requires LockInv(l) && NonceInv(l) && Enabled(l, t, a)
    ensures NonceInv(Apply(retries, l, t, a))
  {
    if a.BodyOk? {
      CompleteNonce(retries, l, t, a.account);
    } else {
      var l' := Apply(retries, l, t, a);
      assert forall u :: u != t && InBody(l', u) ==> InBody(l, u) && l'.tasks[u] == l.tasks[u];
    }
  }

  lemma SpawnLock(l: Locks, added: set<TaskId>)
    requires LockInv(l) && NonceInv(l) && added !! l.tasks.Keys
    ensures LockInv(Spawn(l, added)) && NonceInv(Spawn(l, added))
  {
    assert forall t :: InBody(Spawn(l, added), t) <==> InBody(l, t);
  }

  // No two tasks are ever in a locked body together.
  lemma MutualExclusion(l: Locks, t: TaskId, u: TaskId)
    requires LockInv(l) && InBody(l, t) && InBody(l, u)
    ensures t == u
  {
  }

  // The successful transactions since the last reset carry consecutive nonces.
  lemma ConsecutiveNonces(l: Locks, i: nat, j: nat)
    requires NonceInv(l) && i < |l.sends| && j < |l.sends|
    ensures l.sends[j].nonce - l.sends[i].nonce == j - i
  {
  }

  // --- One success per task -------------------------------------------------------------------

  predicate BeforeSend(pc: Pc) {
    (pc.Wait? || pc.Lock? || pc.Body?) && pc.op.Make?
  }

  ghost predicate SentInv(l: Locks) {
    forall t :: l.sent[t] <= (if t in l.tasks && !BeforeSend(l.tasks[t]) then 1 else 0)
  }

  lemma ApplySent(retries: int, l: Locks, t: TaskId, a: Act)
    requires SentInv(l) && Enabled(l, t, a)
    ensures SentInv(Apply(retries, l, t, a))
  {
  }

  lemma SpawnSent(l: Locks, added: set<TaskId>)
    requires SentInv(l) && added !! l.tasks.Keys
    ensures SentInv(Spawn(l, added))
  {
  }

  // --- One nonce per task ---------------------------------------------------------------------

  // All transactions of one task that reached the chain carry the same nonce, so that at most one
  // of them can be mined. A task that may still send another one owns the lock for good, and the
  // nonce cannot change under it.
  ghost predicate HandedBy(l: Locks, t: TaskId, nonce: int) {
    exists k :: 0 <= k < |l.handed| && l.handed[k] == Send(t, nonce)
  }

  ghost predicate HandedAt(l: Locks, t: TaskId) {
    && (forall n :: HandedBy(l, t, n) ==> t in l.tasks)
    && (forall n :: HandedBy(l, t, n) && BeforeSend(l.tasks[t]) ==>
          l.leaks > 0 && l.owner == Some(t) && n == l.nonce)
    && (forall m, n :: HandedBy(l, t, m) && HandedBy(l, t, n) ==> m == n)
  }

  ghost predicate HandedInv(l: Locks) {
    forall t :: HandedAt(l, t)
  }

  lemma HandedAppend(l: Locks, l': Locks, x: Send, t: TaskId, n: int)
    requires l'.handed == l.handed + [x]
    ensures HandedBy(l', t, n) <==> HandedBy(l, t, n) || x == Send(t, n)
  {
    if HandedBy(l, t, n) {
      var k :| 0 <= k < |l.handed| && l.handed[k] == Send(t, n);
      assert l'.handed[k] == Send(t, n);
    }
    if x == Send(t, n) {
      assert l'.handed[|l.handed|] == Send(t, n);
    }
  }

  // A body hands over its transaction, at its end or before it raises.
  lemma HandOver(retries: int, l: Locks, t: TaskId, a: Act, u: TaskId)
    requires LockInv(l) && NonceInv(l) && HandedAt(l, u) && Enabled(l, t, a) && l.tasks[t].Body?
    requires a == BodyRaises(true) || (a.BodyOk? && l.tasks[t].op.Make?)
    ensures HandedAt(Apply(retries, l, t, a), u)
  {
    var l' := Apply(retries, l, t, a);
    var x := Send(t, l.nonce);
    assert InBody(l, t);
    assert l'.handed == l.handed + [x];
    forall n ensures HandedBy(l', u, n) <==> HandedBy(l, u, n) || x == Send(u, n) {
      HandedAppend(l, l', x, u, n);
    }
    if u != t {
      assert u in l'.tasks <==> u in l.tasks;
    }
  }

  // All other actions hand over nothing.
  lemma KeepHanded(retries: int, l: Locks, t: TaskId, a: Act, u: TaskId)
    requires LockInv(l) && HandedAt(l, u) && Enabled(l, t, a)
    requires a != BodyRaises(true) && !(a.BodyOk? && l.tasks[t].op.Make?)
    ensures HandedAt(Apply(retries, l, t, a), u)
  {
    var l' := Apply(retries, l, t, a);
    assert l'.handed == l.handed;
    if a.BodyOk? || a.BodyRaises? {
      assert InBody(l, t);
    }
    forall n ensures HandedBy(l', u, n) <==> HandedBy(l, u, n) {
    }
  }

  lemma ApplyHanded(retries: int, l: Locks, t: TaskId, a: Act)
    requires LockInv(l) && NonceInv(l) && HandedInv(l) && Enabled(l, t, a)
    ensures HandedInv(Apply(retries, l, t, a))
  {
    forall u ensures HandedAt(Apply(retries, l, t, a), u) {
      assert HandedAt(l, u);
      if a == BodyRaises(true) || (a.BodyOk? && l.tasks[t].op.Make?) {
        HandOver(retries, l, t, a, u);
      } else {
        KeepHanded(retries, l, t, a, u);
      }
    }
  }

  lemma SpawnHanded(l: Locks, added: set<TaskId>)
    requires HandedInv(l) && added !! l.tasks.Keys
    ensures HandedInv(Spawn(l, added))
  {
    var l' := Spawn(l, added);
    forall u ensures HandedAt(l', u) {
      assert HandedAt(l, u);
      assert forall n :: HandedBy(l', u, n) <==> HandedBy(l, u, n);
    }
  }

  // --- What a raising body does ---------------------------------------------------------------

  // Once a locked body has raised, its task owns the writer lock for good: no action changes the
  // owner, and no other task enters or leaves a body.
  lemma LeakFreezesTheLock(retries: int, l: Locks, t: TaskId, a: Act)
    requires LockInv(l) && l.leaks > 0 && Enabled(l, t, a)
    ensures var l' := Apply(retries, l, t, a); l'.owner == l.owner && l'.leaks > 0
    ensures a.TakeLock? || a.BodyOk? || a.BodyRaises? ==> l.owner == Some(t)
  {
    if a.BodyOk? || a.BodyRaises? {
      assert InBody(l, t);
    }
  }

  // A body that raises leaves the lock with its task.
  lemma RaiseLeaks(retries: int, l: Locks, t: TaskId, reached: bool)
    requires LockInv(l) && Enabled(l, t, BodyRaises(reached))
    ensures var l' := Apply(retries, l, t, BodyRaises(reached));
      LockInv(l') && l'.leaks > 0 && l'.owner == Some(t) && l'.permits == l.permits
  {
    ApplyLock(retries, l, t, BodyRaises(reached));
    assert InBody(l, t);
  }

  // --- Progress while no body raises ----------------------------------------------------------

  // No task can move other than by a raising body or a failing lock.
  ghost predicate Stuck(l: Locks) {
    forall t, a :: Enabled(l, t, a) ==> a.BodyRaises? || a.LockFails?
  }

  // While nothing has raised there is no deadlock: when nobody can move, every task has finished
  // and all permits and the lock are back.
  lemma StuckMeansDone(l: Locks)
    requires PermitInv(l) && LockInv(l) && l.leaks == 0 && Stuck(l)
    ensures forall t :: t in l.tasks ==> l.tasks[t] == Finished
    ensures l.permits == 20 && l.owner == None
  {
    forall t | t in l.tasks
      ensures !l.tasks[t].Body? && !l.tasks[t].Sent? && !l.tasks[t].Handler?
    {
      assert !Enabled(l, t, BodyOk(0)) && !Enabled(l, t, AfterSend(Fine)) && !Enabled(l, t, Notify(true));
    }
    assert l.owner == None;
    forall t | t in l.tasks
      ensures !l.tasks[t].Lock?
    {
      assert !Enabled(l, t, TakeLock);
    }
    assert Holders(l.tasks) == {};
    forall t | t in l.tasks
      ensures l.tasks[t] == Finished
    {
      assert !Enabled(l, t, TakePermit);
    }
  }

  function Phase(pc: Pc): nat
    requires pc.Wait? || pc.Lock? || pc.Body?
  {
    if pc.Wait? then 2 else if pc.Lock? then 1 else 0
  }

  // How many actions a task can still take.
  function Rank(retries: int, pc: Pc): nat {
    match pc
    case Finished => 0
    case Handler => 4
    case Sent => 8
    case _ => match pc.op
              case ResetOuter => 1 + Phase(pc)
              case ResetInner => 5 + Phase(pc)
              case Make(n) => 9 + Phase(pc) + 3 * (if n + 1 < retries then retries - 1 - n else 0)
  }

  lemma ApplyRank(retries: int, l: Locks, t: TaskId, a: Act)
    requires Enabled(l, t, a)
    ensures var l' := Apply(retries, l, t, a);
      && l'.tasks.Keys == l.tasks.Keys
      && Rank(retries, l'.tasks[t]) < Rank(retries, l.tasks[t])
      && forall u :: u in l.tasks && u != t ==> l'.tasks[u] == l.tasks[u]
  {
  }
}
