/**
 * The event tables of force_consensus.py and the sweeps over them, interleaved with the running
 * transaction tasks. Every event carries the clock value it reads; the clock never goes back.
 */
module ForceTables {
  import opened TaskLocks

  // window is the contract's submission window; the rest comes from the settings.
  datatype Settings = Settings(window: nat, blockTime: nat, retries: int)

  datatype LogEvent =
    | EpochReleased(epoch: nat)
    | SnapshotFinalized(epoch: nat, project: string)
    | SnapshotSubmitted(epoch: nat, project: string)

  type Table = map<nat, set<string>>

  datatype Tables = Tables(pending: set<(real, nat)>, finalized: Table, submitted: Table)

  // Reading a defaultdict: a missing entry reads as the empty set.
  function At(m: Table, epoch: nat): set<string> {
    if epoch in m then m[epoch] else {}
  }

  // ... and is created by the read.
  function Touch(m: Table, epoch: nat): Table {
    m[epoch := At(m, epoch)]
  }

  function AddTo(m: Table, epoch: nat, project: string): Table {
    m[epoch := At(m, epoch) + {project}]
  }

  // Deleting an entry, if it is not empty; testing it creates it.
  function Drop(m: Table, epoch: nat): Table {
    if At(m, epoch) != {} then m - {epoch} else Touch(m, epoch)
  }

  // One iteration of the loop in get_events.
  function Fold(t: Tables, now: real, ev: LogEvent): Tables {
    match ev
    case EpochReleased(e) => t.(pending := t.pending + {(now, e)})
    case SnapshotFinalized(e, p) => t.(finalized := AddTo(t.finalized, e, p))
    case SnapshotSubmitted(e, p) => t.(submitted := AddTo(t.submitted, e, p))
  }

  // The time at which an epoch detected at release becomes due.
  function Deadline(cfg: Settings, release: real): real {
    release + (cfg.window * cfg.blockTime) as real + 30.0
  }

  function Due(cfg: Settings, t: Tables, now: real): set<(real, nat)> {
    set x | x in t.pending && Deadline(cfg, x.0) < now
  }

  // The projects forced for an epoch.
  function Forced(t: Tables, epoch: nat): set<string> {
    At(t.submitted, epoch) - At(t.finalized, epoch)
  }

  // The calls created for one epoch, and for all epochs of a sweep with their multiplicity.
  function CallsFor(t: Tables, epoch: nat): set<Call> {
    set p | p in Forced(t, epoch) :: Call(p, epoch)
  }

  function CallBag(t: Tables, order: seq<(real, nat)>): multiset<Call> {
    if order == [] then multiset{}
    else CallBag(t, order[..|order| - 1]) + multiset(CallsFor(t, order[|order| - 1].1))
  }

  function CallSet(t: Tables, order: seq<(real, nat)>): set<Call> {
    set x, p | x in order && p in Forced(t, x.1) :: Call(p, x.1)
  }

  function Numbered(calls: set<Call>, serial: nat): set<TaskId> {
    set c | c in calls :: TaskId(c, serial)
  }

  // The tasks for these calls, numbered from `serial` on by the place of their epoch.
  function TaskSet(t: Tables, order: seq<(real, nat)>, serial: nat): set<TaskId> {
    if order == [] then {}
    else
      var k := |order| - 1;
      TaskSet(t, order[..k], serial) + Numbered(CallsFor(t, order[k].1), serial + k)
  }

  function Touched(t: Tables, order: seq<(real, nat)>): Tables {
    if order == [] then t
    else
      var u := Touched(t, order[..|order| - 1]);
      var e := order[|order| - 1].1;
      u.(submitted := Touch(u.submitted, e), finalized := Touch(u.finalized, e))
  }

  // A sweep between the clock values `from` and `at` reads the clock for every pending epoch: what was
  // due at the start is in, what is not due at the end is not, and nothing is in twice.
  ghost predicate Splits(cfg: Settings, t: Tables, from: real, at: real, order: seq<(real, nat)>) {
    && (forall x :: x in Due(cfg, t, from) ==> x in order)
    && (forall x :: x in order ==> x in Due(cfg, t, at))
    && (forall i, j :: 0 <= i < j < |order| ==> order[i] != order[j])
  }

  // The first half of _force_complete_consensus: due epochs leave the pending set.
  function SweepTables(t: Tables, order: seq<(real, nat)>): Tables {
    Touched(t.(pending := t.pending - set x | x in order), order)
  }

  // The second half, after the tasks of the sweep have finished: only the tables of the epoch the
  // loop ended on are deleted.
  function CleanTables(t: Tables, epoch: nat): Tables {
    t.(finalized := Drop(t.finalized, epoch), submitted := Drop(t.submitted, epoch))
  }

  lemma {:induction false} TouchedSame(t: Tables, order: seq<(real, nat)>, epoch: nat)
    ensures var u := Touched(t, order);
      && At(u.submitted, epoch) == At(t.submitted, epoch)
      && At(u.finalized, epoch) == At(t.finalized, epoch)
      && u.pending == t.pending
  {
    if order != [] {
      TouchedSame(t, order[..|order| - 1], epoch);
    }
  }

  // Cleaning up after a sweep leaves the tables of every other epoch as they are, also those of the
  // other epochs of the same sweep.
  lemma CleanLeavesOthers(t: Tables, epoch: nat, other: nat)
    ensures var u := CleanTables(t, epoch);
      && At(u.submitted, epoch) == {} && At(u.finalized, epoch) == {} && u.pending == t.pending
      && (other != epoch ==>
            At(u.submitted, other) == At(t.submitted, other) && At(u.finalized, other) == At(t.finalized, other))
  {
  }

  // --- The system -----------------------------------------------------------------------------

  datatype Seen = Seen(at: real, ev: LogEvent)

  // A sweep: when it ended, the due epochs in the order it met them, how many events had been seen,
  // the calls and tasks it created, and whether it has cleaned up.
  datatype Sweep = Sweep(at: real, order: seq<(real, nat)>, horizon: nat, calls: set<Call>, tasks: set<TaskId>,
                         cleaned: bool)

  // seen, sweeps, swept, calls and serial are bookkeeping over the life of one process.
  datatype System = System(now: real, tables: Tables, seen: seq<Seen>, sweeps: seq<Sweep>, swept: set<nat>,
                           calls: multiset<Call>, serial: nat, locks: Locks)

  datatype Event =
    | See(at: real, ev: LogEvent)
    | RunSweep(from: real, at: real, order: seq<(real, nat)>)
    | Act(at: real, task: TaskId, act: TaskLocks.Act)
    | Clean(at: real, sweep: nat)

  function Start(now: real, nonce: int): System {
    System(now, Tables({}, map[], map[]), [], [], {}, multiset{}, 0, TaskLocks.Init(nonce))
  }

  ghost predicate HasEvent(seen: seq<Seen>, ev: LogEvent) {
    exists k :: 0 <= k < |seen| && seen[k].ev == ev
  }

  // Epoch ids are unique: no two EpochReleased events are for the same epoch. EventScan derives this
  // for every process from a chain that releases each epoch once.
  ghost predicate UniqueReleases(seen: seq<Seen>) {
    forall i, j :: 0 <= i < j < |seen| && seen[i].ev.EpochReleased? ==> seen[j].ev != seen[i].ev
  }

  ghost predicate Enabled(cfg: Settings, s: System, e: Event) {
    && e.at >= s.now
    && match e
       case See(_, _) => true
       case RunSweep(from, at, order) => s.now <= from <= at && Splits(cfg, s.tables, from, at, order)
       case Act(_, t, a) => TaskLocks.Enabled(s.locks, t, a)
       case Clean(_, i) => i < |s.sweeps| && !s.sweeps[i].cleaned && s.sweeps[i].order != [] &&
                           forall t :: t in s.sweeps[i].tasks ==> t in s.locks.tasks && s.locks.tasks[t] == Finished
  }

  function Step(cfg: Settings, s: System, e: Event): System
    requires e.Act? ==> TaskLocks.Enabled(s.locks, e.task, e.act)
    requires e.Clean? ==> e.sweep < |s.sweeps| && s.sweeps[e.sweep].order != []
  {
    match e
    case See(at, ev) => s.(now := at, tables := Fold(s.tables, at, ev), seen := s.seen + [Seen(at, ev)])
    case RunSweep(_, at, order) =>
      var tasks := TaskSet(s.tables, order, s.serial);
      s.(now := at, tables := SweepTables(s.tables, order),
         sweeps := s.sweeps + [Sweep(at, order, |s.seen|, CallSet(s.tables, order), tasks, false)],
         swept := s.swept + (set x | x in order :: x.1),
         calls := s.calls + CallBag(s.tables, order), serial := s.serial + |order|,
         locks := Spawn(s.locks, tasks))
    case Act(at, t, a) => s.(now := at, locks := Apply(cfg.retries, s.locks, t, a))
    case Clean(at, i) =>
      var sw := s.sweeps[i];
      s.(now := at, tables := CleanTables(s.tables, sw.order[|sw.order| - 1].1),
         sweeps := s.sweeps[i := sw.(cleaned := true)])
  }

  ghost predicate Run(cfg: Settings, s: System, es: seq<Event>)
    decreases |es|
  {
    es == [] || (Enabled(cfg, s, es[0]) && Run(cfg, Step(cfg, s, es[0]), es[1..]))
  }

  ghost function Exec(cfg: Settings, s: System, es: seq<Event>): System
    requires Run(cfg, s, es)
    decreases |es|
  {
    if es == [] then s else Exec(cfg, Step(cfg, s, es[0]), es[1..])
  }
}
