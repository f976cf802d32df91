/**
 * The block cursor and the event tables put together: what one process of force_consensus.py sees
 * of the chain, given the log entries of each block.
 */
module EventScan {
  import opened Wrappers
  import opened ForceTables
  import ForceRuns
  import BlockCursor

  // The service's log entries, block by block.
  type Chain = int -> seq<LogEvent>

  // The log entries of blocks lo to hi, and of a list of scanned ranges.
  function Logs(chain: Chain, lo: int, hi: int): seq<LogEvent>
    decreases hi - lo
  {
    if lo > hi then [] else Logs(chain, lo, hi - 1) + chain(hi)
  }

  function Gather(chain: Chain, scans: seq<BlockCursor.Range>): seq<LogEvent> {
    if scans == [] then []
    else Gather(chain, scans[..|scans| - 1]) + Logs(chain, scans[|scans| - 1].lo, scans[|scans| - 1].hi)
  }

  lemma GatherAppend(chain: Chain, scans: seq<BlockCursor.Range>, r: BlockCursor.Range)
    ensures Gather(chain, scans + [r]) == Gather(chain, scans) + Logs(chain, r.lo, r.hi)
  {
    assert (scans + [r])[..|scans|] == scans;
  }

  function Events(seen: seq<Seen>): seq<LogEvent> {
    seq(|seen|, i requires 0 <= i < |seen| => seen[i].ev)
  }

  // The chain releases each epoch at most once.
  ghost predicate ReleasesOnce(chain: Chain) {
    && (forall e, b :: multiset(chain(b))[EpochReleased(e)] <= 1)
    && (forall e, b, c :: EpochReleased(e) in chain(b) && EpochReleased(e) in chain(c) ==> b == c)
  }

  ghost predicate OnlyIn(chain: Chain, ev: LogEvent, b: int) {
    forall c :: c != b ==> ev !in chain(c)
  }

  lemma {:induction false} LogsCount(chain: Chain, lo: int, hi: int, ev: LogEvent, b: int)
    requires OnlyIn(chain, ev, b)
    ensures multiset(Logs(chain, lo, hi))[ev] == if lo <= b <= hi then multiset(chain(b))[ev] else 0
    decreases hi - lo
  {
    if lo <= hi {
      LogsCount(chain, lo, hi - 1, ev, b);
    }
  }

  // An entry that the chain holds once, or not at all, is gathered as often as its block is scanned.
  lemma {:induction false} GatherCount(chain: Chain, scans: seq<BlockCursor.Range>, ev: LogEvent, b: int)
    requires OnlyIn(chain, ev, b) && multiset(chain(b))[ev] <= 1
    ensures multiset(Gather(chain, scans))[ev] == if ev in chain(b) then BlockCursor.Scanned(scans, b) else 0
  {
    if scans != [] {
      GatherCount(chain, scans[..|scans| - 1], ev, b);
      LogsCount(chain, scans[|scans| - 1].lo, scans[|scans| - 1].hi, ev, b);
    }
  }

  lemma {:induction false} LogsHas(chain: Chain, lo: int, hi: int, ev: LogEvent, b: int)
    requires lo <= b <= hi && ev in chain(b)
    ensures ev in Logs(chain, lo, hi)
    decreases hi - lo
  {
    if b < hi {
      LogsHas(chain, lo, hi - 1, ev, b);
    }
  }

  lemma {:induction false} GatherHas(chain: Chain, scans: seq<BlockCursor.Range>, ev: LogEvent, b: int)
    requires BlockCursor.Scanned(scans, b) >= 1 && ev in chain(b)
    ensures ev in Gather(chain, scans)
  {
    var r := scans[|scans| - 1];
    if BlockCursor.Within(r, b) {
      LogsHas(chain, r.lo, r.hi, ev, b);
    } else {
      GatherHas(chain, scans[..|scans| - 1], ev, b);
    }
  }

  lemma TwiceCounted(evs: seq<LogEvent>, i: nat, j: nat)
    requires i < j < |evs| && evs[i] == evs[j]
    ensures multiset(evs)[evs[i]] >= 2
  {
    assert evs == evs[..j] + evs[j..];
    assert evs[..j][i] == evs[i] && evs[j..][0] == evs[j];
  }

  // A process that sees exactly the entries of the ranges it scans sees each release at most once,
  // if the chain releases each epoch once. This is what the laws of ForceRuns ask for.
  lemma ReleasesSeenOnce(chain: Chain, buffer: nat, stored: Option<int>,
                         before: seq<BlockCursor.Event>, es: seq<BlockCursor.Event>, seen: seq<Seen>)
    requires BlockCursor.Process(buffer, stored, before, es) && ReleasesOnce(chain)
    requires Events(seen) == Gather(chain, BlockCursor.Reached(buffer, stored, before, es).scans)
    ensures UniqueReleases(seen)
  {
    var s := BlockCursor.Reached(buffer, stored, before, es);
    forall i, j | 0 <= i < j < |seen| && seen[i].ev.EpochReleased? ensures seen[j].ev != seen[i].ev {
      var ev := seen[i].ev;
      var b := BlockOf(chain, ev);
      GatherCount(chain, s.scans, ev, b);
      BlockCursor.TouchesAtMostOnce(buffer, stored, before, es, b);
      assert multiset(Events(seen))[ev] <= 1;
      if seen[j].ev == ev {
        TwiceCounted(Events(seen), i, j);
        assert false;
      }
    }
  }

  // The block that holds a release, or any block if there is none.
  lemma BlockOf(chain: Chain, ev: LogEvent) returns (b: int)
    requires ReleasesOnce(chain) && ev.EpochReleased?
    ensures OnlyIn(chain, ev, b) && multiset(chain(b))[ev] <= 1
  {
    if c :| ev in chain(c) {
      b := c;
    } else {
      b := 0;
    }
  }

  lemma SeenHas(seen: seq<Seen>, ev: LogEvent)
    requires ev in Events(seen)
    ensures HasEvent(seen, ev)
  {
    var k :| 0 <= k < |Events(seen)| && Events(seen)[k] == ev;
    assert seen[k].ev == ev;
  }

  // No log entry between the cursor a process began with and the cursor it has reached gets lost,
  // unless it took its cursor of 0 for none: the entry was seen, or its block was skipped because
  // it had fallen a whole buffer behind the head. Each release among those seen is pending or was
  // due in a sweep of this process.
  lemma EntriesAreHandled(cfg: Settings, now: real, nonce: int, history: seq<Event>, chain: Chain,
                          buffer: nat, stored: Option<int>,
                          before: seq<BlockCursor.Event>, es: seq<BlockCursor.Event>, b: int, ev: LogEvent)
    requires BlockCursor.Process(buffer, stored, before, es) && Run(cfg, Start(now, nonce), history)
    requires !BlockCursor.EverForgets(buffer, BlockCursor.Fresh(buffer, stored, before, es), es)
    requires Events(Exec(cfg, Start(now, nonce), history).seen)
          == Gather(chain, BlockCursor.Reached(buffer, stored, before, es).scans)
    requires BlockCursor.Began(buffer, stored, before, es) < b <= BlockCursor.Reached(buffer, stored, before, es).last
    requires ev in chain(b)
    ensures var c := BlockCursor.Reached(buffer, stored, before, es);
      var s := Exec(cfg, Start(now, nonce), history);
      || (exists k :: k in c.skips && BlockCursor.Within(k.range, b) && k.head - b >= buffer)
      || (HasEvent(s.seen, ev) && (ev.EpochReleased? ==>
            ev.epoch in s.swept || exists x :: x in s.tables.pending && x.1 == ev.epoch))
  {
    var c := BlockCursor.Reached(buffer, stored, before, es);
    var s := Exec(cfg, Start(now, nonce), history);
    BlockCursor.EachBlockOnce(buffer, stored, before, es);
    assert BlockCursor.Touched(c, b) == 1;
    if BlockCursor.Scanned(c.scans, b) >= 1 {
      GatherHas(chain, c.scans, ev, b);
      SeenHas(s.seen, ev);
      if ev.EpochReleased? {
        ForceRuns.NoReleaseForgotten(cfg, now, nonce, history, ev.epoch);
      }
    } else {
      BlockCursor.TouchesAtMostOnce(buffer, stored, before, es, b);
      var k := BlockCursor.SkippedIn(c.skips, b);
      assert k in c.skips && BlockCursor.Within(k.range, b) && k.head - b >= buffer;
    }
  }
}
