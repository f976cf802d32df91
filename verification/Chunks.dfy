/** Cutting a block range into fixed-size pieces (`chunks` in utils/helpers.py). */
module Chunks {
  import opened Arith

  // One item the generator yields: an inclusive block range and its running number.
  datatype Chunk = Chunk(begin: int, end: int, index: nat)

  // The blocks start..stop, both included; empty when stop < start.
  function Range(start: int, stop: int): (r: seq<int>) {
    seq(if stop < start then 0 else stop - start + 1, i => start + i)
  }

  // All blocks the chunks cover, in the order they are yielded.
  function Flatten(cs: seq<Chunk>): (r: seq<int>) {
    if cs == [] then []
    else Flatten(cs[..|cs| - 1]) + Range(cs[|cs| - 1].begin, cs[|cs| - 1].end)
  }

  lemma RangeSplit(start: int, mid: int, stop: int)
    requires start <= mid + 1 <= stop + 1
    ensures Range(start, stop) == Range(start, mid) + Range(mid + 1, stop)
  {
  }

  // The chunks cover start..upto in order: all but the last have exactly n blocks, the last has
  // 1..n, they are adjacent and numbered from 1.
  ghost predicate Regular(cs: seq<Chunk>, start: int, upto: int, n: int) {
    && (cs == [] ==> upto == start - 1)
    && (cs != [] ==> cs[0].begin == start && cs[|cs| - 1].end == upto)
    && (forall k :: 0 <= k < |cs| ==> cs[k].index == k + 1 && 1 <= cs[k].end - cs[k].begin + 1 <= n)
    && (forall k :: 0 <= k < |cs| - 1 ==> cs[k].end == cs[k].begin + n - 1 && cs[k + 1].begin == cs[k].end + 1)
  }

  // The last chunk, if there is one, is a full one.
  ghost predicate AllFull(cs: seq<Chunk>, n: int) {
    cs != [] ==> var c := cs[|cs| - 1]; c.end - c.begin + 1 == n
  }

  lemma {:induction false} RegularBegin(cs: seq<Chunk>, start: int, upto: int, n: int, k: nat)
    requires Regular(cs, start, upto, n) && k < |cs|
    ensures cs[k].begin == start + k * n
  {
    if k > 0 {
      RegularBegin(cs, start, upto, n, k - 1);
      MulStep(k - 1, n);
    }
  }

  lemma RegularAppend(cs: seq<Chunk>, c: Chunk, start: int, n: int)
    requires Regular(cs, start, c.begin - 1, n) && AllFull(cs, n)
    requires c.index == |cs| + 1 && 1 <= c.end - c.begin + 1 <= n
    ensures Regular(cs + [c], start, c.end, n)
  {
  }

  lemma {:induction false} RegularWithin(cs: seq<Chunk>, start: int, upto: int, n: int, k: nat)
    requires Regular(cs, start, upto, n) && k < |cs|
    ensures cs[k].end <= upto
    decreases |cs| - k
  {
    if k < |cs| - 1 {
      RegularWithin(cs, start, upto, n, k + 1);
    }
  }

  lemma RegularFront(cs: seq<Chunk>, start: int, upto: int, n: int)
    requires Regular(cs, start, upto, n) && cs != []
    ensures Regular(cs[..|cs| - 1], start, cs[|cs| - 1].begin - 1, n)
  {
  }

  lemma RegularLast(cs: seq<Chunk>, start: int, upto: int, n: int)
    requires Regular(cs, start, upto, n) && cs != []
    ensures cs[|cs| - 1].end == upto && cs[|cs| - 1].begin <= upto
  {
  }

  // A regular list of chunks concatenates to the whole range.
  lemma {:induction false} RegularCovers(cs: seq<Chunk>, start: int, upto: int, n: int)
    requires n > 0 && Regular(cs, start, upto, n)
    ensures start <= upto + 1
    ensures Flatten(cs) == Range(start, upto)
  {
    if cs != [] {
      var c := cs[|cs| - 1];
      RegularLast(cs, start, upto, n);
      RegularFront(cs, start, upto, n);
      RegularCovers(cs[..|cs| - 1], start, c.begin - 1, n);
      RangeSplit(start, c.begin - 1, upto);
      assert Flatten(cs) == Flatten(cs[..|cs| - 1]) + Range(c.begin, upto);
    }
  }

  // A regular list has ceil(length / n) chunks.
  lemma RegularCount(cs: seq<Chunk>, start: int, upto: int, n: int)
    requires n > 0 && Regular(cs, start, upto, n)
    ensures |cs| == (upto - start + 1 + n - 1) / n
  {
    if cs == [] {
      DivUnique(upto - start + n, n, 0, n - 1);
    } else {
      var k := |cs| - 1;
      RegularBegin(cs, start, upto, n, k);
      MulStep(k, n);
      DivUnique(upto - start + n, n, k + 1, upto - cs[k].begin);
    }
  }

  // The chunks partition the range.
  method Cut(start: int, stop: int, n: int) returns (cs: seq<Chunk>)
    requires n > 0
    ensures if stop < start then cs == [] else Regular(cs, start, stop, n)
    ensures Flatten(cs) == Range(start, stop)
    ensures |cs| == if stop < start then 0 else (stop - start + 1 + n - 1) / n
  {
    cs := [];
    var i, runIdx := start, 0;
    while i < stop + 1
      invariant |cs| == runIdx
      invariant i <= stop ==> Regular(cs, start, i - 1, n) && AllFull(cs, n)
      invariant i > stop && start <= stop ==> Regular(cs, start, stop, n)
      invariant stop < start ==> cs == []
      decreases stop + 1 - i
    {
      if i == stop + 1 {
        assert false;  // the early return is never taken
      }
      var end := if i + n - 1 <= stop then i + n - 1 else stop;
      runIdx := runIdx + 1;
      RegularAppend(cs, Chunk(i, end, runIdx), start, n);
      cs := cs + [Chunk(i, end, runIdx)];
      i := i + n;
    }
    if start <= stop {
      RegularCovers(cs, start, stop, n);
      RegularCount(cs, start, stop, n);
    }
  }
}
