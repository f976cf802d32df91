/** The retry loop over several RPC endpoints (helpers/rpc_helper.py). */
module RpcRetry {
  import opened Arith
  import opened Wrappers

  // The 'result' field of a JSON answer.
  datatype Field = Missing | Falsy | Value(text: string)

  // A post that raised, or its JSON answer.
  datatype Reply = Failed | Json(result: Field)

  datatype Outcome = Response(reply: Reply) | Bail | KeyError

  // The loop goes on after this reply. byBlock says that the procedure is eth_getBlockByNumber, for
  // which an empty result counts as a failure (and a missing one raises).
  predicate GoesOn(byBlock: bool, r: Reply) {
    r.Failed? || (byBlock && r.result.Falsy?)
  }

  function Result(byBlock: bool, r: Reply): Outcome
    requires !GoesOn(byBlock, r)
  {
    if byBlock && r.result.Missing? then KeyError else Response(r)
  }

  // What the first n posts come to: the last of them is the first that was answered at all, for
  // eth_getBlockByNumber the first whose answer holds a non-empty result or none, and it is returned;
  // without a result field that procedure raises.
  ghost predicate FirstAnswer(byBlock: bool, reply: nat -> Reply, n: nat, out: Outcome) {
    && n >= 1 && reply(n - 1).Json? && (byBlock ==> reply(n - 1).result != Falsy)
    && InVain(byBlock, reply, n - 1)
    && out == if byBlock && reply(n - 1).result == Missing then KeyError else Response(reply(n - 1))
  }

  // The first n posts all failed, or for eth_getBlockByNumber were answered with an empty result.
  ghost predicate InVain(byBlock: bool, reply: nat -> Reply, n: nat) {
    forall k :: 0 <= k < n ==> reply(k).Failed? || (byBlock && reply(k).result == Falsy)
  }

  // The URL list `passes` times over.
  function Repeat(urls: seq<string>, passes: nat): (r: seq<string>) {
    if passes == 0 then [] else Repeat(urls, passes - 1) + urls
  }

  // The exit test after this many full passes: every URL's counter equals the limit.
  ghost predicate BailsAt(urls: seq<string>, limit: int, passes: nat) {
    forall u :: u in urls ==> multiset(Repeat(urls, passes))[u] == limit
  }

  // The loop ends in pass number `pass`, if it gets there: by the exit test or by an answer.
  ghost predicate EndsIn(urls: seq<string>, limit: int, byBlock: bool, reply: nat -> Reply, pass: nat) {
    || BailsAt(urls, limit, pass)
    || exists k :: 0 <= k < |Repeat(urls, pass + 1)| && !GoesOn(byBlock, reply(k))
  }

  ghost predicate Halts(urls: seq<string>, limit: int, byBlock: bool, reply: nat -> Reply) {
    exists pass: nat :: EndsIn(urls, limit, byBlock, reply, pass)
  }

  ghost predicate CountersAgree(urls: seq<string>, retry: map<string, int>, posts: seq<string>) {
    forall u :: u in urls ==> u in retry && retry[u] == multiset(posts)[u]
  }

  lemma CountPost(urls: seq<string>, retry: map<string, int>, posts: seq<string>, url: string)
    requires CountersAgree(urls, retry, posts) && url in urls
    ensures CountersAgree(urls, retry[url := retry[url] + 1], posts + [url])
  {
  }

  lemma {:induction false} RepeatLonger(urls: seq<string>, p: nat, q: nat)
    requires p <= q
    ensures |Repeat(urls, p)| <= |Repeat(urls, q)|
  {
    if p < q {
      RepeatLonger(urls, p, q - 1);
    }
  }

  // The first n posts give no usable answer.
  ghost predicate AllGoOn(byBlock: bool, reply: nat -> Reply, n: nat) {
    forall k :: 0 <= k < n ==> GoesOn(byBlock, reply(k))
  }

  lemma ExitTest(urls: seq<string>, limit: int, retry: map<string, int>, passes: nat)
    requires CountersAgree(urls, retry, Repeat(urls, passes))
    ensures (forall u :: u in urls ==> retry[u] == limit) <==> BailsAt(urls, limit, passes)
  {
  }

  ghost predicate NoBailBefore(urls: seq<string>, limit: int, passes: nat) {
    forall q: nat :: q < passes ==> !BailsAt(urls, limit, q)
  }

  lemma NextPass(urls: seq<string>, limit: int, passes: nat)
    requires NoBailBefore(urls, limit, passes) && !BailsAt(urls, limit, passes)
    ensures NoBailBefore(urls, limit, passes + 1)
    ensures Repeat(urls, passes + 1) == Repeat(urls, passes) + urls
  {
  }

  // A pass without a usable answer is not the last one.
  lemma NotLast(urls: seq<string>, limit: int, byBlock: bool, reply: nat -> Reply, passes: nat, end: nat)
    requires EndsIn(urls, limit, byBlock, reply, end) && passes <= end && !BailsAt(urls, limit, passes)
    requires AllGoOn(byBlock, reply, |Repeat(urls, passes + 1)|)
    ensures passes < end
  {
    RepeatLonger(urls, passes + 1, end + 1);
  }

  lemma NotLastReached(urls: seq<string>, limit: int, byBlock: bool, reply: nat -> Reply,
                       retry: map<string, int>, posts: seq<string>, passes: nat, end: nat)
    requires EndsIn(urls, limit, byBlock, reply, end) && passes <= end && !BailsAt(urls, limit, passes)
    requires Reached(urls, limit, byBlock, reply, retry, posts, passes + 1)
    ensures passes < end
  {
    NotLast(urls, limit, byBlock, reply, passes, end);
  }

  lemma PostedNext(before: seq<string>, urls: seq<string>, i: nat)
    requires i < |urls|
    ensures before + urls[..i] + [urls[i]] == before + urls[..i + 1] <= before + urls
  {
    assert urls[..i + 1] == urls[..i] + [urls[i]];
    assert before + urls == before + urls[..i + 1] + urls[i + 1..];
  }

  // The inner loop: one post to each URL in turn, until one gives a usable answer.
  method OnePass(urls: seq<string>, byBlock: bool, reply: nat -> Reply, retry0: map<string, int>, before: seq<string>)
    returns (out: Option<Outcome>, retry: map<string, int>, posts: seq<string>)
    requires CountersAgree(urls, retry0, before) && AllGoOn(byBlock, reply, |before|)
    ensures CountersAgree(urls, retry, posts)
    ensures before <= posts <= before + urls
    ensures out == None ==> posts == before + urls && AllGoOn(byBlock, reply, |posts|)
    ensures if out == None then InVain(byBlock, reply, |posts|) else FirstAnswer(byBlock, reply, |posts|, out.value)
    ensures out.Some? ==>
      && |posts| > |before| && AllGoOn(byBlock, reply, |posts| - 1)
      && !GoesOn(byBlock, reply(|posts| - 1)) && out.value == Result(byBlock, reply(|posts| - 1))
  {
    retry, posts := retry0, before;
    var i := 0;
    while i < |urls|
      invariant 0 <= i <= |urls| && posts == before + urls[..i]
      invariant CountersAgree(urls, retry, posts) && AllGoOn(byBlock, reply, |posts|)
    {
      CountPost(urls, retry, posts, urls[i]);
      retry := retry[urls[i] := retry[urls[i]] + 1];
      posts := posts + [urls[i]];
      PostedNext(before, urls, i);
      var r := reply(|posts| - 1);
      if !r.Failed? && !(byBlock && r.result.Falsy?) {
        out := Some(if byBlock && r.result.Missing? then KeyError else Response(r));
        return;
      }
      i := i + 1;
    }
    out := None;
  }

  // Where the loop stands before a pass: all URLs posted to `passes` times over, all in vain.
  ghost predicate Reached(urls: seq<string>, limit: int, byBlock: bool, reply: nat -> Reply,
                          retry: map<string, int>, posts: seq<string>, passes: nat) {
    && posts == Repeat(urls, passes)
    && CountersAgree(urls, retry, posts)
    && AllGoOn(byBlock, reply, |posts|)
    && NoBailBefore(urls, limit, passes)
  }

  // How the loop ends, in pass number `passes`: the posts are a prefix of the URL list repeated, the
  // result is the first usable answer, and it bails out at the first pass whose exit test holds.
  ghost predicate Ended(urls: seq<string>, limit: int, byBlock: bool, reply: nat -> Reply,
                        out: Outcome, posts: seq<string>, passes: nat) {
    && NoBailBefore(urls, limit, passes)
    && if out == Bail then
         posts == Repeat(urls, passes) && BailsAt(urls, limit, passes) && AllGoOn(byBlock, reply, |posts|)
       else
         && posts <= Repeat(urls, passes + 1) && |posts| > |Repeat(urls, passes)| && !BailsAt(urls, limit, passes)
         && AllGoOn(byBlock, reply, |posts| - 1)
         && !GoesOn(byBlock, reply(|posts| - 1))
         && out == Result(byBlock, reply(|posts| - 1))
  }

  // One iteration of the outer loop.
  method Iterate(urls: seq<string>, limit: int, byBlock: bool, reply: nat -> Reply,
                 retry0: map<string, int>, posts0: seq<string>, ghost passes: nat)
    returns (out: Option<Outcome>, retry: map<string, int>, posts: seq<string>)
    requires Reached(urls, limit, byBlock, reply, retry0, posts0, passes)
    ensures out.Some? ==> Ended(urls, limit, byBlock, reply, out.value, posts, passes)
    ensures out.None? ==>
      Reached(urls, limit, byBlock, reply, retry, posts, passes + 1) && !BailsAt(urls, limit, passes)
  {
    ExitTest(urls, limit, retry0, passes);
    if forall u :: u in urls ==> retry0[u] == limit {
      return Some(Bail), retry0, posts0;
    }
    NextPass(urls, limit, passes);
    out, retry, posts := OnePass(urls, byBlock, reply, retry0, posts0);
  }

  // Before the first pass, with all counters at 0.
  lemma StartReached(urls: seq<string>, limit: int, byBlock: bool, reply: nat -> Reply, retry: map<string, int>)
    requires forall u :: u in urls ==> u in retry && retry[u] == 0
    ensures Reached(urls, limit, byBlock, reply, retry, [], 0)
  {
  }

  // `sync_post_json_rpc`, on the inputs for which it ends at all; reply(k) is what comes of the k-th
  // post.
  method SyncPostJsonRpc(urls: seq<string>, limit: int, byBlock: bool, reply: nat -> Reply)
    returns (out: Outcome, posts: seq<string>, passes: nat)
    requires Halts(urls, limit, byBlock, reply)
    ensures Ended(urls, limit, byBlock, reply, out, posts, passes)
    ensures if out == Bail then InVain(byBlock, reply, |posts|) else FirstAnswer(byBlock, reply, |posts|, out)
  {
    ghost var end: nat :| EndsIn(urls, limit, byBlock, reply, end);
    var retry := map u | u in urls :: 0;
    posts, passes := [], 0;
    StartReached(urls, limit, byBlock, reply, retry);
    while true
      invariant Reached(urls, limit, byBlock, reply, retry, posts, passes) && passes <= end
      decreases end - passes
    {
      var answer;
      answer, retry, posts := Iterate(urls, limit, byBlock, reply, retry, posts, passes);
      if answer.Some? {
        return answer.value, posts, passes;
      }
      NotLastReached(urls, limit, byBlock, reply, retry, posts, passes, end);
      passes := passes + 1;
    }
  }

  lemma EndsFirst(urls: seq<string>, limit: int, byBlock: bool, reply: nat -> Reply,
                  out: Outcome, posts: seq<string>, passes: nat, out': Outcome, posts': seq<string>, passes': nat)
    requires Ended(urls, limit, byBlock, reply, out, posts, passes)
    requires Ended(urls, limit, byBlock, reply, out', posts', passes')
    ensures passes' <= passes
  {
    if passes < passes' {
      RepeatLonger(urls, passes + 1, passes');
    }
  }

  // However it ends, what it returns is the first answer, and it bails out only if there was none.
  lemma EndsWithTheFirstAnswer(urls: seq<string>, limit: int, byBlock: bool, reply: nat -> Reply,
                               out: Outcome, posts: seq<string>, passes: nat)
    requires Ended(urls, limit, byBlock, reply, out, posts, passes)
    ensures if out == Bail then InVain(byBlock, reply, |posts|) else FirstAnswer(byBlock, reply, |posts|, out)
  {
  }

  // What it returns is determined by the inputs.
  lemma EndIsUnique(urls: seq<string>, limit: int, byBlock: bool, reply: nat -> Reply,
                    out: Outcome, posts: seq<string>, passes: nat, out': Outcome, posts': seq<string>, passes': nat)
    requires Ended(urls, limit, byBlock, reply, out, posts, passes)
    requires Ended(urls, limit, byBlock, reply, out', posts', passes')
    ensures out == out' && |posts| == |posts'| && passes == passes'
  {
    EndsFirst(urls, limit, byBlock, reply, out, posts, passes, out', posts', passes');
    EndsFirst(urls, limit, byBlock, reply, out', posts', passes', out, posts, passes);
  }

  // A pass whose exit test failed and whose posts were all in vain is not one the loop ends in.
  lemma NotYet(urls: seq<string>, limit: int, byBlock: bool, reply: nat -> Reply,
               retry: map<string, int>, posts: seq<string>, passes: nat, pass: nat)
    requires Reached(urls, limit, byBlock, reply, retry, posts, passes) && pass < passes
    ensures !EndsIn(urls, limit, byBlock, reply, pass)
  {
    RepeatLonger(urls, pass + 1, passes);
  }

  lemma EndedThere(urls: seq<string>, limit: int, byBlock: bool, reply: nat -> Reply,
                   out: Outcome, posts: seq<string>, passes: nat)
    requires Ended(urls, limit, byBlock, reply, out, posts, passes)
    ensures EndsIn(urls, limit, byBlock, reply, passes)
  {
  }

  // The loop of `sync_post_json_rpc` on any input, followed for at most n passes. It returns within
  // them if and only if one of them is a pass it ends in. Otherwise it has made n full passes in
  // vain and stands before the next one; in particular, on an input on which Halts fails it never
  // returns, however long it is followed.
  method FirstPasses(urls: seq<string>, limit: int, byBlock: bool, reply: nat -> Reply, n: nat)
    returns (out: Option<Outcome>, retry: map<string, int>, posts: seq<string>, passes: nat)
    ensures out.Some? ==> passes < n && Ended(urls, limit, byBlock, reply, out.value, posts, passes)
    ensures out.None? ==> passes == n && Reached(urls, limit, byBlock, reply, retry, posts, n)
    ensures if out.None? || out == Some(Bail) then InVain(byBlock, reply, |posts|)
            else FirstAnswer(byBlock, reply, |posts|, out.value)
    ensures out.Some? <==> exists pass: nat :: pass < n && EndsIn(urls, limit, byBlock, reply, pass)
    ensures !Halts(urls, limit, byBlock, reply) ==> out.None?
  {
    retry := map u | u in urls :: 0;
    out, posts, passes := None, [], 0;
    StartReached(urls, limit, byBlock, reply, retry);
    while passes < n
      invariant 0 <= passes <= n && Reached(urls, limit, byBlock, reply, retry, posts, passes)
    {
      out, retry, posts := Iterate(urls, limit, byBlock, reply, retry, posts, passes);
      if out.Some? {
        EndedThere(urls, limit, byBlock, reply, out.value, posts, passes);
        return;
      }
      passes := passes + 1;
    }
    out := None;
    forall pass: nat | pass < n ensures !EndsIn(urls, limit, byBlock, reply, pass) {
      NotYet(urls, limit, byBlock, reply, retry, posts, n, pass);
    }
  }

  // The first pass the loop ends in.
  lemma {:induction false} FirstEnd(urls: seq<string>, limit: int, byBlock: bool, reply: nat -> Reply, end: nat)
    returns (first: nat)
    requires EndsIn(urls, limit, byBlock, reply, end)
    ensures first <= end && EndsIn(urls, limit, byBlock, reply, first)
    ensures forall pass: nat :: pass < first ==> !EndsIn(urls, limit, byBlock, reply, pass)
  {
    if pass: nat :| pass < end && EndsIn(urls, limit, byBlock, reply, pass) {
      first := FirstEnd(urls, limit, byBlock, reply, pass);
    } else {
      first := end;
    }
  }

  lemma {:induction false} FirstUsable(byBlock: bool, reply: nat -> Reply, k: nat) returns (first: nat)
    requires !GoesOn(byBlock, reply(k))
    ensures first <= k && !GoesOn(byBlock, reply(first)) && AllGoOn(byBlock, reply, first)
  {
    if j: nat :| j < k && !GoesOn(byBlock, reply(j)) {
      first := FirstUsable(byBlock, reply, j);
    } else {
      first := k;
    }
  }

  ghost predicate Returns(urls: seq<string>, limit: int, byBlock: bool, reply: nat -> Reply) {
    exists out, posts, passes: nat :: Ended(urls, limit, byBlock, reply, out, posts, passes)
  }

  // Halts, which SyncPostJsonRpc asks for, is exactly that there is a way the loop ends.
  lemma ReturnsExactlyWhen(urls: seq<string>, limit: int, byBlock: bool, reply: nat -> Reply)
    ensures Halts(urls, limit, byBlock, reply) <==> Returns(urls, limit, byBlock, reply)
  {
    if Halts(urls, limit, byBlock, reply) {
      var end: nat :| EndsIn(urls, limit, byBlock, reply, end);
      var pass := FirstEnd(urls, limit, byBlock, reply, end);
      EndsThere(urls, limit, byBlock, reply, pass);
    } else if Returns(urls, limit, byBlock, reply) {
      var out, posts, passes: nat :| Ended(urls, limit, byBlock, reply, out, posts, passes);
      EndedThere(urls, limit, byBlock, reply, out, posts, passes);
      assert false;
    }
  }

  lemma EndsThere(urls: seq<string>, limit: int, byBlock: bool, reply: nat -> Reply, pass: nat)
    requires EndsIn(urls, limit, byBlock, reply, pass)
    requires forall q: nat :: q < pass ==> !EndsIn(urls, limit, byBlock, reply, q)
    ensures Returns(urls, limit, byBlock, reply)
  {
    forall q: nat | q < pass ensures !BailsAt(urls, limit, q) {
      assert !EndsIn(urls, limit, byBlock, reply, q);
    }
    assert AllGoOn(byBlock, reply, |Repeat(urls, pass)|) by {
      if pass > 0 {
        assert !EndsIn(urls, limit, byBlock, reply, pass - 1);
      }
    }
    if BailsAt(urls, limit, pass) {
      assert Ended(urls, limit, byBlock, reply, Bail, Repeat(urls, pass), pass);
    } else {
      var k: nat :| k < |Repeat(urls, pass + 1)| && !GoesOn(byBlock, reply(k));
      var first := FirstUsable(byBlock, reply, k);
      assert first >= |Repeat(urls, pass)|;
      var posts := Repeat(urls, pass + 1)[..first + 1];
      assert Ended(urls, limit, byBlock, reply, Result(byBlock, reply(first)), posts, pass);
    }
  }

  // --- When it ends on an all-failing network -------------------------------------------------

  lemma {:induction false} RepeatCount(urls: seq<string>, passes: nat, u: string)
    ensures multiset(Repeat(urls, passes))[u] == passes * multiset(urls)[u]
  {
    if passes > 0 {
      RepeatCount(urls, passes - 1, u);
      MulStep(passes - 1, multiset(urls)[u]);
    }
  }

  // Every distinct URL occurs m times, and m divides the limit.
  ghost predicate Balanced(urls: seq<string>, limit: int, m: int) {
    m >= 1 && (forall u :: u in urls ==> multiset(urls)[u] == m) && limit % m == 0
  }

  lemma BalancedBails(urls: seq<string>, limit: int, m: int)
    requires limit >= 1 && Balanced(urls, limit, m)
    ensures limit / m >= 0 && BailsAt(urls, limit, limit / m)
  {
    ExactDivision(limit, m);
    forall u | u in urls ensures multiset(Repeat(urls, limit / m))[u] == limit {
      RepeatCount(urls, limit / m, u);
    }
  }

  lemma SameProduct(p: int, a: int, b: int)
    requires p >= 1 && p * a == p * b
    ensures a == b
  {
    if a < b {
      SmallerProduct(p, a, b);
    } else if b < a {
      SmallerProduct(p, b, a);
    }
  }

  lemma ExactQuotient(limit: int, m: int, passes: nat)
    requires limit >= 1 && m >= 0 && passes * m == limit
    ensures m >= 1 && passes >= 1 && limit % m == 0 && limit / m == passes
  {
    if m >= 1 {
      DivUnique(limit, m, passes, 0);
    }
  }

  lemma BailsBalanced(urls: seq<string>, limit: int, passes: nat)
    requires limit >= 1 && urls != [] && BailsAt(urls, limit, passes)
    ensures var m := multiset(urls)[urls[0]]; Balanced(urls, limit, m) && passes == limit / m
  {
    var m := multiset(urls)[urls[0]];
    RepeatCount(urls, passes, urls[0]);
    assert urls[0] in urls;
    ExactQuotient(limit, m, passes);
    forall u | u in urls ensures multiset(urls)[u] == m {
      RepeatCount(urls, passes, u);
      SameProduct(passes, multiset(urls)[u], m);
    }
  }

  lemma SmallerProduct(p: int, a: int, b: int)
    requires p >= 1 && a < b
    ensures p * a < p * b
  {
    MulMonotone(1, p, b - a);
    assert p * b - p * a == p * (b - a);
  }

  lemma {:induction false} RepeatReaches(urls: seq<string>, passes: nat)
    requires urls != []
    ensures |Repeat(urls, passes)| >= passes
  {
    if passes > 0 {
      RepeatReaches(urls, passes - 1);
    }
  }

  lemma EndsOnlyIf(urls: seq<string>, limit: int, byBlock: bool, reply: nat -> Reply)
    requires limit >= 1 && urls != [] && Halts(urls, limit, byBlock, reply)
    ensures (exists k: nat :: !GoesOn(byBlock, reply(k))) || exists m :: Balanced(urls, limit, m)
  {
    var p: nat :| EndsIn(urls, limit, byBlock, reply, p);
    if BailsAt(urls, limit, p) {
      BailsBalanced(urls, limit, p);
    }
  }

  lemma AnswerEnds(urls: seq<string>, limit: int, byBlock: bool, reply: nat -> Reply, k: nat)
    requires urls != [] && !GoesOn(byBlock, reply(k))
    ensures Halts(urls, limit, byBlock, reply)
  {
    RepeatReaches(urls, k + 1);
    assert EndsIn(urls, limit, byBlock, reply, k);
  }

  lemma BalanceEnds(urls: seq<string>, limit: int, byBlock: bool, reply: nat -> Reply, m: int)
    requires limit >= 1 && Balanced(urls, limit, m)
    ensures Halts(urls, limit, byBlock, reply)
  {
    BalancedBails(urls, limit, m);
    assert EndsIn(urls, limit, byBlock, reply, limit / m);
  }

  // With a limit of at least 1 the loop ends if and only if the list is empty, some post gives a
  // usable answer, or all distinct URLs occur equally often with a multiplicity that divides the
  // limit.
  lemma EndsExactlyWhen(urls: seq<string>, limit: int, byBlock: bool, reply: nat -> Reply)
    requires limit >= 1
    ensures Halts(urls, limit, byBlock, reply) <==>
            urls == [] || (exists k: nat :: reply(k).Json? && !(byBlock && reply(k).result == Falsy))
            || exists m :: Balanced(urls, limit, m)
  {
    if urls == [] {
      assert EndsIn(urls, limit, byBlock, reply, 0);
    } else if Halts(urls, limit, byBlock, reply) {
      EndsOnlyIf(urls, limit, byBlock, reply);
    } else if k: nat :| !GoesOn(byBlock, reply(k)) {
      AnswerEnds(urls, limit, byBlock, reply, k);
    } else if m :| Balanced(urls, limit, m) {
      BalanceEnds(urls, limit, byBlock, reply, m);
    }
  }

  // The number of passes after which it bails out, and so the measure that counts down to it.
  lemma PassesToBail(urls: seq<string>, limit: int, m: int, passes: nat)
    requires limit >= 1 && urls != [] && Balanced(urls, limit, m)
    ensures BailsAt(urls, limit, passes) <==> passes == limit / m
  {
    BalancedBails(urls, limit, m);
    assert urls[0] in urls;
    if BailsAt(urls, limit, passes) {
      BailsBalanced(urls, limit, passes);
    }
  }

  ghost predicate Distinct(urls: seq<string>) {
    forall i, j :: 0 <= i < j < |urls| ==> urls[i] != urls[j]
  }

  lemma {:induction false} DistinctOnce(urls: seq<string>, u: string)
    requires Distinct(urls)
    ensures multiset(urls)[u] == if u in urls then 1 else 0
  {
    if urls != [] {
      var front, last := urls[..|urls| - 1], urls[|urls| - 1];
      DistinctOnce(front, u);
      assert urls == front + [last];
    }
  }

  // With distinct URLs the exit test holds after exactly `limit` passes, so each URL is posted to
  // exactly `limit` times before the loop bails out, and the loop always ends.
  lemma DistinctBailsAtLimit(urls: seq<string>, limit: int, byBlock: bool, reply: nat -> Reply, passes: nat)
    requires limit >= 1 && urls != [] && Distinct(urls)
    ensures BailsAt(urls, limit, passes) <==> passes == limit
    ensures Halts(urls, limit, byBlock, reply)
  {
    forall u ensures multiset(urls)[u] == if u in urls then 1 else 0 {
      DistinctOnce(urls, u);
    }
    assert urls[0] in urls;
    assert Balanced(urls, limit, 1);
    BalancedBails(urls, limit, 1);
    assert limit / 1 == limit;
    assert EndsIn(urls, limit, byBlock, reply, limit);
    if BailsAt(urls, limit, passes) {
      BailsBalanced(urls, limit, passes);
    }
  }

  lemma {:induction false} RepeatPrefix(urls: seq<string>, p: nat, q: nat)
    requires p <= q
    ensures Repeat(urls, p) <= Repeat(urls, q)
  {
    if p < q {
      RepeatPrefix(urls, p, q - 1);
    }
  }

  // With distinct URLs the posts are a prefix of the URL list repeated `limit` times.
  lemma DistinctPosts(urls: seq<string>, limit: int, byBlock: bool, reply: nat -> Reply,
                      out: Outcome, posts: seq<string>, passes: nat)
    requires limit >= 1 && urls != [] && Distinct(urls)
    requires Ended(urls, limit, byBlock, reply, out, posts, passes)
    ensures passes <= limit && (out == Bail <==> passes == limit)
    ensures posts <= Repeat(urls, limit)
  {
    DistinctBailsAtLimit(urls, limit, byBlock, reply, passes);
    DistinctBailsAtLimit(urls, limit, byBlock, reply, limit);
    if out != Bail {
      RepeatPrefix(urls, passes + 1, limit);
    }
  }

  // With distinct URLs the loop bails out exactly when none of the first `limit` rounds of posts
  // gives a usable answer, and then each URL has been posted to exactly `limit` times.
  lemma DistinctBail(urls: seq<string>, limit: int, byBlock: bool, reply: nat -> Reply,
                     out: Outcome, posts: seq<string>, passes: nat)
    requires limit >= 1 && urls != [] && Distinct(urls)
    requires Ended(urls, limit, byBlock, reply, out, posts, passes)
    ensures out == Bail <==> InVain(byBlock, reply, |Repeat(urls, limit)|)
    ensures out == Bail ==> forall u :: u in urls ==> multiset(posts)[u] == limit
  {
    DistinctPosts(urls, limit, byBlock, reply, out, posts, passes);
  }

  // --- The block number -----------------------------------------------------------------------

  // `rpc_eth_blocknumber` on any input, followed for at most n passes of the loop below it; number is
  // None when it raises, parse is int(text, 16). It returns or raises within them if and only if
  // the loop ends in one of them. A number comes from the first post that was answered at all; when
  // it raises, every post failed or that first answer held no number.
  method EthBlockNumber(urls: seq<string>, limit: int, reply: nat -> Reply, parse: string -> Option<int>, n: nat)
    returns (done: bool, number: Option<int>, posts: seq<string>)
    ensures done <==> exists pass: nat :: pass < n && EndsIn(urls, limit, false, reply, pass)
    ensures !done ==> posts == Repeat(urls, n) && forall k :: 0 <= k < |posts| ==> reply(k).Failed?
    ensures done && number.Some? ==>
      && posts != [] && (forall k :: 0 <= k < |posts| - 1 ==> reply(k).Failed?)
      && var r := reply(|posts| - 1); r.Json? && r.result.Value? && number == parse(r.result.text)
    ensures done && number.None? ==>
      || (forall k :: 0 <= k < |posts| ==> reply(k).Failed?)
      || (posts != [] && (forall k :: 0 <= k < |posts| - 1 ==> reply(k).Failed?) &&
          var r := reply(|posts| - 1); r.Json? && (r.result.Value? ==> parse(r.result.text) == None))
  {
    var out, retry, passes;
    out, retry, posts, passes := FirstPasses(urls, limit, false, reply, n);
    done, number := out.Some?, None;
    if done && out.value.Response? && out.value.reply.Json? && out.value.reply.result.Value? {
      number := parse(out.value.reply.result.text);
    }
  }
}
