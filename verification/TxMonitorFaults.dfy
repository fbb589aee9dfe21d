/** Where the block follower fails: falling behind the chain, addresses it looks
    for, and transactions that are deep when they are registered. */
module TxMonitorFaults {
  import opened Outcome
  import opened TxMonitors

  // ----- when a check reaches the tip ---------------------------------------------------------

  /** The new blocks are no more than a check may process, and pay no address still
      looked for. */
  predicate Manageable(m: Monitor, chain: seq<seq<Tx>>, at: nat, turns: int)
  {
    |chain| - at <= turns && Undisturbed(m.watching, chain, at, |chain|)
  }

  lemma FaultRaises(m: Monitor, k: nat, txs: seq<Tx>, height: nat)
    ensures !NoFault(m.watching, txs) ==> Processed(m, k, txs, height).1
  {
    BlockPassesIff(m, k, txs, height);
    if !NoFault(m.watching, txs) {
      var i :| 0 <= i < |m.watching| && Faults(m.watching[i], txs);
      assert Raises(m.watching[i], k, txs, height);
    }
  }

  /** A turn of a check at a block not processed before. */
  lemma NewTurn(m: Monitor, k: nat, chain: seq<seq<Tx>>, at: nat)
    requires AllSaved(m.watching) && at < |chain| && m.processed != Some(at) && forall g :: g in m.blocks ==> g < at
    ensures var (r, after) := OneBlock(m, k, chain, at);
            if NoFault(m.watching, chain[at]) then
              AllSaved(r.watching) && r.processed == Some(at) && (forall g :: g in r.blocks ==> g <= at) &&
              Undisturbed(r.watching, chain, at + 1, |chain|) == Undisturbed(m.watching, chain, at + 1, |chain|) &&
              (if at + 1 < |chain| then after == Some(at + 1) && r.latest == m.latest else after == None)
            else after == None && r.latest == m.latest && r.processed == m.processed
  {
    if NoFault(m.watching, chain[at]) {
      ProcessingSaved(m, k, chain[at], at);
      BlockKeepsUndisturbed(m, k, chain[at], at, chain, at + 1, |chain|);
    } else {
      FaultRaises(m, k, chain[at], at);
      BlockPassesIff(m, k, chain[at], at);
    }
  }

  lemma {:induction false} LoopStops(m: Monitor, l: Limits, chain: seq<seq<Tx>>, at: nat, checks: nat)
    requires AllSaved(m.watching) && at < |chain| && 1 <= checks
    requires (m.processed.Some? ==> m.processed.value < at) && forall g :: g in m.blocks ==> g < at
    requires !Manageable(m, chain, at, l.checks + 1 - checks)
    ensures var r := Looped(m, l, chain, at, checks);
            r.latest == m.latest && r.processed != Some(|chain| - 1)
    decreases |chain| - at
  {
    if checks <= l.checks {
      NewTurn(m, l.confirmations, chain, at);
      SplitUndisturbed(m.watching, chain, at);
      var (m', after) := OneBlock(m, l.confirmations, chain, at);
      if after.Some? { LoopStops(m', l, chain, at + 1, checks + 1); }
    }
  }

  lemma SplitUndisturbed(ws: seq<Watch>, chain: seq<seq<Tx>>, at: nat)
    requires at < |chain|
    ensures Undisturbed(ws, chain, at, |chain|) <==> NoFault(ws, chain[at]) && Undisturbed(ws, chain, at + 1, |chain|)
  {
  }

  /** A check processes the last block exactly when the chain has not grown by more
      blocks than it may process and none of the new ones pays an address still
      looked for; only then does its latest block move on. */
  lemma KeepsUpIff(m: Monitor, l: Limits, chain: seq<seq<Tx>>)
    requires Tracking(m) && AllSaved(m.watching) && m.latest < |chain| && l.checks >= 1
    ensures var r := Checked(m, l, chain);
            (r.processed == Some(|chain| - 1) <==> Manageable(m, chain, Next(m), l.checks)) &&
            r.latest == if Manageable(m, chain, Next(m), l.checks) then |chain| - 1 else m.latest
  {
    CheckStartsAtNext(m, l, chain);
    if Manageable(m, chain, Next(m), l.checks) {
      CheckReplays(m, l, chain);
      if Next(m) < |chain| { LoopReplays(m, l, chain, Next(m), 1); }
    } else if Next(m) < |chain| {
      LoopStops(m, l, chain, Next(m), 1);
    }
  }

  // ----- falling behind -----------------------------------------------------------------------

  /** The blocks a check processes, in order, from its `checks`-th turn on. */
  function Heights(m: Monitor, l: Limits, chain: seq<seq<Tx>>, at: nat, checks: nat): (r: seq<nat>)
    requires at < |chain|
    ensures forall i :: 0 <= i < |r| ==> at <= r[i] < |chain|
    decreases l.checks + 1 - checks
  {
    var known := m.processed == Some(at) || at in m.blocks;
    if checks > l.checks || (known && at + 1 == |chain|) then []
    else
      var (m', after) := OneBlock(m, l.confirmations, chain, at);
      [if known then at + 1 else at] +
      if after.None? then [] else Heights(m', l, chain, after.value, checks + 1)
  }

  /** The blocks at these heights, processed one after the other. */
  function Through(m: Monitor, k: nat, chain: seq<seq<Tx>>, heights: seq<nat>): Monitor
    requires forall i :: 0 <= i < |heights| ==> heights[i] < |chain|
    decreases |heights|
  {
    if heights == [] then m
    else Through(Processed(m, k, chain[heights[0]], heights[0]).0, k, chain, heights[1..])
  }

  lemma OneBlockProcesses(m: Monitor, k: nat, chain: seq<seq<Tx>>, at: nat)
    requires at < |chain|
    ensures var known := m.processed == Some(at) || at in m.blocks;
            var next := if known then at + 1 else at;
            next < |chain| ==>
              var (r, after) := OneBlock(m, k, chain, at);
              r.(latest := m.latest) == Processed(m, k, chain[next], next).0 && (after.Some? ==> r.latest == m.latest)
  {
  }

  lemma LoopUnfolds(m: Monitor, l: Limits, chain: seq<seq<Tx>>, at: nat, checks: nat)
    requires at < |chain| && checks <= l.checks
    ensures var known := m.processed == Some(at) || at in m.blocks;
            var next := if known then at + 1 else at;
            next < |chain| ==>
              var (r, after) := OneBlock(m, l.confirmations, chain, at);
              if after.None? then Looped(m, l, chain, at, checks) == r && Heights(m, l, chain, at, checks) == [next]
              else Looped(m, l, chain, at, checks) == Looped(r, l, chain, after.value, checks + 1) &&
                   Heights(m, l, chain, at, checks) == [next] + Heights(r, l, chain, after.value, checks + 1)
  {
  }

  lemma ThroughNext(m: Monitor, k: nat, chain: seq<seq<Tx>>, height: nat, rest: seq<nat>)
    requires height < |chain| && forall i :: 0 <= i < |rest| ==> rest[i] < |chain|
    ensures Through(m, k, chain, [height] + rest) == Through(Processed(m, k, chain[height], height).0, k, chain, rest)
  {
    assert ([height] + rest)[1..] == rest;
  }

  lemma {:induction false} LoopGoesThrough(m: Monitor, l: Limits, chain: seq<seq<Tx>>, at: nat, checks: nat)
    requires at < |chain|
    ensures Looped(m, l, chain, at, checks).(latest := m.latest)
            == Through(m, l.confirmations, chain, Heights(m, l, chain, at, checks))
    decreases l.checks + 1 - checks
  {
    var known := m.processed == Some(at) || at in m.blocks;
    if checks <= l.checks && !(known && at + 1 == |chain|) {
      var next := if known then at + 1 else at;
      var (m', after) := OneBlock(m, l.confirmations, chain, at);
      LoopUnfolds(m, l, chain, at, checks);
      OneBlockProcesses(m, l.confirmations, chain, at);
      if after.None? {
        ThroughNext(m, l.confirmations, chain, next, []);
        assert [next] + [] == [next];
      } else {
        ThroughNext(m, l.confirmations, chain, next, Heights(m', l, chain, after.value, checks + 1));
        LoopGoesThrough(m', l, chain, after.value, checks + 1);
      }
    }
  }

  /** A block is passed over at most every other turn. */
  lemma {:induction false} HeightsAdvance(m: Monitor, l: Limits, chain: seq<seq<Tx>>, at: nat, checks: nat, i: nat)
    requires at < |chain| && i < |Heights(m, l, chain, at, checks)|
    ensures i < l.checks + 1 - checks && at + i <= Heights(m, l, chain, at, checks)[i] <= at + 2 * i + 1
    decreases i
  {
    var (m', after) := OneBlock(m, l.confirmations, chain, at);
    if i > 0 {
      HeightsAdvance(m', l, chain, after.value, checks + 1, i - 1);
    }
  }

  lemma {:induction false} HeightsSuffice(m: Monitor, l: Limits, chain: seq<seq<Tx>>, at: nat, checks: nat, n: nat)
    requires at < |chain| && at + 2 * n <= |chain| && n <= l.checks + 1 - checks
    requires AllSaved(m.watching) && Undisturbed(m.watching, chain, at, |chain|)
    ensures n <= |Heights(m, l, chain, at, checks)|
    decreases n
  {
    if n > 0 {
      var next := if m.processed == Some(at) || at in m.blocks then at + 1 else at;
      ProcessingSaved(m, l.confirmations, chain[next], next);
      BlockKeepsUndisturbed(m, l.confirmations, chain[next], next, chain, next + 1, |chain|);
      var (m', after) := OneBlock(m, l.confirmations, chain, at);
      if n > 1 { HeightsSuffice(m', l, chain, after.value, checks + 1, n - 1); }
    }
  }

  /** Processing the blocks at these heights raises nowhere. */
  predicate Clear(m: Monitor, chain: seq<seq<Tx>>, heights: seq<nat>)
  {
    AllSaved(m.watching) && Distinct(m.watching) &&
    forall i :: 0 <= i < |heights| ==> heights[i] < |chain| && NoFault(m.watching, chain[heights[i]])
  }

  lemma StaysClear(m: Monitor, k: nat, chain: seq<seq<Tx>>, heights: seq<nat>)
    requires heights != [] && Clear(m, chain, heights)
    ensures Clear(Processed(m, k, chain[heights[0]], heights[0]).0, chain, heights[1..])
  {
    var (at, rest) := (heights[0], heights[1..]);
    ProcessingSaved(m, k, chain[at], at);
    BlockOfOne(m, k, chain[at], at, 0);
    forall i | 0 <= i < |rest| ensures NoFault(Processed(m, k, chain[at], at).0.watching, chain[rest[i]]) {
      BlockKeepsFaults(m, k, chain[at], at, chain[rest[i]]);
    }
  }

  lemma {:induction false} ThroughWithout(m: Monitor, k: nat, chain: seq<seq<Tx>>, heights: seq<nat>, id: Id)
    requires Clear(m, chain, heights) && Find(m.watching, id) == None
    ensures Of(Through(m, k, chain, heights).fired, id) == Of(m.fired, id)
    decreases |heights|
  {
    if heights != [] {
      StaysClear(m, k, chain, heights);
      BlockOfOne(m, k, chain[heights[0]], heights[0], id);
      ThroughWithout(Processed(m, k, chain[heights[0]], heights[0]).0, k, chain, heights[1..], id);
    }
  }

  predicate Counting(w: Watch, k: nat)
  {
    w.event.Some? && w.event.value in w.callbacks && Removable(w) && w.confirmations < k
  }

  lemma CountingBlock(m: Monitor, k: nat, txs: seq<Tx>, height: nat, w: Watch)
    requires AllSaved(m.watching) && NoFault(m.watching, txs) && Distinct(m.watching)
    requires Find(m.watching, w.id) == Some(w) && Counting(w, k)
    ensures var r := Processed(m, k, txs, height).0;
            if w.confirmations + 1 < k then
              Find(r.watching, w.id) == Some(w.(confirmations := w.confirmations + 1)) &&
              Of(r.fired, w.id) == Of(m.fired, w.id)
            else
              Find(r.watching, w.id) == None &&
              Of(r.fired, w.id) == Of(m.fired, w.id) + [Fired(w.id, w.event.value, Some(height))]
  {
    BlockOfOne(m, k, txs, height, w.id);
    assert Of(m.fired, w.id) + [] == Of(m.fired, w.id);
  }

  /** There is one callback, made in the n-th of these blocks, if there are so many. */
  predicate CalledIn(fired: seq<Fired>, id: Id, e: Event, n: nat, heights: seq<nat>)
    requires n >= 1
  {
    fired == if n <= |heights| then [Fired(id, e, Some(heights[n - 1]))] else []
  }

  lemma OneBlockLater(fired: seq<Fired>, id: Id, e: Event, n: nat, heights: seq<nat>)
    requires n >= 1 && heights != [] && CalledIn(fired, id, e, n, heights[1..])
    ensures CalledIn(fired, id, e, n + 1, heights)
  {
  }

  lemma ThroughCallsNow(m: Monitor, k: nat, chain: seq<seq<Tx>>, heights: seq<nat>, w: Watch)
    requires Clear(m, chain, heights) && Find(m.watching, w.id) == Some(w) && Counting(w, k) && w.confirmations + 1 == k
    requires Of(m.fired, w.id) == [] && heights != []
    ensures CalledIn(Of(Through(m, k, chain, heights).fired, w.id), w.id, w.event.value, 1, heights)
  {
    StaysClear(m, k, chain, heights);
    CountingBlock(m, k, chain[heights[0]], heights[0], w);
    ThroughWithout(Processed(m, k, chain[heights[0]], heights[0]).0, k, chain, heights[1..], w.id);
  }

  /** A watch that was found counts every block processed, whichever it is. */
  lemma {:induction false} ThroughCounts(m: Monitor, k: nat, chain: seq<seq<Tx>>, heights: seq<nat>, w: Watch)
    requires Clear(m, chain, heights) && Find(m.watching, w.id) == Some(w) && Counting(w, k)
    requires Of(m.fired, w.id) == []
    ensures CalledIn(Of(Through(m, k, chain, heights).fired, w.id), w.id, w.event.value, k - w.confirmations, heights)
    decreases |heights|
  {
    if heights != [] {
      if w.confirmations + 1 == k {
        ThroughCallsNow(m, k, chain, heights, w);
      } else {
        var m' := Processed(m, k, chain[heights[0]], heights[0]).0;
        var w' := w.(confirmations := w.confirmations + 1);
        StaysClear(m, k, chain, heights);
        CountingBlock(m, k, chain[heights[0]], heights[0], w);
        ThroughCounts(m', k, chain, heights[1..], w');
        OneBlockLater(Of(Through(m', k, chain, heights[1..]).fired, w.id), w.id, w.event.value,
                      k - w'.confirmations, heights);
      }
    }
  }

  /** A check that runs out of turns has processed that many blocks. */
  lemma {:induction false} LoopGivesUp(m: Monitor, l: Limits, chain: seq<seq<Tx>>, at: nat, checks: nat)
    requires AllSaved(m.watching) && at < |chain| && 1 <= checks <= l.checks + 1 && at + l.checks + 1 - checks < |chain|
    requires m.processed != Some(at) && forall g :: g in m.blocks ==> g < at
    requires Undisturbed(m.watching, chain, at, |chain|)
    ensures var r := Looped(m, l, chain, at, checks);
            r == Replayed(m, l.confirmations, chain, at, at + l.checks + 1 - checks) &&
            AllSaved(r.watching) && r.latest == m.latest
    decreases l.checks + 1 - checks
  {
    if checks <= l.checks {
      ProcessingSaved(m, l.confirmations, chain[at], at);
      BlockKeepsUndisturbed(m, l.confirmations, chain[at], at, chain, at + 1, |chain|);
      LoopGivesUp(Processed(m, l.confirmations, chain[at], at).0, l, chain, at + 1, checks + 1);
    }
  }

  lemma CheckGivesUp(m: Monitor, l: Limits, chain: seq<seq<Tx>>)
    requires Running(m, chain) && l.checks >= 1 && Next(m) + l.checks < |chain|
    requires Undisturbed(m.watching, chain, Next(m), |chain|)
    ensures var r := Checked(m, l, chain);
            r == Replayed(m, l.confirmations, chain, Next(m), Next(m) + l.checks) &&
            AllSaved(r.watching) && r.latest == m.latest
  {
    CheckStartsAtNext(m, l, chain);
    LoopGivesUp(m, l, chain, Next(m), 1);
  }

  /** The chain has grown by more blocks than a check may process, and the watch's
      transaction is in block h of it. */
  predicate Behind(m: Monitor, l: Limits, chain: seq<seq<Tx>>, w: Watch, h: nat, e: Event)
  {
    Running(m, chain) && m.processed.Some? && l.confirmations >= 1 && l.checks >= 1 &&
    Next(m) + l.checks < |chain| && Undisturbed(m.watching, chain, m.latest, |chain|) &&
    New(w) && e in w.callbacks && Appears(w, chain, Next(m), h, e) &&
    Find(m.watching, w.id) == Some(w) && Of(m.fired, w.id) == []
  }

  /** The next check starts over from its latest block, the last one having got as
      far as block `end`. */
  predicate Restarts(m: Monitor, l: Limits, chain: seq<seq<Tx>>, end: nat, w: Watch, h: nat, e: Event)
  {
    m.latest < |chain| && AllSaved(m.watching) && Distinct(m.watching) &&
    Undisturbed(m.watching, chain, m.latest, |chain|) && New(w) && e in w.callbacks && l.confirmations >= 1 &&
    Follows(m, end, w, h, l.confirmations, e, [])
  }

  lemma BehindFollows(m: Monitor, l: Limits, chain: seq<seq<Tx>>, w: Watch, h: nat, e: Event)
    requires Behind(m, l, chain, w, h, e)
    ensures var r := Checked(m, l, chain);
            r.latest == m.latest && Restarts(r, l, chain, Next(m) + l.checks, w, h, e)
  {
    var (k, from, end) := (l.confirmations, Next(m), Next(m) + l.checks);
    CheckGivesUp(m, l, chain);
    ReplayFollows(m, k, chain, from, from, end, w, h, e, []);
    ReplayKeepsUndisturbed(m, k, chain, from, end, m.latest, |chain|);
  }

  lemma CheckGoesThrough(m: Monitor, l: Limits, chain: seq<seq<Tx>>)
    requires m.latest < |chain| && AllSaved(m.watching) && Distinct(m.watching)
    requires Undisturbed(m.watching, chain, m.latest, |chain|)
    ensures var heights := Heights(m, l, chain, m.latest, 1);
            Clear(m, chain, heights) && Checked(m, l, chain).fired == Through(m, l.confirmations, chain, heights).fired
  {
    LoopGoesThrough(m, l, chain, m.latest, 1);
  }

  /** The first check having got as far as block `end`: a callback that was made is
      not made again, and one still to be made is made in the block that brings the
      last confirmation, whichever it is. */
  predicate CountsOn(fired: seq<Fired>, before: seq<Fired>, end: nat, id: Id, h: nat, k: nat, e: Event, again: seq<nat>)
  {
    (h + k <= end ==> fired == before) && (h < end < h + k ==> CalledIn(fired, id, e, h + k - end, again))
  }

  /** The second check, the first having got as far as block `end`. */
  lemma AfterBehind(m: Monitor, k: nat, chain: seq<seq<Tx>>, heights: seq<nat>, end: nat, w: Watch, h: nat, e: Event)
    requires Clear(m, chain, heights) && New(w) && e in w.callbacks && k >= 1 && Follows(m, end, w, h, k, e, [])
    ensures var fired := Of(Through(m, k, chain, heights).fired, w.id);
            CountsOn(fired, Of(m.fired, w.id), end, w.id, h, k, e, heights)
  {
    if h + k <= end {
      ThroughWithout(m, k, chain, heights, w.id);
    } else if h < end {
      ThroughCounts(m, k, chain, heights, w.(event := Some(e), confirmations := end - h, block := Some(h)));
    }
  }

  lemma NextCheck(m: Monitor, l: Limits, chain: seq<seq<Tx>>, end: nat, w: Watch, h: nat, e: Event)
    requires Restarts(m, l, chain, end, w, h, e)
    ensures var k := l.confirmations;
            var (again, fired) := (Heights(m, l, chain, m.latest, 1), Of(Checked(m, l, chain).fired, w.id));
            CountsOn(fired, Of(m.fired, w.id), end, w.id, h, k, e, again)
  {
    CheckGoesThrough(m, l, chain);
    AfterBehind(m, l.confirmations, chain, Heights(m, l, chain, m.latest, 1), end, w, h, e);
  }

  /** The callback is on time after such a check exactly when the check got as far
      as block h + confirmations - 1. */
  lemma OnTimeIff(m: Monitor, l: Limits, chain: seq<seq<Tx>>, w: Watch, h: nat, e: Event)
    requires Behind(m, l, chain, w, h, e)
    ensures var (k, r) := (l.confirmations, Checked(m, l, chain));
            r.latest == m.latest &&
            Of(r.fired, w.id) == if h + k <= Next(m) + l.checks then [Fired(w.id, e, Some(h + k - 1))] else []
  {
    BehindFollows(m, l, chain, w, h, e);
  }

  /** If it was made it is not made again by the next check. If the check got past
      block h only, the next one starts over from the same latest block and counts
      on: it makes the callback in as many blocks as confirmations are still wanted,
      whichever they are, if it processes so many. */
  lemma BehindCallsEarly(m: Monitor, l: Limits, chain: seq<seq<Tx>>, w: Watch, h: nat, e: Event)
    requires Behind(m, l, chain, w, h, e)
    ensures var (k, end, r) := (l.confirmations, Next(m) + l.checks, Checked(m, l, chain));
            r.latest == m.latest &&
            var (again, fired) := (Heights(r, l, chain, r.latest, 1), Of(Checked(r, l, chain).fired, w.id));
            CountsOn(fired, Of(r.fired, w.id), end, w.id, h, k, e, again)
  {
    BehindFollows(m, l, chain, w, h, e);
    NextCheck(Checked(m, l, chain), l, chain, Next(m) + l.checks, w, h, e);
  }

  /** That block is always before block h + confirmations - 1; and a check of at
      least twice the confirmations always processes enough blocks. */
  lemma HowEarly(m: Monitor, l: Limits, chain: seq<seq<Tx>>, w: Watch, h: nat, e: Event)
    requires Behind(m, l, chain, w, h, e) && h < Next(m) + l.checks < h + l.confirmations
    ensures var n := h + l.confirmations - Next(m) - l.checks;
            var again := Heights(Checked(m, l, chain), l, chain, m.latest, 1);
            (n <= |again| ==> again[n - 1] < m.latest + 2 * n && again[n - 1] < h + l.confirmations - 1) &&
            (2 * l.confirmations <= l.checks ==> n <= |again|)
  {
    var n := h + l.confirmations - Next(m) - l.checks;
    var r := Checked(m, l, chain);
    BehindFollows(m, l, chain, w, h, e);
    if n <= |Heights(r, l, chain, m.latest, 1)| {
      HeightsAdvance(r, l, chain, m.latest, 1, n - 1);
    }
    if 2 * l.confirmations <= l.checks {
      HeightsSuffice(r, l, chain, m.latest, 1, n);
    }
  }

  /** At the limits the program runs with: the transaction is in block 1000, and the
      callback for its sixth confirmation is made while a block before block 10 is
      processed once more. */
  lemma BehindExample(chain: seq<seq<Tx>>)
    requires |chain| >= 1002
    requires forall g :: 0 <= g < |chain| ==> chain[g] == if g == 1000 then [Tx(1, 1, {})] else []
    ensures var w := Watch(7, TxHex(1, 1), {Confirm}, true, true, None, 0, None);
            var m := Monitor(0, Some(0), map[], [w], []);
            var l := Limits(6, 1000);
            Behind(m, l, chain, w, 1000, Confirm) &&
            var r := Checked(m, l, chain);
            r.latest == 0 && Of(r.fired, 7) == [] &&
            exists g :: g < 10 && Of(Checked(r, l, chain).fired, 7) == [Fired(7, Confirm, Some(g))]
  {
    var w := Watch(7, TxHex(1, 1), {Confirm}, true, true, None, 0, None);
    var m := Monitor(0, Some(0), map[], [w], []);
    var l := Limits(6, 1000);
    assert Sees(w.needle, Tx(1, 1, {})) == Seen(Confirm);
    assert chain[1000] == [Tx(1, 1, {})] && chain[1000][..0] == [];
    assert Same(w.needle, chain[1000][0]) && FirstIs(w.needle, chain[1000], Confirm);
    assert Appears(w, chain, 1, 1000, Confirm);
    forall g | 0 <= g < |chain| ensures NoFault(m.watching, chain[g]) {
      OnlyAddressesFault(w.needle, chain[g]);
    }
    OnTimeIff(m, l, chain, w, 1000, Confirm);
    BehindCallsEarly(m, l, chain, w, 1000, Confirm);
    HowEarly(m, l, chain, w, 1000, Confirm);
  }

  // ----- never catching up ---------------------------------------------------------------------

  /** No watch is found in these transactions. */
  predicate NothingSeen(ws: seq<Watch>, txs: seq<Tx>)
  {
    forall i :: 0 <= i < |ws| && ws[i].event.None? ==> !Found(ws[i].needle, txs).Seen?
  }

  lemma NothingSeenSplit(w: Watch, ws: seq<Watch>, txs: seq<Tx>)
    ensures NothingSeen([w] + ws, txs) <==> NothingSeen([w], txs) && NothingSeen(ws, txs)
  {
    var all := [w] + ws;
    assert all[0] == w == [w][0];
    assert forall i :: 0 < i < |all| ==> all[i] == ws[i - 1];
    assert forall i :: 0 <= i < |ws| ==> ws[i] == all[i + 1];
  }

  lemma {:induction false} SweepSeesNothing(ws: seq<Watch>, blocks: map<nat, set<Id>>, k: nat, txs: seq<Tx>,
                                            height: nat, later: seq<Tx>)
    requires NothingSeen(ws, later)
    ensures var s := Swept(ws, blocks, k, txs, height);
            NothingSeen(s.watches, later) && (txs == later ==> s.blocks == blocks) &&
            forall g :: g in s.blocks ==> g in blocks || g == height
    decreases |ws|
  {
    if ws != [] {
      var w := Advanced(ws[0], txs, height);
      var known := if ws[0].event.None? && w.event.Some? then Recorded(blocks, height, w.id) else blocks;
      assert ws == [ws[0]] + ws[1..];
      NothingSeenSplit(ws[0], ws[1..], later);
      assert NothingSeen([w], later) by { assert [ws[0]][0] == ws[0]; }
      if Raises(ws[0], k, txs, height) {
        NothingSeenSplit(w, ws[1..], later);
      } else {
        SweepSeesNothing(ws[1..], known, k, txs, height, later);
        NothingSeenSplit(w, Swept(ws[1..], known, k, txs, height).watches, later);
      }
    }
  }

  lemma {:induction false} PruningSeesNothing(ws: seq<Watch>, blocks: map<nat, set<Id>>, k: nat, later: seq<Tx>)
    requires NothingSeen(ws, later)
    ensures NothingSeen(Pruned(ws, k), later) && forall g :: g in PrunedBlocks(ws, blocks, k) ==> g in blocks
    decreases |ws|
  {
    if ws != [] {
      assert ws == [ws[0]] + ws[1..];
      NothingSeenSplit(ws[0], ws[1..], later);
      PruningSeesNothing(ws[1..],
                         if Ripe(ws[0], k) && Removable(ws[0]) && ws[0].block.Some?
                         then Unrecorded(blocks, ws[0].block.value, ws[0].id) else blocks,
                         k, later);
      NothingSeenSplit(ws[0], Pruned(ws[1..], k), later);
      assert [] + Pruned(ws[1..], k) == Pruned(ws[1..], k);
    }
  }

  /** No watch of this id has been found. */
  predicate Unfound(ws: seq<Watch>, id: Id)
  {
    forall i :: 0 <= i < |ws| && ws[i].id == id ==> ws[i].event.None?
  }

  lemma {:induction false} SweepOfUnfound(ws: seq<Watch>, blocks: map<nat, set<Id>>, k: nat, txs: seq<Tx>, height: nat,
                                          id: Id)
    requires Unfound(ws, id)
    requires forall i :: 0 <= i < |ws| && ws[i].id == id ==> !Found(ws[i].needle, txs).Seen?
    ensures var s := Swept(ws, blocks, k, txs, height);
            Of(s.fired, id) == [] && forall i :: 0 <= i < |s.watches| && s.watches[i].id == id ==> s.watches[i] in ws
    decreases |ws|
  {
    if ws != [] {
      var w := Advanced(ws[0], txs, height);
      var known := if ws[0].event.None? && w.event.Some? then Recorded(blocks, height, w.id) else blocks;
      var fired := if Calls(w, k) then [Fired(w.id, w.event.value, Some(height))] else [];
      assert Of(fired, id) == [] by { if fired != [] { assert fired[1..] == []; } }
      if !Raises(ws[0], k, txs, height) {
        SweepOfUnfound(ws[1..], known, k, txs, height, id);
        OfAppends(fired, Swept(ws[1..], known, k, txs, height).fired, id);
      }
    }
  }

  lemma {:induction false} PruningKeepsSome(ws: seq<Watch>, k: nat)
    ensures forall i :: 0 <= i < |Pruned(ws, k)| ==> Pruned(ws, k)[i] in ws
    decreases |ws|
  {
    if ws != [] { PruningKeepsSome(ws[1..], k); }
  }

  /** A watch that is not found in a block stays as it is, and is not called back. */
  lemma BlockOfUnfound(m: Monitor, k: nat, txs: seq<Tx>, height: nat, id: Id)
    requires Unfound(m.watching, id)
    requires forall i :: 0 <= i < |m.watching| && m.watching[i].id == id ==> !Found(m.watching[i].needle, txs).Seen?
    ensures var r := Processed(m, k, txs, height).0;
            Of(r.fired, id) == Of(m.fired, id) &&
            forall i :: 0 <= i < |r.watching| && r.watching[i].id == id ==> r.watching[i] in m.watching
  {
    var s := Swept(m.watching, m.blocks, k, txs, height);
    SweepOfUnfound(m.watching, m.blocks, k, txs, height, id);
    PruningKeepsSome(s.watches, k);
    OfAppends(m.fired, s.fired, id);
    assert Of(m.fired, id) + [] == Of(m.fired, id);
  }

  /** Nothing that is watched lies in the blocks from `latest` that one check may
      process and the one after them. */
  predicate Blind(m: Monitor, checks: nat, chain: seq<seq<Tx>>, latest: nat)
  {
    m.latest == latest && latest + checks + 1 < |chain| &&
    (forall g :: latest <= g <= latest + checks ==> NothingSeen(m.watching, chain[g])) &&
    forall g :: g in m.blocks ==> g < latest || latest + checks < g
  }

  lemma BlindBlock(m: Monitor, k: nat, checks: nat, chain: seq<seq<Tx>>, latest: nat, at: nat)
    requires Blind(m, checks, chain, latest) && latest <= at <= latest + checks
    ensures Blind(Processed(m, k, chain[at], at).0, checks, chain, latest)
  {
    var s := Swept(m.watching, m.blocks, k, chain[at], at);
    SweepSeesNothing(m.watching, m.blocks, k, chain[at], at, chain[at]);
    forall g | latest <= g <= latest + checks
      ensures NothingSeen(s.watches, chain[g]) && NothingSeen(Pruned(s.watches, k), chain[g])
    {
      SweepSeesNothing(m.watching, m.blocks, k, chain[at], at, chain[g]);
      PruningSeesNothing(s.watches, s.blocks, k, chain[g]);
    }
    PruningSeesNothing(s.watches, s.blocks, k, chain[at]);
  }

  /** What stays as it is while a monitor is behind for good. */
  predicate Behindhand(m: Monitor, checks: nat, chain: seq<seq<Tx>>, latest: nat, id: Id, fired: seq<Fired>)
  {
    Blind(m, checks, chain, latest) && Unfound(m.watching, id) && Of(m.fired, id) == fired
  }

  lemma BehindhandBlock(m: Monitor, k: nat, checks: nat, chain: seq<seq<Tx>>, latest: nat, at: nat, id: Id,
                        fired: seq<Fired>)
    requires Behindhand(m, checks, chain, latest, id, fired) && latest <= at <= latest + checks
    ensures Behindhand(Processed(m, k, chain[at], at).0, checks, chain, latest, id, fired)
  {
    BlindBlock(m, k, checks, chain, latest, at);
    BlockOfUnfound(m, k, chain[at], at, id);
  }

  lemma BehindhandTurn(m: Monitor, l: Limits, chain: seq<seq<Tx>>, n: nat, at: nat, checks: nat, latest: nat, id: Id,
                       fired: seq<Fired>)
    requires Behindhand(m, l.checks, chain, latest, id, fired) && latest + l.checks + 1 < n <= |chain|
    requires 1 <= checks <= l.checks && latest <= at <= latest + checks
    requires if checks == 1 then at == latest else m.processed != Some(at)
    ensures var next := if m.processed == Some(at) || at in m.blocks then at + 1 else at;
            var (r, after) := OneBlock(m, l.confirmations, chain[..n], at);
            Behindhand(r, l.checks, chain, latest, id, fired) && next <= latest + checks &&
            (after.Some? ==> after.value == next + 1 && r.processed == Some(next))
  {
    var next := if m.processed == Some(at) || at in m.blocks then at + 1 else at;
    assert chain[..n][next] == chain[next];
    BehindhandBlock(m, l.confirmations, l.checks, chain, latest, next, id, fired);
  }

  lemma {:induction false} BehindhandLoop(m: Monitor, l: Limits, chain: seq<seq<Tx>>, n: nat, at: nat, checks: nat,
                                          latest: nat, id: Id, fired: seq<Fired>)
    requires Behindhand(m, l.checks, chain, latest, id, fired) && latest + l.checks + 1 < n <= |chain|
    requires 1 <= checks && latest <= at <= latest + checks && at < n
    requires if checks == 1 then at == latest else m.processed != Some(at)
    ensures Behindhand(Looped(m, l, chain[..n], at, checks), l.checks, chain, latest, id, fired)
    decreases l.checks + 1 - checks
  {
    if checks <= l.checks {
      BehindhandTurn(m, l, chain, n, at, checks, latest, id, fired);
      var (r, after) := OneBlock(m, l.confirmations, chain[..n], at);
      if after.Some? {
        BehindhandLoop(r, l, chain, n, after.value, checks + 1, latest, id, fired);
      }
    }
  }

  /** A monitor that finds the chain grown by more blocks than a check may process,
      none of the blocks it can get to holding anything watched, never catches up:
      however the checks are scheduled and whatever comes later, its latest block
      stays, and no watch still to be found is ever called back. */
  lemma {:induction false} NeverCatchesUp(m: Monitor, l: Limits, chain: seq<seq<Tx>>, polls: seq<nat>, id: Id)
    requires Blind(m, l.checks, chain, m.latest) && Unfound(m.watching, id)
    requires forall i :: 0 <= i < |polls| ==> m.latest + l.checks + 1 < polls[i] <= |chain|
    ensures var r := Polled(m, l, chain, polls);
            r.latest == m.latest && Of(r.fired, id) == Of(m.fired, id) && Blind(r, l.checks, chain, m.latest)
    decreases |polls|
  {
    if polls != [] {
      var r := Checked(m, l, chain[..polls[0]]);
      BehindhandLoop(m, l, chain, polls[0], m.latest, 1, m.latest, id, Of(m.fired, id));
      NeverCatchesUp(r, l, chain, polls[1..], id);
    }
  }

  // ----- an address that is looked for ---------------------------------------------------------

  /** The first new block pays an address still looked for: no check of the growing
      chain ever gets past it, whatever else it contains. */
  lemma {:induction false} StuckAtAddress(m: Monitor, l: Limits, chain: seq<seq<Tx>>, polls: seq<nat>)
    requires l.checks >= 1 && m.processed == Some(m.latest) && m.latest + 1 < |chain|
    requires !NoFault(m.watching, chain[m.latest + 1])
    requires forall i :: 0 <= i < |polls| ==> m.latest + 1 < polls[i] <= |chain|
    ensures var r := Polled(m, l, chain, polls);
            r.latest == m.latest && r.processed == m.processed && !NoFault(r.watching, chain[m.latest + 1])
    decreases |polls|
  {
    if polls != [] {
      var next := m.latest + 1;
      var seen := chain[..polls[0]];
      FaultRaises(m, l.confirmations, seen[next], next);
      BlockPassesIff(m, l.confirmations, seen[next], next);
      BlockKeepsFaults(m, l.confirmations, seen[next], next, chain[next]);
      assert Checked(m, l, seen) == Processed(m, l.confirmations, seen[next], next).0;
      StuckAtAddress(Checked(m, l, seen), l, chain, polls[1..]);
    }
  }

  /** Block g is still to come, pays an address looked for, and holds nothing else
      that is watched. */
  predicate Barred(m: Monitor, chain: seq<seq<Tx>>, g: nat)
  {
    g < |chain| && m.latest < g && (m.processed.Some? ==> m.processed.value < g) && g !in m.blocks &&
    !NoFault(m.watching, chain[g]) && NothingSeen(m.watching, chain[g])
  }

  lemma BarredBlock(m: Monitor, k: nat, chain: seq<seq<Tx>>, next: nat, g: nat)
    requires Barred(m, chain, g) && next <= g
    ensures var (r, raised) := Processed(m, k, chain[next], next);
            Barred(r, chain, g) && (next == g ==> raised)
  {
    FaultRaises(m, k, chain[next], next);
    BlockPassesIff(m, k, chain[next], next);
    BlockKeepsFaults(m, k, chain[next], next, chain[g]);
    SweepSeesNothing(m.watching, m.blocks, k, chain[next], next, chain[g]);
    var s := Swept(m.watching, m.blocks, k, chain[next], next);
    PruningSeesNothing(s.watches, s.blocks, k, chain[g]);
  }

  lemma {:induction false} BarredLoop(m: Monitor, l: Limits, chain: seq<seq<Tx>>, n: nat, at: nat, checks: nat, g: nat)
    requires Barred(m, chain, g) && at < n <= |chain| && at <= g
    ensures Barred(Looped(m, l, chain[..n], at, checks), chain, g)
    decreases l.checks + 1 - checks
  {
    if checks <= l.checks {
      var seen := chain[..n];
      var known := m.processed == Some(at) || at in m.blocks;
      if !(known && at + 1 == n) {
        var next := if known then at + 1 else at;
        BarredBlock(m, l.confirmations, chain, next, g);
        var (m', after) := OneBlock(m, l.confirmations, seen, at);
        assert seen[next] == chain[next];
        if after.Some? {
          BarredLoop(m', l, chain, n, after.value, checks + 1, g);
        }
      }
    }
  }

  /** However the checks are scheduled, and however much of the chain each may
      process, such a block and those after it are never processed. */
  lemma {:induction false} NeverPastAddress(m: Monitor, l: Limits, chain: seq<seq<Tx>>, polls: seq<nat>, g: nat)
    requires Barred(m, chain, g)
    ensures Barred(Polled(m, l, chain, polls), chain, g)
    decreases |polls|
  {
    if polls != [] && m.latest < polls[0] <= |chain| {
      BarredLoop(m, l, chain, polls[0], m.latest, 1, g);
      NeverPastAddress(Checked(m, l, chain[..polls[0]]), l, chain, polls[1..], g);
    }
  }

  /** A monitor at block 0 that looks for address 5 stops for good before block 1,
      which pays it. */
  lemma AddressExample(polls: seq<nat>)
    requires forall i :: 0 <= i < |polls| ==> 1 < polls[i] <= 3
    ensures var m := Monitor(0, Some(0), map[], [Watch(7, Address(5), {Confirm}, true, true, None, 0, None)], []);
            var chain := [[], [Tx(1, 1, {5})], []];
            Running(m, chain) && Polled(m, Limits(6, 1000), chain, polls).latest == 0
  {
    var w := Watch(7, Address(5), {Confirm}, true, true, None, 0, None);
    var m := Monitor(0, Some(0), map[], [w], []);
    var tx := Tx(1, 1, {5});
    assert Sees(w.needle, tx) == Fault;
    assert Faults(m.watching[0], [tx]);
    StuckAtAddress(m, Limits(6, 1000), [[], [tx], []], polls);
  }

  /** Every watch of this id is for an address and was not found. */
  predicate OnlyAddresses(ws: seq<Watch>, id: Id)
  {
    forall i :: 0 <= i < |ws| && ws[i].id == id ==> ws[i].needle.Address? && ws[i].event.None?
  }

  lemma BlockOfAddress(m: Monitor, k: nat, txs: seq<Tx>, height: nat, id: Id)
    requires OnlyAddresses(m.watching, id)
    ensures var r := Processed(m, k, txs, height).0;
            OnlyAddresses(r.watching, id) && Of(r.fired, id) == Of(m.fired, id)
  {
    forall i | 0 <= i < |m.watching| && m.watching[i].id == id ensures !Found(m.watching[i].needle, txs).Seen? {
      OnlyAddressesFault(m.watching[i].needle, txs);
    }
    BlockOfUnfound(m, k, txs, height, id);
  }

  lemma {:induction false} LoopOfAddress(m: Monitor, l: Limits, chain: seq<seq<Tx>>, at: nat, checks: nat, id: Id)
    requires at < |chain| && OnlyAddresses(m.watching, id)
    ensures var r := Looped(m, l, chain, at, checks);
            OnlyAddresses(r.watching, id) && Of(r.fired, id) == Of(m.fired, id)
    decreases l.checks + 1 - checks
  {
    var next := if m.processed == Some(at) || at in m.blocks then at + 1 else at;
    if checks <= l.checks && next < |chain| {
      BlockOfAddress(m, l.confirmations, chain[next], next, id);
      var (r, after) := OneBlock(m, l.confirmations, chain, at);
      if after.Some? { LoopOfAddress(r, l, chain, after.value, checks + 1, id); }
    }
  }

  lemma {:induction false} PuttingAddress(ws: seq<Watch>, w: Watch, id: Id)
    requires OnlyAddresses(ws, id) && (w.id == id ==> w.needle.Address? && w.event.None?)
    ensures OnlyAddresses(Put(ws, w), id)
    decreases |ws|
  {
    if ws != [] { PuttingAddress(ws[1..], w, id); }
  }

  /** Whatever the chain holds, however checks and registrations interleave, a watch
      of an address is never called back when the address is paid. */
  lemma {:induction false} AddressNeverCallsBack(m: Monitor, l: Limits, chain: seq<seq<Tx>>, actions: seq<Action>,
                                                 id: Id)
    requires OnlyAddresses(m.watching, id)
    requires forall i :: 0 <= i < |actions| && actions[i].Add? && actions[i].watch.id == id ==>
                           actions[i].watch.needle.Address? && actions[i].watch.event.None?
    ensures Of(Ran(m, l, chain, actions).fired, id) == Of(m.fired, id)
    decreases |actions|
  {
    if actions != [] {
      match actions[0] {
        case Poll(n) => if m.latest < n <= |chain| { LoopOfAddress(m, l, chain[..n], m.latest, 1, id); }
        case Add(w) => PuttingAddress(m.watching, w, id);
      }
      AddressNeverCallsBack(Acted(m, l, chain, actions[0]), l, chain, actions[1..], id);
    }
  }

  /** An empty block, with a transaction perhaps found and an address looked for. */
  lemma EmptyBlock(m: Monitor, k: nat, a: Watch, b: Watch, height: nat)
    requires m.watching == [a, b] && a.saved && b.event.None?
    requires a.event.Some? ==> a.confirmations + 1 < k
    ensures var a' := if a.event.Some? then a.(confirmations := a.confirmations + 1) else a;
            Processed(m, k, [], height) == (m.(watching := [a', b], processed := Some(height)), false)
  {
    var a' := Advanced(a, [], height);
    assert [a, b][1..] == [b] && [b][1..] == [];
    assert Swept([b], m.blocks, k, [], height) == Sweep([b], m.blocks, [], false) by {
      assert [b] + [] == [b];
    }
    assert [a'] + [b] == [a', b] && m.fired + [] == m.fired;
    assert [a', b][1..] == [b];
    assert Pruned([b], k) == [b] && PrunedBlocks([b], m.blocks, k) == m.blocks;
  }

  /** A block in which one transaction is found before an address is. */
  lemma FindsThenFaults(m: Monitor, k: nat, txs: seq<Tx>, a: Watch, b: Watch, height: nat)
    requires m.watching == [a, b] && a.event.None? && a.confirmations == 0 && k >= 2
    requires Found(a.needle, txs) == Seen(Confirm) && Faults(b, txs)
    ensures var a' := a.(event := Some(Confirm), confirmations := 1, block := Some(height));
            Processed(m, k, txs, height)
            == (m.(watching := [a', b], blocks := Recorded(m.blocks, height, a.id)), true)
  {
    var a' := Advanced(a, txs, height);
    var known := Recorded(m.blocks, height, a.id);
    assert [a, b][1..] == [b] && [b][1..] == [];
    assert Swept([b], known, k, txs, height) == Sweep([b], known, [], true) by {
      assert [b] + [] == [b];
    }
    assert [a'] + [b] == [a', b] && m.fired + [] == m.fired;
    assert !Raises(a, k, txs, height);
    assert a' == a.(event := Some(Confirm), confirmations := 1, block := Some(height));
    assert Swept([a, b], m.blocks, k, txs, height) == Sweep([a'] + [b], known, [] + [], true);
    assert Swept([a, b], m.blocks, k, txs, height) == Sweep([a', b], known, [], true);
  }

  /** The first check of a chain of four blocks stops at block 2, where one
      transaction was found and then the address. */
  lemma StopsAtBlockTwo(m: Monitor, l: Limits, chain: seq<seq<Tx>>, a: Watch, b: Watch)
    requires |chain| == 4 && chain[1] == [] && l.confirmations >= 2 && l.checks >= 2
    requires m.watching == [a, b] && m.latest == 0 && m.processed == Some(0) && m.blocks == map[]
    requires a.event.None? && a.confirmations == 0 && a.saved && b.event.None?
    requires Found(a.needle, chain[2]) == Seen(Confirm) && Faults(b, chain[2])
    ensures var a' := a.(event := Some(Confirm), confirmations := 1, block := Some(2));
            Checked(m, l, chain)
            == m.(watching := [a', b], blocks := Recorded(m.blocks, 2, a.id), processed := Some(1))
  {
    var m1 := m.(processed := Some(1));
    EmptyBlock(m, l.confirmations, a, b, 1);
    assert m.(watching := [a, b]) == m;
    assert OneBlock(m, l.confirmations, chain, 0) == (m1, Some(2));
    FindsThenFaults(m1, l.confirmations, chain[2], a, b, 2);
    var a' := a.(event := Some(Confirm), confirmations := 1, block := Some(2));
    assert OneBlock(m1, l.confirmations, chain, 2)
        == (m1.(watching := [a', b], blocks := Recorded(m.blocks, 2, a.id)), None);
    assert Looped(m1, l, chain, 2, 2) == m1.(watching := [a', b], blocks := Recorded(m.blocks, 2, a.id));
  }

  /** One turn at an empty block, block 2 being known. */
  lemma EmptyTurn(m: Monitor, k: nat, chain: seq<seq<Tx>>, a: Watch, b: Watch, at: nat)
    requires |chain| == 4 && at <= 2 && m.processed != Some(at) && (at in m.blocks <==> at == 2)
    requires chain[if at == 2 then 3 else at] == []
    requires m.watching == [a, b] && a.event.Some? && a.confirmations + 1 < k && a.saved && b.event.None?
    ensures var a' := a.(confirmations := a.confirmations + 1);
            OneBlock(m, k, chain, at) ==
            if at == 2 then (m.(watching := [a', b], processed := Some(3), latest := 3), None)
            else (m.(watching := [a', b], processed := Some(at)), Some(at + 1))
  {
    EmptyBlock(m, k, a, b, if at == 2 then 3 else at);
  }

  /** The next check starts over at block 0, finds block 2 known, and passes it over:
      the blocks before it are counted again, and the address is never reported. */
  lemma PassesOverBlockTwo(m: Monitor, l: Limits, chain: seq<seq<Tx>>, a: Watch, b: Watch)
    requires |chain| == 4 && chain[0] == [] && chain[1] == [] && chain[3] == []
    requires l.confirmations >= 5 && l.checks >= 3
    requires m.watching == [a, b] && m.latest == 0 && m.processed == Some(1)
    requires forall g :: g in m.blocks <==> g == 2
    requires a.event.Some? && a.confirmations == 1 && a.saved && b.event.None?
    ensures Checked(m, l, chain)
            == m.(watching := [a.(confirmations := 4), b], processed := Some(3), latest := 3)
  {
    var k := l.confirmations;
    var (a2, a3) := (a.(confirmations := 2), a.(confirmations := 3));
    var m2 := m.(watching := [a2, b], processed := Some(0));
    var m3 := m.(watching := [a3, b], processed := Some(1));
    EmptyTurn(m, k, chain, a, b, 0);
    EmptyTurn(m2, k, chain, a2, b, 1);
    EmptyTurn(m3, k, chain, a3, b, 2);
    assert Looped(m3, l, chain, 2, 3) == m.(watching := [a.(confirmations := 4), b], processed := Some(3), latest := 3);
    assert Looped(m2, l, chain, 1, 2) == Looped(m3, l, chain, 2, 3);
  }

  /** An example: such a block can also be lost, when it is not the first new one
      and another watch was found in it first. Two checks of these four blocks reach
      the tip, with the address still looked for and never reported. */
  lemma PassedOverExample(m: Monitor, l: Limits, chain: seq<seq<Tx>>, a: Watch, b: Watch)
    requires |chain| == 4 && chain[0] == [] && chain[1] == [] && chain[3] == []
    requires l.confirmations >= 5 && l.checks >= 3
    requires m.watching == [a, b] && m.latest == 0 && m.processed == Some(0) && m.blocks == map[]
    requires New(a) && b.event.None? && b.saved && a.id != b.id
    requires Found(a.needle, chain[2]) == Seen(Confirm) && Faults(b, chain[2])
    ensures var stopped := Checked(m, l, chain);
            Running(m, chain) && stopped.latest == 0 &&
            var r := Checked(stopped, l, chain);
            r.latest == 3 && |r.watching| == 2 && r.watching[1] == b && r.fired == m.fired
  {
    StopsAtBlockTwo(m, l, chain, a, b);
    PassesOverBlockTwo(Checked(m, l, chain), l, chain,
                       a.(event := Some(Confirm), confirmations := 1, block := Some(2)), b);
  }

  // ----- registering a transaction that is already deep ------------------------------------------

  predicate Jams(w: Watch, c: nat)
  {
    !w.saved && w.event.Some? && w.event.value in w.callbacks && w.confirmations >= c
  }

  predicate Jammed(ws: seq<Watch>, c: nat)
  {
    exists i :: 0 <= i < |ws| && Jams(ws[i], c)
  }

  lemma {:induction false} PutIsThere(ws: seq<Watch>, w: Watch)
    ensures exists i :: 0 <= i < |Put(ws, w)| && Put(ws, w)[i] == w
    decreases |ws|
  {
    if ws != [] && ws[0].id != w.id {
      PutIsThere(ws[1..], w);
      var i :| 0 <= i < |Put(ws[1..], w)| && Put(ws[1..], w)[i] == w;
      assert Put(ws, w)[i + 1] == w;
    } else {
      assert Put(ws, w)[0] == w;
    }
  }

  lemma DeepRegistrationJams(m: Monitor, w: Watch, deep: nat)
    requires w.needle.TxHex? && Confirm in w.callbacks && Find(m.watching, w.id) == None
    ensures var (r, raised) := Registered(m, w, Some(deep));
            raised && Jammed(r.watching, 0) && r.fired == m.fired + [Fired(w.id, Confirm, None)]
  {
    PutIsThere(m.watching, w.(event := Some(Confirm), confirmations := 0, block := Some(deep), saved := false));
  }

  lemma {:induction false} SweepKeepsJammed(ws: seq<Watch>, blocks: map<nat, set<Id>>, k: nat, txs: seq<Tx>,
                                            height: nat, c: nat)
    ensures Jammed(ws, c) ==> Jammed(Swept(ws, blocks, k, txs, height).watches, c)
    decreases |ws|
  {
    if ws != [] {
      var w := Advanced(ws[0], txs, height);
      var known := if ws[0].event.None? && w.event.Some? then Recorded(blocks, height, w.id) else blocks;
      var rest := if Raises(ws[0], k, txs, height) then ws[1..] else Swept(ws[1..], known, k, txs, height).watches;
      if i :| 0 <= i < |ws| && Jams(ws[i], c) {
        if i == 0 {
          assert Jams(([w] + rest)[0], c);
        } else {
          assert Jams(ws[1..][i - 1], c);
          SweepKeepsJammed(ws[1..], known, k, txs, height, c);
          JammedBehind(w, rest, k, c);
        }
      }
    }
  }

  /** A sweep that does not raise counts one more confirmation for it; one that does
      raise, without meeting an address looked for, has made a callback. */
  lemma {:induction false} SweepAges(ws: seq<Watch>, blocks: map<nat, set<Id>>, k: nat, txs: seq<Tx>, height: nat,
                                     c: nat)
    requires Jammed(ws, c)
    ensures var s := Swept(ws, blocks, k, txs, height);
            if s.raised then NoFault(ws, txs) ==> s.fired != [] && Jammed(s.watches, k)
            else Jammed(s.watches, c + 1) && c + 1 < k && Jammed(Pruned(s.watches, k), c + 1)
    decreases |ws|
  {
    var w := Advanced(ws[0], txs, height);
    var known := if ws[0].event.None? && w.event.Some? then Recorded(blocks, height, w.id) else blocks;
    var s := Swept(ws, blocks, k, txs, height);
    if s.raised {
      if NoFault(ws, txs) { SweepRaisesJammed(ws, blocks, k, txs, height); }
    } else if Jams(ws[0], c) {
      var rest := Swept(ws[1..], known, k, txs, height);
      assert s.watches[0] == w && Jams(w, c + 1) && !Ripe(w, k);
      assert Pruned(s.watches, k) == [w] + Pruned(rest.watches, k) by { assert s.watches[1..] == rest.watches; }
      assert Pruned(s.watches, k)[0] == w;
    } else {
      assert Jammed(ws[1..], c) by {
        var i :| 0 <= i < |ws| && Jams(ws[i], c);
        assert ws[1..][i - 1] == ws[i];
      }
      SweepAges(ws[1..], known, k, txs, height, c);
      JammedBehind(w, Swept(ws[1..], known, k, txs, height).watches, k, c + 1);
    }
  }

  lemma JammedBehind(w: Watch, ws: seq<Watch>, k: nat, c: nat)
    ensures Jammed(ws, c) ==> Jammed([w] + ws, c)
    ensures Jammed(Pruned(ws, k), c) ==> Jammed(Pruned([w] + ws, k), c)
  {
    assert ([w] + ws)[1..] == ws;
    if Jammed(ws, c) {
      var i :| 0 <= i < |ws| && Jams(ws[i], c);
      assert ([w] + ws)[i + 1] == ws[i];
    }
    if Jammed(Pruned(ws, k), c) {
      var i :| 0 <= i < |Pruned(ws, k)| && Jams(Pruned(ws, k)[i], c);
      if Ripe(w, k) && Removable(w) {
        assert Pruned([w] + ws, k)[i] == Pruned(ws, k)[i];
      } else {
        assert Pruned([w] + ws, k)[i + 1] == Pruned(ws, k)[i];
      }
    }
  }

  lemma {:induction false} SweepRaisesJammed(ws: seq<Watch>, blocks: map<nat, set<Id>>, k: nat, txs: seq<Tx>,
                                             height: nat)
    requires NoFault(ws, txs)
    ensures var s := Swept(ws, blocks, k, txs, height);
            s.raised ==> s.fired != [] && Jammed(s.watches, k)
    decreases |ws|
  {
    if ws != [] {
      var w := Advanced(ws[0], txs, height);
      var known := if ws[0].event.None? && w.event.Some? then Recorded(blocks, height, w.id) else blocks;
      var s := Swept(ws, blocks, k, txs, height);
      if Raises(ws[0], k, txs, height) {
        assert s.watches[0] == w && Jams(w, k);
      } else {
        SweepRaisesJammed(ws[1..], known, k, txs, height);
        JammedBehind(w, Swept(ws[1..], known, k, txs, height).watches, k, k);
      }
    }
  }

  /** With such a watch in the table every block brings it nearer, until processing
      the next block raises: after making a callback, unless an address looked for
      is met first. */
  lemma BlockOfJammed(m: Monitor, k: nat, txs: seq<Tx>, height: nat, c: nat)
    requires Jammed(m.watching, c)
    ensures var (r, raised) := Processed(m, k, txs, height);
            r.latest == m.latest && |r.fired| >= |m.fired| && Jammed(r.watching, c) &&
            if raised then
              r.processed == m.processed &&
              (NoFault(m.watching, txs) ==> Jammed(r.watching, k) && |r.fired| > |m.fired|)
            else Jammed(r.watching, c + 1) && c + 1 < k
  {
    SweepKeepsJammed(m.watching, m.blocks, k, txs, height, c);
    SweepAges(m.watching, m.blocks, k, txs, height, c);
    JammedMore(Processed(m, k, txs, height).0.watching, c);
  }

  lemma JammedMore(ws: seq<Watch>, c: nat)
    ensures Jammed(ws, c + 1) ==> Jammed(ws, c)
  {
    if i :| 0 <= i < |ws| && Jams(ws[i], c + 1) {
      assert Jams(ws[i], c);
    }
  }

  lemma JammedCheck(m: Monitor, l: Limits, chain: seq<seq<Tx>>, next: nat)
    requires l.checks >= 1 && m.processed == Some(m.latest) && next == m.latest + 1 < |chain|
    requires l.confirmations >= 1 && Jammed(m.watching, l.confirmations - 1)
    ensures var r := Checked(m, l, chain);
            r.latest == m.latest && r.processed == m.processed && Jammed(r.watching, l.confirmations - 1) &&
            |r.fired| >= |m.fired| + if NoFault(m.watching, chain[next]) then 1 else 0
  {
    BlockOfJammed(m, l.confirmations, chain[next], next, l.confirmations - 1);
    assert Checked(m, l, chain) == Processed(m, l.confirmations, chain[next], next).0;
  }

  lemma JammedCheckKeepsFaults(m: Monitor, l: Limits, chain: seq<seq<Tx>>, next: nat)
    requires l.checks >= 1 && m.processed == Some(m.latest) && next == m.latest + 1 < |chain|
    requires l.confirmations >= 1 && Jammed(m.watching, l.confirmations - 1)
    ensures NoFault(Checked(m, l, chain).watching, chain[next]) == NoFault(m.watching, chain[next])
  {
    BlockOfJammed(m, l.confirmations, chain[next], next, l.confirmations - 1);
    BlockKeepsFaults(m, l.confirmations, chain[next], next, chain[next]);
    assert Checked(m, l, chain) == Processed(m, l.confirmations, chain[next], next).0;
  }

  /** From then on the monitor is stuck: no check of the growing chain gets past the
      next block, and each makes a callback again unless that block pays an address
      looked for. */
  lemma {:induction false} StuckForever(m: Monitor, l: Limits, chain: seq<seq<Tx>>, polls: seq<nat>)
    requires l.checks >= 1 && m.processed == Some(m.latest) && m.latest + 1 < |chain|
    requires l.confirmations >= 1 && Jammed(m.watching, l.confirmations - 1)
    requires forall i :: 0 <= i < |polls| ==> m.latest + 1 < polls[i] <= |chain|
    ensures var r := Polled(m, l, chain, polls);
            r.latest == m.latest && r.processed == m.processed &&
            (NoFault(m.watching, chain[m.latest + 1]) ==> |r.fired| >= |m.fired| + |polls|)
    decreases |polls|
  {
    if polls != [] {
      var seen := chain[..polls[0]];
      JammedCheck(m, l, seen, m.latest + 1);
      JammedCheckKeepsFaults(m, l, seen, m.latest + 1);
      assert seen[m.latest + 1] == chain[m.latest + 1];
      StuckForever(Checked(m, l, seen), l, chain, polls[1..]);
    }
  }
}
