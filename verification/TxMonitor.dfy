/** The follower of one coin's block chain: it counts the confirmations of watched
    transactions and calls back when there are enough. */
module TxMonitors {
  import opened Outcome

  type Id = nat

  datatype Event = Confirm | Mutate

  /** A transaction: its serialization, what is left of it without signatures, and
      the addresses it pays. */
  datatype Tx = Tx(hex: nat, shape: nat, addresses: set<nat>)

  datatype Needle = TxHex(hex: nat, shape: nat) | Address(value: nat)

  /** `saved` watches can be found by their id; `block` is where the needle was found. */
  datatype Watch = Watch(
    id: Id,
    needle: Needle,
    callbacks: set<Event>,
    expires: bool,
    saved: bool,
    event: Option<Event>,
    confirmations: nat,
    block: Option<nat>)

  /** A callback that was made, while processing a block or on registration. */
  datatype Fired = Fired(id: Id, event: Event, at: Option<nat>)

  /** Blocks are known by their height: the chain only grows. */
  datatype Monitor = Monitor(
    latest: nat,
    processed: Option<nat>,
    blocks: map<nat, set<Id>>,
    watching: seq<Watch>,
    fired: seq<Fired>)

  /** How many confirmations are wanted, and how many blocks one check may process. */
  datatype Limits = Limits(confirmations: nat, checks: nat)

  // ----- one watch ------------------------------------------------------------------------

  /** What comes of comparing a needle with a transaction. Noting the details of an
      address that was found fails, before anything is noted. */
  datatype Sight = Unseen | Seen(event: Event) | Fault

  function Sees(needle: Needle, tx: Tx): Sight
  {
    match needle
    case TxHex(hex, shape) =>
      if tx.hex == hex then Seen(Confirm) else if tx.shape == shape then Seen(Mutate) else Unseen
    case Address(value) => if value in tx.addresses then Fault else Unseen
  }

  function Found(needle: Needle, txs: seq<Tx>): Sight
  {
    if txs == [] then Unseen
    else if Sees(needle, txs[0]).Unseen? then Found(needle, txs[1..]) else Sees(needle, txs[0])
  }

  /** A block's effect on a watch. */
  function Advanced(w: Watch, txs: seq<Tx>, height: nat): Watch
  {
    if w.event.Some? then w.(confirmations := w.confirmations + 1)
    else
      match Found(w.needle, txs)
      case Seen(e) => w.(event := Some(e), confirmations := w.confirmations + 1, block := Some(height))
      case _ => w
  }

  /** Looking for the watch in these transactions fails. */
  predicate Faults(w: Watch, txs: seq<Tx>)
  {
    w.event.None? && Found(w.needle, txs).Fault?
  }

  predicate Ripe(w: Watch, k: nat)
  {
    w.event.Some? && w.confirmations >= k
  }

  predicate Calls(w: Watch, k: nat)
  {
    Ripe(w, k) && w.event.value in w.callbacks
  }

  /** Address watches that do not expire are kept when they are ripe. */
  predicate Removable(w: Watch)
  {
    w.needle.TxHex? || w.expires
  }

  // ----- one block ------------------------------------------------------------------------

  function Recorded(blocks: map<nat, set<Id>>, height: nat, id: Id): map<nat, set<Id>>
  {
    blocks[height := (if height in blocks then blocks[height] else {}) + {id}]
  }

  function Unrecorded(blocks: map<nat, set<Id>>, height: nat, id: Id): map<nat, set<Id>>
  {
    if height !in blocks then blocks
    else if blocks[height] - {id} == {} then blocks - {height}
    else blocks[height := blocks[height] - {id}]
  }

  /** The watches after a block, the blocks they were found in, the callbacks made,
      and whether one of them raised. */
  datatype Sweep = Sweep(watches: seq<Watch>, blocks: map<nat, set<Id>>, fired: seq<Fired>, raised: bool)

  /** The watch's turn raises: its address was found, or its callback was made and
      it was never saved. */
  predicate Raises(w: Watch, k: nat, txs: seq<Tx>, height: nat)
  {
    Faults(w, txs) || (Calls(Advanced(w, txs, height), k) && !w.saved)
  }

  /** Goes through the watches in order; what raises leaves the rest untouched. */
  function Swept(ws: seq<Watch>, blocks: map<nat, set<Id>>, k: nat, txs: seq<Tx>, height: nat): Sweep
    decreases |ws|
  {
    if ws == [] then Sweep([], blocks, [], false)
    else
      var w := Advanced(ws[0], txs, height);
      var known := if ws[0].event.None? && w.event.Some? then Recorded(blocks, height, w.id) else blocks;
      var fired := if Calls(w, k) then [Fired(w.id, w.event.value, Some(height))] else [];
      if Raises(ws[0], k, txs, height) then Sweep([w] + ws[1..], known, fired, true)
      else
        var rest := Swept(ws[1..], known, k, txs, height);
        Sweep([w] + rest.watches, rest.blocks, fired + rest.fired, rest.raised)
  }

  /** What is left when the ripe watches are removed. */
  function Pruned(ws: seq<Watch>, k: nat): seq<Watch>
    decreases |ws|
  {
    if ws == [] then []
    else (if Ripe(ws[0], k) && Removable(ws[0]) then [] else [ws[0]]) + Pruned(ws[1..], k)
  }

  function PrunedBlocks(ws: seq<Watch>, blocks: map<nat, set<Id>>, k: nat): map<nat, set<Id>>
    decreases |ws|
  {
    if ws == [] then blocks
    else
      PrunedBlocks(ws[1..],
                   if Ripe(ws[0], k) && Removable(ws[0]) && ws[0].block.Some?
                   then Unrecorded(blocks, ws[0].block.value, ws[0].id) else blocks,
                   k)
  }

  /** A block processed, and whether that raised. */
  function Processed(m: Monitor, k: nat, txs: seq<Tx>, height: nat): (Monitor, bool)
  {
    var s := Swept(m.watching, m.blocks, k, txs, height);
    var swept := m.(watching := s.watches, blocks := s.blocks, fired := m.fired + s.fired);
    if s.raised then (swept, true)
    else
      (swept.(watching := Pruned(s.watches, k), blocks := PrunedBlocks(s.watches, s.blocks, k),
              processed := Some(height)),
       false)
  }

  // ----- one check ------------------------------------------------------------------------

  /** One turn of the block loop, looking at block `at`, and the block to look at
      next if any. A block known to be processed is passed over, without another
      look at the one after it. */
  function OneBlock(m: Monitor, k: nat, chain: seq<seq<Tx>>, at: nat): (r: (Monitor, Option<nat>))
    requires at < |chain|
    ensures r.1.Some? ==> at < r.1.value < |chain|
  {
    var known := m.processed == Some(at) || at in m.blocks;
    if known && at + 1 == |chain| then (m, None)
    else
      var next := if known then at + 1 else at;
      var (m', raised) := Processed(m, k, chain[next], next);
      if raised then (m', None)
      else if next + 1 < |chain| then (m', Some(next + 1))
      else (m'.(latest := next), None)
  }

  /** The block loop, about to take its `checks`-th turn. */
  function Looped(m: Monitor, l: Limits, chain: seq<seq<Tx>>, at: nat, checks: nat): Monitor
    requires at < |chain|
    decreases l.checks + 1 - checks
  {
    if checks > l.checks then m
    else
      var (m', next) := OneBlock(m, l.confirmations, chain, at);
      if next.None? then m' else Looped(m', l, chain, next.value, checks + 1)
  }

  function Checked(m: Monitor, l: Limits, chain: seq<seq<Tx>>): Monitor
    requires m.latest < |chain|
  {
    Looped(m, l, chain, m.latest, 1)
  }

  // ----- when a block raises ------------------------------------------------------------------

  predicate AllSaved(ws: seq<Watch>)
  {
    forall i :: 0 <= i < |ws| ==> ws[i].saved
  }

  /** No address still looked for is paid by these transactions. */
  predicate NoFault(ws: seq<Watch>, txs: seq<Tx>)
  {
    forall i :: 0 <= i < |ws| ==> !Faults(ws[i], txs)
  }

  lemma {:induction false} OnlyAddressesFault(needle: Needle, txs: seq<Tx>)
    ensures needle.TxHex? ==> !Found(needle, txs).Fault?
    ensures needle.Address? ==> !Found(needle, txs).Seen?
    decreases |txs|
  {
    if txs != [] { OnlyAddressesFault(needle, txs[1..]); }
  }

  /** Whether a watch can fault later is not changed by any block. */
  lemma FaultsLater(w: Watch, txs: seq<Tx>, height: nat, later: seq<Tx>)
    ensures Faults(Advanced(w, txs, height), later) == Faults(w, later)
  {
    OnlyAddressesFault(w.needle, txs);
    OnlyAddressesFault(w.needle, later);
  }

  lemma {:induction false} SweepRaisesIff(ws: seq<Watch>, blocks: map<nat, set<Id>>, k: nat, txs: seq<Tx>, height: nat)
    ensures Swept(ws, blocks, k, txs, height).raised <==>
            exists i :: 0 <= i < |ws| && Raises(ws[i], k, txs, height)
    decreases |ws|
  {
    if ws != [] && !Raises(ws[0], k, txs, height) {
      var w := Advanced(ws[0], txs, height);
      var known := if ws[0].event.None? && w.event.Some? then Recorded(blocks, height, w.id) else blocks;
      SweepRaisesIff(ws[1..], known, k, txs, height);
      if j :| 0 <= j < |ws| && Raises(ws[j], k, txs, height) {
        assert ws[1..][j - 1] == ws[j];
      }
    }
  }

  /** A sweep advances the watches in turn up to the first whose turn raises; those
      after it are as they were, and none of them is called back. */
  lemma {:induction false} SweepStopsAt(ws: seq<Watch>, blocks: map<nat, set<Id>>, k: nat, txs: seq<Tx>, height: nat, i: nat)
    requires i < |ws| && Raises(ws[i], k, txs, height) && forall j :: 0 <= j < i ==> !Raises(ws[j], k, txs, height)
    ensures var s := Swept(ws, blocks, k, txs, height);
            s.raised && |s.watches| == |ws| && s.watches[i + 1..] == ws[i + 1..] && |s.fired| <= i + 1 &&
            forall j :: 0 <= j <= i ==> s.watches[j] == Advanced(ws[j], txs, height)
    decreases i
  {
    if i > 0 {
      var w := Advanced(ws[0], txs, height);
      var known := if ws[0].event.None? && w.event.Some? then Recorded(blocks, height, w.id) else blocks;
      SweepStopsAt(ws[1..], known, k, txs, height, i - 1);
      var rest := Swept(ws[1..], known, k, txs, height);
      assert Swept(ws, blocks, k, txs, height).watches == [w] + rest.watches;
      assert ([w] + rest.watches)[i + 1..] == rest.watches[i..] && ws[1..][i..] == ws[i + 1..];
      assert forall j :: 0 < j <= i ==> ws[j] == ws[1..][j - 1];
    }
  }

  /** A block is passed exactly when it pays no address still looked for and makes
      no callback of a watch that was never saved. */
  lemma BlockPassesIff(m: Monitor, k: nat, txs: seq<Tx>, height: nat)
    ensures var (r, raised) := Processed(m, k, txs, height);
            (raised <==> exists i :: 0 <= i < |m.watching| && Raises(m.watching[i], k, txs, height)) &&
            r.latest == m.latest && r.processed == if raised then m.processed else Some(height)
  {
    SweepRaisesIff(m.watching, m.blocks, k, txs, height);
  }

  lemma {:induction false} SweepKeepsFaults(ws: seq<Watch>, blocks: map<nat, set<Id>>, k: nat, txs: seq<Tx>,
                                            height: nat, later: seq<Tx>)
    ensures NoFault(Swept(ws, blocks, k, txs, height).watches, later) == NoFault(ws, later)
    decreases |ws|
  {
    if ws != [] {
      var w := Advanced(ws[0], txs, height);
      var known := if ws[0].event.None? && w.event.Some? then Recorded(blocks, height, w.id) else blocks;
      FaultsLater(ws[0], txs, height, later);
      NoFaultSplit(ws[0], ws[1..], later);
      assert ws == [ws[0]] + ws[1..];
      if Raises(ws[0], k, txs, height) {
        NoFaultSplit(w, ws[1..], later);
      } else {
        SweepKeepsFaults(ws[1..], known, k, txs, height, later);
        NoFaultSplit(w, Swept(ws[1..], known, k, txs, height).watches, later);
      }
    }
  }

  lemma NoFaultSplit(w: Watch, ws: seq<Watch>, txs: seq<Tx>)
    ensures NoFault([w] + ws, txs) <==> !Faults(w, txs) && NoFault(ws, txs)
  {
    var all := [w] + ws;
    assert all[0] == w;
    assert forall i :: 0 < i < |all| ==> all[i] == ws[i - 1];
    assert forall i :: 0 <= i < |ws| ==> ws[i] == all[i + 1];
  }

  lemma {:induction false} PruningKeepsFaults(ws: seq<Watch>, k: nat, later: seq<Tx>)
    ensures NoFault(Pruned(ws, k), later) == NoFault(ws, later)
    decreases |ws|
  {
    if ws != [] {
      PruningKeepsFaults(ws[1..], k, later);
      NoFaultSplit(ws[0], ws[1..], later);
      NoFaultSplit(ws[0], Pruned(ws[1..], k), later);
      assert ws == [ws[0]] + ws[1..] && [] + Pruned(ws[1..], k) == Pruned(ws[1..], k);
    }
  }

  lemma BlockKeepsFaults(m: Monitor, k: nat, txs: seq<Tx>, height: nat, later: seq<Tx>)
    ensures NoFault(Processed(m, k, txs, height).0.watching, later) == NoFault(m.watching, later)
  {
    SweepKeepsFaults(m.watching, m.blocks, k, txs, height, later);
    PruningKeepsFaults(Swept(m.watching, m.blocks, k, txs, height).watches, k, later);
  }

  // ----- keeping up with the chain -----------------------------------------------------------

  /** No block from `from` up to `end` pays an address still looked for. */
  predicate Undisturbed(ws: seq<Watch>, chain: seq<seq<Tx>>, from: nat, end: nat)
    requires end <= |chain|
  {
    forall g :: from <= g < end ==> NoFault(ws, chain[g])
  }

  lemma BlockKeepsUndisturbed(m: Monitor, k: nat, txs: seq<Tx>, height: nat, chain: seq<seq<Tx>>, from: nat, end: nat)
    requires end <= |chain|
    ensures Undisturbed(Processed(m, k, txs, height).0.watching, chain, from, end)
            == Undisturbed(m.watching, chain, from, end)
  {
    forall g | from <= g < end
      ensures NoFault(Processed(m, k, txs, height).0.watching, chain[g]) == NoFault(m.watching, chain[g])
    {
      BlockKeepsFaults(m, k, txs, height, chain[g]);
    }
  }

  /** The first block this monitor has not processed. */
  function Next(m: Monitor): nat
  {
    if m.processed.None? then m.latest else m.latest + 1
  }

  /** The monitor has processed everything up to its latest block, or nothing yet. */
  predicate Tracking(m: Monitor)
  {
    (m.processed.Some? ==> m.processed == Some(m.latest)) && forall g :: g in m.blocks ==> g < Next(m)
  }

  /** The blocks from `from` up to `to`, processed one after the other. */
  function Replayed(m: Monitor, k: nat, chain: seq<seq<Tx>>, from: nat, end: nat): Monitor
    requires from <= end <= |chain|
    decreases end - from
  {
    if from == end then m else Replayed(Processed(m, k, chain[from], from).0, k, chain, from + 1, end)
  }

  lemma {:induction false} SweepOfSaved(ws: seq<Watch>, blocks: map<nat, set<Id>>, k: nat, txs: seq<Tx>, height: nat)
    requires AllSaved(ws) && NoFault(ws, txs)
    ensures var s := Swept(ws, blocks, k, txs, height);
            !s.raised && AllSaved(s.watches) && |s.watches| == |ws| &&
            (forall g :: g in s.blocks ==> g in blocks || g == height)
    decreases |ws|
  {
    if ws != [] {
      var w := Advanced(ws[0], txs, height);
      var known := if ws[0].event.None? && w.event.Some? then Recorded(blocks, height, w.id) else blocks;
      SweepOfSaved(ws[1..], known, k, txs, height);
    }
  }

  lemma {:induction false} PruningSaved(ws: seq<Watch>, blocks: map<nat, set<Id>>, k: nat)
    requires AllSaved(ws)
    ensures AllSaved(Pruned(ws, k)) && forall g :: g in PrunedBlocks(ws, blocks, k) ==> g in blocks
    decreases |ws|
  {
    if ws != [] {
      PruningSaved(ws[1..],
                   if Ripe(ws[0], k) && Removable(ws[0]) && ws[0].block.Some?
                   then Unrecorded(blocks, ws[0].block.value, ws[0].id) else blocks,
                   k);
    }
  }

  /** A block that pays no address still looked for never raises while every watch
      was saved. */
  lemma ProcessingSaved(m: Monitor, k: nat, txs: seq<Tx>, height: nat)
    requires AllSaved(m.watching) && NoFault(m.watching, txs)
    ensures var (r, raised) := Processed(m, k, txs, height);
            !raised && AllSaved(r.watching) && r.latest == m.latest && r.processed == Some(height) &&
            forall g :: g in r.blocks ==> g in m.blocks || g == height
  {
    SweepOfSaved(m.watching, m.blocks, k, txs, height);
    var s := Swept(m.watching, m.blocks, k, txs, height);
    PruningSaved(s.watches, s.blocks, k);
  }

  /** The rest of a check, from a block not processed before on. */
  lemma {:induction false} LoopReplays(m: Monitor, l: Limits, chain: seq<seq<Tx>>, at: nat, checks: nat)
    requires AllSaved(m.watching) && at < |chain| && 1 <= checks && |chain| - at <= l.checks + 1 - checks
    requires m.processed != Some(at) && forall g :: g in m.blocks ==> g < at
    requires Undisturbed(m.watching, chain, at, |chain|)
    ensures Looped(m, l, chain, at, checks)
            == Replayed(m, l.confirmations, chain, at, |chain|).(latest := |chain| - 1)
    ensures var r := Looped(m, l, chain, at, checks);
            AllSaved(r.watching) && r.processed == Some(|chain| - 1) && forall g :: g in r.blocks ==> g < |chain|
    decreases |chain| - at
  {
    var (m', _) := Processed(m, l.confirmations, chain[at], at);
    ProcessingSaved(m, l.confirmations, chain[at], at);
    BlockKeepsUndisturbed(m, l.confirmations, chain[at], at, chain, at + 1, |chain|);
    if at + 1 < |chain| {
      LoopReplays(m', l, chain, at + 1, checks + 1);
      assert Replayed(m, l.confirmations, chain, at, |chain|)
          == Replayed(m', l.confirmations, chain, at + 1, |chain|);
    } else {
      assert Replayed(m', l.confirmations, chain, |chain|, |chain|) == m';
    }
  }

  /** Passing over the latest block first changes nothing else. */
  lemma PassOver(m: Monitor, l: Limits, chain: seq<seq<Tx>>, at: nat)
    requires at + 1 < |chain| && m.processed == Some(at) && at + 1 !in m.blocks && l.checks >= 1
    ensures Looped(m, l, chain, at, 1) == Looped(m, l, chain, at + 1, 1)
  {
  }

  lemma CheckStartsAtNext(m: Monitor, l: Limits, chain: seq<seq<Tx>>)
    requires Tracking(m) && m.latest < |chain| && l.checks >= 1
    ensures Next(m) < |chain| ==> Checked(m, l, chain) == Looped(m, l, chain, Next(m), 1)
    ensures Next(m) >= |chain| ==> Checked(m, l, chain) == m
  {
    if m.processed.Some? && m.latest + 1 < |chain| {
      PassOver(m, l, chain, m.latest);
    }
  }

  /** A check of a chain that has grown by no more than the limit, without paying an
      address still looked for, processes exactly the new blocks, in order, and is
      again at the tip. */
  lemma CheckReplays(m: Monitor, l: Limits, chain: seq<seq<Tx>>)
    requires Tracking(m) && AllSaved(m.watching) && m.latest < |chain| && |chain| - Next(m) <= l.checks && l.checks >= 1
    requires Undisturbed(m.watching, chain, Next(m), |chain|)
    ensures var r := Checked(m, l, chain);
            r == Replayed(m, l.confirmations, chain, Next(m), |chain|).(latest := |chain| - 1)
            && Tracking(r) && AllSaved(r.watching) && r.latest == |chain| - 1 && Next(r) == |chain|
  {
    CheckStartsAtNext(m, l, chain);
    var r := Checked(m, l, chain);
    if Next(m) < |chain| {
      LoopReplays(m, l, chain, Next(m), 1);
    } else {
      assert Replayed(m, l.confirmations, chain, |chain|, |chain|) == m;
      assert r == m == m.(latest := |chain| - 1);
    }
  }

  // ----- one watch among others --------------------------------------------------------------

  predicate Distinct(ws: seq<Watch>)
  {
    forall i, j :: 0 <= i < j < |ws| ==> ws[i].id != ws[j].id
  }

  function Find(ws: seq<Watch>, id: Id): Option<Watch>
    decreases |ws|
  {
    if ws == [] then None else if ws[0].id == id then Some(ws[0]) else Find(ws[1..], id)
  }

  /** The callbacks made for one watch, in order. */
  function Of(fired: seq<Fired>, id: Id): seq<Fired>
    decreases |fired|
  {
    if fired == [] then [] else (if fired[0].id == id then [fired[0]] else []) + Of(fired[1..], id)
  }

  lemma {:induction false} OfAppends(a: seq<Fired>, b: seq<Fired>, id: Id)
    ensures Of(a + b, id) == Of(a, id) + Of(b, id)
    decreases |a|
  {
    if a == [] {
      assert a + b == b;
    } else {
      OfAppends(a[1..], b, id);
      assert (a + b)[1..] == a[1..] + b;
      var head := if a[0].id == id then [a[0]] else [];
      assert head + (Of(a[1..], id) + Of(b, id)) == (head + Of(a[1..], id)) + Of(b, id);
    }
  }

  predicate Without(ws: seq<Watch>, id: Id)
  {
    forall i :: 0 <= i < |ws| ==> ws[i].id != id
  }

  lemma {:induction false} NotFound(ws: seq<Watch>, id: Id)
    requires Without(ws, id)
    ensures Find(ws, id) == None
    decreases |ws|
  {
    if ws != [] {
      NotFound(ws[1..], id);
    }
  }

  lemma {:induction false} SweepKeepsIds(ws: seq<Watch>, blocks: map<nat, set<Id>>, k: nat, txs: seq<Tx>, height: nat)
    ensures var s := Swept(ws, blocks, k, txs, height);
            |s.watches| == |ws| && forall i :: 0 <= i < |ws| ==> s.watches[i].id == ws[i].id
    decreases |ws|
  {
    if ws != [] {
      var w := Advanced(ws[0], txs, height);
      var known := if ws[0].event.None? && w.event.Some? then Recorded(blocks, height, w.id) else blocks;
      SweepKeepsIds(ws[1..], known, k, txs, height);
    }
  }

  /** What a sweep that does not raise does to one watch does not depend on the
      others. */
  lemma {:induction false} SweepOfOne(ws: seq<Watch>, blocks: map<nat, set<Id>>, k: nat, txs: seq<Tx>, height: nat, id: Id)
    requires AllSaved(ws) && NoFault(ws, txs) && Distinct(ws)
    ensures var s := Swept(ws, blocks, k, txs, height);
            match Find(ws, id)
            case None => Find(s.watches, id) == None && Of(s.fired, id) == []
            case Some(w) =>
              var w' := Advanced(w, txs, height);
              Find(s.watches, id) == Some(w') &&
              Of(s.fired, id) == if Calls(w', k) then [Fired(id, w'.event.value, Some(height))] else []
    decreases |ws|
  {
    if ws != [] {
      var w := Advanced(ws[0], txs, height);
      var known := if ws[0].event.None? && w.event.Some? then Recorded(blocks, height, w.id) else blocks;
      var fired := if Calls(w, k) then [Fired(w.id, w.event.value, Some(height))] else [];
      var rest := Swept(ws[1..], known, k, txs, height);
      SweepOfOne(ws[1..], known, k, txs, height, id);
      OfAppends(fired, rest.fired, id);
      assert fired != [] ==> fired[1..] == [];
      assert ([w] + rest.watches)[1..] == rest.watches;
      if ws[0].id == id {
        NotFound(ws[1..], id);
      }
    }
  }

  lemma {:induction false} PruningWithout(ws: seq<Watch>, k: nat, id: Id)
    requires Without(ws, id)
    ensures Without(Pruned(ws, k), id)
    decreases |ws|
  {
    if ws != [] {
      PruningWithout(ws[1..], k, id);
    }
  }

  lemma {:induction false} PruningKeepsDistinct(ws: seq<Watch>, k: nat)
    requires Distinct(ws)
    ensures Distinct(Pruned(ws, k))
    decreases |ws|
  {
    if ws != [] {
      PruningKeepsDistinct(ws[1..], k);
      assert Without(ws[1..], ws[0].id);
      PruningWithout(ws[1..], k, ws[0].id);
    }
  }

  lemma {:induction false} PruningOfOne(ws: seq<Watch>, k: nat, id: Id)
    requires Distinct(ws)
    ensures Find(Pruned(ws, k), id) ==
            match Find(ws, id)
            case None => None
            case Some(w) => if Ripe(w, k) && Removable(w) then None else Some(w)
    decreases |ws|
  {
    if ws != [] {
      PruningOfOne(ws[1..], k, id);
      var rest := Pruned(ws[1..], k);
      assert ([ws[0]] + rest)[1..] == rest && [] + rest == rest;
      if ws[0].id == id {
        PruningWithout(ws[1..], k, id);
        NotFound(rest, id);
      }
    }
  }

  /** A block's effect on one watch and on the callbacks made for it. */
  lemma BlockOfOne(m: Monitor, k: nat, txs: seq<Tx>, height: nat, id: Id)
    requires AllSaved(m.watching) && NoFault(m.watching, txs) && Distinct(m.watching)
    ensures var r := Processed(m, k, txs, height).0;
            Distinct(r.watching) &&
            match Find(m.watching, id)
            case None => Find(r.watching, id) == None && Of(r.fired, id) == Of(m.fired, id)
            case Some(w) =>
              var w' := Advanced(w, txs, height);
              Find(r.watching, id) == (if Ripe(w', k) && Removable(w') then None else Some(w')) &&
              Of(r.fired, id) == Of(m.fired, id) + if Calls(w', k) then [Fired(id, w'.event.value, Some(height))] else []
  {
    var s := Swept(m.watching, m.blocks, k, txs, height);
    SweepOfSaved(m.watching, m.blocks, k, txs, height);
    SweepKeepsIds(m.watching, m.blocks, k, txs, height);
    SweepOfOne(m.watching, m.blocks, k, txs, height, id);
    PruningOfOne(s.watches, k, id);
    PruningKeepsDistinct(s.watches, k);
    OfAppends(m.fired, s.fired, id);
  }

  // ----- the callback of a watch -------------------------------------------------------------

  /** A new watch that will be removed when it is ripe. */
  predicate New(w: Watch)
  {
    w.event.None? && w.confirmations == 0 && w.saved && Removable(w)
  }

  /** The transaction that is watched, as it was sent or with other signatures. */
  predicate Same(needle: Needle, tx: Tx)
  {
    needle.TxHex? && (tx.hex == needle.hex || tx.shape == needle.shape)
  }

  predicate NoneIsSame(needle: Needle, txs: seq<Tx>)
  {
    forall i :: 0 <= i < |txs| ==> !Same(needle, txs[i])
  }

  /** The first of these transactions that is the one watched confirms it when it is
      there as it was sent; with other signatures it is a mutation. */
  predicate FirstIs(needle: Needle, txs: seq<Tx>, e: Event)
  {
    exists i :: 0 <= i < |txs| && Same(needle, txs[i]) && NoneIsSame(needle, txs[..i]) &&
                (e == Confirm <==> txs[i].hex == needle.hex)
  }

  /** From block `from` on, the watch's transaction first appears in block h, as e. */
  predicate Appears(w: Watch, chain: seq<seq<Tx>>, from: nat, h: nat, e: Event)
  {
    from <= h < |chain| && FirstIs(w.needle, chain[h], e) &&
    forall g :: from <= g < h ==> NoneIsSame(w.needle, chain[g])
  }

  /** A watch of a transaction is found in a block exactly when that is there, first
      as such or first as a mutation. */
  lemma {:induction false} FoundIff(needle: Needle, txs: seq<Tx>)
    requires needle.TxHex?
    ensures Found(needle, txs) == Unseen <==> NoneIsSame(needle, txs)
    ensures forall e :: Found(needle, txs) == Seen(e) <==> FirstIs(needle, txs, e)
    decreases |txs|
  {
    if txs != [] {
      var rest := txs[1..];
      FoundIff(needle, rest);
      assert NoneIsSame(needle, txs) <==> !Same(needle, txs[0]) && NoneIsSame(needle, rest) by {
        assert forall i :: 0 < i < |txs| ==> txs[i] == rest[i - 1];
        assert forall i :: 0 <= i < |rest| ==> rest[i] == txs[i + 1];
      }
      forall e ensures FirstIs(needle, txs, e) <==> Found(needle, txs) == Seen(e) {
        FirstOf(needle, txs, e);
      }
    }
  }

  lemma NoneBehind(needle: Needle, tx: Tx, txs: seq<Tx>)
    requires !Same(needle, tx)
    ensures NoneIsSame(needle, [tx] + txs) <==> NoneIsSame(needle, txs)
  {
    var all := [tx] + txs;
    assert forall j :: 0 <= j < |txs| ==> txs[j] == all[j + 1];
  }

  lemma FirstOf(needle: Needle, txs: seq<Tx>, e: Event)
    requires needle.TxHex? && txs != []
    ensures FirstIs(needle, txs, e) <==>
            if Same(needle, txs[0]) then e == Confirm <==> txs[0].hex == needle.hex
            else FirstIs(needle, txs[1..], e)
  {
    var rest := txs[1..];
    if Same(needle, txs[0]) {
      assert txs[..0] == [];
      forall i | 0 < i < |txs| ensures !NoneIsSame(needle, txs[..i]) {
        assert txs[..i][0] == txs[0];
      }
    } else {
      forall i | 0 < i < |txs|
        ensures txs[i] == rest[i - 1] && (NoneIsSame(needle, txs[..i]) <==> NoneIsSame(needle, rest[..i - 1]))
      {
        assert txs[..i] == [txs[0]] + rest[..i - 1];
        NoneBehind(needle, txs[0], rest[..i - 1]);
      }
      assert forall i :: 0 <= i < |rest| ==> rest[i] == txs[i + 1] && rest[..i] == rest[..(i + 1) - 1];
    }
  }

  lemma AppearsIsFound(w: Watch, chain: seq<seq<Tx>>, from: nat, h: nat, e: Event, at: nat)
    requires Appears(w, chain, from, h, e) && from <= at <= h
    ensures Found(w.needle, chain[at]) == if at == h then Seen(e) else Unseen
  {
    FoundIff(w.needle, chain[at]);
  }

  /** Looking for a watch fails exactly when it is for an address, not found yet, that
      one of the transactions pays. */
  lemma FaultsIff(w: Watch, txs: seq<Tx>)
    ensures Faults(w, txs) <==> w.event.None? && w.needle.Address? && Pays(w.needle.value, txs)
  {
    OnlyAddressesFault(w.needle, txs);
    if w.needle.Address? { AddressFoundIff(w.needle, txs); }
  }

  lemma {:induction false} AddressFoundIff(needle: Needle, txs: seq<Tx>)
    requires needle.Address?
    ensures Found(needle, txs) == (if Pays(needle.value, txs) then Fault else Unseen)
    decreases |txs|
  {
    if txs != [] {
      AddressFoundIff(needle, txs[1..]);
      assert forall i :: 0 < i < |txs| ==> txs[i] == txs[1..][i - 1];
      assert forall i :: 0 <= i < |txs[1..]| ==> txs[1..][i] == txs[i + 1];
    }
  }

  predicate Pays(address: nat, txs: seq<Tx>)
  {
    exists i :: 0 <= i < |txs| && address in txs[i].addresses
  }

  /** Where the watch is once the blocks before `next` are processed, and the
      callbacks made for it since there were the `earlier` ones. */
  predicate Follows(m: Monitor, next: nat, w: Watch, h: nat, k: nat, e: Event, earlier: seq<Fired>)
    requires k >= 1
  {
    if next <= h then Find(m.watching, w.id) == Some(w) && Of(m.fired, w.id) == earlier
    else if next < h + k then
      Find(m.watching, w.id) == Some(w.(event := Some(e), confirmations := next - h, block := Some(h)))
      && Of(m.fired, w.id) == earlier
    else
      Find(m.watching, w.id) == None &&
      Of(m.fired, w.id) == earlier + if e in w.callbacks then [Fired(w.id, e, Some(h + k - 1))] else []
  }

  lemma BlockFollows(m: Monitor, k: nat, chain: seq<seq<Tx>>, from: nat, next: nat, w: Watch, h: nat, e: Event,
                     earlier: seq<Fired>)
    requires AllSaved(m.watching) && Distinct(m.watching) && k >= 1 && New(w)
    requires Appears(w, chain, from, h, e) && from <= next < |chain| && Follows(m, next, w, h, k, e, earlier)
    requires NoFault(m.watching, chain[next])
    ensures var r := Processed(m, k, chain[next], next).0;
            AllSaved(r.watching) && Distinct(r.watching) && Follows(r, next + 1, w, h, k, e, earlier)
  {
    ProcessingSaved(m, k, chain[next], next);
    BlockOfOne(m, k, chain[next], next, w.id);
    if next <= h { AppearsIsFound(w, chain, from, h, e, next); }
    assert earlier + [] == earlier;
  }

  lemma {:induction false} ReplayFollows(m: Monitor, k: nat, chain: seq<seq<Tx>>, from: nat, next: nat, end: nat,
                                         w: Watch, h: nat, e: Event, earlier: seq<Fired>)
    requires AllSaved(m.watching) && Distinct(m.watching) && k >= 1 && New(w)
    requires Appears(w, chain, from, h, e) && from <= next <= end <= |chain| && Follows(m, next, w, h, k, e, earlier)
    requires Undisturbed(m.watching, chain, next, end)
    ensures var r := Replayed(m, k, chain, next, end);
            Distinct(r.watching) && Follows(r, end, w, h, k, e, earlier)
    decreases end - next
  {
    if next < end {
      BlockFollows(m, k, chain, from, next, w, h, e, earlier);
      BlockKeepsUndisturbed(m, k, chain[next], next, chain, next + 1, end);
      ReplayFollows(Processed(m, k, chain[next], next).0, k, chain, from, next + 1, end, w, h, e, earlier);
    }
  }

  // ----- runs ---------------------------------------------------------------------------------

  /** A check while the chain has so many blocks, or the registration of a watch. */
  datatype Action = Poll(blocks: nat) | Add(watch: Watch)

  function Put(ws: seq<Watch>, w: Watch): (r: seq<Watch>)
    decreases |ws|
  {
    if ws == [] then [w] else if ws[0].id == w.id then [w] + ws[1..] else [ws[0]] + Put(ws[1..], w)
  }

  /** Registration. When the transaction already has enough confirmations, in block
      `deep`, the callback is made at once, and the lookup of a watch not saved yet
      raises: the watch stays in the table without ever being saved. */
  function Registered(m: Monitor, w: Watch, deep: Option<nat>): (Monitor, bool)
  {
    if deep.Some? && w.needle.TxHex? && Confirm in w.callbacks then
      (m.(watching := Put(m.watching, w.(event := Some(Confirm), confirmations := 0, block := deep, saved := false)),
          fired := m.fired + [Fired(w.id, Confirm, None)]),
       true)
    else
      (m.(watching := Put(m.watching, w.(event := None, confirmations := 0, block := None, saved := true))), false)
  }

  /** A watch registered in time is new, and changes nothing else. */
  lemma RegisteredIsNew(m: Monitor, w: Watch, deep: Option<nat>, id: Id)
    requires Distinct(m.watching) && Removable(w)
    requires deep.None? || w.needle.Address? || Confirm !in w.callbacks
    ensures var (r, raised) := Registered(m, w, deep);
            !raised && r == m.(watching := r.watching) && Distinct(r.watching) &&
            (id != w.id ==> Find(r.watching, id) == Find(m.watching, id)) &&
            match Find(r.watching, w.id)
            case None => false
            case Some(v) => New(v) && v.needle == w.needle && v.callbacks == w.callbacks
  {
    var v := w.(event := None, confirmations := 0, block := None, saved := true);
    PutIsFound(m.watching, v, id);
    PutIsFound(m.watching, v, w.id);
  }

  lemma {:induction false} PutIsFound(ws: seq<Watch>, w: Watch, id: Id)
    requires Distinct(ws)
    ensures Find(Put(ws, w), id) == (if id == w.id then Some(w) else Find(ws, id)) && Distinct(Put(ws, w))
    ensures forall i :: 0 <= i < |Put(ws, w)| ==> Put(ws, w)[i].id == w.id || Put(ws, w)[i] in ws
    decreases |ws|
  {
    if ws != [] {
      var rest := Put(ws[1..], w);
      PutIsFound(ws[1..], w, id);
      assert ([ws[0]] + rest)[1..] == rest && ([w] + ws[1..])[1..] == ws[1..];
    }
  }

  /** Listing a watch under its block and taking it out again are exact. */
  lemma UnrecordUndoes(blocks: map<nat, set<Id>>, height: nat, id: Id)
    requires height in blocks ==> blocks[height] != {} && id !in blocks[height]
    ensures Unrecorded(Recorded(blocks, height, id), height, id) == blocks
  {
    var now := Recorded(blocks, height, id);
    assert height in blocks ==> now[height] - {id} == blocks[height];
    assert height !in blocks ==> now[height] - {id} == {};
  }

  function Acted(m: Monitor, l: Limits, chain: seq<seq<Tx>>, a: Action): Monitor
  {
    match a
    case Poll(n) => if m.latest < n <= |chain| then Checked(m, l, chain[..n]) else m
    case Add(w) => m.(watching := Put(m.watching, w))
  }

  function Ran(m: Monitor, l: Limits, chain: seq<seq<Tx>>, actions: seq<Action>): Monitor
    decreases |actions|
  {
    if actions == [] then m else Ran(Acted(m, l, chain, actions[0]), l, chain, actions[1..])
  }

  /** Every check finds a chain that has not shrunk, has grown by no more blocks than
      a check can process, and in those pays no address still looked for; watches
      are registered under other ids, before they have enough confirmations. */
  predicate Steady(m: Monitor, l: Limits, chain: seq<seq<Tx>>, actions: seq<Action>, id: Id)
    decreases |actions|
  {
    actions == [] ||
    ((match actions[0]
      case Poll(n) =>
        m.latest < n <= |chain| && n - Next(m) <= l.checks && Undisturbed(m.watching, chain, Next(m), n)
      case Add(w) => w.saved && w.id != id)
     && Steady(Acted(m, l, chain, actions[0]), l, chain, actions[1..], id))
  }

  lemma {:induction false} PuttingAnother(ws: seq<Watch>, w: Watch, id: Id)
    requires Distinct(ws) && w.id != id
    ensures Find(Put(ws, w), id) == Find(ws, id) && Distinct(Put(ws, w))
    ensures forall i :: 0 <= i < |Put(ws, w)| ==> Put(ws, w)[i] == w || Put(ws, w)[i] in ws
    decreases |ws|
  {
    if ws != [] {
      var rest := Put(ws[1..], w);
      PuttingAnother(ws[1..], w, id);
      assert ([ws[0]] + rest)[1..] == rest && ([w] + ws[1..])[1..] == ws[1..];
    }
  }

  /** What a steady run keeps. */
  predicate Running(m: Monitor, chain: seq<seq<Tx>>)
  {
    Tracking(m) && AllSaved(m.watching) && Distinct(m.watching) && m.latest < |chain|
  }

  lemma {:induction false} ReplayOfPrefix(m: Monitor, k: nat, chain: seq<seq<Tx>>, n: nat, from: nat)
    requires from <= n <= |chain|
    ensures Replayed(m, k, chain[..n], from, n) == Replayed(m, k, chain, from, n)
    decreases n - from
  {
    if from < n {
      ReplayOfPrefix(Processed(m, k, chain[from], from).0, k, chain, n, from + 1);
    }
  }

  lemma PollFollows(m: Monitor, l: Limits, chain: seq<seq<Tx>>, n: nat, from: nat, w: Watch, h: nat, e: Event,
                    earlier: seq<Fired>)
    requires Running(m, chain) && l.confirmations >= 1 && l.checks >= 1 && m.latest < n <= |chain| && n - Next(m) <= l.checks
    requires New(w) && Appears(w, chain, from, h, e) && from <= Next(m)
    requires Follows(m, Next(m), w, h, l.confirmations, e, earlier) && Undisturbed(m.watching, chain, Next(m), n)
    ensures var r := Checked(m, l, chain[..n]);
            Running(r, chain) && Next(r) == n >= Next(m) && Follows(r, n, w, h, l.confirmations, e, earlier)
  {
    CheckReplays(m, l, chain[..n]);
    ReplayOfPrefix(m, l.confirmations, chain, n, Next(m));
    ReplayFollows(m, l.confirmations, chain, from, Next(m), n, w, h, e, earlier);
  }

  lemma AddFollows(m: Monitor, chain: seq<seq<Tx>>, a: Watch, w: Watch, h: nat, k: nat, e: Event, earlier: seq<Fired>)
    requires Running(m, chain) && k >= 1 && a.saved && a.id != w.id && Follows(m, Next(m), w, h, k, e, earlier)
    ensures var r := m.(watching := Put(m.watching, a));
            Running(r, chain) && Follows(r, Next(m), w, h, k, e, earlier)
  {
    PuttingAnother(m.watching, a, w.id);
  }

  lemma {:induction false} RunFollows(m: Monitor, l: Limits, chain: seq<seq<Tx>>, actions: seq<Action>, from: nat,
                                      w: Watch, h: nat, e: Event, earlier: seq<Fired>)
    requires Running(m, chain) && l.confirmations >= 1 && l.checks >= 1 && Steady(m, l, chain, actions, w.id)
    requires New(w) && Appears(w, chain, from, h, e) && from <= Next(m)
    requires Follows(m, Next(m), w, h, l.confirmations, e, earlier)
    ensures var r := Ran(m, l, chain, actions);
            Follows(r, Next(r), w, h, l.confirmations, e, earlier)
    decreases |actions|
  {
    if actions != [] {
      match actions[0] {
        case Poll(n) => PollFollows(m, l, chain, n, from, w, h, e, earlier);
        case Add(a) => AddFollows(m, chain, a, w, h, l.confirmations, e, earlier);
      }
      RunFollows(Acted(m, l, chain, actions[0]), l, chain, actions[1..], from, w, h, e, earlier);
    }
  }

  /** Poll-schedule independence: a watch registered before its transaction's block
      h was processed has its callback made exactly once, while block
      h + confirmations - 1 is processed, and not before that block has been seen,
      however checks, arrivals of blocks and other registrations interleave, as long
      as no address still looked for is paid. */
  lemma CallbackOnce(m: Monitor, l: Limits, chain: seq<seq<Tx>>, actions: seq<Action>, w: Watch, h: nat, e: Event)
    requires Running(m, chain) && l.confirmations >= 1 && l.checks >= 1 && Steady(m, l, chain, actions, w.id)
    requires New(w) && e in w.callbacks && Appears(w, chain, Next(m), h, e)
    requires Find(m.watching, w.id) == Some(w) && Of(m.fired, w.id) == []
    ensures var r := Ran(m, l, chain, actions);
            Of(r.fired, w.id) == if Next(r) < h + l.confirmations then []
                                 else [Fired(w.id, e, Some(h + l.confirmations - 1))]
  {
    RunFollows(m, l, chain, actions, Next(m), w, h, e, []);
  }

  // ----- checks alone ---------------------------------------------------------------------

  lemma {:induction false} ReplaysJoin(m: Monitor, k: nat, chain: seq<seq<Tx>>, from: nat, mid: nat, end: nat)
    requires from <= mid <= end <= |chain|
    ensures Replayed(Replayed(m, k, chain, from, mid), k, chain, mid, end) == Replayed(m, k, chain, from, end)
    decreases mid - from
  {
    if from < mid {
      ReplaysJoin(Processed(m, k, chain[from], from).0, k, chain, from + 1, mid, end);
    }
  }

  lemma {:induction false} ReplayIgnoresLatest(m: Monitor, k: nat, chain: seq<seq<Tx>>, from: nat, end: nat, x: nat)
    requires from <= end <= |chain|
    ensures Replayed(m.(latest := x), k, chain, from, end) == Replayed(m, k, chain, from, end).(latest := x)
    decreases end - from
  {
    if from < end {
      var r := Processed(m, k, chain[from], from).0;
      assert Processed(m.(latest := x), k, chain[from], from).0 == r.(latest := x);
      ReplayIgnoresLatest(r, k, chain, from + 1, end, x);
    }
  }

  /** Checks at ever longer prefixes of the chain, ending with `end` blocks. */
  predicate Polls(next: nat, l: Limits, polls: seq<nat>, end: nat)
    decreases |polls|
  {
    if polls == [] then next == end
    else next <= polls[0] && polls[0] - next <= l.checks && Polls(polls[0], l, polls[1..], end)
  }

  function Polled(m: Monitor, l: Limits, chain: seq<seq<Tx>>, polls: seq<nat>): Monitor
    decreases |polls|
  {
    if polls == [] then m
    else if m.latest < polls[0] <= |chain| then Polled(Checked(m, l, chain[..polls[0]]), l, chain, polls[1..])
    else m
  }

  lemma {:induction false} PollsReplay(m: Monitor, l: Limits, chain: seq<seq<Tx>>, polls: seq<nat>, end: nat)
    requires Running(m, chain) && m.processed.Some? && l.checks >= 1 && end <= |chain| && Polls(Next(m), l, polls, end)
    requires Undisturbed(m.watching, chain, Next(m), end)
    ensures Next(m) <= end &&
            Polled(m, l, chain, polls) == Replayed(m, l.confirmations, chain, Next(m), end).(latest := end - 1)
    decreases |polls|
  {
    PollsForward(Next(m), l, polls, end);
    if polls != [] {
      PollIsReplay(m, l, chain, polls[0], end);
      PollThenReplay(m, l, chain, polls[0], end);
      PollsReplay(Checked(m, l, chain[..polls[0]]), l, chain, polls[1..], end);
    }
  }

  lemma {:induction false} PollsForward(next: nat, l: Limits, polls: seq<nat>, end: nat)
    requires Polls(next, l, polls, end)
    ensures next <= end && (polls != [] ==> polls[0] <= end)
    decreases |polls|
  {
    if polls != [] {
      PollsForward(polls[0], l, polls[1..], end);
    }
  }

  lemma PollIsReplay(m: Monitor, l: Limits, chain: seq<seq<Tx>>, n: nat, end: nat)
    requires Running(m, chain) && m.processed.Some? && l.checks >= 1
    requires Next(m) <= n <= end <= |chain| && n - Next(m) <= l.checks
    requires Undisturbed(m.watching, chain, Next(m), end)
    ensures var r := Checked(m, l, chain[..n]);
            r == Replayed(m, l.confirmations, chain, Next(m), n).(latest := n - 1) &&
            Running(r, chain) && r.processed.Some? && Next(r) == n && Undisturbed(r.watching, chain, n, end)
  {
    ReplayKeepsUndisturbed(m, l.confirmations, chain, Next(m), n, n, end);
    CheckReplays(m, l, chain[..n]);
    ReplayOfPrefix(m, l.confirmations, chain, n, Next(m));
    ReplayDistinct(m, l.confirmations, chain, Next(m), n);
    ReplayProcessed(m, l.confirmations, chain, Next(m), n);
  }

  lemma PollThenReplay(m: Monitor, l: Limits, chain: seq<seq<Tx>>, n: nat, end: nat)
    requires Running(m, chain) && m.processed.Some? && l.checks >= 1
    requires Next(m) <= n <= end <= |chain| && n - Next(m) <= l.checks
    requires Undisturbed(m.watching, chain, Next(m), end)
    ensures var r := Checked(m, l, chain[..n]);
            Replayed(r, l.confirmations, chain, n, end).(latest := end - 1)
            == Replayed(m, l.confirmations, chain, Next(m), end).(latest := end - 1)
  {
    PollIsReplay(m, l, chain, n, end);
    ReplayIgnoresLatest(Replayed(m, l.confirmations, chain, Next(m), n), l.confirmations, chain, n, end, n - 1);
    ReplaysJoin(m, l.confirmations, chain, Next(m), n, end);
  }

  lemma {:induction false} ReplayDistinct(m: Monitor, k: nat, chain: seq<seq<Tx>>, from: nat, end: nat)
    requires from <= end <= |chain| && AllSaved(m.watching) && Distinct(m.watching)
    requires Undisturbed(m.watching, chain, from, end)
    ensures Distinct(Replayed(m, k, chain, from, end).watching)
    decreases end - from
  {
    if from < end {
      ProcessingSaved(m, k, chain[from], from);
      BlockOfOne(m, k, chain[from], from, 0);
      BlockKeepsUndisturbed(m, k, chain[from], from, chain, from + 1, end);
      ReplayDistinct(Processed(m, k, chain[from], from).0, k, chain, from + 1, end);
    }
  }

  lemma {:induction false} ReplayProcessed(m: Monitor, k: nat, chain: seq<seq<Tx>>, from: nat, end: nat)
    requires from <= end <= |chain| && AllSaved(m.watching) && m.processed.Some?
    requires Undisturbed(m.watching, chain, from, end)
    ensures Replayed(m, k, chain, from, end).processed.Some?
    decreases end - from
  {
    if from < end {
      ProcessingSaved(m, k, chain[from], from);
      BlockKeepsUndisturbed(m, k, chain[from], from, chain, from + 1, end);
      ReplayProcessed(Processed(m, k, chain[from], from).0, k, chain, from + 1, end);
    }
  }

  lemma {:induction false} ReplayKeepsUndisturbed(m: Monitor, k: nat, chain: seq<seq<Tx>>, from: nat, n: nat,
                                                  a: nat, b: nat)
    requires from <= n <= |chain| && b <= |chain|
    ensures Undisturbed(Replayed(m, k, chain, from, n).watching, chain, a, b) == Undisturbed(m.watching, chain, a, b)
    decreases n - from
  {
    if from < n {
      BlockKeepsUndisturbed(m, k, chain[from], from, chain, a, b);
      ReplayKeepsUndisturbed(Processed(m, k, chain[from], from).0, k, chain, from + 1, n, a, b);
    }
  }

  /** Two nodes that start alike and check the same chain on different schedules,
      neither falling behind nor meeting an address still looked for, are in the
      same state once they have seen as much. */
  lemma ScheduleDoesNotMatter(m: Monitor, l: Limits, chain: seq<seq<Tx>>, a: seq<nat>, b: seq<nat>, end: nat)
    requires Running(m, chain) && m.processed.Some? && l.checks >= 1 && end <= |chain|
    requires Polls(Next(m), l, a, end) && Polls(Next(m), l, b, end) && Undisturbed(m.watching, chain, Next(m), end)
    ensures Polled(m, l, chain, a) == Polled(m, l, chain, b)
  {
    PollsReplay(m, l, chain, a, end);
    PollsReplay(m, l, chain, b, end);
  }
}
