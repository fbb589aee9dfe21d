/** The monitor as an object whose tables are updated in place, refining the
    block-by-block account of TxMonitors. */
module TxMonitorLoops {
  import opened Outcome
  import opened TxMonitors

  // ----- the tables agree ------------------------------------------------------------------

  /** A watch that was found is listed under the block it was found in. */
  predicate Listed(w: Watch, blocks: map<nat, set<Id>>)
  {
    w.saved && w.event.Some? ==> w.block.Some? && w.block.value in blocks && w.id in blocks[w.block.value]
  }

  predicate Indexed(ws: seq<Watch>, blocks: map<nat, set<Id>>)
  {
    forall i :: 0 <= i < |ws| ==> Listed(ws[i], blocks)
  }

  /** A watch that was never saved is one whose callback was made on registration. */
  predicate UnsavedCall(ws: seq<Watch>)
  {
    forall i :: 0 <= i < |ws| && !ws[i].saved ==> ws[i].event.Some? && ws[i].event.value in ws[i].callbacks
  }

  predicate Grows(a: map<nat, set<Id>>, b: map<nat, set<Id>>)
  {
    forall h :: h in a ==> h in b && a[h] <= b[h]
  }

  lemma {:induction false} SweepIndexes(ws: seq<Watch>, blocks: map<nat, set<Id>>, k: nat, txs: seq<Tx>, height: nat)
    requires Indexed(ws, blocks) && UnsavedCall(ws)
    ensures var s := Swept(ws, blocks, k, txs, height);
            Indexed(s.watches, s.blocks) && UnsavedCall(s.watches) && Grows(blocks, s.blocks) &&
            (!s.raised ==> forall i :: 0 <= i < |s.watches| && Ripe(s.watches[i], k) ==> s.watches[i].saved)
    decreases |ws|
  {
    if ws != [] {
      var w := Advanced(ws[0], txs, height);
      var known := if ws[0].event.None? && w.event.Some? then Recorded(blocks, height, w.id) else blocks;
      assert Listed(w, known) && Grows(blocks, known);
      assert Indexed(ws[1..], known) by { GrowingKeepsIndex(ws[1..], blocks, known); }
      if !Raises(ws[0], k, txs, height) {
        SweepIndexes(ws[1..], known, k, txs, height);
        GrowingKeepsIndex([w], known, Swept(ws[1..], known, k, txs, height).blocks);
      }
    }
  }

  lemma GrowingKeepsIndex(ws: seq<Watch>, a: map<nat, set<Id>>, b: map<nat, set<Id>>)
    requires Indexed(ws, a) && Grows(a, b)
    ensures Indexed(ws, b)
  {
    forall i | 0 <= i < |ws| ensures Listed(ws[i], b) {
      assert Listed(ws[i], a);
    }
  }

  // ----- removing ripe watches one by one ------------------------------------------------------

  function Dropped(ws: seq<Watch>, id: Id): seq<Watch>
    decreases |ws|
  {
    if ws == [] then [] else if ws[0].id == id then ws[1..] else [ws[0]] + Dropped(ws[1..], id)
  }

  function RipeIds(ws: seq<Watch>, k: nat): seq<Id>
    decreases |ws|
  {
    if ws == [] then [] else (if Ripe(ws[0], k) then [ws[0].id] else []) + RipeIds(ws[1..], k)
  }

  /** The watches and the block table after removing those listed, if removable. */
  function Removing(ws: seq<Watch>, blocks: map<nat, set<Id>>, ids: seq<Id>): (seq<Watch>, map<nat, set<Id>>)
    decreases |ids|
  {
    if ids == [] then (ws, blocks)
    else
      match Find(ws, ids[0])
      case Some(w) =>
        if Removable(w) && w.block.Some?
        then Removing(Dropped(ws, w.id), Unrecorded(blocks, w.block.value, w.id), ids[1..])
        else Removing(ws, blocks, ids[1..])
      case None => Removing(ws, blocks, ids[1..])
  }

  lemma {:induction false} FindPast(done: seq<Watch>, ws: seq<Watch>)
    requires ws != [] && Without(done, ws[0].id)
    ensures Find(done + ws, ws[0].id) == Some(ws[0]) && Dropped(done + ws, ws[0].id) == done + ws[1..]
    decreases |done|
  {
    if done == [] {
      assert done + ws == ws && done + ws[1..] == ws[1..];
    } else {
      FindPast(done[1..], ws);
      assert (done + ws)[1..] == done[1..] + ws;
      assert [done[0]] + (done[1..] + ws[1..]) == done + ws[1..];
    }
  }

  lemma RipeIdsNext(ws: seq<Watch>, k: nat)
    requires ws != []
    ensures Ripe(ws[0], k) ==>
              RipeIds(ws, k) != [] && RipeIds(ws, k)[0] == ws[0].id && RipeIds(ws, k)[1..] == RipeIds(ws[1..], k)
    ensures !Ripe(ws[0], k) ==> RipeIds(ws, k) == RipeIds(ws[1..], k)
  {
  }

  lemma PrunedNext(done: seq<Watch>, ws: seq<Watch>, k: nat)
    requires ws != []
    ensures done + ws == (done + [ws[0]]) + ws[1..]
    ensures Ripe(ws[0], k) && Removable(ws[0]) ==> Pruned(ws, k) == Pruned(ws[1..], k)
    ensures !(Ripe(ws[0], k) && Removable(ws[0])) ==> done + Pruned(ws, k) == (done + [ws[0]]) + Pruned(ws[1..], k)
  {
    var w, rest := [ws[0]], Pruned(ws[1..], k);
    assert ws == w + ws[1..];
    Joining(done, w, ws[1..]);
    Joining(done, w, rest);
    assert [] + rest == rest;
  }

  lemma Joining(a: seq<Watch>, b: seq<Watch>, c: seq<Watch>)
    ensures a + (b + c) == (a + b) + c
  {
  }

  lemma {:induction false} RemovingPrunes(done: seq<Watch>, ws: seq<Watch>, blocks: map<nat, set<Id>>, k: nat)
    requires Distinct(done + ws) && forall i :: 0 <= i < |ws| && Ripe(ws[i], k) ==> ws[i].block.Some?
    ensures Removing(done + ws, blocks, RipeIds(ws, k)) == (done + Pruned(ws, k), PrunedBlocks(ws, blocks, k))
    decreases |ws|
  {
    if ws != [] {
      var w, rest := ws[0], ws[1..];
      DistinctFront(done, ws);
      RipeIdsNext(ws, k);
      PrunedNext(done, ws, k);
      if Ripe(w, k) {
        FindPast(done, ws);
        if Removable(w) {
          RemovingPrunes(done, rest, Unrecorded(blocks, w.block.value, w.id), k);
        } else {
          RemovingPrunes(done + [w], rest, blocks, k);
        }
      } else {
        RemovingPrunes(done + [w], rest, blocks, k);
      }
    }
  }

  /** The same with nothing kept in front. */
  lemma RemovingPrunesAll(ws: seq<Watch>, blocks: map<nat, set<Id>>, k: nat)
    requires Distinct(ws) && forall i :: 0 <= i < |ws| && Ripe(ws[i], k) ==> ws[i].block.Some?
    ensures Removing(ws, blocks, RipeIds(ws, k)) == (Pruned(ws, k), PrunedBlocks(ws, blocks, k))
  {
    assert [] + ws == ws && [] + Pruned(ws, k) == Pruned(ws, k);
    RemovingPrunes([], ws, blocks, k);
  }

  lemma DistinctFront(done: seq<Watch>, ws: seq<Watch>)
    requires Distinct(done + ws) && ws != []
    ensures Without(done, ws[0].id) && Distinct(done + ws[1..])
  {
    var all, less := done + ws, done + ws[1..];
    forall i | 0 <= i < |done| ensures done[i].id != ws[0].id {
      assert all[i] == done[i] && all[|done|] == ws[0];
    }
    forall i, j | 0 <= i < j < |less| ensures less[i].id != less[j].id {
      assert less[i] == all[if i < |done| then i else i + 1];
      assert less[j] == all[if j < |done| then j else j + 1];
    }
  }

  lemma {:induction false} DroppingKeepsIndex(ws: seq<Watch>, blocks: map<nat, set<Id>>, height: nat, id: Id)
    requires Distinct(ws) && Indexed(ws, blocks)
    ensures Indexed(Dropped(ws, id), Unrecorded(blocks, height, id)) && Distinct(Dropped(ws, id))
    ensures forall i :: 0 <= i < |Dropped(ws, id)| ==> Dropped(ws, id)[i] in ws && Dropped(ws, id)[i].id != id
    decreases |ws|
  {
    if ws != [] {
      if ws[0].id == id {
        forall i | 0 <= i < |ws[1..]| ensures Listed(ws[1..][i], Unrecorded(blocks, height, id)) {
          OthersStayListed(ws[1..][i], blocks, height, id);
        }
      } else {
        DroppingKeepsIndex(ws[1..], blocks, height, id);
        OthersStayListed(ws[0], blocks, height, id);
      }
    }
  }

  lemma OthersStayListed(w: Watch, blocks: map<nat, set<Id>>, height: nat, id: Id)
    requires Listed(w, blocks) && w.id != id
    ensures Listed(w, Unrecorded(blocks, height, id))
  {
    if w.saved && w.event.Some? && w.block.value == height {
      assert w.id in blocks[height] - {id};
    }
  }

  // ----- sweeping watch by watch -------------------------------------------------------------

  /** What was done to the watches so far, put in front of what the rest comes to. */
  ghost function After(done: seq<Watch>, made: seq<Fired>, s: Sweep): Sweep
  {
    Sweep(done + s.watches, s.blocks, made + s.fired, s.raised)
  }

  lemma SweepNext(ws: seq<Watch>, blocks: map<nat, set<Id>>, k: nat, txs: seq<Tx>, height: nat,
                  done: seq<Watch>, made: seq<Fired>)
    requires ws != []
    ensures var w := Advanced(ws[0], txs, height);
            var known := if ws[0].event.None? && w.event.Some? then Recorded(blocks, height, w.id) else blocks;
            var made' := if Calls(w, k) then made + [Fired(w.id, w.event.value, Some(height))] else made;
            After(done, made, Swept(ws, blocks, k, txs, height)) ==
            if Raises(ws[0], k, txs, height) then Sweep(done + [w] + ws[1..], known, made', true)
            else After(done + [w], made', Swept(ws[1..], known, k, txs, height))
  {
    var w := Advanced(ws[0], txs, height);
    var known := if ws[0].event.None? && w.event.Some? then Recorded(blocks, height, w.id) else blocks;
    var rest := Swept(ws[1..], known, k, txs, height);
    assert done + ([w] + rest.watches) == done + [w] + rest.watches;
    assert done + ([w] + ws[1..]) == done + [w] + ws[1..];
    if Calls(w, k) {
      var f := Fired(w.id, w.event.value, Some(height));
      assert made + ([f] + rest.fired) == made + [f] + rest.fired;
    } else {
      assert made + ([] + rest.fired) == made + rest.fired;
    }
  }

  lemma {:induction false} RipeIdsAppend(a: seq<Watch>, w: Watch, k: nat)
    ensures RipeIds(a + [w], k) == RipeIds(a, k) + if Ripe(w, k) then [w.id] else []
    decreases |a|
  {
    if a == [] {
      assert a + [w] == [w] && [w][1..] == [];
    } else {
      RipeIdsAppend(a[1..], w, k);
      assert (a + [w])[1..] == a[1..] + [w];
      var head := if Ripe(a[0], k) then [a[0].id] else [];
      var last := if Ripe(w, k) then [w.id] else [];
      assert head + (RipeIds(a[1..], k) + last) == head + RipeIds(a[1..], k) + last;
    }
  }

  // ----- the monitor -----------------------------------------------------------------------

  class TXMonitor {
    const limits: Limits
    var latest: nat
    var processed: Option<nat>
    var blocks: map<nat, set<Id>>
    var watching: seq<Watch>
    var fired: seq<Fired>

    function View(): Monitor
      reads this
    {
      Monitor(latest, processed, blocks, watching, fired)
    }

    ghost predicate Valid()
      reads this
    {
      Distinct(watching) && Indexed(watching, blocks) && UnsavedCall(watching)
    }

    constructor (limits: Limits, height: nat)
      ensures Valid() && View() == Monitor(height, None, map[], [], []) && this.limits == limits
    {
      this.limits := limits;
      latest, processed, blocks, watching, fired := height, None, map[], [], [];
    }

    method RemoveSeen(w: Watch)
      requires w.block.Some? && w.block.value in blocks
      modifies this`blocks
      ensures blocks == Unrecorded(old(blocks), w.block.value, w.id)
    {
      var inBlock := w.block.value;
      var left := blocks[inBlock] - {w.id};
      if left == {} {
        blocks := blocks - {inBlock};
      } else {
        blocks := blocks[inBlock := left];
      }
    }

    method RemoveWatch(w: Watch)
      requires Valid() && Find(watching, w.id) == Some(w) && w.block.Some? && w.block.value in blocks
      modifies this`blocks, this`watching
      ensures watching == Dropped(old(watching), w.id)
      ensures blocks == Unrecorded(old(blocks), w.block.value, w.id)
    {
      RemoveSeen(w);
      watching := Dropped(watching, w.id);
    }

    /** Looks for the needle in a block's transactions, up to the first that matches
        or fails. */
    method FindNeedle(needle: Needle, txs: seq<Tx>) returns (sight: Sight)
      ensures sight == Found(needle, txs)
    {
      sight := Unseen;
      for i := 0 to |txs|
        invariant sight == Unseen && Found(needle, txs) == Found(needle, txs[i..])
      {
        assert txs[i..][1..] == txs[i + 1..];
        sight := Sees(needle, txs[i]);
        if sight != Unseen { return; }
      }
    }

    /** A block's effect on one watch, recorded in the block table when it is found. */
    method AdvanceWatch(old_w: Watch, txs: seq<Tx>, height: nat) returns (w: Watch, raised: bool)
      modifies this`blocks
      ensures w == Advanced(old_w, txs, height) && raised == Faults(old_w, txs)
      ensures blocks == if old_w.event.None? && w.event.Some? then Recorded(old(blocks), height, w.id) else old(blocks)
    {
      w, raised := old_w, false;
      if w.event != None {
        w := w.(confirmations := w.confirmations + 1);
      } else {
        var sight := FindNeedle(w.needle, txs);
        match sight {
          case Unseen =>
          case Fault => raised := true;
          case Seen(event) =>
            w := w.(event := Some(event), confirmations := w.confirmations + 1, block := Some(height));
            if height !in blocks { blocks := blocks[height := {}]; }
            blocks := blocks[height := blocks[height] + {w.id}];
        }
      }
    }

    /** Makes the callback of a ripe watch, if it has one; looking up a watch that
        was never saved raises afterwards. */
    method CallBack(w: Watch, height: nat) returns (raised: bool)
      requires w.event.Some?
      modifies this`fired
      ensures var calls := w.event.value in w.callbacks;
              fired == (if calls then old(fired) + [Fired(w.id, w.event.value, Some(height))] else old(fired)) &&
              raised == (calls && !w.saved)
    {
      if w.event.value !in w.callbacks { return false; }
      fired := fired + [Fired(w.id, w.event.value, Some(height))];
      return !w.saved;
    }

    /** Goes through the watches; the result lists those that are ripe, in order. */
    method SweepWatches(txs: seq<Tx>, height: nat) returns (ripe: seq<Id>, raised: bool)
      modifies this`blocks, this`watching, this`fired
      ensures Sweep(watching, blocks, fired, raised)
              == After([], old(fired), Swept(old(watching), old(blocks), limits.confirmations, txs, height))
      ensures !raised ==> ripe == RipeIds(watching, limits.confirmations)
    {
      ripe, raised := [], false;
      ghost var k := limits.confirmations;
      ghost var goal := After([], fired, Swept(watching, blocks, k, txs, height));
      ghost var done: seq<Watch> := [];
      ghost var rest := watching;
      var i := 0;
      while i < |watching|
        invariant i == |done| && watching == done + rest && !raised
        invariant goal == After(done, fired, Swept(rest, blocks, k, txs, height))
        invariant ripe == RipeIds(done, k)
        decreases |rest|
      {
        SweepNext(rest, blocks, k, txs, height, done, fired);
        RipeIdsAppend(done, Advanced(rest[0], txs, height), k);
        assert watching[i] == rest[0];
        var w;
        w, raised := AdvanceWatch(watching[i], txs, height);
        watching := watching[i := w];
        assert watching == (done + [w]) + rest[1..];
        if raised { return; }
        if w.event != None && w.confirmations >= limits.confirmations {
          raised := CallBack(w, height);
          if raised { return; }
          ripe := ripe + [w.id];
        }
        done, rest, i := done + [w], rest[1..], i + 1;
      }
      assert done + [] == done && fired + [] == fired;
    }

    /** Removes the ripe watches, except address watches that do not expire. */
    method RemoveOld(ids: seq<Id>)
      requires Valid() && Settled(watching, ids)
      modifies this`blocks, this`watching
      ensures Valid() && (watching, blocks) == Removing(old(watching), old(blocks), ids)
    {
      for j := 0 to |ids|
        invariant Valid() && Settled(watching, ids)
        invariant Removing(watching, blocks, ids[j..]) == Removing(old(watching), old(blocks), ids)
      {
        assert ids[j..][0] == ids[j] && ids[j..][1..] == ids[j + 1..];
        var found := Find(watching, ids[j]);
        if found.Some? && Removable(found.value) {
          FindIsThere(watching, ids[j]);
          DroppingKeepsIndex(watching, blocks, found.value.block.value, ids[j]);
          RemoveWatch(found.value);
        }
      }
    }

    method ProcessBlock(txs: seq<Tx>, height: nat) returns (raised: bool)
      requires Valid()
      modifies this`blocks, this`watching, this`fired, this`processed
      ensures Valid() && (View(), raised) == Processed(old(View()), limits.confirmations, txs, height)
    {
      SweepIsValid(watching, blocks, limits.confirmations, txs, height);
      var ripe;
      ripe, raised := SweepWatches(txs, height);
      if raised { return; }
      RemoveOld(ripe);
      processed := Some(height);
    }

    /** One turn of the block loop; the result is the block to look at next. */
    method CheckBlock(chain: seq<seq<Tx>>, start: nat) returns (next: Option<nat>)
      requires Valid() && start < |chain|
      modifies this
      ensures Valid() && (View(), next) == OneBlock(old(View()), limits.confirmations, chain, start)
    {
      var at := start;
      if processed == Some(at) || at in blocks {
        if at + 1 < |chain| {
          at := at + 1;
        } else {
          return None;
        }
      }
      var raised := ProcessBlock(chain[at], at);
      if raised { return None; }
      if at + 1 < |chain| {
        return Some(at + 1);
      }
      latest := at;
      return None;
    }

    /** One check of the chain as it stands. */
    method Check(chain: seq<seq<Tx>>)
      requires Valid() && latest < |chain|
      modifies this
      ensures Valid() && View() == Checked(old(View()), limits, chain)
    {
      var at: nat, checks: nat := latest, 1;
      while checks <= limits.checks
        invariant Valid() && at < |chain|
        invariant Checked(old(View()), limits, chain) == Looped(View(), limits, chain, at, checks)
      {
        var next := CheckBlock(chain, at);
        if next == None { return; }
        at, checks := next.value, checks + 1;
      }
    }

    /** Registers a watch; `deep` is the block of a transaction that already has enough
        confirmations, whose watch must be under a new id. */
    method AddWatch(w: Watch, deep: Option<nat>) returns (raised: bool)
      requires Valid()
      requires deep.Some? && w.needle.TxHex? && Confirm in w.callbacks ==> Find(watching, w.id) == None
      modifies this`watching, this`fired
      ensures Valid() && (View(), raised) == Registered(old(View()), w, deep)
    {
      if deep != None && w.needle.TxHex? && Confirm in w.callbacks {
        var added := w.(event := Some(Confirm), confirmations := 0, block := deep, saved := false);
        PutIsValid(watching, blocks, added);
        watching := Put(watching, added);
        fired := fired + [Fired(w.id, Confirm, None)];
        return true;
      }
      var added := w.(event := None, confirmations := 0, block := None, saved := true);
      PutIsValid(watching, blocks, added);
      watching := Put(watching, added);
      return false;
    }
  }

  /** After a sweep the tables still agree, and removing the ripe watches in order
      prunes them. */
  lemma SweepIsValid(ws: seq<Watch>, blocks: map<nat, set<Id>>, k: nat, txs: seq<Tx>, height: nat)
    requires Distinct(ws) && Indexed(ws, blocks) && UnsavedCall(ws)
    ensures var s := Swept(ws, blocks, k, txs, height);
            Distinct(s.watches) && Indexed(s.watches, s.blocks) && UnsavedCall(s.watches) &&
            [] + s.watches == s.watches &&
            (!s.raised ==>
               Settled(s.watches, RipeIds(s.watches, k)) &&
               Removing(s.watches, s.blocks, RipeIds(s.watches, k))
               == (Pruned(s.watches, k), PrunedBlocks(s.watches, s.blocks, k)))
  {
    var s := Swept(ws, blocks, k, txs, height);
    SweepIndexes(ws, blocks, k, txs, height);
    SweepKeepsIds(ws, blocks, k, txs, height);
    assert [] + s.watches == s.watches;
    if !s.raised {
      RipeAreSettled(s.watches, s.blocks, k);
      RemovingPrunesAll(s.watches, s.blocks, k);
    }
  }

  /** Every watch listed has been found and saved. */
  predicate Settled(ws: seq<Watch>, ids: seq<Id>)
  {
    forall i :: 0 <= i < |ws| && ws[i].id in ids ==> ws[i].saved && ws[i].event.Some?
  }

  lemma {:induction false} FindIsThere(ws: seq<Watch>, id: Id)
    requires Find(ws, id).Some?
    ensures Find(ws, id).value in ws && Find(ws, id).value.id == id
    decreases |ws|
  {
    if ws[0].id != id {
      FindIsThere(ws[1..], id);
    }
  }

  lemma {:induction false} RipeIdsAreRipe(ws: seq<Watch>, k: nat, i: nat)
    requires Distinct(ws) && i < |ws| && ws[i].id in RipeIds(ws, k)
    ensures Ripe(ws[i], k)
    decreases |ws|
  {
    if i > 0 {
      assert ws[i].id in RipeIds(ws[1..], k);
      RipeIdsAreRipe(ws[1..], k, i - 1);
    } else if !Ripe(ws[0], k) {
      RipeIdsWithin(ws[1..], k, ws[0].id);
    }
  }

  lemma {:induction false} RipeIdsWithin(ws: seq<Watch>, k: nat, id: Id)
    requires Without(ws, id)
    ensures id !in RipeIds(ws, k)
    decreases |ws|
  {
    if ws != [] {
      RipeIdsWithin(ws[1..], k, id);
    }
  }

  lemma RipeAreSettled(ws: seq<Watch>, blocks: map<nat, set<Id>>, k: nat)
    requires Distinct(ws) && Indexed(ws, blocks)
    requires forall i :: 0 <= i < |ws| && Ripe(ws[i], k) ==> ws[i].saved
    ensures Settled(ws, RipeIds(ws, k)) && forall i :: 0 <= i < |ws| && Ripe(ws[i], k) ==> ws[i].block.Some?
  {
    forall i | 0 <= i < |ws| && ws[i].id in RipeIds(ws, k) ensures ws[i].saved && ws[i].event.Some? {
      RipeIdsAreRipe(ws, k, i);
    }
    forall i | 0 <= i < |ws| && Ripe(ws[i], k) ensures ws[i].block.Some? {
      assert Listed(ws[i], blocks);
    }
  }

  lemma {:induction false} PutWithout(ws: seq<Watch>, w: Watch, id: Id)
    requires Without(ws, id) && w.id != id
    ensures Without(Put(ws, w), id)
    decreases |ws|
  {
    if ws != [] {
      PutWithout(ws[1..], w, id);
    }
  }

  lemma {:induction false} PutIsValid(ws: seq<Watch>, blocks: map<nat, set<Id>>, w: Watch)
    requires Distinct(ws) && Indexed(ws, blocks) && UnsavedCall(ws) && Listed(w, blocks) && UnsavedCall([w])
    ensures Distinct(Put(ws, w)) && Indexed(Put(ws, w), blocks) && UnsavedCall(Put(ws, w))
    decreases |ws|
  {
    assert [w][0] == w;
    if ws != [] {
      PutIsValid(ws[1..], blocks, w);
      if ws[0].id != w.id {
        assert Without(ws[1..], ws[0].id);
        PutWithout(ws[1..], w, ws[0].id);
      }
    }
  }
}
