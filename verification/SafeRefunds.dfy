/** What a node signs and what it holds, over any life and against any
    counterparty: its own coins come back, and what it was paid it can publish. */
module SafeRefunds {
  import opened Outcome
  import opened Amounts
  import opened MatchStates
  import opened M = Microtransfer
  import opened Protocol

  // ----- transactions --------------------------------------------------------------------

  function PaidTo(outputs: seq<Output>, to: Address): nat
  {
    if outputs == [] then 0 else (if outputs[0].to == to then outputs[0].value else 0) + PaidTo(outputs[1..], to)
  }

  predicate PaysOnly(outputs: seq<Output>, a: Address, b: Address)
  {
    forall i :: 0 <= i < |outputs| ==> outputs[i].to == a || outputs[i].to == b
  }

  /** The node's deposit, and all of it, comes back to it when the time lock ends. */
  predicate ComesBack(me: Identity, tx: Tx)
    requires Fundable(me.terms)
  {
    tx.inputs == [Input(me.setup, 0)] && tx.lockTime == me.terms.lockTime && |tx.outputs| == 1 &&
    PaysOnly(tx.outputs, me.terms.changeAddress, me.terms.changeAddress) &&
    PaidTo(tx.outputs, me.terms.changeAddress) == InSatoshi(me.terms.Upload())
  }

  /** A final payment out of the node's deposit, signed with both its keys: this
      amount to the other side, the rest, if any, to the node, nothing to anybody else. */
  predicate PaysAway(me: Identity, p: Payment, amount: Amount)
    requires Fundable(me.terms)
  {
    var t := me.terms;
    amount <= t.Upload() && p.sig1 == Sig(t.ourKeys.0, p.tx) && p.sig2 == Sig(t.ourKeys.1, p.tx) &&
    p.tx.inputs == [Input(me.setup, FINAL_SEQUENCE)] && p.tx.lockTime == 0 &&
    |p.tx.outputs| == (if amount < t.Upload() then 2 else 1) &&
    p.tx.outputs[|p.tx.outputs| - 1].to == t.theirAddress &&
    PaysOnly(p.tx.outputs, t.theirAddress, t.changeAddress) &&
    var (gone, kept) := (InSatoshi(amount), InSatoshi(t.Upload() - amount));
    PaidTo(p.tx.outputs, t.theirAddress) == (if t.theirAddress == t.changeAddress then gone + kept else gone) &&
    PaidTo(p.tx.outputs, t.changeAddress) == (if t.theirAddress == t.changeAddress then gone + kept else kept)
  }

  /** A transaction out of the setup announced for the other side, that cannot be
      published before the contract's time lock ends. */
  predicate WaitsForLock(me: Identity, theirSetup: Txid, tx: Tx)
  {
    |tx.inputs| == 1 && tx.inputs[0].sequence == 0 && tx.inputs[0].prevout == theirSetup &&
    tx.lockTime == me.terms.lockTime
  }

  predicate ReleasesTheirs(me: Identity, theirSetup: Txid, sig: Sig)
  {
    sig.key == me.terms.ourKeys.0 && WaitsForLock(me, theirSetup, sig.tx)
  }

  lemma FullRefundComesBack(me: Identity)
    requires Fundable(me.terms)
    ensures ComesBack(me, FullRefund(me.terms, me.setup))
  {
    var outs := FullRefund(me.terms, me.setup).outputs;
    assert outs[1..] == [];
  }

  lemma SignedRefundPaysAway(me: Identity, amount: Amount)
    requires Fundable(me.terms) && amount <= me.terms.Upload()
    ensures PaysAway(me, SignedRefund(me.terms, me.setup, amount), amount)
  {
    var t := me.terms;
    var outs := AdjustedRefund(t, me.setup, amount).outputs;
    var kept := Output(t.changeAddress, InSatoshi(t.Upload() - amount));
    var gone := Output(t.theirAddress, InSatoshi(amount));
    assert outs == if amount < t.Upload() then [kept, gone] else [gone];
    PaidToBoth(kept, gone, t.theirAddress);
    PaidToBoth(kept, gone, t.changeAddress);
  }

  lemma PaidToBoth(a: Output, b: Output, to: Address)
    ensures PaidTo([b], to) == if b.to == to then b.value else 0
    ensures PaidTo([a, b], to) == (if a.to == to then a.value else 0) + PaidTo([b], to)
  {
    assert [b][1..] == [] && [a, b][1..] == [b];
  }

  // ----- what is said in a life --------------------------------------------------------------

  /** The messages an event makes a node send. */
  function Says(me: Identity, n: Node, h: Happening): seq<Message>
    requires Solvent(me, n)
  {
    match h
    case Acting => Act(me, n).1
    case Routing => Routed(n, n.replies).1
    case _ => []
  }

  function SaidIn(me: Identity, n: Node, hs: seq<Happening>): seq<Message>
    requires Solvent(me, n)
    decreases |hs|
  {
    if hs == [] then [] else Says(me, n, hs[0]) + SaidIn(me, Happens(me, n, hs[0]), hs[1..])
  }

  /** What may be sent, once so much has been signed away. */
  predicate Safe(me: Identity, ready: Option<Txid>, sent: Amount, m: Message)
    requires Fundable(me.terms)
  {
    match m
    case GetRefundSig(_, tx) => ComesBack(me, tx)
    case ReturnRefundSig(_, sig) => ready.Some? && ReleasesTheirs(me, ready.value, sig)
    case GetSetupTx(_) => true
    case ReturnSetupTx(_, txid, _) => txid == me.setup
    case ReturnAdjustedRefund(_, p) => PaysUpTo(me, p, sent)
  }

  predicate PaysUpTo(me: Identity, p: Payment, sent: Amount)
    requires Fundable(me.terms)
  {
    exists amount: Amount :: amount <= sent && PaysAway(me, p, amount)
  }

  predicate AllSafe(me: Identity, ready: Option<Txid>, sent: Amount, ms: seq<Message>)
    requires Fundable(me.terms)
  {
    forall i :: 0 <= i < |ms| ==> Safe(me, ready, sent, ms[i])
  }

  predicate SafeReply(me: Identity, ready: Option<Txid>, sent: Amount, r: Reply)
    requires Fundable(me.terms)
  {
    r.message.Some? ==>
      Safe(me, ready, sent, r.message.value) && (r.deferred ==> !r.message.value.ReturnAdjustedRefund?)
  }

  predicate SafeReplies(me: Identity, ready: Option<Txid>, sent: Amount, replies: seq<Reply>)
    requires Fundable(me.terms)
  {
    forall i :: 0 <= i < |replies| ==> SafeReply(me, ready, sent, replies[i])
  }

  /** The refund held, the signature on it and the replies waiting are safe; the other
      side's refund has to wait; and the download held can be published and spends the
      setup that was announced. */
  predicate Careful(me: Identity, n: Node)
    requires Solvent(me, n)
  {
    (n.refund.Some? ==> ComesBack(me, n.refund.value)) &&
    (n.refundSigned.Some? ==>
       n.refundSigned.value.key == me.terms.theirKeys.0 && ComesBack(me, n.refundSigned.value.tx)) &&
    (n.theirRefund.Some? ==> n.ready.Some? && WaitsForLock(me, n.ready.value, n.theirRefund.value)) &&
    SafeReplies(me, n.ready, n.channel.sent, n.replies) &&
    (n.theirSetup.Some? ==> n.theirSetup == n.ready) &&
    (n.channel.download.Some? ==>
       var p := n.channel.download.value;
       Redeemable(me.terms, p) && n.theirSetup == Some(p.tx.inputs[0].prevout))
  }

  lemma SafeLater(me: Identity, ready: Option<Txid>, later: Option<Txid>, sent: Amount, more: Amount, m: Message)
    requires Fundable(me.terms) && Safe(me, ready, sent, m) && sent <= more && (ready.Some? ==> later == ready)
    ensures Safe(me, later, more, m)
  {
    if m.ReturnAdjustedRefund? {
      var amount: Amount :| amount <= sent && PaysAway(me, m.payment, amount);
      assert amount <= more;
    }
  }

  lemma AllSafeLater(me: Identity, ready: Option<Txid>, later: Option<Txid>, sent: Amount, more: Amount,
                     ms: seq<Message>)
    requires Fundable(me.terms) && AllSafe(me, ready, sent, ms) && sent <= more && (ready.Some? ==> later == ready)
    ensures AllSafe(me, later, more, ms)
  {
    forall i | 0 <= i < |ms| ensures Safe(me, later, more, ms[i]) {
      SafeLater(me, ready, later, sent, more, ms[i]);
    }
  }

  lemma RepliesSafeLater(me: Identity, ready: Option<Txid>, later: Option<Txid>, sent: Amount, more: Amount,
                         replies: seq<Reply>)
    requires Fundable(me.terms) && SafeReplies(me, ready, sent, replies)
    requires sent <= more && (ready.Some? ==> later == ready)
    ensures SafeReplies(me, later, more, replies)
  {
    forall i | 0 <= i < |replies| ensures SafeReply(me, later, more, replies[i]) {
      assert SafeReply(me, ready, sent, replies[i]);
      if replies[i].message.Some? { SafeLater(me, ready, later, sent, more, replies[i].message.value); }
    }
  }

  lemma OneMoreReply(me: Identity, ready: Option<Txid>, sent: Amount, replies: seq<Reply>, r: Reply)
    requires Fundable(me.terms) && SafeReplies(me, ready, sent, replies) && SafeReply(me, ready, sent, r)
    ensures SafeReplies(me, ready, sent, replies + [r])
  {
  }

  // ----- hearing ---------------------------------------------------------------------------

  lemma SigningIsCareful(me: Identity, n: Node, tx: Tx, deferred: bool)
    requires Solvent(me, n) && Careful(me, n)
    ensures Careful(me, SignTheirRefund(me, n, tx, deferred))
  {
    var r := Reply(Some(ReturnRefundSig(true, Sig(me.terms.ourKeys.0, tx))), deferred);
    if SignTheirRefund(me, n, tx, deferred) != n {
      OneMoreReply(me, n.ready, n.channel.sent, n.replies, r);
    }
  }

  lemma RefundRequestIsCareful(me: Identity, n: Node, authentic: bool, tx: Tx)
    requires Solvent(me, n) && Careful(me, n)
    ensures Careful(me, OnGetRefundSig(me, n, authentic, tx))
  {
    SigningIsCareful(me, n.(state := PendingBuyerSetupTxConfirm), tx, true);
    SigningIsCareful(me, n.(state := PendingBuyerGetRefundSig), tx, false);
    SigningIsCareful(me, n.(state := PendingSellerGetSetupTx), tx, false);
  }

  lemma SetupRequestIsCareful(me: Identity, n: Node, authentic: bool)
    requires Solvent(me, n) && Careful(me, n)
    ensures Careful(me, OnGetSetupTx(me, n, authentic))
  {
    OneMoreReply(me, n.ready, n.channel.sent, n.replies, Reply(Some(ReturnSetupTx(true, me.setup, true)), false));
  }

  /** What an adjustment makes of the channel, and the reply to it. */
  lemma AdjustingIsCareful(me: Identity, n: Node, authentic: bool, p: Payment)
    requires Solvent(me, n) && Careful(me, n)
    ensures Careful(me, OnReturnAdjustedRefund(me, n, authentic, p))
  {
    var r := OnReturnAdjustedRefund(me, n, authentic, p);
    if r != n {
      var reply := r.replies[|n.replies|];
      AnswerPaysAway(me, n.channel, n.theirSetup.value, n.theirRefund.value, Some(p));
      RepliesSafeLater(me, n.ready, n.ready, n.channel.sent, r.channel.sent, n.replies);
      OneMoreReply(me, n.ready, r.channel.sent, n.replies, reply);
    }
  }

  /** An answer that pays, pays away all that has been sent by then; any other
      leaves what was sent as it is. */
  lemma AnswerPaysAway(me: Identity, c: Channel, theirSetup: Txid, theirRefund: Tx, received: Option<Payment>)
    requires Open(me.terms, c)
    ensures var r := After(me.terms, c, theirSetup, theirRefund, received);
            var answer := Answer(me.terms, c, me.setup, theirSetup, theirRefund, received);
            r.sent >= c.sent &&
            if answer.Pays? then PaysAway(me, answer.payment, r.sent) && PaysUpTo(me, answer.payment, r.sent)
            else r.sent == c.sent
  {
    SignedRefundPaysAway(me, c.sent + SendChunk(me.terms, c));
  }

  lemma HearingIsCareful(me: Identity, n: Node, m: Message)
    requires Solvent(me, n) && Careful(me, n)
    ensures Careful(me, Handle(me, n, m))
  {
    match m
    case GetRefundSig(authentic, tx) => RefundRequestIsCareful(me, n, authentic, tx);
    case ReturnRefundSig(authentic, sig) =>
    case GetSetupTx(authentic) => SetupRequestIsCareful(me, n, authentic);
    case ReturnSetupTx(authentic, txid, valid) =>
    case ReturnAdjustedRefund(authentic, p) => AdjustingIsCareful(me, n, authentic, p);
  }

  // ----- acting and routing ------------------------------------------------------------------

  lemma InitiatingIsCareful(me: Identity, n: Node)
    requires Solvent(me, n) && Careful(me, n)
    ensures var (r, out) := Initiated(me, n);
            Careful(me, r) && r.ready == n.ready && r.channel.sent >= n.channel.sent &&
            AllSafe(me, r.ready, r.channel.sent, out)
  {
    if n.theirSetup.Some? && n.theirRefund.Some? {
      AnswerPaysAway(me, n.channel, n.theirSetup.value, n.theirRefund.value, None);
      RepliesSafeLater(me, n.ready, n.ready, n.channel.sent, Initiated(me, n).0.channel.sent, n.replies);
    }
  }

  lemma MovingIsCareful(me: Identity, n: Node, state: State)
    requires Solvent(me, n) && Careful(me, n)
    ensures Careful(me, n.(state := state, checked := n.state))
  {
  }

  lemma AskingIsCareful(me: Identity, n: Node, state: State)
    requires Solvent(me, n) && Careful(me, n)
    ensures var tx := FullRefund(me.terms, me.setup);
            Careful(me, n.(refund := Some(tx), state := state, checked := n.state)) && ComesBack(me, tx)
  {
    FullRefundComesBack(me);
  }

  /** What an action makes of a node, but for initiating. */
  lemma ActingIsPlain(me: Identity, n: Node)
    requires Solvent(me, n) && !n.state.SellerInitiateMicrotransfer?
    ensures var ((r, out), tx) := (Act(me, n), FullRefund(me.terms, me.setup));
            (r == n && out == []) ||
            (r == n.(state := r.state, checked := n.state) && (out == [] || out == [GetSetupTx(true)])) ||
            (r == n.(refund := Some(tx), state := r.state, checked := n.state) && out == [GetRefundSig(true, tx)])
  {
  }

  lemma ActingIsCareful(me: Identity, n: Node)
    requires Solvent(me, n) && Careful(me, n)
    ensures var (r, out) := Act(me, n);
            Careful(me, r) && r.ready == n.ready && r.channel.sent >= n.channel.sent &&
            AllSafe(me, r.ready, r.channel.sent, out)
  {
    if n.state.SellerInitiateMicrotransfer? {
      MovingIsCareful(me, n, n.state);
      InitiatingIsCareful(me, n.(checked := n.state));
    } else {
      var state := Act(me, n).0.state;
      ActingIsPlain(me, n);
      MovingIsCareful(me, n, state);
      AskingIsCareful(me, n, state);
    }
  }

  lemma {:induction false} RoutingIsSafe(me: Identity, n: Node, replies: seq<Reply>, ready: Option<Txid>, sent: Amount)
    requires Fundable(me.terms) && SafeReplies(me, ready, sent, replies)
    ensures SafeReplies(me, ready, sent, Routed(n, replies).0.replies) && AllSafe(me, ready, sent, Routed(n, replies).1)
    decreases |replies|
  {
    if replies != [] {
      var r := replies[0];
      var held := r.deferred && !MayEnter(n.state, PendingBuyerGetRefundSig);
      assert SafeReply(me, ready, sent, r) && SafeReplies(me, ready, sent, replies[1..]);
      var next := if held || !r.deferred then n else n.(state := PendingBuyerGetRefundSig);
      RoutingIsSafe(me, next, replies[1..], ready, sent);
    }
  }

  lemma RoutingIsCareful(me: Identity, n: Node)
    requires Solvent(me, n) && Careful(me, n)
    ensures var (r, out) := Routed(n, n.replies);
            r == n.(replies := r.replies, state := r.state) && Solvent(me, r) && Careful(me, r) &&
            AllSafe(me, n.ready, n.channel.sent, out)
  {
    RoutingKeepsChannel(n, n.replies);
    RoutingIsSafe(me, n, n.replies, n.ready, n.channel.sent);
  }

  lemma ReadyIsCareful(me: Identity, n: Node, txid: Txid)
    requires Solvent(me, n) && Careful(me, n) && n.ready.None?
    ensures Careful(me, OnReady(n, txid))
  {
    RepliesSafeLater(me, n.ready, Some(txid), n.channel.sent, n.channel.sent, n.replies);
  }

  // ----- a life ----------------------------------------------------------------------------------

  lemma HearingKeepsSent(me: Identity, n: Node, m: Message)
    requires Solvent(me, n)
    ensures var r := Handle(me, n, m); r.ready == n.ready && r.channel.sent >= n.channel.sent
  {
  }

  /** What the node then holds and what it says at that are as they should be. */
  predicate GoesOnCarefully(me: Identity, n: Node, h: Happening)
    requires Solvent(me, n)
  {
    var r := Happens(me, n, h);
    Careful(me, r) && (n.ready.Some? ==> r.ready == n.ready) && r.channel.sent >= n.channel.sent &&
    AllSafe(me, r.ready, r.channel.sent, Says(me, n, h))
  }

  lemma HearsCarefully(me: Identity, n: Node, m: Message)
    requires Solvent(me, n) && Careful(me, n)
    ensures GoesOnCarefully(me, n, Hears(m))
  {
    HearingIsCareful(me, n, m);
    HearingKeepsSent(me, n, m);
  }

  lemma RoutesCarefully(me: Identity, n: Node)
    requires Solvent(me, n) && Careful(me, n)
    ensures GoesOnCarefully(me, n, Routing)
  {
    RoutingIsCareful(me, n);
  }

  lemma HappeningIsCareful(me: Identity, n: Node, h: Happening)
    requires Solvent(me, n) && Careful(me, n)
    ensures GoesOnCarefully(me, n, h)
  {
    match h
    case Hears(m) => HearsCarefully(me, n, m);
    case Acting => ActingIsCareful(me, n);
    case Routing => RoutesCarefully(me, n);
    case ReadyMsg(txid) => if n.ready.None? { ReadyIsCareful(me, n, txid); }
    case SetupConfirmed => ConfirmingIsCareful(me, n);
    case DownloadConfirmed => ConfirmingIsCareful(me, n);
  }

  lemma ConfirmingIsCareful(me: Identity, n: Node)
    requires Solvent(me, n) && Careful(me, n)
    ensures Careful(me, OnConfirm(me, n)) && Careful(me, OnRedeemed(n))
  {
  }

  lemma {:induction false} LifeIsCareful(me: Identity, n: Node, hs: seq<Happening>)
    requires Solvent(me, n) && Careful(me, n)
    ensures var r := Lived(me, n, hs);
            Careful(me, r) && (n.ready.Some? ==> r.ready == n.ready) && r.channel.sent >= n.channel.sent &&
            AllSafe(me, r.ready, r.channel.sent, SaidIn(me, n, hs))
    decreases |hs|
  {
    if hs != [] {
      var next := Happens(me, n, hs[0]);
      HappeningIsCareful(me, n, hs[0]);
      LifeIsCareful(me, next, hs[1..]);
      var r := Lived(me, next, hs[1..]);
      AllSafeLater(me, next.ready, r.ready, next.channel.sent, r.channel.sent, Says(me, n, hs[0]));
    }
  }

  // ----- what was signed away is accounted for ------------------------------------------------------

  predicate PaysExactly(me: Identity, m: Message, amount: Amount)
    requires Fundable(me.terms)
  {
    m.ReturnAdjustedRefund? && PaysAway(me, m.payment, amount)
  }

  predicate Among(me: Identity, ms: seq<Message>, amount: Amount)
    requires Fundable(me.terms)
  {
    exists i :: 0 <= i < |ms| && PaysExactly(me, ms[i], amount)
  }

  predicate Waiting(me: Identity, replies: seq<Reply>, amount: Amount)
    requires Fundable(me.terms)
  {
    exists i :: 0 <= i < |replies| && replies[i].message.Some? && PaysExactly(me, replies[i].message.value, amount)
  }

  /** Some payment, sent or waiting, pays away exactly what counts as sent. */
  predicate Accounted(me: Identity, n: Node, ms: seq<Message>)
    requires Solvent(me, n)
  {
    n.channel.sent == 0 || Among(me, ms, n.channel.sent) || Waiting(me, n.replies, n.channel.sent)
  }

  lemma StaysAmong(me: Identity, a: seq<Message>, b: seq<Message>, amount: Amount)
    requires Fundable(me.terms) && (Among(me, a, amount) || Among(me, b, amount))
    ensures Among(me, a + b, amount)
  {
    if Among(me, a, amount) {
      var i :| 0 <= i < |a| && PaysExactly(me, a[i], amount);
      assert (a + b)[i] == a[i];
    } else {
      var i :| 0 <= i < |b| && PaysExactly(me, b[i], amount);
      assert (a + b)[|a| + i] == b[i];
    }
  }

  lemma StaysWaiting(me: Identity, a: seq<Reply>, b: seq<Reply>, amount: Amount)
    requires Fundable(me.terms) && (Waiting(me, a, amount) || Waiting(me, b, amount))
    ensures Waiting(me, a + b, amount)
  {
    if Waiting(me, a, amount) {
      var i :| 0 <= i < |a| && a[i].message.Some? && PaysExactly(me, a[i].message.value, amount);
      assert (a + b)[i] == a[i];
    } else {
      var i :| 0 <= i < |b| && b[i].message.Some? && PaysExactly(me, b[i].message.value, amount);
      assert (a + b)[|a| + i] == b[i];
    }
  }

  lemma {:induction false} RoutingAccounts(me: Identity, n: Node, replies: seq<Reply>, amount: Amount)
    requires Fundable(me.terms) && Waiting(me, replies, amount)
    ensures Waiting(me, Routed(n, replies).0.replies, amount) || Among(me, Routed(n, replies).1, amount)
    decreases |replies|
  {
    var r := replies[0];
    var held := r.deferred && !MayEnter(n.state, PendingBuyerGetRefundSig);
    var next := if held || !r.deferred then n else n.(state := PendingBuyerGetRefundSig);
    var (after, out) := Routed(next, replies[1..]);
    var front := if !held && r.message.Some? then [r.message.value] else [];
    if r.message.Some? && PaysExactly(me, r.message.value, amount) {
      if held {
        assert Routed(n, replies).0.replies[0] == r;
      } else {
        assert (front + out)[0] == r.message.value;
      }
    } else {
      assert Waiting(me, replies[1..], amount) by {
        var i :| 0 <= i < |replies| && replies[i].message.Some? && PaysExactly(me, replies[i].message.value, amount);
        assert replies[1..][i - 1] == replies[i];
      }
      RoutingAccounts(me, next, replies[1..], amount);
      if Waiting(me, after.replies, amount) {
        StaysWaiting(me, [r], after.replies, amount);
      } else {
        StaysAmong(me, front, out, amount);
      }
    }
  }

  lemma HearingAccounts(me: Identity, n: Node, m: Message, ms: seq<Message>)
    requires Solvent(me, n) && Accounted(me, n, ms)
    ensures Accounted(me, Handle(me, n, m), ms)
  {
    var r := Handle(me, n, m);
    var c := n.channel;
    RepliesGrow(me, n, m);
    if m.ReturnAdjustedRefund? && r != n {
      AnswerPaysAway(me, c, n.theirSetup.value, n.theirRefund.value, Some(m.payment));
      var reply := r.replies[|n.replies|];
      if r.channel.sent != c.sent {
        assert [reply][0].message.Some? && PaysExactly(me, [reply][0].message.value, r.channel.sent);
        StaysWaiting(me, n.replies, [reply], r.channel.sent);
      }
    }
    if r.channel.sent == c.sent && Waiting(me, n.replies, c.sent) {
      StaysWaiting(me, n.replies, r.replies[|n.replies|..], c.sent);
    }
  }

  lemma RepliesGrow(me: Identity, n: Node, m: Message)
    requires Solvent(me, n)
    ensures var r := Handle(me, n, m);
            |r.replies| >= |n.replies| && r.replies == n.replies + r.replies[|n.replies|..] &&
            (!m.ReturnAdjustedRefund? ==> r.channel == n.channel)
  {
    match m
    case GetRefundSig(authentic, tx) =>
    case ReturnRefundSig(authentic, sig) =>
    case GetSetupTx(authentic) =>
    case ReturnSetupTx(authentic, txid, valid) =>
    case ReturnAdjustedRefund(authentic, p) =>
  }

  lemma ActingAccounts(me: Identity, n: Node, ms: seq<Message>)
    requires Solvent(me, n) && Accounted(me, n, ms)
    ensures var (r, out) := Act(me, n); Accounted(me, r, ms + out)
  {
    var (r, out) := Act(me, n);
    if n.state.SellerInitiateMicrotransfer? && n.theirSetup.Some? && n.theirRefund.Some? {
      AnswerPaysAway(me, n.channel, n.theirSetup.value, n.theirRefund.value, None);
    }
    if r.channel.sent != n.channel.sent { assert PaysExactly(me, out[0], r.channel.sent); }
    if Among(me, ms, r.channel.sent) || Among(me, out, r.channel.sent) {
      StaysAmong(me, ms, out, r.channel.sent);
    }
  }

  lemma HappeningAccounts(me: Identity, n: Node, h: Happening, ms: seq<Message>)
    requires Solvent(me, n) && Accounted(me, n, ms)
    ensures Accounted(me, Happens(me, n, h), ms + Says(me, n, h))
  {
    match h
    case Hears(m) =>
      HearingAccounts(me, n, m, ms);
      assert ms + [] == ms;
    case Acting => ActingAccounts(me, n, ms);
    case Routing =>
      var (sent, out) := (n.channel.sent, Routed(n, n.replies).1);
      RoutingKeepsChannel(n, n.replies);
      if Waiting(me, n.replies, sent) { RoutingAccounts(me, n, n.replies, sent); }
      if Among(me, ms, sent) || Among(me, out, sent) { StaysAmong(me, ms, out, sent); }
    case _ => assert ms + [] == ms;
  }

  lemma {:induction false} LifeAccounts(me: Identity, n: Node, hs: seq<Happening>, ms: seq<Message>)
    requires Solvent(me, n) && Accounted(me, n, ms)
    ensures Accounted(me, Lived(me, n, hs), ms + SaidIn(me, n, hs))
    decreases |hs|
  {
    if hs == [] {
      assert ms + [] == ms;
    } else {
      HappeningAccounts(me, n, hs[0], ms);
      LifeAccounts(me, Happens(me, n, hs[0]), hs[1..], ms + Says(me, n, hs[0]));
      assert ms + (Says(me, n, hs[0]) + SaidIn(me, Happens(me, n, hs[0]), hs[1..]))
          == (ms + Says(me, n, hs[0])) + SaidIn(me, Happens(me, n, hs[0]), hs[1..]);
    }
  }

  /** What counts as sent has been signed away: a payment of exactly so much was sent
      or waits to be sent. */
  lemma SentIsSigned(me: Identity, hs: seq<Happening>)
    requires Fundable(me.terms)
    ensures Accounted(me, Lived(me, NewNode(), hs), SaidIn(me, NewNode(), hs))
  {
    LifeAccounts(me, NewNode(), hs, []);
    assert [] + SaidIn(me, NewNode(), hs) == SaidIn(me, NewNode(), hs);
  }

  // ----- the laws -----------------------------------------------------------------------------------

  /** A message not signed by the counterparty does nothing, but that a request for the
      setup moves the state on. */
  lemma UnauthenticIsIgnored(me: Identity, n: Node, m: Message)
    requires Solvent(me, n) && !m.authentic
    ensures var next := if me.role.Buyer? then PendingBuyerGetSetupTx else SellerInitiateMicrotransfer;
            Handle(me, n, m) == if m.GetSetupTx? then n.(state := Updated(n.state, next)) else n
  {
    match m
    case GetRefundSig(authentic, tx) =>
    case ReturnRefundSig(authentic, sig) =>
    case GetSetupTx(authentic) =>
    case ReturnSetupTx(authentic, txid, valid) =>
    case ReturnAdjustedRefund(authentic, p) =>
  }

  /** A refund signature moves the state on whether or not it is one. */
  lemma BadSignatureMovesOn(me: Identity, n: Node, sig: Sig)
    requires Solvent(me, n) && n.refund.Some? && (sig.key != me.terms.theirKeys.0 || sig.tx != n.refund.value)
    ensures var next := if me.role.Seller? then PendingSellerReturnRefundSig else PendingBuyerReturnSetupTx;
            Handle(me, n, ReturnRefundSig(true, sig)) == n.(state := Updated(n.state, next))
  {
  }

  /** A payment in the accepting state that neither owner's keys have signed as it is,
      or that is not final, changes nothing, and a blank line answers it. */
  lemma FaultyPaymentIsAnswered(me: Identity, n: Node, p: Payment)
    requires Solvent(me, n) && n.theirSetup.Some? && n.theirRefund.Some? && !Redeemable(me.terms, p)
    requires n.state == if me.role.Buyer? then BuyerAcceptMicrotransfer else SellerAcceptMicrotransfer
    requires !Complete(me.terms, n.channel)
    ensures Handle(me, n, ReturnAdjustedRefund(true, p)) == n.(replies := n.replies + [Reply(None, false)])
  {
    FaultyIsRefused(me.terms, n.channel, me.setup, n.theirSetup.value, n.theirRefund.value, p);
  }

  // ----- one reply is held back --------------------------------------------------------------------

  function Deferred(replies: seq<Reply>): nat
  {
    if replies == [] then 0 else (if replies[0].deferred then 1 else 0) + Deferred(replies[1..])
  }

  lemma {:induction false} DeferredAppends(replies: seq<Reply>, r: Reply)
    ensures Deferred(replies + [r]) == Deferred(replies) + if r.deferred then 1 else 0
    decreases |replies|
  {
    if replies == [] {
      assert replies + [r] == [r] && [r][1..] == [];
    } else {
      DeferredAppends(replies[1..], r);
      assert (replies + [r])[1..] == replies[1..] + [r];
    }
  }

  /** At most one, and only once the match is past its first state. */
  predicate HoldsBackOne(n: Node)
  {
    Deferred(n.replies) <= if Rank(n.state) > Rank(PendingContract) then 1 else 0
  }

  lemma HearingHoldsBackOne(me: Identity, n: Node, m: Message)
    requires Solvent(me, n) && HoldsBackOne(n)
    ensures HoldsBackOne(Handle(me, n, m))
  {
    var r := Handle(me, n, m);
    HandlingMovesForward(me, n, m);
    HearingAddsOne(me, n, m);
    if r.replies != n.replies { DeferredAppends(n.replies, r.replies[|n.replies|]); }
  }

  lemma HearingAddsOne(me: Identity, n: Node, m: Message)
    requires Solvent(me, n)
    ensures var r := Handle(me, n, m);
            r.replies == n.replies ||
            (|r.replies| == |n.replies| + 1 && r.replies == n.replies + [r.replies[|n.replies|]] &&
             (r.replies[|n.replies|].deferred ==> n.state.PendingContract? && r.state.PendingBuyerSetupTxConfirm?))
  {
    match m
    case GetRefundSig(authentic, tx) =>
    case ReturnRefundSig(authentic, sig) =>
    case GetSetupTx(authentic) =>
    case ReturnSetupTx(authentic, txid, valid) =>
    case ReturnAdjustedRefund(authentic, p) =>
  }

  lemma {:induction false} RoutingDefersNoMore(n: Node, replies: seq<Reply>)
    ensures Deferred(Routed(n, replies).0.replies) <= Deferred(replies)
    decreases |replies|
  {
    if replies != [] {
      var r := replies[0];
      var held := r.deferred && !MayEnter(n.state, PendingBuyerGetRefundSig);
      var next := if held || !r.deferred then n else n.(state := PendingBuyerGetRefundSig);
      RoutingDefersNoMore(next, replies[1..]);
      assert ([r] + Routed(next, replies[1..]).0.replies)[1..] == Routed(next, replies[1..]).0.replies;
    }
  }

  lemma HappeningHoldsBackOne(me: Identity, n: Node, h: Happening)
    requires Solvent(me, n) && HoldsBackOne(n)
    ensures HoldsBackOne(Happens(me, n, h))
  {
    HappeningMovesForward(me, n, h);
    match h
    case Hears(m) => HearingHoldsBackOne(me, n, m);
    case Acting => ActingKeepsReplies(me, n);
    case Routing => RoutingDefersNoMore(n, n.replies);
    case _ =>
  }

  lemma ActingKeepsReplies(me: Identity, n: Node)
    requires Solvent(me, n)
    ensures Act(me, n).0.replies == n.replies
  {
  }

  /** However often it is asked, a node holds back one reply at most. */
  lemma {:induction false} OneReplyIsHeldBack(me: Identity, n: Node, hs: seq<Happening>)
    requires Solvent(me, n) && HoldsBackOne(n)
    ensures HoldsBackOne(Lived(me, n, hs))
    decreases |hs|
  {
    if hs != [] {
      HappeningHoldsBackOne(me, n, hs[0]);
      OneReplyIsHeldBack(me, Happens(me, n, hs[0]), hs[1..]);
    }
  }

  // ----- where things came from ---------------------------------------------------------------------

  /** The states beyond the confirmation of a node's own setup. */
  predicate Proceeds(state: State)
  {
    match SideOf(state)
    case Common => false
    case Buyers => !state.PendingBuyerSetupTxConfirm?
    case Sellers => true
    case Closing => true
  }

  lemma HearingWaits(me: Identity, n: Node, m: Message)
    requires Solvent(me, n)
    ensures var r := Handle(me, n, m);
            (Proceeds(r.state) ==> Proceeds(n.state)) &&
            (r.state.MicrotransferComplete? ==> n.state.MicrotransferComplete?)
  {
    match m
    case GetRefundSig(authentic, tx) =>
    case ReturnRefundSig(authentic, sig) =>
    case GetSetupTx(authentic) =>
    case ReturnSetupTx(authentic, txid, valid) =>
    case ReturnAdjustedRefund(authentic, p) =>
  }

  lemma ActingWaits(me: Identity, n: Node)
    requires Solvent(me, n)
    ensures var r := Act(me, n).0;
            (Proceeds(r.state) ==> Proceeds(n.state)) &&
            (r.state.MicrotransferComplete? ==> n.state.MicrotransferComplete?)
  {
  }

  lemma HappeningWaits(me: Identity, n: Node, h: Happening)
    requires Solvent(me, n)
    ensures var r := Happens(me, n, h);
            (Proceeds(r.state) ==> Proceeds(n.state) || h.SetupConfirmed?) &&
            (r.state.MicrotransferComplete? ==> n.state.MicrotransferComplete? || h.DownloadConfirmed?)
  {
    match h
    case Hears(m) => HearingWaits(me, n, m);
    case Acting => ActingWaits(me, n);
    case Routing => RoutingKeepsChannel(n, n.replies);
    case _ =>
  }

  /** A node goes on only once its own setup has confirmed, and is done only once the
      redemption of its download has. */
  lemma {:induction false} ConfirmationsAreAwaited(me: Identity, n: Node, hs: seq<Happening>)
    requires Solvent(me, n)
    ensures var r := Lived(me, n, hs);
            (Proceeds(r.state) ==> Proceeds(n.state) || SetupConfirmed in hs) &&
            (r.state.MicrotransferComplete? ==> n.state.MicrotransferComplete? || DownloadConfirmed in hs)
    decreases |hs|
  {
    if hs != [] {
      HappeningWaits(me, n, hs[0]);
      ConfirmationsAreAwaited(me, Happens(me, n, hs[0]), hs[1..]);
    }
  }

  /** The setup a node holds came in an authentic message and passed validation. */
  lemma {:induction false} SetupCame(me: Identity, n: Node, hs: seq<Happening>)
    requires Solvent(me, n)
    ensures var held := Lived(me, n, hs).theirSetup;
            held == n.theirSetup ||
            exists i :: 0 <= i < |hs| && held.Some? && hs[i] == Hears(ReturnSetupTx(true, held.value, true))
    decreases |hs|
  {
    if hs != [] {
      var next := Happens(me, n, hs[0]);
      HappeningKeepsTheirSetup(me, n, hs[0]);
      SetupCame(me, next, hs[1..]);
      var held := Lived(me, n, hs).theirSetup;
      if held == next.theirSetup {
        assert held == n.theirSetup || hs[0] == Hears(ReturnSetupTx(true, held.value, true));
      } else {
        var i :| 0 <= i < |hs[1..]| && held.Some? && hs[1..][i] == Hears(ReturnSetupTx(true, held.value, true));
        assert hs[i + 1] == hs[1..][i];
      }
    }
  }

  lemma HappeningKeepsTheirSetup(me: Identity, n: Node, h: Happening)
    requires Solvent(me, n)
    ensures var held := Happens(me, n, h).theirSetup;
            held == n.theirSetup || (held.Some? && h == Hears(ReturnSetupTx(true, held.value, true)))
  {
    match h
    case Hears(m) => HearingKeepsTheirSetup(me, n, m);
    case Acting =>
    case Routing => RoutingKeepsChannel(n, n.replies);
    case _ =>
  }

  lemma HearingKeepsTheirSetup(me: Identity, n: Node, m: Message)
    requires Solvent(me, n)
    ensures var held := Handle(me, n, m).theirSetup;
            held == n.theirSetup || (held.Some? && m == ReturnSetupTx(true, held.value, true))
  {
    match m
    case GetRefundSig(authentic, tx) =>
    case ReturnRefundSig(authentic, sig) =>
    case GetSetupTx(authentic) =>
    case ReturnSetupTx(authentic, txid, valid) =>
    case ReturnAdjustedRefund(authentic, p) =>
  }

  /** Over any life, against any counterparty. The refund a node holds, and every one
      it sends for signing, gives its whole deposit back to it after the time lock.
      What it signs for the other side is time-locked too. Every payment it signs
      leaves it all but what was signed away by then. And the download it holds is
      signed by both owners, final, and spends the setup announced. */
  lemma RefundsAreSafe(me: Identity, hs: seq<Happening>)
    requires Fundable(me.terms)
    ensures var n := Lived(me, NewNode(), hs);
            Careful(me, n) && AllSafe(me, n.ready, n.channel.sent, SaidIn(me, NewNode(), hs))
  {
    LifeIsCareful(me, NewNode(), hs);
  }

  lemma SafeGivesBack(me: Identity, ready: Option<Txid>, sent: Amount, m: Message)
    requires Fundable(me.terms) && sent <= me.terms.Upload() && Safe(me, ready, sent, m)
    ensures GivesBack(me, m, me.terms.Upload() - sent)
  {
    var t := me.terms;
    if m.ReturnAdjustedRefund? {
      var amount: Amount :| amount <= sent && PaysAway(me, m.payment, amount);
      assert InSatoshi(t.Upload() - amount) >= InSatoshi(t.Upload() - sent);
    } else if m.GetRefundSig? {
      assert InSatoshi(t.Upload()) >= InSatoshi(t.Upload() - sent);
    }
  }

  /** A transaction in the message that spends the node's deposit leaves it so much,
      to the satoshi. */
  predicate GivesBack(me: Identity, m: Message, amount: Amount)
  {
    (m.GetRefundSig? ==> PaidTo(m.refund.outputs, me.terms.changeAddress) >= InSatoshi(amount)) &&
    (m.ReturnAdjustedRefund? ==> PaidTo(m.payment.tx.outputs, me.terms.changeAddress) >= InSatoshi(amount))
  }

  /** Whichever of its own transactions that a node has ever sent is published, it
      gets back at least what it has not signed away. */
  lemma UnsentComesBack(me: Identity, hs: seq<Happening>, m: Message)
    requires Fundable(me.terms) && m in SaidIn(me, NewNode(), hs)
    ensures GivesBack(me, m, me.terms.Upload() - Lived(me, NewNode(), hs).channel.sent)
  {
    var n := Lived(me, NewNode(), hs);
    RefundsAreSafe(me, hs);
    SafeGivesBack(me, n.ready, n.channel.sent, m);
  }
}
