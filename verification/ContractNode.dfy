/** A node's side of one contract as the program keeps it: the match, the contract
    and the factory's tables are updated in place by the message handlers, by the
    event loop and by the callbacks. */
module ContractNodes {
  import opened Outcome
  import opened Amounts
  import opened MatchStates
  import opened M = Microtransfer
  import opened Protocol

  class ContractNode {
    const me: Identity
    const matched: MatchState
    const contract: MicrotransferContract
    var checked: State
    var ready: Option<Txid>
    var confirmed: bool
    var refund: Option<Tx>
    var refundSigned: Option<Sig>
    var theirRefund: Option<Tx>
    var theirSetup: Option<Txid>
    var replies: seq<Reply>

    ghost predicate Valid()
      reads this, contract
    {
      contract.Valid() && contract.terms == me.terms
    }

    function View(): Node
      reads this, matched, contract
    {
      Node(matched.state, checked, ready, confirmed, refund, refundSigned, theirRefund, theirSetup,
           contract.View(), replies)
    }

    constructor (me: Identity, matched: MatchState, contract: MicrotransferContract)
      requires contract.Valid() && contract.terms == me.terms
      requires matched.state == PendingContract && contract.View() == Fresh()
      ensures Valid() && View() == NewNode()
      ensures this.me == me && this.matched == matched && this.contract == contract
    {
      this.me, this.matched, this.contract := me, matched, contract;
      checked, ready, confirmed := Unset, None, false;
      refund, refundSigned, theirRefund, theirSetup, replies := None, None, None, None, [];
    }

    method ParseGetRefundSig(authentic: bool, tx: Tx)
      requires Valid()
      modifies this, matched`state
      ensures Valid() && View() == OnGetRefundSig(me, old(View()), authentic, tx)
    {
      if !authentic { return; }
      var deferred := false;
      var taken: bool;
      if me.role.Buyer? {
        if matched.state != PendingBuyerReturnRefundSig {
          if matched.state == PendingBuyerSetupTxConfirm { return; }
          taken := matched.UpdateState(PendingBuyerSetupTxConfirm);
          if !taken { return; }
          deferred := true;
        } else {
          taken := matched.UpdateState(PendingBuyerGetRefundSig);
          if !taken { return; }
        }
      } else {
        taken := matched.UpdateState(PendingSellerGetSetupTx);
        if !taken { return; }
      }
      if ready == None { return; }
      if |tx.inputs| != 1 { return; }
      if tx.inputs[0].sequence != 0 { return; }
      if tx.inputs[0].prevout != ready.value { return; }
      if tx.lockTime != me.terms.lockTime { return; }
      var sig := Sig(me.terms.ourKeys.0, tx);
      theirRefund := Some(tx);
      replies := replies + [Reply(Some(ReturnRefundSig(true, sig)), deferred)];
    }

    method ParseReturnRefundSig(authentic: bool, sig: Sig)
      requires Valid()
      modifies this, matched`state
      ensures Valid() && View() == OnReturnRefundSig(me, old(View()), authentic, sig)
    {
      if !authentic { return; }
      var taken := matched.UpdateState(if me.role.Seller? then PendingSellerReturnRefundSig
                                       else PendingBuyerReturnSetupTx);
      if !taken { return; }
      if refund == None { return; }
      if sig != Sig(me.terms.theirKeys.0, refund.value) { return; }
      refundSigned := Some(sig);
    }

    method ParseGetSetupTx(authentic: bool)
      requires Valid()
      modifies this, matched`state
      ensures Valid() && View() == OnGetSetupTx(me, old(View()), authentic)
    {
      var taken := matched.UpdateState(if me.role.Buyer? then PendingBuyerGetSetupTx
                                       else SellerInitiateMicrotransfer);
      if !taken { return; }
      if !authentic { return; }
      replies := replies + [Reply(Some(ReturnSetupTx(true, me.setup, true)), false)];
    }

    method ParseReturnSetupTx(authentic: bool, txid: Txid, valid: bool)
      requires Valid()
      modifies this, matched`state
      ensures Valid() && View() == OnReturnSetupTx(me, old(View()), authentic, txid, valid)
    {
      if !authentic { return; }
      if !valid { return; }
      if ready == None { return; }
      if txid != ready.value { return; }
      var taken := matched.UpdateState(if me.role.Seller? then PendingSellerReturnSetupTx
                                       else BuyerAcceptMicrotransfer);
      if !taken { return; }
      theirSetup := Some(txid);
    }

    method ParseReturnAdjustedRefund(authentic: bool, p: Payment)
      requires Valid()
      modifies this, matched`state, contract
      ensures Valid() && View() == OnReturnAdjustedRefund(me, old(View()), authentic, p)
    {
      if me.role.Buyer? {
        if matched.state != BuyerAcceptMicrotransfer { return; }
      } else {
        if matched.state != SellerAcceptMicrotransfer { return; }
      }
      if !authentic { return; }
      if theirSetup == None || theirRefund == None { return; }
      var ret := contract.AdjustRefundTx(me.setup, theirSetup.value, theirRefund.value, Some(p));
      if contract.sent == me.terms.Upload() && contract.recv == me.terms.Download() {
        var _ := matched.UpdateState(PendingMicrotransferComplete);
      }
      replies := replies + [PaymentReply(ret)];
    }

    method AskForRefundSig() returns (sent: seq<Message>)
      requires Valid() && (matched.state.PendingSellerGetRefundSig? || matched.state.PendingBuyerGetRefundSig?)
      modifies this`refund, matched`state
      ensures var tx := FullRefund(me.terms, me.setup);
              Valid() && sent == [GetRefundSig(true, tx)] &&
              View() == old(View()).(refund := Some(tx),
                                     state := if old(matched.state).PendingSellerGetRefundSig?
                                              then SellerSentGetRefundSig else BuyerSentGetRefundSig)
    {
      var tx := FullRefund(me.terms, me.setup);
      refund := Some(tx);
      sent := [GetRefundSig(true, tx)];
      if matched.state == PendingSellerGetRefundSig {
        var _ := matched.UpdateState(SellerSentGetRefundSig);
      }
      if matched.state == PendingBuyerGetRefundSig {
        var _ := matched.UpdateState(BuyerSentGetRefundSig);
      }
    }

    method AskForSetupTx() returns (sent: seq<Message>)
      requires Valid() && (matched.state.PendingSellerGetSetupTx? || matched.state.PendingBuyerGetSetupTx?)
      modifies matched`state
      ensures Valid() && sent == [GetSetupTx(true)] &&
              View() == old(View()).(state := if old(matched.state).PendingSellerGetSetupTx?
                                              then SellerSentGetSetupTx else BuyerSentGetSetupTx)
    {
      sent := [GetSetupTx(true)];
      if matched.state == PendingSellerGetSetupTx {
        var _ := matched.UpdateState(SellerSentGetSetupTx);
      }
      if matched.state == PendingBuyerGetSetupTx {
        var _ := matched.UpdateState(BuyerSentGetSetupTx);
      }
    }

    method Initiate() returns (sent: seq<Message>)
      requires Valid() && matched.state.SellerInitiateMicrotransfer?
      modifies matched`state, contract
      ensures Valid() && (View(), sent) == Initiated(me, old(View()))
    {
      sent := [];
      if theirSetup == None || theirRefund == None { return; }
      var ret := contract.AdjustRefundTx(me.setup, theirSetup.value, theirRefund.value, None);
      if ret.Pays? {
        var taken := matched.UpdateState(SellerAcceptMicrotransfer);
        if taken { sent := [ReturnAdjustedRefund(true, ret.payment)]; }
      }
    }

    /** The actions of one pass of the event loop, and the messages they send. */
    method CheckState() returns (sent: seq<Message>)
      requires Valid()
      modifies this, matched`state, contract
      ensures Valid() && (View(), sent) == Act(me, old(View()))
    {
      sent := [];
      if matched.state == checked { return; }
      var seen := matched.state;
      checked := seen;
      if seen == PendingSellerGetRefundSig || seen == PendingBuyerGetRefundSig {
        sent := AskForRefundSig();
      } else if seen == PendingSellerGetSetupTx || seen == PendingBuyerGetSetupTx {
        sent := AskForSetupTx();
      } else if seen == SellerInitiateMicrotransfer {
        sent := Initiate();
      } else if seen == PendingMicrotransferComplete {
        var _ := matched.UpdateState(PendingMicrotransferConfirm);
      }
    }

    /** Routes the queued replies; those not ready are kept, in order. */
    method RouteReplies() returns (sent: seq<Message>)
      requires Valid()
      modifies this`replies, matched`state
      ensures Valid() && (View(), sent) == Routed(old(View()), old(replies))
    {
      ghost var before := View();
      var kept: seq<Reply> := [];
      sent := [];
      assert replies[0..] == replies;
      NothingBefore(Routed(before, replies));
      for i := 0 to |replies|
        invariant replies == before.replies && Valid()
        invariant View() == before.(state := matched.state)
        invariant Routed(before, before.replies) == Joined(kept, sent, Routed(View(), replies[i..]))
      {
        var reply := replies[i];
        RouteNext(View(), replies[i..], kept, sent);
        assert replies[i..][1..] == replies[i + 1..];
        var ready := true;
        if reply.deferred {
          ready := matched.UpdateState(PendingBuyerGetRefundSig);
        }
        if !ready {
          kept := kept + [reply];
        } else if reply.message.Some? {
          sent := sent + [reply.message.value];
        }
      }
      assert replies[|replies|..] == [] && kept + [] == kept && sent + [] == sent;
      assert Routed(View(), []) == (View().(replies := []), []);
      replies := kept;
    }

    /** READY: their setup transaction is entered in the table. */
    method ParseReadyMsg(setupTxid: Txid)
      modifies this`ready
      ensures View() == OnReady(old(View()), setupTxid)
    {
      ready := Some(setupTxid);
    }

    /** The callback of the watch on our own setup transaction. */
    method SetupConfirmed()
      modifies this`confirmed, matched`state
      ensures View() == OnConfirm(me, old(View()))
    {
      confirmed := true;
      var _ := matched.UpdateState(if me.role.Seller? then PendingSellerGetRefundSig
                                   else PendingBuyerReturnRefundSig);
    }

    /** The callback of the watch on the redeemed download. */
    method DownloadConfirmed()
      modifies matched`state
      ensures View() == OnRedeemed(old(View()))
    {
      var _ := matched.UpdateState(MicrotransferComplete);
    }
  }

  /** What was kept and sent before the rest was routed, put in front. */
  ghost function Joined(kept: seq<Reply>, sent: seq<Message>, r: (Node, seq<Message>)): (Node, seq<Message>)
  {
    (r.0.(replies := kept + r.0.replies), sent + r.1)
  }

  lemma NothingBefore(r: (Node, seq<Message>))
    ensures Joined([], [], r) == r
  {
    assert [] + r.0.replies == r.0.replies && [] + r.1 == r.1;
  }

  lemma RouteNext(n: Node, replies: seq<Reply>, kept: seq<Reply>, sent: seq<Message>)
    requires replies != []
    ensures var r := replies[0];
            Joined(kept, sent, Routed(n, replies)) ==
            if r.deferred && !MayEnter(n.state, PendingBuyerGetRefundSig)
            then Joined(kept + [r], sent, Routed(n, replies[1..]))
            else Joined(kept, if r.message.Some? then sent + [r.message.value] else sent,
                        Routed(if r.deferred then n.(state := PendingBuyerGetRefundSig) else n, replies[1..]))
  {
    var r := replies[0];
    if r.deferred && !MayEnter(n.state, PendingBuyerGetRefundSig) {
      var rest := Routed(n, replies[1..]);
      assert kept + ([r] + rest.0.replies) == kept + [r] + rest.0.replies;
    } else {
      var rest := Routed(if r.deferred then n.(state := PendingBuyerGetRefundSig) else n, replies[1..]);
      if r.message.Some? {
        assert sent + ([r.message.value] + rest.1) == sent + [r.message.value] + rest.1;
      } else {
        assert [] + rest.1 == rest.1;
      }
    }
  }
}
