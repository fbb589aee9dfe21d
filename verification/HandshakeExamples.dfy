/** Concrete deals and runs that fail: a READY that is late, a reply that is held
    back for too long, and chunks that are worth less than a satoshi. */
module HandshakeExamples {
  import opened Outcome
  import opened Amounts
  import opened MatchStates
  import opened M = Microtransfer
  import opened Protocol
  import opened Lockstep
  import opened FairRuns
  import opened Impasse

  /** Ten satoshi each way, a chunk at a time. */
  function Example(chunk: Amount): Deal
  {
    var total := 10 * SATOSHI;
    Deal(Identity(Seller, M.Terms.Terms(total, total, chunk, chunk, 0, 0, 1, 2, 3, (1, 2), (3, 4), 100), 5),
         Identity(Buyer, M.Terms.Terms(total, total, chunk, chunk, 0, 0, 2, 1, 4, (3, 4), (1, 2), 100), 6))
  }

  lemma ExampleIsHonest()
    ensures Honest(Example(SATOSHI))
  {
  }

  lemma {:induction false} RunJoins(d: Deal, s: System, es: seq<Event>, e: Event)
    requires Sound(d, s)
    ensures Run(d, s, es + [e]) == Step(d, Run(d, s, es), e)
    decreases |es|
  {
    if es == [] {
      assert es + [e] == [e] && [e][1..] == [];
    } else {
      RunJoins(d, Step(d, s, es[0]), es[1..], e);
      assert (es + [e])[1..] == es[1..] + [e];
    }
  }

  lemma {:induction false} UntimelyAfter(d: Deal, s: System, es: seq<Event>, more: seq<Event>)
    requires Sound(d, s) && !Timely(d, Run(d, s, es), more)
    ensures !Timely(d, s, es + more)
    decreases |es|
  {
    if es == [] {
      assert es + more == more;
    } else {
      var all := es + more;
      assert all[0] == es[0] && all[1..] == es[1..] + more;
      UntimelyAfter(d, Step(d, s, es[0]), es[1..], more);
    }
  }

  /** The seller has sent its first request, and the buyer is about to read it. */
  function Asked(d: Deal, ready: Option<Txid>): System
    requires Fundable(d.seller.terms) && Fundable(d.buyer.terms)
  {
    var refund := FullRefund(d.seller.terms, d.seller.setup);
    System(Party(NewNode().(state := SellerSentGetRefundSig, checked := PendingSellerGetRefundSig,
                            ready := Some(d.buyer.setup), confirmed := true, refund := Some(refund)),
                 [GetRefundSig(true, refund)], 0, true, 0),
           Party(NewNode().(checked := PendingContract, ready := ready), [], 0, true, 0))
  }

  const Asking: seq<Event> := [Readied(Seller), Confirms(Seller), Acts(Seller)]

  function Begun(ready: Option<Txid>): System
  {
    Start().(buyer := Start().buyer.(node := NewNode().(ready := ready)))
  }

  function Confirmed(d: Deal, ready: Option<Txid>): System
  {
    var n := NewNode().(state := PendingSellerGetRefundSig, ready := Some(d.buyer.setup), confirmed := true);
    Begun(ready).(seller := Party(n, [], 0, false, 0))
  }

  lemma SellerConfirms(d: Deal, ready: Option<Txid>)
    requires Honest(d)
    ensures Step(d, Step(d, Begun(ready), Readied(Seller)), Confirms(Seller)) == Confirmed(d, ready)
  {
  }

  lemma SellerRequests(d: Deal, ready: Option<Txid>)
    requires Honest(d)
    ensures Step(d, Confirmed(d, ready), Acts(Seller)) == Asked(d, ready).(buyer := Begun(ready).buyer)
  {
  }

  lemma SellerAsks(d: Deal, ready: Option<Txid>)
    requires Honest(d)
    ensures Run(d, Begun(ready), Asking) == Asked(d, ready).(buyer := Begun(ready).buyer)
  {
    SellerConfirms(d, ready);
    SellerRequests(d, ready);
    RunJoins(d, Begun(ready), [], Readied(Seller));
    RunJoins(d, Begun(ready), [Readied(Seller)], Confirms(Seller));
    RunJoins(d, Begun(ready), [Readied(Seller), Confirms(Seller)], Acts(Seller));
    assert [] + [Readied(Seller)] == [Readied(Seller)];
    assert [Readied(Seller)] + [Confirms(Seller)] == [Readied(Seller), Confirms(Seller)];
    assert [Readied(Seller), Confirms(Seller)] + [Acts(Seller)] == Asking;
  }

  lemma AskingAsks(d: Deal, ready: Option<Txid>)
    requires Honest(d)
    ensures Run(d, Begun(ready), Asking + [Acts(Buyer)]) == Asked(d, ready)
  {
    SellerAsks(d, ready);
    RunJoins(d, Begun(ready), Asking, Acts(Buyer));
  }

  /** The buyer reads the request, and its READY comes afterwards. */
  lemma LateReady(d: Deal)
    requires Honest(d)
    ensures !Timely(d, Start(), Asking + [Acts(Buyer)] + [Receives(Buyer)])
  {
    assert Begun(None) == Start();
    AskingAsks(d, None);
    UntimelyAfter(d, Start(), Asking + [Acts(Buyer)], [Receives(Buyer)]);
  }

  /** READY is in time, but the buyer's setup confirms only when the reply it holds
      back is fifteen minutes old. */
  lemma StaleReply(d: Deal)
    requires Honest(d)
    ensures var s := Run(d, Start(), [Readied(Buyer)] + (Asking + [Acts(Buyer)] + [Receives(Buyer)]));
            s.buyer.node.state.PendingBuyerSetupTxConfirm? && |s.buyer.node.replies| == 1 &&
            s.buyer.node.ready.Some? && Owes(s.buyer, s.seller, 1)
    ensures !Timely(d, Start(), [Readied(Buyer)] + (Asking + [Acts(Buyer)] + [Receives(Buyer)]) + [Expires(Buyer, 1)])
  {
    var es := Asking + [Acts(Buyer)];
    var start := Begun(Some(d.seller.setup));
    assert Step(d, Start(), Readied(Buyer)) == start;
    AskingAsks(d, Some(d.seller.setup));
    RunJoins(d, start, es, Receives(Buyer));
    var s := Step(d, Asked(d, Some(d.seller.setup)), Receives(Buyer));
    var read := [Readied(Buyer)] + (es + [Receives(Buyer)]);
    assert read[1..] == es + [Receives(Buyer)];
    assert Run(d, Start(), read) == s;
    assert s.buyer.node.replies[1..] == [];
    assert Lapses(s, Expires(Buyer, 1));
    UntimelyAfter(d, Start(), read, [Expires(Buyer, 1)]);
  }

  lemma LateReadyExample()
    ensures var d := Example(SATOSHI);
            var es := Asking + [Acts(Buyer)] + [Receives(Buyer)];
            Honest(d) && !Timely(d, Start(), es) && Wedged(d, Run(d, Start(), es))
  {
    ExampleIsHonest();
    LateReady(Example(SATOSHI));
    StartIsWell(Example(SATOSHI));
    TimelyOrWedged(Example(SATOSHI), Start(), Asking + [Acts(Buyer)] + [Receives(Buyer)]);
  }

  /** However often both event loops run then, the contract is not completed. */
  lemma StaleReplyExample()
    ensures var d := Example(SATOSHI);
            var es := [Readied(Buyer)] + (Asking + [Acts(Buyer)] + [Receives(Buyer)]) + [Expires(Buyer, 1)];
            Honest(d) &&
            !Done(d, End(d, Run(d, Start(), es), Repeated(Pass(Buyer) + Pass(Seller), Bound(d) + 1)))
  {
    var d := Example(SATOSHI);
    var read := [Readied(Buyer)] + (Asking + [Acts(Buyer)] + [Receives(Buyer)]);
    ExampleIsHonest();
    StaleReply(d);
    RunJoins(d, Start(), read, Expires(Buyer, 1));
    EventLoopsComplete(d, read + [Expires(Buyer, 1)]);
  }

  /** Two partners whose chunks are worth ten units never complete. */
  lemma WorthlessExample()
    ensures Partners(Example(10)) && !CanComplete(Example(10))
  {
    CompletesIffWorth(Example(10));
  }
}
