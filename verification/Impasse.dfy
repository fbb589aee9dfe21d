/** When a contract can be completed at all: one with a first payment worth less
    than a satoshi never is, whatever its two sides do. */
module Impasse {
  import opened Outcome
  import opened Amounts
  import opened MatchStates
  import opened M = Microtransfer
  import opened Protocol
  import opened Lockstep
  import opened FairRuns

  /** If the message is a payment then payments are made at all, and it is the one. */
  predicate Tame(m: Message, first: Payment, any: bool)
  {
    m.ReturnAdjustedRefund? ==> any && m.payment == first
  }

  predicate TameReplies(replies: seq<Reply>, first: Payment, any: bool)
  {
    forall i :: 0 <= i < |replies| && replies[i].message.Some? ==> Tame(replies[i].message.value, first, any)
  }

  predicate AllTame(said: seq<Message>, first: Payment, any: bool)
  {
    forall i :: 0 <= i < |said| ==> Tame(said[i], first, any)
  }

  lemma {:induction false} RoutingStaysTame(n: Node, replies: seq<Reply>, first: Payment, any: bool)
    requires TameReplies(replies, first, any)
    ensures TameReplies(Routed(n, replies).0.replies, first, any) && AllTame(Routed(n, replies).1, first, any)
    decreases |replies|
  {
    if replies != [] {
      var r := replies[0];
      assert TameReplies(replies[1..], first, any);
      if r.deferred && !MayEnter(n.state, PendingBuyerGetRefundSig) {
        RoutingStaysTame(n, replies[1..], first, any);
      } else {
        RoutingStaysTame(if r.deferred then n.(state := PendingBuyerGetRefundSig) else n, replies[1..], first, any);
      }
    }
  }

  lemma HandlingStaysTame(me: Identity, n: Node, m: Message, first: Payment, any: bool)
    requires Solvent(me, n) && !m.ReturnAdjustedRefund? && TameReplies(n.replies, first, any)
    ensures var r := Handle(me, n, m);
            r.channel == n.channel && TameReplies(r.replies, first, any) && r.checked == n.checked
  {
    match m
    case GetRefundSig(authentic, tx) =>
    case ReturnRefundSig(authentic, sig) =>
    case GetSetupTx(authentic) =>
    case ReturnSetupTx(authentic, txid, valid) =>
  }

  function First(me: Identity): Payment
    requires Fundable(me.terms)
  {
    NthPayment(me.terms, me.setup, 1)
  }

  ghost predicate NoPayment(said: seq<Message>)
  {
    forall i :: 0 <= i < |said| ==> !said[i].ReturnAdjustedRefund?
  }

  /** The seller is never paid, so it makes its first payment and no other. */
  ghost predicate Unpaid(me: Identity, x: Party)
    requires Fundable(me.terms)
  {
    Solvent(me, x.node) && HoldsSetup(me, x.node) && me.role.Seller? &&
    x.node.channel.recv == 0 &&
    TameReplies(x.node.replies, First(me), false) &&
    AllTame(x.said, First(me), true) &&
    (forall i, j :: 0 <= i < j < |x.said| && x.said[i].ReturnAdjustedRefund? ==> !x.said[j].ReturnAdjustedRefund?) &&
    (Rank(x.node.state) < 11 ==> x.node.channel.sent == 0 && NoPayment(x.said))
  }

  /** The buyer answers the seller's payment at most, with a payment that may be
      made only if the seller's was worth something. */
  ghost predicate Unfed(me: Identity, x: Party, incoming: seq<Message>, any: bool)
    requires Fundable(me.terms)
  {
    Solvent(me, x.node) && HoldsSetup(me, x.node) && me.role.Buyer? && x.heard <= |incoming| &&
    TameReplies(x.node.replies, First(me), any) && AllTame(x.said, First(me), any) &&
    (NoPayment(incoming[..x.heard]) ==> x.node.channel == Fresh())
  }

  /** The first payment is worth nothing to the one who gets it. */
  predicate Worthless(me: Identity)
    requires Fundable(me.terms)
  {
    InSatoshi(Min(me.terms.ourChunk, me.terms.Upload())) == 0
  }

  lemma WorthlessIsRefused(me: Identity, them: Identity, n: Node, setup: Txid, refund: Tx)
    requires Fundable(me.terms) && Fundable(them.terms) && Mirrored(them.terms, me.terms) && Solvent(me, n)
    requires Worthless(them)
    ensures !Acceptable(me.terms, n.channel, setup, refund, First(them))
  {
    assert 1 * them.terms.ourChunk == them.terms.ourChunk;
    FirstPaidByRefund(them.terms, them.setup, Min(them.terms.ourChunk, them.terms.Upload()), me.terms.ourAddress);
  }

  // ----- the seller's steps ----------------------------------------------------------------

  lemma UnpaidActs(me: Identity, x: Party)
    requires Fundable(me.terms) && Unpaid(me, x) && !x.receiving
    ensures Unpaid(me, SideStep(me, me, x, [], 0, Acts(Seller)))
  {
    HappeningHoldsSetup(me, x.node, Acting);
    if x.node.state.SellerInitiateMicrotransfer? {
      assert 1 * me.terms.ourChunk == me.terms.ourChunk;
    }
  }

  lemma UnpaidRoutes(me: Identity, x: Party)
    requires Fundable(me.terms) && Unpaid(me, x) && x.receiving
    ensures Unpaid(me, SideStep(me, me, x, [], 0, Routes(Seller)))
  {
    var n := x.node;
    HappeningHoldsSetup(me, n, Routing);
    HappeningMovesForward(me, n, Routing);
    RoutingKeepsChannel(n, n.replies);
    RoutingStaysTame(n, n.replies, First(me), false);
  }

  lemma UnpaidHears(me: Identity, them: Identity, x: Party, m: Message, any: bool)
    requires Fundable(me.terms) && Fundable(them.terms) && Mirrored(them.terms, me.terms) && Unpaid(me, x)
    requires Tame(m, First(them), any) && (any ==> Worthless(them))
    ensures Unpaid(me, Heard(me, x, m))
  {
    HandlingHoldsSetup(me, x.node, m);
    HandlingMovesForward(me, x.node, m);
    if m.ReturnAdjustedRefund? {
      UnpaidRefuses(me, them, x.node, m.authentic);
    } else {
      HandlingStaysTame(me, x.node, m, First(me), false);
    }
  }

  lemma UnpaidRefuses(me: Identity, them: Identity, n: Node, authentic: bool)
    requires Fundable(me.terms) && Fundable(them.terms) && Mirrored(them.terms, me.terms) && Solvent(me, n)
    requires Worthless(them) && n.channel.recv == 0 && TameReplies(n.replies, First(me), false)
    ensures var r := OnReturnAdjustedRefund(me, n, authentic, First(them));
            r.channel == n.channel && r.state == n.state && TameReplies(r.replies, First(me), false)
  {
    if n.theirSetup.Some? && n.theirRefund.Some? {
      WorthlessIsRefused(me, them, n, n.theirSetup.value, n.theirRefund.value);
    }
  }

  lemma UnpaidOtherwise(me: Identity, them: Identity, x: Party, e: Event)
    requires Fundable(me.terms) && Unpaid(me, x) && e.who.Seller?
    requires e.Readied? || e.Confirms? || e.Redeems?
    ensures Unpaid(me, SideStep(me, them, x, [], 0, e))
  {
    var n := x.node;
    match e
    case Readied(_) => HappeningHoldsSetup(me, n, ReadyMsg(them.setup));
    case Confirms(_) =>
      HappeningHoldsSetup(me, n, SetupConfirmed);
      HappeningMovesForward(me, n, SetupConfirmed);
    case Redeems(_) =>
      HappeningHoldsSetup(me, n, DownloadConfirmed);
      HappeningMovesForward(me, n, DownloadConfirmed);
  }

  lemma UnpaidStays(me: Identity, them: Identity, x: Party, incoming: seq<Message>, late: nat, any: bool, e: Event)
    requires Fundable(me.terms) && Fundable(them.terms) && Mirrored(them.terms, me.terms) && Unpaid(me, x)
    requires AllTame(incoming, First(them), any) && (any ==> Worthless(them)) && e.who.Seller?
    ensures Unpaid(me, SideStep(me, them, x, incoming, late, e))
  {
    match e
    case Acts(_) => if !x.receiving { UnpaidActs(me, x); }
    case Routes(_) => if x.receiving { UnpaidRoutes(me, x); }
    case Receives(_) =>
      if x.receiving && late <= x.heard < |incoming| { UnpaidHears(me, them, x, incoming[x.heard], any); }
    case Expires(_, _) =>
    case _ => UnpaidOtherwise(me, them, x, e);
  }

  // ----- the buyer's steps -----------------------------------------------------------------

  lemma UnfedActs(me: Identity, x: Party, incoming: seq<Message>, any: bool)
    requires Fundable(me.terms) && Unfed(me, x, incoming, any) && !x.receiving
    ensures Unfed(me, SideStep(me, me, x, incoming, 0, Acts(Buyer)), incoming, any)
  {
    HappeningHoldsSetup(me, x.node, Acting);
  }

  lemma UnfedRoutes(me: Identity, x: Party, incoming: seq<Message>, any: bool)
    requires Fundable(me.terms) && Unfed(me, x, incoming, any) && x.receiving
    ensures Unfed(me, SideStep(me, me, x, incoming, 0, Routes(Buyer)), incoming, any)
  {
    var n := x.node;
    HappeningHoldsSetup(me, n, Routing);
    RoutingKeepsChannel(n, n.replies);
    RoutingStaysTame(n, n.replies, First(me), any);
  }

  /** A first payment is answered, if at all, with a first payment. */
  lemma FirstIsAnswered(me: Identity, them: Identity, n: Node, authentic: bool, any: bool)
    requires Fundable(me.terms) && Fundable(them.terms) && Mirrored(them.terms, me.terms) && Solvent(me, n)
    requires n.channel == Fresh() && (!any ==> Worthless(them)) && TameReplies(n.replies, First(me), any)
    ensures TameReplies(OnReturnAdjustedRefund(me, n, authentic, First(them)).replies, First(me), any)
  {
    assert 1 * me.terms.ourChunk == me.terms.ourChunk;
    if n.theirSetup.Some? && n.theirRefund.Some? && !any {
      WorthlessIsRefused(me, them, n, n.theirSetup.value, n.theirRefund.value);
    }
  }

  lemma UnfedHears(me: Identity, them: Identity, x: Party, incoming: seq<Message>, any: bool)
    requires Fundable(me.terms) && Fundable(them.terms) && Mirrored(them.terms, me.terms)
    requires Unfed(me, x, incoming, any) && x.heard < |incoming| && (!any ==> Worthless(them))
    requires Tame(incoming[x.heard], First(them), true)
    requires incoming[x.heard].ReturnAdjustedRefund? ==> NoPayment(incoming[..x.heard])
    ensures Unfed(me, Heard(me, x, incoming[x.heard]), incoming, any)
  {
    var m := incoming[x.heard];
    var before, after := incoming[..x.heard], incoming[..x.heard + 1];
    assert after == before + [m];
    HandlingHoldsSetup(me, x.node, m);
    if m.ReturnAdjustedRefund? {
      FirstIsAnswered(me, them, x.node, m.authentic, any);
      assert after[x.heard] == m;
    } else {
      HandlingStaysTame(me, x.node, m, First(me), any);
      assert NoPayment(after) ==> NoPayment(before) by {
        assert forall i :: 0 <= i < |before| ==> before[i] == after[i];
      }
    }
  }

  lemma UnfedSkips(me: Identity, x: Party, incoming: seq<Message>, any: bool)
    requires Fundable(me.terms) && Unfed(me, x, incoming, any) && x.heard < |incoming|
    ensures Unfed(me, x.(heard := x.heard + 1), incoming, any)
  {
    var before, after := incoming[..x.heard], incoming[..x.heard + 1];
    assert NoPayment(after) ==> NoPayment(before) by {
      assert forall i :: 0 <= i < |before| ==> before[i] == after[i];
    }
  }

  lemma UnfedOtherwise(me: Identity, them: Identity, x: Party, incoming: seq<Message>, any: bool, e: Event)
    requires Fundable(me.terms) && Unfed(me, x, incoming, any) && e.who.Buyer?
    requires e.Readied? || e.Confirms? || e.Redeems?
    ensures Unfed(me, SideStep(me, them, x, incoming, 0, e), incoming, any)
  {
    match e
    case Readied(_) => HappeningHoldsSetup(me, x.node, ReadyMsg(them.setup));
    case Confirms(_) => HappeningHoldsSetup(me, x.node, SetupConfirmed);
    case Redeems(_) => HappeningHoldsSetup(me, x.node, DownloadConfirmed);
  }

  // ----- both -----------------------------------------------------------------------------

  /** Neither amount is ever fully moved. */
  ghost predicate Stuck(d: Deal, s: System, any: bool)
    requires Partners(d)
  {
    Unpaid(d.seller, s.seller) && Unfed(d.buyer, s.buyer, s.seller.said, any) &&
    (any ==> Worthless(d.buyer)) && (!any ==> Worthless(d.seller))
  }

  lemma StuckStays(d: Deal, s: System, any: bool, e: Event)
    requires Partners(d) && Sound(d, s) && Stuck(d, s, any)
    ensures Stuck(d, Step(d, s, e), any)
  {
    if e.who.Seller? {
      UnpaidStays(d.seller, d.buyer, s.seller, s.buyer.said, s.buyer.late, any, e);
      SayingExtends(d.seller, d.buyer, s.seller, s.buyer.said, s.buyer.late, e);
      var said, more := s.seller.said, Step(d, s, e).seller.said;
      assert said[..s.buyer.heard] == more[..s.buyer.heard];
    } else {
      var x, incoming := s.buyer, s.seller.said;
      match e
      case Acts(_) => if !x.receiving { UnfedActs(d.buyer, x, incoming, any); }
      case Routes(_) => if x.receiving { UnfedRoutes(d.buyer, x, incoming, any); }
      case Receives(_) =>
        if x.receiving && x.heard < |incoming| {
          if x.heard < s.seller.late { UnfedSkips(d.buyer, x, incoming, any); }
          else { UnfedHears(d.buyer, d.seller, x, incoming, any); }
        }
      case Expires(_, _) =>
      case _ => UnfedOtherwise(d.buyer, d.seller, x, incoming, any, e);
    }
  }

  lemma {:induction false} StuckRun(d: Deal, s: System, any: bool, es: seq<Event>)
    requires Partners(d) && Sound(d, s) && Stuck(d, s, any)
    ensures Stuck(d, Run(d, s, es), any)
    decreases |es|
  {
    if es != [] {
      StuckStays(d, s, any, es[0]);
      StuckRun(d, Step(d, s, es[0]), any, es[1..]);
    }
  }

  /** If either side's payments start out worth less than a satoshi, the seller is
      never credited with anything, in any run at all: the contract cannot complete. */
  lemma WorthlessNeverCompletes(d: Deal, es: seq<Event>)
    requires Partners(d) && !(Worth(d.seller.terms) && Worth(d.buyer.terms))
    ensures var s := Run(d, Start(), es);
            s.seller.node.channel.recv == 0 && !Complete(d.seller.terms, s.seller.node.channel)
  {
    assert Worthless(d.seller) || Worthless(d.buyer);
    StuckRun(d, Start(), !Worthless(d.seller), es);
  }

  lemma {:induction false} StuckEnd(d: Deal, s: System, any: bool, stretches: seq<seq<Event>>)
    requires Partners(d) && Sound(d, s) && Stuck(d, s, any)
    ensures Stuck(d, End(d, s, stretches), any)
    decreases |stretches|
  {
    if stretches != [] {
      StuckRun(d, s, any, stretches[0]);
      StuckEnd(d, Run(d, s, stretches[0]), any, stretches[1..]);
    }
  }

  lemma FirstStretch(d: Deal, s: System, es: seq<Event>, rest: seq<seq<Event>>)
    requires Sound(d, s)
    ensures End(d, s, [es] + rest) == End(d, Run(d, s, es), rest)
  {
    assert ([es] + rest)[1..] == rest;
  }

  lemma BuyerGetsReady(d: Deal)
    requires Fundable(d.seller.terms) && Fundable(d.buyer.terms)
    ensures var es := [Readied(Buyer)];
            Timely(d, Start(), es) && Run(d, Start(), es).buyer.node.ready.Some?
  {
    var s := Step(d, Start(), Readied(Buyer));
    assert Run(d, s, []) == s;
  }

  /** A contract of two partners has a completing run. */
  ghost predicate CanComplete(d: Deal)
    requires Partners(d)
  {
    exists stretches :: Done(d, End(d, Start(), stretches))
  }

  lemma WorthCompletes(d: Deal)
    requires Partners(d) && Worth(d.seller.terms) && Worth(d.buyer.terms)
    ensures CanComplete(d)
  {
    var es := [Readied(Buyer)];
    BuyerGetsReady(d);
    EventLoopsComplete(d, es);
    FirstStretch(d, Start(), es, Repeated(Pass(Buyer) + Pass(Seller), Bound(d) + 1));
  }

  /** The exact condition for a contract to have a completing run. */
  lemma CompletesIffWorth(d: Deal)
    requires Partners(d)
    ensures CanComplete(d) <==> Worth(d.seller.terms) && Worth(d.buyer.terms)
  {
    if Worth(d.seller.terms) && Worth(d.buyer.terms) {
      WorthCompletes(d);
    } else {
      assert Worthless(d.seller) || Worthless(d.buyer);
      forall stretches ensures !Done(d, End(d, Start(), stretches)) {
        StuckEnd(d, Start(), !Worthless(d.seller), stretches);
      }
    }
  }
}
