/** Two honest nodes joined by first-in first-out connections: the joint
    invariant of the handshake and of the payments, and why every fair run ends. */
module Lockstep {
  import opened Outcome
  import opened Amounts
  import opened MatchStates
  import opened M = Microtransfer
  import opened Protocol

  // ----- the system ---------------------------------------------------------------

  /** A node, all it has ever sent, how many of the other's messages it has read,
      whether its event loop is between acting and routing, and how many of its own
      messages, from the first on, are by now too old to be taken. */
  datatype Party = Party(node: Node, said: seq<Message>, heard: nat, receiving: bool, late: nat)

  datatype System = System(seller: Party, buyer: Party)

  datatype Deal = Deal(seller: Identity, buyer: Identity)

  datatype Event =
    | Acts(who: Role)
    | Receives(who: Role)
    | Routes(who: Role)
    | Readied(who: Role)
    | Confirms(who: Role)
    | Redeems(who: Role)
    | Expires(who: Role, before: nat)

  /** The messages a side has sent or has ready to send, each stamped when it was made. */
  function Stamped(x: Party): nat
  {
    |x.said| + Waiting(x.node.replies)
  }

  function Waiting(replies: seq<Reply>): nat
  {
    if replies == [] then 0 else (if replies[0].message.Some? then 1 else 0) + Waiting(replies[1..])
  }

  /** What one event does to the side it happens to. An event whose turn it is not
      in the event loop, or that has nothing to do, changes nothing. `Expires` means
      that fifteen minutes have passed since the side stamped its messages up to some
      number: those not read yet, or still held back, are discarded when they are
      read. The first `late` messages of `incoming` are of that kind. */
  function SideStep(me: Identity, them: Identity, x: Party, incoming: seq<Message>, late: nat, e: Event): (y: Party)
    requires Solvent(me, x.node)
    ensures Solvent(me, y.node)
  {
    match e
    case Acts(_) =>
      if x.receiving then x
      else
        var (n, out) := Act(me, x.node);
        x.(node := n, said := x.said + out, receiving := true)
    case Receives(_) =>
      if !x.receiving || x.heard >= |incoming| then x
      else if x.heard < late then x.(heard := x.heard + 1)
      else x.(node := Handle(me, x.node, incoming[x.heard]), heard := x.heard + 1)
    case Routes(_) =>
      if !x.receiving then x
      else
        RoutingKeepsChannel(x.node, x.node.replies);
        var (n, out) := Routed(x.node, x.node.replies);
        x.(node := n, said := x.said + out, receiving := false)
    case Readied(_) =>
      if x.receiving || x.node.ready.Some? then x else x.(node := OnReady(x.node, them.setup))
    case Confirms(_) =>
      if x.receiving || x.node.ready.None? || x.node.confirmed then x else x.(node := OnConfirm(me, x.node))
    case Redeems(_) =>
      if x.receiving || !x.node.state.PendingMicrotransferConfirm? then x else x.(node := OnRedeemed(x.node))
    case Expires(_, before) => x.(late := Max(x.late, Min(before, Stamped(x))))
  }

  function Max(a: nat, b: nat): nat
  {
    if a < b then b else a
  }

  predicate Sound(d: Deal, s: System)
  {
    Solvent(d.seller, s.seller.node) && Solvent(d.buyer, s.buyer.node)
  }

  function Step(d: Deal, s: System, e: Event): (r: System)
    requires Sound(d, s)
    ensures Sound(d, r)
  {
    if e.who.Seller?
    then s.(seller := SideStep(d.seller, d.buyer, s.seller, s.buyer.said, s.buyer.late, e))
    else s.(buyer := SideStep(d.buyer, d.seller, s.buyer, s.seller.said, s.seller.late, e))
  }

  function Run(d: Deal, s: System, es: seq<Event>): (r: System)
    requires Sound(d, s)
    ensures Sound(d, r)
    decreases |es|
  {
    if es == [] then s else Run(d, Step(d, s, es[0]), es[1..])
  }

  function Start(): System
  {
    System(Party(NewNode(), [], 0, false, 0), Party(NewNode(), [], 0, false, 0))
  }

  /** A side's first payment is worth a satoshi, and with it every other. */
  predicate Worth(t: M.Terms)
    requires Fundable(t)
  {
    t.ourChunk > 0 && InSatoshi(Min(t.ourChunk, t.Upload())) > 0
  }

  /** Two sides of one contract. */
  ghost predicate Partners(d: Deal)
  {
    d.seller.role.Seller? && d.buyer.role.Buyer? && Fundable(d.seller.terms) && Fundable(d.buyer.terms) &&
    Mirrored(d.seller.terms, d.buyer.terms)
  }

  ghost predicate Pair(me: Identity, them: Identity)
  {
    Fundable(me.terms) && Fundable(them.terms) && Mirrored(me.terms, them.terms) &&
    Worth(me.terms) && Worth(them.terms)
  }

  ghost predicate Honest(d: Deal)
  {
    Partners(d) && Pair(d.seller, d.buyer) && Pair(d.buyer, d.seller)
  }

  // ----- what is said --------------------------------------------------------------

  /** The i-th message a side ever sends. */
  function Line(me: Identity, them: Identity, i: nat): Message
    requires Fundable(me.terms) && Fundable(them.terms)
  {
    var request := GetRefundSig(true, FullRefund(me.terms, me.setup));
    var answer := ReturnRefundSig(true, Sig(me.terms.ourKeys.0, FullRefund(them.terms, them.setup)));
    var setup := ReturnSetupTx(true, me.setup, true);
    if i == 0 then if me.role.Seller? then request else answer
    else if i == 1 then if me.role.Seller? then answer else request
    else if i == 2 then if me.role.Seller? then GetSetupTx(true) else setup
    else if i == 3 then if me.role.Seller? then setup else GetSetupTx(true)
    else ReturnAdjustedRefund(true, NthPayment(me.terms, me.setup, i - 3))
  }

  /** How many payments a side takes before both amounts are moved. */
  function Last(me: Identity): nat
    requires Fundable(me.terms) && me.terms.ourChunk > 0 && me.terms.theirChunk > 0
  {
    var down := Rounds(me.terms.Download(), me.terms.theirChunk);
    var up := Rounds(me.terms.Upload(), me.terms.ourChunk);
    if me.role.Buyer? then (if up < down then down else up)
    else if up - 1 < down then down else up - 1
  }

  /** The most a side has said or is about to say when it has heard h messages. */
  function Limit(role: Role, h: nat): nat
  {
    if role.Seller? then
      (if h == 0 || h == 1 then 1 else if h == 2 || h == 3 then 3 else h + 1)
    else
      (if h == 0 then 0 else if h == 1 || h == 2 then 2 else if h == 3 then 4 else h)
  }

  // ----- where a side stands -----------------------------------------------------------

  /** A state in which the event loop has something to do. */
  predicate HasAction(state: State)
  {
    state.PendingSellerGetRefundSig? || state.PendingBuyerGetRefundSig? ||
    state.PendingSellerGetSetupTx? || state.PendingBuyerGetSetupTx? ||
    state.SellerInitiateMicrotransfer? || state.PendingMicrotransferComplete?
  }

  /** The state against the messages heard (h) and said or about to be said (p). */
  predicate Stands(role: Role, state: State, h: nat, p: nat, last: nat)
  {
    if role.Seller? then
      match state
      case PendingContract => h == 0 && p == 0
      case PendingSellerGetRefundSig => h == 0 && p == 0
      case SellerSentGetRefundSig => h == 0 && p == 1
      case PendingSellerReturnRefundSig => h == 1 && p == 1
      case PendingSellerGetSetupTx => h == 2 && p == 2
      case SellerSentGetSetupTx => h == 2 && p == 3
      case PendingSellerReturnSetupTx => h == 3 && p == 3
      case SellerInitiateMicrotransfer => h == 4 && p == 4
      case SellerAcceptMicrotransfer => 4 <= h < 4 + last && p == h + 1
      case PendingMicrotransferComplete => h >= 4 + last && p == 5 + last
      case PendingMicrotransferConfirm => h >= 4 + last && p == 5 + last
      case MicrotransferComplete => h >= 4 + last && p == 5 + last
      case _ => false
    else
      match state
      case PendingContract => h == 0 && p == 0
      case PendingBuyerSetupTxConfirm => h == 1 && p == 1
      case PendingBuyerReturnRefundSig => h == p && h <= 1
      case PendingBuyerGetRefundSig => h == 1 && p == 1
      case BuyerSentGetRefundSig => h == 1 && p == 2
      case PendingBuyerReturnSetupTx => h == 2 && p == 2
      case PendingBuyerGetSetupTx => h == 3 && p == 3
      case BuyerSentGetSetupTx => h == 3 && p == 4
      case BuyerAcceptMicrotransfer => 4 <= h < 4 + last && p == h
      case PendingMicrotransferComplete => h >= 4 + last && p == 4 + last
      case PendingMicrotransferConfirm => h >= 4 + last && p == 4 + last
      case MicrotransferComplete => h >= 4 + last && p == 4 + last
      case _ => false
  }

  /** A reply waits only until the end of the pass that queued it, unless it waits
      for the buyer's own setup to confirm. */
  predicate Queued(me: Identity, them: Identity, x: Party)
    requires Fundable(me.terms) && Fundable(them.terms)
  {
    var n := x.node;
    var waiting := n.state.PendingBuyerSetupTxConfirm? || (n.state.PendingBuyerReturnRefundSig? && x.heard == 1);
    if n.replies == [] then !waiting
    else
      n.replies == [Reply(Some(Line(me, them, |x.said|)), waiting)] &&
      (waiting || (x.receiving &&
                   (n.state.PendingBuyerGetRefundSig? || n.state.PendingSellerGetSetupTx? ||
                    n.state.PendingBuyerGetSetupTx? || n.state.SellerInitiateMicrotransfer? ||
                    n.state.BuyerAcceptMicrotransfer? || n.state.SellerAcceptMicrotransfer? ||
                    n.state.PendingMicrotransferComplete?)))
  }

  /** What a side holds by the messages it has heard. */
  predicate Holds(me: Identity, them: Identity, x: Party)
    requires Fundable(me.terms) && Fundable(them.terms)
  {
    var n := x.node;
    var asked := if me.role.Seller? then 1 else 2;
    var refunds := if me.role.Seller? then 2 else 1;
    var signed := if me.role.Seller? then 1 else 2;
    var setups := if me.role.Seller? then 3 else 4;
    (n.ready.Some? ==> n.ready == Some(them.setup)) &&
    (n.ready.None? ==> n.state.PendingContract?) &&
    (n.confirmed <==> !n.state.PendingContract? && !n.state.PendingBuyerSetupTxConfirm?) &&
    (|x.said| >= asked ==> n.refund == Some(FullRefund(me.terms, me.setup))) &&
    (x.heard >= signed ==> n.refundSigned == Some(Sig(them.terms.ourKeys.0, FullRefund(me.terms, me.setup)))) &&
    (x.heard >= refunds ==> n.theirRefund == Some(FullRefund(them.terms, them.setup))) &&
    (x.heard >= setups ==> n.theirSetup == Some(them.setup))
  }

  /** The payments taken so far. */
  ghost predicate PaidUp(me: Identity, x: Party)
    requires Fundable(me.terms) && me.terms.ourChunk > 0 && me.terms.theirChunk > 0
  {
    var ahead := if me.role.Seller? then 1 else 0;
    if Rank(x.node.state) < 11 then x.node.channel == Fresh()
    else if x.heard < 4 + Last(me)
    then x.heard >= 4 && Settled(me.terms, x.node.channel, x.heard - 4, ahead)
    else Settled(me.terms, x.node.channel, Last(me), ahead)
  }

  predicate Told(me: Identity, them: Identity, said: seq<Message>)
    requires Fundable(me.terms) && Fundable(them.terms)
  {
    forall i :: 0 <= i < |said| ==> said[i] == Line(me, them, i)
  }

  /** The local invariant of one side. */
  ghost predicate Well(me: Identity, them: Identity, x: Party)
    requires Pair(me, them)
  {
    var n := x.node;
    Solvent(me, n) &&
    Stands(me.role, n.state, x.heard, |x.said| + |n.replies|, Last(me)) &&
    Queued(me, them, x) && Holds(me, them, x) && PaidUp(me, x) && Told(me, them, x.said) &&
    Rank(n.checked) <= Rank(n.state) && (HasAction(n.state) ==> n.checked != n.state)
  }

  /** The sides stand where they would if they had heard only the first a and b
      messages of each other. */
  ghost predicate StandAt(d: Deal, s: System, a: nat, b: nat)
    requires Honest(d)
  {
    Well(d.seller, d.buyer, s.seller.(heard := a)) && Well(d.buyer, d.seller, s.buyer.(heard := b)) &&
    a <= s.seller.heard <= |s.buyer.said| && b <= s.buyer.heard <= |s.seller.said|
  }

  /** Nothing this side still needs to hear is too old. */
  predicate InTime(x: Party, late: nat)
  {
    late <= x.heard || SideOf(x.node.state).Closing?
  }

  /** The joint invariant. */
  ghost predicate Inv(d: Deal, s: System)
    requires Honest(d)
  {
    Well(d.seller, d.buyer, s.seller) && Well(d.buyer, d.seller, s.buyer) &&
    s.seller.heard <= |s.buyer.said| && s.buyer.heard <= |s.seller.said| &&
    InTime(s.seller, s.buyer.late) && InTime(s.buyer, s.seller.late)
  }

  lemma HeardIsTaken(x: Party)
    ensures x.(heard := x.heard) == x
  {
  }

  // ----- one side, one event -----------------------------------------------------------

  lemma SayingKeepsTold(me: Identity, them: Identity, said: seq<Message>)
    requires Fundable(me.terms) && Fundable(them.terms) && Told(me, them, said)
    ensures Told(me, them, said + [Line(me, them, |said|)])
  {
  }

  lemma ActingMovesOn(me: Identity, them: Identity, x: Party)
    requires Pair(me, them) && Well(me, them, x) && !x.receiving && HasAction(x.node.state)
    requires !x.node.state.SellerInitiateMicrotransfer?
    ensures Well(me, them, SideStep(me, them, x, [], 0, Acts(me.role)))
  {
    SayingKeepsTold(me, them, x.said);
  }

  lemma InitiatingMovesOn(me: Identity, them: Identity, x: Party)
    requires Pair(me, them) && Well(me, them, x) && !x.receiving
    requires x.node.state.SellerInitiateMicrotransfer?
    ensures Well(me, them, SideStep(me, them, x, [], 0, Acts(me.role)))
  {
    InitiatingPays(me, them, x);
    SayingKeepsTold(me, them, x.said);
  }

  /** The seller's first payment. */
  lemma InitiatingPays(me: Identity, them: Identity, x: Party)
    requires Pair(me, them) && Well(me, them, x) && !x.receiving
    requires x.node.state.SellerInitiateMicrotransfer?
    ensures exists c: Channel ::
              Settled(me.terms, c, 0, 1) && Open(me.terms, c) &&
              SideStep(me, them, x, [], 0, Acts(me.role)) ==
              x.(node := x.node.(channel := c, state := SellerAcceptMicrotransfer, checked := x.node.state),
                 said := x.said + [Line(me, them, |x.said|)], receiving := true)
  {
    NextChunk(0, me.terms.ourChunk, me.terms.Upload());
    assert Settled(me.terms, SideStep(me, them, x, [], 0, Acts(me.role)).node.channel, 0, 1);
  }

  lemma ActKeeps(me: Identity, them: Identity, x: Party)
    requires Pair(me, them) && Well(me, them, x)
    ensures Well(me, them, SideStep(me, them, x, [], 0, Acts(me.role)))
  {
    if !x.receiving {
      if x.node.state.SellerInitiateMicrotransfer? {
        InitiatingMovesOn(me, them, x);
      } else if HasAction(x.node.state) {
        ActingMovesOn(me, them, x);
      }
    }
  }

  lemma RoutedOne(n: Node, m: Message, deferred: bool)
    requires n.replies == [Reply(Some(m), deferred)]
    ensures Routed(n, n.replies) ==
            if !deferred then (n.(replies := []), [m])
            else if MayEnter(n.state, PendingBuyerGetRefundSig)
            then (n.(replies := [], state := PendingBuyerGetRefundSig), [m])
            else (n, [])
  {
    var r := n.replies[0];
    assert n.replies[1..] == [];
    assert Routed(n, []) == (n.(replies := []), []);
    assert [m] + [] == [m] && [r] + [] == n.replies;
  }

  lemma RoutingNothing(me: Identity, them: Identity, x: Party)
    requires Pair(me, them) && Well(me, them, x) && x.receiving && x.node.replies == []
    ensures SideStep(me, them, x, [], 0, Routes(me.role)) == x.(receiving := false)
  {
    assert x.said + [] == x.said;
  }

  /** What routing makes of the one reply there can be. */
  lemma RoutingOne(me: Identity, them: Identity, x: Party)
    requires Pair(me, them) && Well(me, them, x) && x.receiving && x.node.replies != []
    ensures var (n, m) := (x.node, Line(me, them, |x.said|));
            SideStep(me, them, x, [], 0, Routes(me.role)) ==
            if n.replies[0].deferred && n.state.PendingBuyerSetupTxConfirm? then x.(receiving := false)
            else if n.replies[0].deferred
            then x.(node := n.(replies := [], state := PendingBuyerGetRefundSig), said := x.said + [m],
                    receiving := false)
            else x.(node := n.(replies := []), said := x.said + [m], receiving := false)
  {
    RoutedOne(x.node, Line(me, them, |x.said|), x.node.replies[0].deferred);
    assert x.said + [] == x.said;
  }

  lemma SendingKeeps(me: Identity, them: Identity, x: Party, state: State)
    requires Pair(me, them) && Well(me, them, x) && x.receiving && x.node.replies != []
    requires state == if x.node.replies[0].deferred then PendingBuyerGetRefundSig else x.node.state
    requires !x.node.state.PendingBuyerSetupTxConfirm?
    ensures Well(me, them, x.(node := x.node.(replies := [], state := state),
                              said := x.said + [Line(me, them, |x.said|)], receiving := false))
  {
    SayingKeepsTold(me, them, x.said);
  }

  lemma RouteKeeps(me: Identity, them: Identity, x: Party)
    requires Pair(me, them) && Well(me, them, x)
    ensures Well(me, them, SideStep(me, them, x, [], 0, Routes(me.role)))
  {
    if x.receiving {
      if x.node.replies == [] {
        RoutingNothing(me, them, x);
      } else {
        RoutingOne(me, them, x);
        if !x.node.state.PendingBuyerSetupTxConfirm? {
          var deferred := x.node.replies[0].deferred;
          SendingKeeps(me, them, x, if deferred then PendingBuyerGetRefundSig else x.node.state);
        }
      }
    }
  }

  lemma ReadyKeeps(me: Identity, them: Identity, x: Party)
    requires Pair(me, them) && Well(me, them, x)
    ensures Well(me, them, SideStep(me, them, x, [], 0, Readied(me.role)))
  {
  }

  lemma RedeemKeeps(me: Identity, them: Identity, x: Party)
    requires Pair(me, them) && Well(me, them, x)
    ensures Well(me, them, SideStep(me, them, x, [], 0, Redeems(me.role)))
  {
  }

  lemma ConfirmKeeps(me: Identity, them: Identity, x: Party)
    requires Pair(me, them) && Well(me, them, x)
    ensures Well(me, them, SideStep(me, them, x, [], 0, Confirms(me.role)))
  {
  }

  // ----- hearing ----------------------------------------------------------------

  lemma MoreChunksWorthMore(chunk: Amount, limit: Amount, n: nat)
    requires n >= 1 && InSatoshi(Min(chunk, limit)) > 0
    ensures InSatoshi(Min(n * chunk, limit)) > 0
  {
    assert (n - 1) * chunk >= 0;
    assert n * chunk == chunk + (n - 1) * chunk;
    assert Min(chunk, limit) <= Min(n * chunk, limit);
  }

  /** Both amounts are moved exactly when the last payment has been taken. */
  lemma CompleteAtLast(me: Identity, them: Identity, c: Channel, k: nat)
    requires Pair(me, them)
    requires Settled(me.terms, c, k, if me.role.Seller? then 1 else 0)
    ensures Complete(me.terms, c) <==> k >= Last(me)
  {
    var ahead := if me.role.Seller? then 1 else 0;
    RoundsReach(me.terms.Download(), me.terms.theirChunk, k);
    RoundsReach(me.terms.Upload(), me.terms.ourChunk, k + ahead);
  }

  /** An honest payment in turn is taken, counted and answered with the next. */
  lemma PaymentTaken(me: Identity, them: Identity, n: Node, k: nat)
    requires Pair(me, them) && Solvent(me, n)
    requires n.state == if me.role.Seller? then SellerAcceptMicrotransfer else BuyerAcceptMicrotransfer
    requires n.theirSetup == Some(them.setup) && n.theirRefund == Some(FullRefund(them.terms, them.setup))
    requires Settled(me.terms, n.channel, k, if me.role.Seller? then 1 else 0) && k < Last(me)
    ensures var ahead := if me.role.Seller? then 1 else 0;
            var r := OnReturnAdjustedRefund(me, n, true, NthPayment(them.terms, them.setup, k + 1));
            Settled(me.terms, r.channel, k + 1, ahead) &&
            r == n.(channel := r.channel,
                    state := if k + 1 == Last(me) then PendingMicrotransferComplete else n.state,
                    replies := n.replies
                      + [Reply(Some(ReturnAdjustedRefund(true, NthPayment(me.terms, me.setup, k + ahead + 1))), false)])
  {
    var p := NthPayment(them.terms, them.setup, k + 1);
    PaymentMoves(me, them, n.channel, k);
    CompleteAtLast(me, them, After(me.terms, n.channel, them.setup, n.theirRefund.value, Some(p)), k + 1);
  }

  /** The channel and the answer it gives. */
  lemma PaymentMoves(me: Identity, them: Identity, c: Channel, k: nat)
    requires Pair(me, them) && Open(me.terms, c)
    requires Settled(me.terms, c, k, if me.role.Seller? then 1 else 0) && k < Last(me)
    ensures var ahead := if me.role.Seller? then 1 else 0;
            var (p, refund) := (NthPayment(them.terms, them.setup, k + 1), FullRefund(them.terms, them.setup));
            Settled(me.terms, After(me.terms, c, them.setup, refund, Some(p)), k + 1, ahead) &&
            Answer(me.terms, c, me.setup, them.setup, refund, Some(p))
            == Pays(NthPayment(me.terms, me.setup, k + ahead + 1))
  {
    var ahead := if me.role.Seller? then 1 else 0;
    var p := NthPayment(them.terms, them.setup, k + 1);
    var refund := FullRefund(them.terms, them.setup);
    PaymentIsAcceptable(me, them, c, k);
    HonestAnswer(me.terms, c, k, ahead, me.setup, them.setup, refund, p);
    TakenStep(me.terms, c, k, ahead, Incoming(them.setup, refund, p));
    CompleteAtLast(me, them, c, k);
  }

  lemma PaymentIsAcceptable(me: Identity, them: Identity, c: Channel, k: nat)
    requires Pair(me, them) && Open(me.terms, c)
    requires Settled(me.terms, c, k, if me.role.Seller? then 1 else 0)
    ensures Acceptable(me.terms, c, them.setup, FullRefund(them.terms, them.setup),
                       NthPayment(them.terms, them.setup, k + 1))
  {
    var refund := FullRefund(them.terms, them.setup);
    MoreChunksWorthMore(them.terms.ourChunk, them.terms.Upload(), k + 1);
    HonestPaymentTaken(them.terms, me.terms, c, k, if me.role.Seller? then 1 else 0, them.setup, refund);
  }

  // ----- hearing each line ---------------------------------------------------------------

  /** The side after the next message was heard. */
  function Heard(me: Identity, x: Party, m: Message): Party
    requires Solvent(me, x.node)
  {
    x.(node := Handle(me, x.node, m), heard := x.heard + 1)
  }

  lemma HearSignature(me: Identity, them: Identity, x: Party)
    requires Pair(me, them) && Pair(them, me) && Well(me, them, x) && me.role != them.role && x.receiving
    requires x.heard == if me.role.Seller? then 0 else 1
    requires x.node.state == if me.role.Seller? then SellerSentGetRefundSig else BuyerSentGetRefundSig
    ensures Well(me, them, Heard(me, x, Line(them, me, x.heard)))
  {
  }

  lemma HearRefundRequest(me: Identity, them: Identity, x: Party)
    requires Pair(me, them) && Pair(them, me) && Well(me, them, x) && me.role != them.role && x.receiving
    requires x.heard == if me.role.Seller? then 1 else 0
    requires me.role.Seller? ==> x.node.state == PendingSellerReturnRefundSig
    requires me.role.Buyer? ==> x.node.ready.Some?
    ensures Well(me, them, Heard(me, x, Line(them, me, x.heard)))
  {
  }

  lemma HearSetupRequest(me: Identity, them: Identity, x: Party)
    requires Pair(me, them) && Pair(them, me) && Well(me, them, x) && me.role != them.role && x.receiving
    requires x.heard == if me.role.Seller? then 3 else 2
    requires x.node.state == if me.role.Seller? then PendingSellerReturnSetupTx else PendingBuyerReturnSetupTx
    ensures Well(me, them, Heard(me, x, Line(them, me, x.heard)))
  {
  }

  lemma HearSetup(me: Identity, them: Identity, x: Party)
    requires Pair(me, them) && Pair(them, me) && Well(me, them, x) && me.role != them.role && x.receiving
    requires x.heard == if me.role.Seller? then 2 else 3
    requires x.node.state == if me.role.Seller? then SellerSentGetSetupTx else BuyerSentGetSetupTx
    ensures Well(me, them, Heard(me, x, Line(them, me, x.heard)))
  {
  }

  /** The side after it took a payment that made the channel what it is now. */
  function Credited(me: Identity, x: Party, c: Channel): Party
    requires Fundable(me.terms) && me.terms.ourChunk > 0 && me.terms.theirChunk > 0 && x.heard >= 4
  {
    var next := NthPayment(me.terms, me.setup, x.heard - 3 + if me.role.Seller? then 1 else 0);
    x.(node := x.node.(channel := c,
                       state := if x.heard - 3 == Last(me) then PendingMicrotransferComplete else x.node.state,
                       replies := x.node.replies + [Reply(Some(ReturnAdjustedRefund(true, next)), false)]),
       heard := x.heard + 1)
  }

  lemma CreditKeeps(me: Identity, them: Identity, x: Party, c: Channel)
    requires Pair(me, them) && Well(me, them, x) && x.receiving && x.heard >= 4 && x.node.replies == []
    requires x.node.state == if me.role.Seller? then SellerAcceptMicrotransfer else BuyerAcceptMicrotransfer
    requires Open(me.terms, c) && Settled(me.terms, c, x.heard - 3, if me.role.Seller? then 1 else 0)
    ensures Well(me, them, Credited(me, x, c))
  {
  }

  lemma HearPayment(me: Identity, them: Identity, x: Party)
    requires Pair(me, them) && Pair(them, me) && Well(me, them, x) && me.role != them.role && x.receiving
    requires x.heard >= 4 && x.node.replies == []
    requires x.node.state == if me.role.Seller? then SellerAcceptMicrotransfer else BuyerAcceptMicrotransfer
    ensures Well(me, them, Heard(me, x, Line(them, me, x.heard)))
  {
    PlaceOfPayments(me, them, x);
    PaymentCredits(me, them, x);
    CreditKeeps(me, them, x, Heard(me, x, Line(them, me, x.heard)).node.channel);
  }

  lemma PaymentCredits(me: Identity, them: Identity, x: Party)
    requires Pair(me, them) && Solvent(me, x.node) && 4 <= x.heard < 4 + Last(me)
    requires x.node.state == if me.role.Seller? then SellerAcceptMicrotransfer else BuyerAcceptMicrotransfer
    requires x.node.theirSetup == Some(them.setup) && x.node.theirRefund == Some(FullRefund(them.terms, them.setup))
    requires Settled(me.terms, x.node.channel, x.heard - 4, if me.role.Seller? then 1 else 0)
    ensures var y := Heard(me, x, Line(them, me, x.heard));
            y == Credited(me, x, y.node.channel) &&
            Settled(me.terms, y.node.channel, x.heard - 3, if me.role.Seller? then 1 else 0)
  {
    var k: nat := x.heard - 4;
    PaymentTaken(me, them, x.node, k);
    assert Line(them, me, x.heard) == ReturnAdjustedRefund(true, NthPayment(them.terms, them.setup, k + 1));
    assert x.heard - 3 == k + 1 && x.heard - 3 + 1 == k + 1 + 1;
  }

  lemma PlaceOfPayments(me: Identity, them: Identity, x: Party)
    requires Pair(me, them) && Well(me, them, x) && x.heard >= 4
    requires x.node.state == if me.role.Seller? then SellerAcceptMicrotransfer else BuyerAcceptMicrotransfer
    ensures x.heard - 4 < Last(me)
    ensures Settled(me.terms, x.node.channel, x.heard - 4, if me.role.Seller? then 1 else 0)
    ensures x.node.theirSetup == Some(them.setup) && x.node.theirRefund == Some(FullRefund(them.terms, them.setup))
  {
  }

  /** What comes after the end of the contract is dropped. */
  lemma HearTooLate(me: Identity, them: Identity, x: Party)
    requires Pair(me, them) && Pair(them, me) && Well(me, them, x) && me.role != them.role && x.receiving
    requires SideOf(x.node.state).Closing?
    ensures Heard(me, x, Line(them, me, x.heard)) == x.(heard := x.heard + 1)
    ensures Well(me, them, Heard(me, x, Line(them, me, x.heard)))
  {
  }

  /** A message that a side can be sent when it has said no more than it has. */
  predicate Due(me: Identity, x: Party)
  {
    x.heard < Limit(if me.role.Seller? then Buyer else Seller, |x.said|)
  }

  /** Where the next message finds a side that is not done. */
  lemma NextMessageIsExpected(me: Identity, them: Identity, x: Party)
    requires Pair(me, them) && Well(me, them, x) && Due(me, x) && !SideOf(x.node.state).Closing?
    ensures x.heard >= 4 ==>
              x.node.replies == [] &&
              x.node.state == if me.role.Seller? then SellerAcceptMicrotransfer else BuyerAcceptMicrotransfer
    ensures me.role.Seller? && x.heard == 0 ==> x.node.state == SellerSentGetRefundSig
    ensures me.role.Seller? && x.heard == 1 ==> x.node.state == PendingSellerReturnRefundSig
    ensures me.role.Seller? && x.heard == 2 ==> x.node.state == SellerSentGetSetupTx
    ensures me.role.Seller? && x.heard == 3 ==> x.node.state == PendingSellerReturnSetupTx
    ensures me.role.Buyer? && x.heard == 1 ==> x.node.state == BuyerSentGetRefundSig
    ensures me.role.Buyer? && x.heard == 2 ==> x.node.state == PendingBuyerReturnSetupTx
    ensures me.role.Buyer? && x.heard == 3 ==> x.node.state == BuyerSentGetSetupTx
  {
  }

  lemma HearKeeps(me: Identity, them: Identity, x: Party)
    requires Pair(me, them) && Pair(them, me) && Well(me, them, x) && me.role != them.role && x.receiving
    requires Due(me, x) && (me.role.Buyer? && x.heard == 0 ==> x.node.ready.Some?)
    ensures Well(me, them, Heard(me, x, Line(them, me, x.heard)))
  {
    if SideOf(x.node.state).Closing? {
      HearTooLate(me, them, x);
    } else {
      NextMessageIsExpected(me, them, x);
      if x.heard >= 4 {
        HearPayment(me, them, x);
      } else if x.heard == (if me.role.Seller? then 0 else 1) {
        HearSignature(me, them, x);
      } else if x.heard == (if me.role.Seller? then 1 else 0) {
        HearRefundRequest(me, them, x);
      } else if x.heard == (if me.role.Seller? then 3 else 2) {
        HearSetupRequest(me, them, x);
      } else {
        HearSetup(me, them, x);
      }
    }
  }

  /** A message that comes before its turn is dropped. */
  lemma HearOutOfTurn(me: Identity, them: Identity, x: Party, j: nat)
    requires Pair(me, them) && Pair(them, me) && Well(me, them, x) && me.role != them.role && x.receiving
    requires x.heard < j < Limit(them.role, |x.said|)
    ensures Handle(me, x.node, Line(them, me, j)) == x.node
  {
    if j < 4 {
      assert me.role.Seller? ==> j == x.heard + 1 && (j == 1 || j == 3);
      assert me.role.Buyer? ==> j == x.heard + 1 && j == 2;
    }
  }

  // ----- the joint invariant ---------------------------------------------------------------

  /** The buyer reads the seller's first request before its own READY. */
  predicate Early(s: System, e: Event)
  {
    e == Receives(Buyer) && s.buyer.receiving && s.buyer.heard == 0 < |s.seller.said| && s.seller.late == 0 &&
    s.buyer.node.ready.None?
  }

  /** Among the messages of side x up to some number are some that the other side
      has not read, and it is not done without. */
  predicate Owes(x: Party, other: Party, before: nat)
  {
    other.heard < Min(before, Stamped(x)) && !SideOf(other.node.state).Closing?
  }

  /** Messages become too old before they are read. */
  predicate Lapses(s: System, e: Event)
  {
    e.Expires? &&
    if e.who.Seller? then Owes(s.seller, s.buyer, e.before) else Owes(s.buyer, s.seller, e.before)
  }

  predicate Timely(d: Deal, s: System, es: seq<Event>)
    requires Sound(d, s)
    decreases |es|
  {
    es == [] || (!Early(s, es[0]) && !Lapses(s, es[0]) && Timely(d, Step(d, s, es[0]), es[1..]))
  }

  lemma SaysWithinLimit(me: Identity, them: Identity, x: Party)
    requires Pair(me, them) && Well(me, them, x)
    ensures |x.said| + |x.node.replies| <= Limit(me.role, x.heard)
  {
  }

  lemma LimitGrows(role: Role, a: nat, b: nat)
    requires a <= b
    ensures Limit(role, a) <= Limit(role, b)
  {
  }

  /** Nobody says more than it may by what the other has said. */
  lemma SaidIsLimited(me: Identity, them: Identity, x: Party, y: Party, h: nat)
    requires Pair(them, me) && Well(them, me, y.(heard := h)) && h <= y.heard <= |x.said|
    ensures |y.said| <= Limit(them.role, |x.said|)
  {
    SaysWithinLimit(them, me, y.(heard := h));
    LimitGrows(them.role, h, |x.said|);
  }

  /** How many of the other's messages a side has taken, if h before the event. */
  function Took(x: Party, incoming: nat, late: nat, e: Event, h: nat): nat
  {
    if e.Receives? && x.receiving && late <= x.heard < incoming && x.heard == h then h + 1 else h
  }

  lemma OtherEvents(me: Identity, them: Identity, x: Party, incoming: seq<Message>, late: nat, e: Event, h: nat)
    requires Solvent(me, x.node) && !e.Receives?
    ensures SideStep(me, them, x, incoming, late, e).(heard := h) == SideStep(me, them, x.(heard := h), [], 0, e)
  {
  }

  lemma ExpiryKeeps(me: Identity, them: Identity, x: Party, before: nat)
    requires Pair(me, them) && Well(me, them, x)
    ensures Well(me, them, SideStep(me, them, x, [], 0, Expires(me.role, before)))
  {
  }

  lemma OtherEventsKeep(me: Identity, them: Identity, x: Party, e: Event)
    requires Pair(me, them) && Well(me, them, x) && e.who == me.role && !e.Receives?
    ensures Well(me, them, SideStep(me, them, x, [], 0, e))
  {
    match e
    case Acts(_) => ActKeeps(me, them, x);
    case Routes(_) => RouteKeeps(me, them, x);
    case Readied(_) => ReadyKeeps(me, them, x);
    case Confirms(_) => ConfirmKeeps(me, them, x);
    case Redeems(_) => RedeemKeeps(me, them, x);
    case Expires(_, before) => ExpiryKeeps(me, them, x, before);
  }

  lemma TakingKeeps(me: Identity, them: Identity, x: Party, incoming: seq<Message>, late: nat)
    requires Pair(me, them) && Pair(them, me) && me.role != them.role && Well(me, them, x)
    requires Told(them, me, incoming) && late <= x.heard < |incoming| <= Limit(them.role, |x.said|) && x.receiving
    requires me.role.Buyer? && x.heard == 0 ==> x.node.ready.Some?
    ensures var y := SideStep(me, them, x, incoming, late, Receives(me.role));
            Well(me, them, y) && y.heard == x.heard + 1
  {
    assert incoming[x.heard] == Line(them, me, x.heard);
    HearKeeps(me, them, x);
    assert SideStep(me, them, x, incoming, late, Receives(me.role)) == Heard(me, x, incoming[x.heard]);
  }

  lemma SkippingKeeps(me: Identity, them: Identity, x: Party, incoming: seq<Message>, late: nat, h: nat)
    requires Pair(me, them) && Pair(them, me) && me.role != them.role && Well(me, them, x.(heard := h))
    requires Told(them, me, incoming) && h <= x.heard < |incoming| <= Limit(them.role, |x.said|) && x.receiving
    requires x.heard < late || h < x.heard
    ensures SideStep(me, them, x, incoming, late, Receives(me.role)).(heard := h) == x.(heard := h)
  {
    if late <= x.heard {
      assert incoming[x.heard] == Line(them, me, x.heard);
      HearOutOfTurn(me, them, x.(heard := h), x.heard);
    }
  }

  lemma ReceivingKeeps(me: Identity, them: Identity, x: Party, incoming: seq<Message>, late: nat, h: nat)
    requires Pair(me, them) && Pair(them, me) && me.role != them.role && Well(me, them, x.(heard := h))
    requires Told(them, me, incoming) && h <= x.heard < |incoming| <= Limit(them.role, |x.said|) && x.receiving
    requires me.role.Buyer? && x.heard == late == 0 ==> x.node.ready.Some?
    ensures var e := Receives(me.role);
            var y := SideStep(me, them, x, incoming, late, e);
            Well(me, them, y.(heard := Took(x, |incoming|, late, e, h)))
  {
    if late <= x.heard && x.heard == h {
      HeardIsTaken(x);
      TakingKeeps(me, them, x, incoming, late);
      HeardIsTaken(SideStep(me, them, x, incoming, late, Receives(me.role)));
    } else {
      SkippingKeeps(me, them, x, incoming, late, h);
    }
  }

  lemma SayingExtends(me: Identity, them: Identity, x: Party, incoming: seq<Message>, late: nat, e: Event)
    requires Solvent(me, x.node)
    ensures x.said <= SideStep(me, them, x, incoming, late, e).said
  {
  }

  lemma ReadingIsLimited(me: Identity, them: Identity, x: Party, incoming: seq<Message>, late: nat, e: Event, h: nat)
    requires Solvent(me, x.node) && h <= x.heard
    ensures var y := SideStep(me, them, x, incoming, late, e);
            y.heard >= x.heard && Took(x, |incoming|, late, e, h) <= y.heard &&
            (x.heard <= |incoming| ==> y.heard <= |incoming|)
  {
  }

  lemma SideKeeps(me: Identity, them: Identity, x: Party, incoming: seq<Message>, late: nat, e: Event, h: nat)
    requires Pair(me, them) && Pair(them, me) && me.role != them.role && e.who == me.role
    requires Well(me, them, x.(heard := h)) && h <= x.heard <= |incoming| <= Limit(them.role, |x.said|)
    requires Told(them, me, incoming)
    requires e.Receives? && x.receiving && me.role.Buyer? && x.heard == late == 0 < |incoming| ==> x.node.ready.Some?
    ensures var y := SideStep(me, them, x, incoming, late, e);
            var h' := Took(x, |incoming|, late, e, h);
            Well(me, them, y.(heard := h')) && h' <= y.heard <= |incoming| && x.said <= y.said
  {
    SayingExtends(me, them, x, incoming, late, e);
    ReadingIsLimited(me, them, x, incoming, late, e, h);
    if !e.Receives? {
      OtherEvents(me, them, x, incoming, late, e, h);
      OtherEventsKeep(me, them, x.(heard := h), e);
    } else if x.receiving && x.heard < |incoming| {
      ReceivingKeeps(me, them, x, incoming, late, h);
    }
  }

  lemma SellerStands(d: Deal, s: System, e: Event, a: nat, b: nat)
    requires Honest(d) && StandAt(d, s, a, b) && e.who.Seller?
    ensures StandAt(d, Step(d, s, e), Took(s.seller, |s.buyer.said|, s.buyer.late, e, a), b)
  {
    SaidIsLimited(d.seller, d.buyer, s.seller, s.buyer, b);
    SideKeeps(d.seller, d.buyer, s.seller, s.buyer.said, s.buyer.late, e, a);
  }

  lemma BuyerStands(d: Deal, s: System, e: Event, a: nat, b: nat)
    requires Honest(d) && StandAt(d, s, a, b) && e.who.Buyer? && !Early(s, e)
    ensures StandAt(d, Step(d, s, e), a, Took(s.buyer, |s.seller.said|, s.seller.late, e, b))
  {
    SaidIsLimited(d.buyer, d.seller, s.buyer, s.seller, a);
    SideKeeps(d.buyer, d.seller, s.buyer, s.seller.said, s.seller.late, e, b);
  }

  lemma SideMovesForward(me: Identity, them: Identity, x: Party, incoming: seq<Message>, late: nat, e: Event)
    requires Solvent(me, x.node)
    ensures Rank(SideStep(me, them, x, incoming, late, e).node.state) >= Rank(x.node.state)
  {
    match e
    case Acts(_) => HappeningMovesForward(me, x.node, Protocol.Acting);
    case Routes(_) => HappeningMovesForward(me, x.node, Routing);
    case Readied(_) =>
    case Confirms(_) =>
      RequestMovesForward(x.node.state, if me.role.Seller? then PendingSellerGetRefundSig
                                        else PendingBuyerReturnRefundSig);
    case Redeems(_) =>
    case Expires(_, _) =>
    case Receives(_) =>
      if x.receiving && x.heard < |incoming| {
        HandlingMovesForward(me, x.node, incoming[x.heard]);
      }
  }

  lemma ClosingByRank(state: State)
    ensures SideOf(state).Closing? <==> Rank(state) >= 12
  {
  }

  lemma StaysInTime(me: Identity, them: Identity, x: Party, incoming: seq<Message>, late: nat, e: Event)
    requires Solvent(me, x.node) && InTime(x, late)
    ensures InTime(SideStep(me, them, x, incoming, late, e), late)
  {
    var y := SideStep(me, them, x, incoming, late, e);
    ReadingIsLimited(me, them, x, incoming, late, e, x.heard);
    SideMovesForward(me, them, x, incoming, late, e);
    ClosingByRank(x.node.state);
    ClosingByRank(y.node.state);
  }

  /** A side that has heard all in time keeps its place. */
  lemma SideKeepsPlace(me: Identity, them: Identity, x: Party, incoming: seq<Message>, late: nat, e: Event)
    requires Pair(me, them) && Pair(them, me) && me.role != them.role && e.who == me.role
    requires Well(me, them, x) && InTime(x, late) && x.heard <= |incoming| <= Limit(them.role, |x.said|)
    requires Told(them, me, incoming)
    requires e.Receives? && x.receiving && me.role.Buyer? && x.heard == late == 0 < |incoming| ==> x.node.ready.Some?
    ensures var y := SideStep(me, them, x, incoming, late, e);
            Well(me, them, y) && y.heard <= |incoming| && x.said <= y.said
  {
    var y := SideStep(me, them, x, incoming, late, e);
    HeardIsTaken(x);
    SideKeeps(me, them, x, incoming, late, e, x.heard);
    if e.Receives? && x.receiving && x.heard < |incoming| && x.heard < late {
      assert y == x.(heard := x.heard + 1);
      HearTooLate(me, them, x);
    } else {
      assert y.heard == Took(x, |incoming|, late, e, x.heard);
      HeardIsTaken(y);
    }
  }

  lemma SellerKeepsInv(d: Deal, s: System, e: Event)
    requires Honest(d) && Inv(d, s) && !Lapses(s, e) && e.who.Seller?
    ensures Inv(d, Step(d, s, e))
  {
    var (a, b) := (s.seller, s.buyer);
    HeardIsTaken(b);
    SaidIsLimited(d.seller, d.buyer, a, b, b.heard);
    SideKeepsPlace(d.seller, d.buyer, a, b.said, b.late, e);
    StaysInTime(d.seller, d.buyer, a, b.said, b.late, e);
    OtherInTime(d.seller, d.buyer, a, b, e);
  }

  lemma BuyerKeepsInv(d: Deal, s: System, e: Event)
    requires Honest(d) && Inv(d, s) && !Early(s, e) && !Lapses(s, e) && e.who.Buyer?
    ensures Inv(d, Step(d, s, e))
  {
    var (a, b) := (s.seller, s.buyer);
    HeardIsTaken(a);
    SaidIsLimited(d.buyer, d.seller, b, a, a.heard);
    SideKeepsPlace(d.buyer, d.seller, b, a.said, a.late, e);
    StaysInTime(d.buyer, d.seller, b, a.said, a.late, e);
    OtherInTime(d.buyer, d.seller, b, a, e);
  }

  lemma OtherInTime(me: Identity, them: Identity, x: Party, y: Party, e: Event)
    requires Solvent(me, x.node) && InTime(y, x.late) && !(e.Expires? && Owes(x, y, e.before))
    ensures InTime(y, SideStep(me, them, x, y.said, y.late, e).late)
  {
  }

  lemma StepKeepsInv(d: Deal, s: System, e: Event)
    requires Honest(d) && Inv(d, s) && !Early(s, e) && !Lapses(s, e)
    ensures Inv(d, Step(d, s, e))
  {
    if e.who.Seller? { SellerKeepsInv(d, s, e); } else { BuyerKeepsInv(d, s, e); }
  }

  lemma StartIsWell(d: Deal)
    requires Honest(d)
    ensures Inv(d, Start())
  {
  }

  lemma {:induction false} RunKeepsInv(d: Deal, s: System, es: seq<Event>)
    requires Honest(d) && Inv(d, s) && Timely(d, s, es)
    ensures Inv(d, Run(d, s, es))
    decreases |es|
  {
    if es != [] {
      StepKeepsInv(d, s, es[0]);
      RunKeepsInv(d, Step(d, s, es[0]), es[1..]);
    }
  }

  /** The message is too old, or hearing it would change nothing in the node. */
  predicate Dropped(me: Identity, x: Party, incoming: seq<Message>, late: nat)
    requires Solvent(me, x.node)
  {
    x.receiving && x.heard < |incoming| && (x.heard < late || Handle(me, x.node, incoming[x.heard]) == x.node)
  }

  lemma HearingMovesOn(role: Role, state: State, h: nat, p: nat, last: nat)
    requires Stands(role, state, h, p, last) && h < 4
    ensures !Stands(role, state, h + 1, p, last)
  {
  }

  lemma NextRequestIsTaken(me: Identity, them: Identity, x: Party)
    requires Pair(me, them) && Pair(them, me) && Well(me, them, x) && me.role != them.role
    requires Due(me, x) && !SideOf(x.node.state).Closing? && x.heard < 4 && x.receiving
    requires me.role.Buyer? && x.heard == 0 ==> x.node.ready.Some?
    ensures Handle(me, x.node, Line(them, me, x.heard)) != x.node
  {
    HearKeeps(me, them, x);
    HearingMovesOn(me.role, x.node.state, x.heard, |x.said| + |x.node.replies|, Last(me));
  }

  lemma NextMessageIsTaken(me: Identity, them: Identity, x: Party, incoming: seq<Message>, late: nat)
    requires Pair(me, them) && Pair(them, me) && Well(me, them, x) && me.role != them.role
    requires Told(them, me, incoming) && !SideOf(x.node.state).Closing? && InTime(x, late)
    requires |incoming| <= Limit(them.role, |x.said|)
    requires me.role.Buyer? && x.heard == 0 ==> x.node.ready.Some?
    ensures !Dropped(me, x, incoming, late)
  {
    if x.receiving && x.heard < |incoming| {
      assert incoming[x.heard] == Line(them, me, x.heard);
      if x.heard >= 4 {
        NextMessageIsExpected(me, them, x);
        PaymentTaken(me, them, x.node, x.heard - 4);
      } else {
        NextRequestIsTaken(me, them, x);
      }
    }
  }

  /** Lockstep: in every run in which the buyer has its READY before it reads the
      seller's first request, and nothing still needed grows too old, no message
      reaches a side that is not done with the contract in a state that drops it. */
  lemma NothingIsDropped(d: Deal, es: seq<Event>)
    requires Honest(d) && Timely(d, Start(), es)
    ensures var s := Run(d, Start(), es);
            (SideOf(s.seller.node.state).Closing? || !Dropped(d.seller, s.seller, s.buyer.said, s.buyer.late)) &&
            (SideOf(s.buyer.node.state).Closing? || Early(s, Receives(Buyer))
             || !Dropped(d.buyer, s.buyer, s.seller.said, s.seller.late))
  {
    StartIsWell(d);
    RunKeepsInv(d, Start(), es);
    var s := Run(d, Start(), es);
    var (a, b) := (s.seller, s.buyer);
    HeardIsTaken(a);
    HeardIsTaken(b);
    SaidIsLimited(d.seller, d.buyer, a, b, b.heard);
    SaidIsLimited(d.buyer, d.seller, b, a, a.heard);
    if !SideOf(a.node.state).Closing? {
      NextMessageIsTaken(d.seller, d.buyer, a, b.said, b.late);
    }
    if !SideOf(b.node.state).Closing? && (b.heard == 0 ==> b.node.ready.Some?) {
      NextMessageIsTaken(d.buyer, d.seller, b, a.said, a.late);
    }
  }

  /** The other side's signature over our whole refund. */
  predicate RefundHeld(me: Identity, them: Identity, n: Node)
    requires Fundable(me.terms)
  {
    n.refundSigned == Some(Sig(them.terms.ourKeys.0, FullRefund(me.terms, me.setup)))
  }

  /** In every timely run, a side that has handed over its setup
      holds its own refund signed by the other, and one that has sent a payment holds
      the other's setup. */
  lemma RefundBeforeSetup(d: Deal, es: seq<Event>)
    requires Honest(d) && Timely(d, Start(), es)
    ensures var s := Run(d, Start(), es);
            (|s.seller.said| >= 4 ==> RefundHeld(d.seller, d.buyer, s.seller.node)) &&
            (|s.buyer.said| >= 3 ==> RefundHeld(d.buyer, d.seller, s.buyer.node))
    ensures var s := Run(d, Start(), es);
            (|s.seller.said| >= 5 ==> s.seller.node.theirSetup == Some(d.buyer.setup)) &&
            (|s.buyer.said| >= 5 ==> s.buyer.node.theirSetup == Some(d.seller.setup))
  {
    StartIsWell(d);
    RunKeepsInv(d, Start(), es);
    var s := Run(d, Start(), es);
    SaidAfterHeard(d.seller, d.buyer, s.seller);
    SaidAfterHeard(d.buyer, d.seller, s.buyer);
  }

  lemma SaidAfterHeard(me: Identity, them: Identity, x: Party)
    requires Pair(me, them) && Well(me, them, x)
    ensures |x.said| >= 3 && me.role.Buyer? ==> x.heard >= 2 && RefundHeld(me, them, x.node)
    ensures |x.said| >= 4 && me.role.Seller? ==> x.heard >= 1 && RefundHeld(me, them, x.node)
    ensures |x.said| >= 5 ==> x.node.theirSetup == Some(them.setup)
  {
  }

  // ----- what comes too late ---------------------------------------------------------------

  /** The buyer has swallowed the request and holds no reply to it; the seller
      waits for one and does not ask again. */
  predicate Swallowed(s: System)
  {
    var b := s.buyer;
    var a := s.seller;
    (b.node.state.PendingBuyerSetupTxConfirm? || b.node.state.PendingBuyerReturnRefundSig?) &&
    b.heard == 1 && b.said == [] && b.node.replies == [] &&
    a.node.state.SellerSentGetRefundSig? && |a.said| == 1 && a.heard == 0 && a.node.replies == []
  }

  lemma EarlyWedges(d: Deal, s: System, e: Event)
    requires Honest(d) && Inv(d, s) && Early(s, e)
    ensures Swallowed(Step(d, s, e))
  {
    assert s.seller.said[0] == Line(d.seller, d.buyer, 0);
  }

  lemma SwallowedStays(d: Deal, s: System, e: Event)
    requires Honest(d) && Sound(d, s) && Swallowed(s)
    ensures Swallowed(Step(d, s, e))
  {
  }

  /** A side has taken h messages, needs the next to get to the end, and it is too
      old. */
  predicate Misses(me: Identity, h: nat, other: Party)
    requires Fundable(me.terms) && me.terms.ourChunk > 0 && me.terms.theirChunk > 0
  {
    h < other.late && h < 4 + Last(me) && other.node.ready.Some?
  }

  ghost predicate LostAt(d: Deal, s: System, a: nat, b: nat)
    requires Honest(d)
  {
    StandAt(d, s, a, b) && (Misses(d.seller, a, s.buyer) || Misses(d.buyer, b, s.seller))
  }

  /** A message that is needed was lost or will be. */
  ghost predicate Lost(d: Deal, s: System)
    requires Honest(d)
  {
    exists a, b :: LostAt(d, s, a, b)
  }

  lemma ReadyStays(me: Identity, them: Identity, x: Party, incoming: seq<Message>, late: nat, e: Event)
    requires Solvent(me, x.node) && x.node.ready.Some?
    ensures SideStep(me, them, x, incoming, late, e).node.ready.Some?
  {
    match e
    case Routes(_) => RoutingKeepsChannel(x.node, x.node.replies);
    case Receives(_) =>
      if x.receiving && x.heard < |incoming| {
        HandlingKeepsFlags(me, x.node, incoming[x.heard]);
      }
    case _ =>
  }

  lemma HandlingKeepsFlags(me: Identity, n: Node, m: Message)
    requires Solvent(me, n)
    ensures var r := Handle(me, n, m); r.ready == n.ready && r.confirmed == n.confirmed
  {
  }

  lemma LateGrows(me: Identity, them: Identity, x: Party, incoming: seq<Message>, late: nat, e: Event)
    requires Solvent(me, x.node)
    ensures x.late <= SideStep(me, them, x, incoming, late, e).late
  {
  }

  lemma SellerStaysLost(d: Deal, s: System, e: Event, a: nat, b: nat)
    requires Honest(d) && LostAt(d, s, a, b) && e.who.Seller?
    ensures LostAt(d, Step(d, s, e), Took(s.seller, |s.buyer.said|, s.buyer.late, e, a), b)
  {
    SellerStands(d, s, e, a, b);
    LateGrows(d.seller, d.buyer, s.seller, s.buyer.said, s.buyer.late, e);
    if s.seller.node.ready.Some? { ReadyStays(d.seller, d.buyer, s.seller, s.buyer.said, s.buyer.late, e); }
  }

  lemma BuyerStaysLost(d: Deal, s: System, e: Event, a: nat, b: nat)
    requires Honest(d) && LostAt(d, s, a, b) && e.who.Buyer?
    ensures LostAt(d, Step(d, s, e), a, Took(s.buyer, |s.seller.said|, s.seller.late, e, b))
  {
    BuyerStands(d, s, e, a, b);
    LateGrows(d.buyer, d.seller, s.buyer, s.seller.said, s.seller.late, e);
    if s.buyer.node.ready.Some? { ReadyStays(d.buyer, d.seller, s.buyer, s.seller.said, s.seller.late, e); }
  }

  /** What is needed and lost stays lost: the side that needs it takes nothing more. */
  lemma LostStays(d: Deal, s: System, e: Event)
    requires Honest(d) && Sound(d, s) && Lost(d, s)
    ensures Lost(d, Step(d, s, e))
  {
    var a, b :| LostAt(d, s, a, b);
    if e.who.Seller? { SellerStaysLost(d, s, e, a, b); } else { BuyerStaysLost(d, s, e, a, b); }
  }

  lemma OneWaits(replies: seq<Reply>)
    requires |replies| <= 1 && forall i :: 0 <= i < |replies| ==> replies[i].message.Some?
    ensures Waiting(replies) == |replies|
  {
    if replies != [] { assert replies[1..] == []; }
  }

  lemma AtMostOneWaits(me: Identity, them: Identity, x: Party)
    requires Pair(me, them) && Well(me, them, x)
    ensures |x.node.replies| <= 1 && forall i :: 0 <= i < |x.node.replies| ==> x.node.replies[i].message.Some?
  {
  }

  lemma QueueWaits(me: Identity, them: Identity, x: Party)
    requires Pair(me, them) && Well(me, them, x)
    ensures Stamped(x) == |x.said| + |x.node.replies|
  {
    AtMostOneWaits(me, them, x);
    OneWaits(x.node.replies);
  }

  lemma SpeaksWhenReady(me: Identity, them: Identity, x: Party)
    requires Pair(me, them) && Well(me, them, x) && |x.said| + |x.node.replies| > 0
    ensures x.node.ready.Some?
  {
  }

  lemma StillNeeds(me: Identity, them: Identity, x: Party)
    requires Pair(me, them) && Well(me, them, x) && !SideOf(x.node.state).Closing?
    ensures x.heard < 4 + Last(me)
  {
    RoundsReach(me.terms.Upload(), me.terms.ourChunk, 1);
  }

  lemma OwingMisses(me: Identity, them: Identity, x: Party, y: Party, before: nat)
    requires Pair(me, them) && Pair(them, me) && Well(me, them, x) && Well(them, me, y)
    requires Owes(x, y, before)
    ensures Misses(them, y.heard, SideStep(me, them, x, y.said, y.late, Expires(me.role, before)))
  {
    QueueWaits(me, them, x);
    SpeaksWhenReady(me, them, x);
    StillNeeds(them, me, y);
  }

  lemma LapseLoses(d: Deal, s: System, e: Event)
    requires Honest(d) && Inv(d, s) && Lapses(s, e)
    ensures Lost(d, Step(d, s, e))
  {
    var (a, b) := (s.seller, s.buyer);
    HeardIsTaken(a);
    HeardIsTaken(b);
    if e.who.Seller? {
      SellerStands(d, s, e, a.heard, b.heard);
      OwingMisses(d.seller, d.buyer, a, b, e.before);
    } else {
      BuyerStands(d, s, e, a.heard, b.heard);
      OwingMisses(d.buyer, d.seller, b, a, e.before);
    }
    assert LostAt(d, Step(d, s, e), a.heard, b.heard);
  }

  /** The contract can come to no end. */
  ghost predicate Wedged(d: Deal, s: System)
    requires Honest(d)
  {
    Swallowed(s) || Lost(d, s)
  }

  lemma {:induction false} WedgedForever(d: Deal, s: System, es: seq<Event>)
    requires Honest(d) && Sound(d, s) && Wedged(d, s)
    ensures Wedged(d, Run(d, s, es))
    decreases |es|
  {
    if es != [] {
      if Swallowed(s) { SwallowedStays(d, s, es[0]); } else { LostStays(d, s, es[0]); }
      WedgedForever(d, Step(d, s, es[0]), es[1..]);
    }
  }

  /** A wedged side never gets past the payments. */
  lemma WedgedIsUndone(d: Deal, s: System)
    requires Honest(d) && Wedged(d, s)
    ensures !SideOf(s.seller.node.state).Closing? || !SideOf(s.buyer.node.state).Closing?
  {
  }

  lemma TakenOnce(me: Identity, them: Identity, x: Party, h: nat)
    requires Pair(me, them) && Well(me, them, x) && Well(me, them, x.(heard := h)) && h < 4 + Last(me)
    ensures h == x.heard && !SideOf(x.node.state).Closing?
  {
  }

  lemma InvIsNotWedged(d: Deal, s: System)
    requires Honest(d) && Inv(d, s)
    ensures !Wedged(d, s)
  {
    var (a, b) := (s.seller, s.buyer);
    HeardIsTaken(a);
    HeardIsTaken(b);
    forall h, k ensures !LostAt(d, s, h, k) {
      if LostAt(d, s, h, k) {
        if Misses(d.seller, h, b) {
          TakenOnce(d.seller, d.buyer, a, h);
        } else {
          TakenOnce(d.buyer, d.seller, b, k);
        }
      }
    }
  }

  /** A run ends wedged if and only if the buyer read the first request before its
      READY, or fifteen minutes passed while a message still needed was unread or
      held back; whatever else happened and whatever follows. */
  lemma {:induction false} TimelyOrWedged(d: Deal, s: System, es: seq<Event>)
    requires Honest(d) && Inv(d, s)
    ensures Timely(d, s, es) <==> !Wedged(d, Run(d, s, es))
    decreases |es|
  {
    if es == [] {
      InvIsNotWedged(d, s);
    } else {
      var t := Step(d, s, es[0]);
      if Early(s, es[0]) {
        EarlyWedges(d, s, es[0]);
        WedgedForever(d, t, es[1..]);
      } else if Lapses(s, es[0]) {
        LapseLoses(d, s, es[0]);
        WedgedForever(d, t, es[1..]);
      } else {
        StepKeepsInv(d, s, es[0]);
        TimelyOrWedged(d, t, es[1..]);
      }
    }
  }
}
