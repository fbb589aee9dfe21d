/** The two-party contract protocol of one match: what a node does with each
    message, what its event loop does between messages, and two nodes joined by
    first-in first-out connections. */
module Protocol {
  import opened Outcome
  import opened Amounts
  import opened MatchStates
  import opened M = Microtransfer

  // ----- messages ------------------------------------------------------------------

  /** The protocol's direct messages. `authentic` says whether the counterparty's
      first key signed the message. */
  datatype Message =
    | GetRefundSig(authentic: bool, refund: Tx)
    | ReturnRefundSig(authentic: bool, sig: Sig)
    | GetSetupTx(authentic: bool)
    | ReturnSetupTx(authentic: bool, txid: Txid, valid: bool)
    | ReturnAdjustedRefund(authentic: bool, payment: Payment)

  /** A reply waiting to be routed; a deferred one is held back by its status
      check. No message stands for the blank line sent after a refused payment. */
  datatype Reply = Reply(message: Option<Message>, deferred: bool)

  datatype Role = Seller | Buyer

  /** What does not change: whose side, the contract's terms, our signed setup. */
  datatype Identity = Identity(role: Role, terms: M.Terms, setup: Txid)

  datatype Node = Node(
    state: State,
    checked: State,
    ready: Option<Txid>,
    confirmed: bool,
    refund: Option<Tx>,
    refundSigned: Option<Sig>,
    theirRefund: Option<Tx>,
    theirSetup: Option<Txid>,
    channel: Channel,
    replies: seq<Reply>)

  predicate Solvent(me: Identity, n: Node)
  {
    Open(me.terms, n.channel)
  }

  // ----- message handlers ------------------------------------------------------------

  /** Signs their refund and queues the signature, when the refund is the
      time-locked one that spends the setup announced by the contract server. */
  function SignTheirRefund(me: Identity, n: Node, tx: Tx, deferred: bool): Node
  {
    if n.ready.None? || |tx.inputs| != 1 || tx.inputs[0].sequence != 0 ||
       tx.inputs[0].prevout != n.ready.value || tx.lockTime != me.terms.lockTime then n
    else
      n.(theirRefund := Some(tx),
         replies := n.replies + [Reply(Some(ReturnRefundSig(true, Sig(me.terms.ourKeys.0, tx))), deferred)])
  }

  function OnGetRefundSig(me: Identity, n: Node, authentic: bool, tx: Tx): Node
  {
    if !authentic then n
    else if me.role.Buyer? then
      if n.state != PendingBuyerReturnRefundSig then
        if n.state == PendingBuyerSetupTxConfirm || !MayEnter(n.state, PendingBuyerSetupTxConfirm) then n
        else SignTheirRefund(me, n.(state := PendingBuyerSetupTxConfirm), tx, true)
      else SignTheirRefund(me, n.(state := PendingBuyerGetRefundSig), tx, false)
    else if !MayEnter(n.state, PendingSellerGetSetupTx) then n
    else SignTheirRefund(me, n.(state := PendingSellerGetSetupTx), tx, false)
  }

  /** The state moves on before the signature is tried on our refund. */
  function OnReturnRefundSig(me: Identity, n: Node, authentic: bool, sig: Sig): Node
  {
    var next := if me.role.Seller? then PendingSellerReturnRefundSig else PendingBuyerReturnSetupTx;
    if !authentic || !MayEnter(n.state, next) then n
    else
      var moved := n.(state := next);
      if n.refund.Some? && sig == Sig(me.terms.theirKeys.0, n.refund.value)
      then moved.(refundSigned := Some(sig)) else moved
  }

  /** The state moves on even when the message is not authentic. */
  function OnGetSetupTx(me: Identity, n: Node, authentic: bool): Node
  {
    var next := if me.role.Buyer? then PendingBuyerGetSetupTx else SellerInitiateMicrotransfer;
    if !MayEnter(n.state, next) then n
    else if !authentic then n.(state := next)
    else n.(state := next, replies := n.replies + [Reply(Some(ReturnSetupTx(true, me.setup, true)), false)])
  }

  function OnReturnSetupTx(me: Identity, n: Node, authentic: bool, txid: Txid, valid: bool): Node
  {
    var next := if me.role.Seller? then PendingSellerReturnSetupTx else BuyerAcceptMicrotransfer;
    if !authentic || !valid || n.ready != Some(txid) || !MayEnter(n.state, next) then n
    else n.(state := next, theirSetup := Some(txid))
  }

  predicate Complete(t: M.Terms, c: Channel)
    requires Fundable(t)
  {
    c.sent == t.Upload() && c.recv == t.Download()
  }

  /** The payment inside, if any, as the reply to route. */
  function PaymentReply(answer: Adjusted): Reply
  {
    Reply(match answer
          case Pays(p) => Some(ReturnAdjustedRefund(true, p))
          case _ => None,
          false)
  }

  function OnReturnAdjustedRefund(me: Identity, n: Node, authentic: bool, p: Payment): Node
    requires Solvent(me, n)
  {
    var accepting := if me.role.Buyer? then BuyerAcceptMicrotransfer else SellerAcceptMicrotransfer;
    if n.state != accepting || !authentic || n.theirSetup.None? || n.theirRefund.None? then n
    else
      var c := After(me.terms, n.channel, n.theirSetup.value, n.theirRefund.value, Some(p));
      var answer := Answer(me.terms, n.channel, me.setup, n.theirSetup.value, n.theirRefund.value, Some(p));
      n.(channel := c,
         state := if Complete(me.terms, c) then Updated(n.state, PendingMicrotransferComplete) else n.state,
         replies := n.replies + [PaymentReply(answer)])
  }

  function Handle(me: Identity, n: Node, m: Message): (r: Node)
    requires Solvent(me, n)
    ensures Solvent(me, r)
  {
    match m
    case GetRefundSig(authentic, tx) => OnGetRefundSig(me, n, authentic, tx)
    case ReturnRefundSig(authentic, sig) => OnReturnRefundSig(me, n, authentic, sig)
    case GetSetupTx(authentic) => OnGetSetupTx(me, n, authentic)
    case ReturnSetupTx(authentic, txid, valid) => OnReturnSetupTx(me, n, authentic, txid, valid)
    case ReturnAdjustedRefund(authentic, p) => OnReturnAdjustedRefund(me, n, authentic, p)
  }

  // ----- the event loop ----------------------------------------------------------------

  /** The seller's first payment, when there is anything to pay. */
  function Initiated(me: Identity, n: Node): (r: (Node, seq<Message>))
    requires Solvent(me, n)
    ensures Solvent(me, r.0)
  {
    if n.theirSetup.None? || n.theirRefund.None? then (n, [])
    else
      var c := After(me.terms, n.channel, n.theirSetup.value, n.theirRefund.value, None);
      var answer := Answer(me.terms, n.channel, me.setup, n.theirSetup.value, n.theirRefund.value, None);
      if answer.Pays?
      then (n.(channel := c, state := SellerAcceptMicrotransfer), [ReturnAdjustedRefund(true, answer.payment)])
      else (n.(channel := c), [])
  }

  /** The per-contract actions: done once for every state the contract is found in. */
  function Act(me: Identity, n: Node): (r: (Node, seq<Message>))
    requires Solvent(me, n)
    ensures Solvent(me, r.0)
  {
    if n.state == n.checked then (n, [])
    else
      var seen := n.(checked := n.state);
      match n.state
      case PendingSellerGetRefundSig =>
        var tx := FullRefund(me.terms, me.setup);
        (seen.(refund := Some(tx), state := SellerSentGetRefundSig), [GetRefundSig(true, tx)])
      case PendingBuyerGetRefundSig =>
        var tx := FullRefund(me.terms, me.setup);
        (seen.(refund := Some(tx), state := BuyerSentGetRefundSig), [GetRefundSig(true, tx)])
      case PendingSellerGetSetupTx => (seen.(state := SellerSentGetSetupTx), [GetSetupTx(true)])
      case PendingBuyerGetSetupTx => (seen.(state := BuyerSentGetSetupTx), [GetSetupTx(true)])
      case SellerInitiateMicrotransfer => Initiated(me, seen)
      case PendingMicrotransferComplete => (seen.(state := PendingMicrotransferConfirm), [])
      case _ => (seen, [])
  }

  /** The queued replies, in order: those whose status check succeeds are sent,
      the others stay. The check of a deferred reply moves the state on. */
  function Routed(n: Node, replies: seq<Reply>): (Node, seq<Message>)
    decreases |replies|
  {
    if replies == [] then (n.(replies := []), [])
    else
      var r := replies[0];
      if r.deferred && !MayEnter(n.state, PendingBuyerGetRefundSig) then
        var (after, sent) := Routed(n, replies[1..]);
        (after.(replies := [r] + after.replies), sent)
      else
        var moved := if r.deferred then n.(state := PendingBuyerGetRefundSig) else n;
        var (after, sent) := Routed(moved, replies[1..]);
        (after, (if r.message.Some? then [r.message.value] else []) + sent)
  }

  /** READY: the contract server names the counterparty's setup. */
  function OnReady(n: Node, theirSetup: Txid): Node
  {
    n.(ready := Some(theirSetup))
  }

  /** The callback of the watch on our own setup transaction. */
  function OnConfirm(me: Identity, n: Node): Node
  {
    n.(confirmed := true,
       state := Updated(n.state, if me.role.Seller? then PendingSellerGetRefundSig
                                 else PendingBuyerReturnRefundSig))
  }

  /** The callback of the watch on the redeemed download. */
  function OnRedeemed(n: Node): Node
  {
    n.(state := Updated(n.state, MicrotransferComplete))
  }

  function NewNode(): Node
  {
    Node(PendingContract, Unset, None, false, None, None, None, None, Fresh(), [])
  }

  // ----- one node against an arbitrary environment -----------------------------------------

  /** Everything that can happen to a node. */
  datatype Happening =
    | Hears(message: Message)
    | Acting
    | Routing
    | ReadyMsg(theirSetup: Txid)
    | SetupConfirmed
    | DownloadConfirmed

  function Happens(me: Identity, n: Node, h: Happening): (r: Node)
    requires Solvent(me, n)
    ensures Solvent(me, r)
  {
    match h
    case Hears(m) => Handle(me, n, m)
    case Acting => Act(me, n).0
    case Routing =>
      RoutingKeepsChannel(n, n.replies);
      Routed(n, n.replies).0
    case ReadyMsg(txid) => if n.ready.None? then OnReady(n, txid) else n
    case SetupConfirmed => if n.ready.Some? then OnConfirm(me, n) else n
    case DownloadConfirmed => if n.state.PendingMicrotransferConfirm? then OnRedeemed(n) else n
  }

  lemma {:induction false} RoutingKeepsChannel(n: Node, replies: seq<Reply>)
    ensures var r := Routed(n, replies).0;
            r == n.(replies := r.replies, state := r.state)
            && (r.state == n.state || (r.state.PendingBuyerGetRefundSig? && MayEnter(n.state, r.state)))
    decreases |replies|
  {
    if replies != [] {
      var r := replies[0];
      if r.deferred && !MayEnter(n.state, PendingBuyerGetRefundSig) {
        RoutingKeepsChannel(n, replies[1..]);
      } else {
        RoutingKeepsChannel(if r.deferred then n.(state := PendingBuyerGetRefundSig) else n, replies[1..]);
      }
    }
  }

  function Lived(me: Identity, n: Node, hs: seq<Happening>): (r: Node)
    requires Solvent(me, n)
    ensures Solvent(me, r)
    decreases |hs|
  {
    if hs == [] then n else Lived(me, Happens(me, n, hs[0]), hs[1..])
  }

  // ----- what a node keeps, whoever it talks to ------------------------------------------

  lemma HappeningMovesForward(me: Identity, n: Node, h: Happening)
    requires Solvent(me, n)
    ensures var r := Happens(me, n, h);
            r.state == n.state || Rank(r.state) > Rank(n.state)
  {
    match h
    case Hears(m) => HandlingMovesForward(me, n, m);
    case Acting =>
    case Routing => RoutingKeepsChannel(n, n.replies);
    case ReadyMsg(txid) =>
    case SetupConfirmed => RequestMovesForward(n.state, if me.role.Seller? then PendingSellerGetRefundSig
                                                        else PendingBuyerReturnRefundSig);
    case DownloadConfirmed =>
  }

  lemma HandlingMovesForward(me: Identity, n: Node, m: Message)
    requires Solvent(me, n)
    ensures var r := Handle(me, n, m);
            r.state == n.state || Rank(r.state) > Rank(n.state)
  {
    match m
    case GetRefundSig(authentic, tx) =>
      RequestMovesForward(n.state, if me.role.Buyer? then PendingBuyerSetupTxConfirm else PendingSellerGetSetupTx);
    case ReturnRefundSig(authentic, sig) =>
      RequestMovesForward(n.state, if me.role.Seller? then PendingSellerReturnRefundSig else PendingBuyerReturnSetupTx);
    case GetSetupTx(authentic) =>
      RequestMovesForward(n.state, if me.role.Buyer? then PendingBuyerGetSetupTx else SellerInitiateMicrotransfer);
    case ReturnSetupTx(authentic, txid, valid) =>
      RequestMovesForward(n.state, if me.role.Seller? then PendingSellerReturnSetupTx else BuyerAcceptMicrotransfer);
    case ReturnAdjustedRefund(authentic, p) =>
      RequestMovesForward(n.state, PendingMicrotransferComplete);
  }

  /** Whatever happens to a node, its match only moves forward. */
  lemma {:induction false} NodesMoveForward(me: Identity, n: Node, hs: seq<Happening>)
    requires Solvent(me, n)
    ensures var r := Lived(me, n, hs);
            r.state == n.state || Rank(r.state) > Rank(n.state)
    decreases |hs|
  {
    if hs != [] {
      HappeningMovesForward(me, n, hs[0]);
      NodesMoveForward(me, Happens(me, n, hs[0]), hs[1..]);
    }
  }

  /** The states in which the counterparty's setup must be held. */
  predicate PastSetup(role: Role, state: State)
  {
    Rank(state) >= if role.Seller? then Rank(PendingSellerReturnSetupTx) else Rank(BuyerAcceptMicrotransfer)
  }

  /** A node on its own side of the match that has come past the setup exchange
      holds the setup the contract server announced. */
  predicate HoldsSetup(me: Identity, n: Node)
  {
    SideOf(n.state) != (if me.role.Seller? then Buyers else Sellers) &&
    (PastSetup(me.role, n.state) ==> n.theirSetup.Some? && n.theirSetup == n.ready)
  }

  lemma RefundRequestHoldsSetup(me: Identity, n: Node, authentic: bool, tx: Tx)
    requires Solvent(me, n) && HoldsSetup(me, n)
    ensures HoldsSetup(me, OnGetRefundSig(me, n, authentic, tx))
  {
  }

  lemma RefundAnswerHoldsSetup(me: Identity, n: Node, authentic: bool, sig: Sig)
    requires Solvent(me, n) && HoldsSetup(me, n)
    ensures HoldsSetup(me, OnReturnRefundSig(me, n, authentic, sig))
  {
  }

  lemma SetupMessagesHoldSetup(me: Identity, n: Node, authentic: bool, txid: Txid, valid: bool)
    requires Solvent(me, n) && HoldsSetup(me, n)
    ensures HoldsSetup(me, OnGetSetupTx(me, n, authentic))
    ensures HoldsSetup(me, OnReturnSetupTx(me, n, authentic, txid, valid))
  {
  }

  lemma HandlingHoldsSetup(me: Identity, n: Node, m: Message)
    requires Solvent(me, n) && HoldsSetup(me, n)
    ensures HoldsSetup(me, Handle(me, n, m))
  {
    match m
    case GetRefundSig(authentic, tx) => RefundRequestHoldsSetup(me, n, authentic, tx);
    case ReturnRefundSig(authentic, sig) => RefundAnswerHoldsSetup(me, n, authentic, sig);
    case GetSetupTx(authentic) => SetupMessagesHoldSetup(me, n, authentic, 0, false);
    case ReturnSetupTx(authentic, txid, valid) => SetupMessagesHoldSetup(me, n, authentic, txid, valid);
    case ReturnAdjustedRefund(authentic, p) =>
      var r := OnReturnAdjustedRefund(me, n, authentic, p);
      assert r.state == n.state || r.state.PendingMicrotransferComplete?;
  }

  lemma HappeningHoldsSetup(me: Identity, n: Node, h: Happening)
    requires Solvent(me, n) && HoldsSetup(me, n)
    ensures HoldsSetup(me, Happens(me, n, h))
  {
    match h
    case Hears(m) => HandlingHoldsSetup(me, n, m);
    case Acting =>
    case Routing => RoutingKeepsChannel(n, n.replies);
    case ReadyMsg(txid) =>
    case SetupConfirmed =>
    case DownloadConfirmed =>
  }

  /** Whoever a node talks to and whatever happens to it, it stays on its own
      side, and once it is ready for payments it holds the announced setup. */
  lemma {:induction false} SetupIsHeld(me: Identity, n: Node, hs: seq<Happening>)
    requires Solvent(me, n) && HoldsSetup(me, n)
    ensures HoldsSetup(me, Lived(me, n, hs))
    decreases |hs|
  {
    if hs != [] {
      HappeningHoldsSetup(me, n, hs[0]);
      SetupIsHeld(me, Happens(me, n, hs[0]), hs[1..]);
    }
  }

  /** How many chunks a node has sent ahead of being paid: the seller, once it
      has initiated, one. */
  function Ahead(me: Identity, n: Node): nat
  {
    if me.role.Seller? && Rank(n.state) >= Rank(SellerAcceptMicrotransfer) then 1 else 0
  }

  /** What happens is a payment that the node takes. */
  predicate TakesPayment(me: Identity, n: Node, h: Happening)
    requires Solvent(me, n)
  {
    h.Hears? && h.message.ReturnAdjustedRefund? && h.message.authentic &&
    n.state == (if me.role.Buyer? then BuyerAcceptMicrotransfer else SellerAcceptMicrotransfer) &&
    n.theirSetup.Some? && n.theirRefund.Some? &&
    Acceptable(me.terms, n.channel, n.theirSetup.value, n.theirRefund.value, h.message.payment)
  }

  /** How many payments a node takes in a life. */
  function PaymentsTaken(me: Identity, n: Node, hs: seq<Happening>): (k: nat)
    requires Solvent(me, n)
    ensures k <= |hs|
    decreases |hs|
  {
    if hs == [] then 0
    else (if TakesPayment(me, n, hs[0]) then 1 else 0) + PaymentsTaken(me, Happens(me, n, hs[0]), hs[1..])
  }

  /** The node was paid k chunks, and has signed away as many of its own plus those
      it is ahead, each up to the whole amount. */
  ghost predicate Exposed(me: Identity, n: Node, k: nat)
    requires Solvent(me, n)
  {
    Settled(me.terms, n.channel, k, Ahead(me, n))
  }

  lemma PaymentKeepsExposure(me: Identity, n: Node, m: Message, k: nat)
    requires Solvent(me, n) && Exposed(me, n, k) && m.ReturnAdjustedRefund?
    ensures Exposed(me, Handle(me, n, m), if TakesPayment(me, n, Hears(m)) then k + 1 else k)
  {
    var r := OnReturnAdjustedRefund(me, n, m.authentic, m.payment);
    if r != n {
      TakenStep(me.terms, n.channel, k, Ahead(me, n), Incoming(n.theirSetup.value, n.theirRefund.value, m.payment));
      assert Ahead(me, r) == Ahead(me, n);
    }
  }

  lemma OtherMessagesKeepExposure(me: Identity, n: Node, m: Message)
    requires Solvent(me, n) && HoldsSetup(me, n) && !m.ReturnAdjustedRefund?
    ensures var r := Handle(me, n, m); r.channel == n.channel && Ahead(me, r) == Ahead(me, n)
  {
    match m
    case GetRefundSig(authentic, tx) => RefundMessagesKeepAhead(me, n, authentic, tx, Sig(0, tx));
    case ReturnRefundSig(authentic, sig) => RefundMessagesKeepAhead(me, n, authentic, sig.tx, sig);
    case GetSetupTx(authentic) => SetupMessagesKeepAhead(me, n, authentic, 0, false);
    case ReturnSetupTx(authentic, txid, valid) => SetupMessagesKeepAhead(me, n, authentic, txid, valid);
  }

  lemma RefundMessagesKeepAhead(me: Identity, n: Node, authentic: bool, tx: Tx, sig: Sig)
    requires Solvent(me, n) && HoldsSetup(me, n)
    ensures var r := OnGetRefundSig(me, n, authentic, tx); r.channel == n.channel && Ahead(me, r) == Ahead(me, n)
    ensures var r := OnReturnRefundSig(me, n, authentic, sig); r.channel == n.channel && Ahead(me, r) == Ahead(me, n)
  {
  }

  lemma SetupMessagesKeepAhead(me: Identity, n: Node, authentic: bool, txid: Txid, valid: bool)
    requires Solvent(me, n) && HoldsSetup(me, n)
    ensures var r := OnGetSetupTx(me, n, authentic); r.channel == n.channel && Ahead(me, r) == Ahead(me, n)
    ensures var r := OnReturnSetupTx(me, n, authentic, txid, valid);
            r.channel == n.channel && Ahead(me, r) == Ahead(me, n)
  {
  }

  lemma ActingKeepsExposure(me: Identity, n: Node, k: nat)
    requires Solvent(me, n) && HoldsSetup(me, n) && Exposed(me, n, k)
    ensures Exposed(me, Act(me, n).0, k)
  {
    InitiatingPaysOneChunk(me, n);
    NextChunk(k, me.terms.ourChunk, me.terms.Upload());
  }

  /** Acting changes the channel only to initiate, by one chunk. */
  lemma InitiatingPaysOneChunk(me: Identity, n: Node)
    requires Solvent(me, n) && HoldsSetup(me, n)
    ensures var r := Act(me, n).0;
            (r.channel == n.channel && Ahead(me, r) == Ahead(me, n))
            || (Ahead(me, n) == 0 && Ahead(me, r) == 1
                && r.channel == n.channel.(sent := n.channel.sent + SendChunk(me.terms, n.channel)))
  {
    match n.state
    case SellerInitiateMicrotransfer =>
    case _ =>
  }

  lemma HappeningKeepsExposure(me: Identity, n: Node, h: Happening, k: nat)
    requires Solvent(me, n) && HoldsSetup(me, n) && Exposed(me, n, k)
    ensures Exposed(me, Happens(me, n, h), if TakesPayment(me, n, h) then k + 1 else k)
  {
    match h
    case Acting => ActingKeepsExposure(me, n, k);
    case Hears(m) =>
      if m.ReturnAdjustedRefund? {
        PaymentKeepsExposure(me, n, m, k);
      } else {
        OtherMessagesKeepExposure(me, n, m);
      }
    case _ => IdleKeepsExposure(me, n, h);
  }

  lemma IdleKeepsExposure(me: Identity, n: Node, h: Happening)
    requires Solvent(me, n) && HoldsSetup(me, n) && !h.Hears? && !h.Acting?
    ensures var r := Happens(me, n, h); r.channel == n.channel && Ahead(me, r) == Ahead(me, n)
  {
    match h
    case Routing => RoutingKeepsAhead(me, n);
    case SetupConfirmed => ConfirmingKeepsAhead(me, n);
    case _ =>
  }

  lemma RoutingKeepsAhead(me: Identity, n: Node)
    requires Solvent(me, n) && HoldsSetup(me, n)
    ensures var r := Routed(n, n.replies).0; r.channel == n.channel && Ahead(me, r) == Ahead(me, n)
  {
    RoutingKeepsChannel(n, n.replies);
  }

  lemma ConfirmingKeepsAhead(me: Identity, n: Node)
    ensures var r := OnConfirm(me, n); r.channel == n.channel && Ahead(me, r) == Ahead(me, n)
  {
  }

  lemma {:induction false} ExposureIsKept(me: Identity, n: Node, hs: seq<Happening>, k: nat)
    requires Solvent(me, n) && HoldsSetup(me, n) && Exposed(me, n, k)
    ensures Exposed(me, Lived(me, n, hs), k + PaymentsTaken(me, n, hs))
    decreases |hs|
  {
    if hs != [] {
      HappeningHoldsSetup(me, n, hs[0]);
      HappeningKeepsExposure(me, n, hs[0], k);
      ExposureIsKept(me, Happens(me, n, hs[0]), hs[1..], if TakesPayment(me, n, hs[0]) then k + 1 else k);
    }
  }

  /** In the whole life of a match, whatever the counterparty sends, however its
      messages, the event loop and confirmations interleave: after k payments taken a
      buyer has signed away k chunks and a seller that has initiated k + 1, each up to
      the whole amount, and either holds a download for what the k payments are worth. */
  lemma AtMostOneChunkAhead(me: Identity, hs: seq<Happening>)
    requires Fundable(me.terms)
    ensures var n := Lived(me, NewNode(), hs);
            Settled(me.terms, n.channel, PaymentsTaken(me, NewNode(), hs), Ahead(me, n))
  {
    ExposureIsKept(me, NewNode(), hs, 0);
  }
}
