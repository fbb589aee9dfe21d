/** The state of one match: the guarded transitions between its named states and
    the calibration that picks the terms both sides contract on. */
module MatchStates {
  import opened Outcome
  import opened Amounts

  datatype State =
    | Unset
    | PendingCalibration
    | PendingHandshake
    | PendingContract
    | PendingBuyerSetupTxConfirm
    | PendingBuyerReturnRefundSig
    | PendingBuyerGetRefundSig
    | BuyerSentGetRefundSig
    | PendingBuyerReturnSetupTx
    | PendingBuyerGetSetupTx
    | BuyerSentGetSetupTx
    | BuyerAcceptMicrotransfer
    | PendingSellerGetRefundSig
    | SellerSentGetRefundSig
    | PendingSellerReturnRefundSig
    | PendingSellerGetSetupTx
    | SellerSentGetSetupTx
    | PendingSellerReturnSetupTx
    | SellerInitiateMicrotransfer
    | SellerAcceptMicrotransfer
    | PendingMicrotransferComplete
    | PendingMicrotransferConfirm
    | MicrotransferComplete

  /** Besides itself, the states from which a state may be entered. */
  predicate Precedes(from: State, to: State)
  {
    match to
    case Unset => false
    case PendingCalibration => from.Unset?
    case PendingHandshake => from.Unset? || from.PendingCalibration?
    case PendingContract => from.PendingHandshake?
    case PendingBuyerSetupTxConfirm => from.PendingContract?
    case PendingBuyerReturnRefundSig => from.PendingContract? || from.PendingBuyerSetupTxConfirm?
    case PendingBuyerGetRefundSig => from.PendingBuyerReturnRefundSig?
    case BuyerSentGetRefundSig => from.PendingBuyerGetRefundSig?
    case PendingBuyerReturnSetupTx => from.BuyerSentGetRefundSig?
    case PendingBuyerGetSetupTx => from.PendingBuyerReturnSetupTx?
    case BuyerSentGetSetupTx => from.PendingBuyerGetSetupTx?
    case BuyerAcceptMicrotransfer => from.BuyerSentGetSetupTx?
    case PendingSellerGetRefundSig => from.PendingContract?
    case SellerSentGetRefundSig => from.PendingSellerGetRefundSig?
    case PendingSellerReturnRefundSig => from.SellerSentGetRefundSig?
    case PendingSellerGetSetupTx => from.PendingSellerReturnRefundSig?
    case SellerSentGetSetupTx => from.PendingSellerGetSetupTx?
    case PendingSellerReturnSetupTx => from.SellerSentGetSetupTx?
    case SellerInitiateMicrotransfer => from.PendingSellerReturnSetupTx?
    case SellerAcceptMicrotransfer => from.SellerInitiateMicrotransfer?
    case PendingMicrotransferComplete => from.BuyerAcceptMicrotransfer? || from.SellerAcceptMicrotransfer?
    case PendingMicrotransferConfirm => from.PendingMicrotransferComplete?
    case MicrotransferComplete => from.PendingMicrotransferConfirm? || from.PendingMicrotransferComplete?
  }

  /** state_machine(to), asked in state `from` */
  predicate MayEnter(from: State, to: State)
  {
    to == from || Precedes(from, to)
  }

  /** update_state: the request is taken when the guard allows it, else ignored. */
  function Updated(state: State, request: State): State
  {
    if MayEnter(state, request) then request else state
  }

  // ----- matches move forward ----------------------------------------------------

  /** How far a match has come. */
  function Rank(state: State): nat
  {
    match state
    case Unset => 0
    case PendingCalibration => 1
    case PendingHandshake => 2
    case PendingContract => 3
    case PendingBuyerSetupTxConfirm => 4
    case PendingBuyerReturnRefundSig => 5
    case PendingBuyerGetRefundSig => 6
    case BuyerSentGetRefundSig => 7
    case PendingBuyerReturnSetupTx => 8
    case PendingBuyerGetSetupTx => 9
    case BuyerSentGetSetupTx => 10
    case BuyerAcceptMicrotransfer => 11
    case PendingSellerGetRefundSig => 4
    case SellerSentGetRefundSig => 5
    case PendingSellerReturnRefundSig => 6
    case PendingSellerGetSetupTx => 7
    case SellerSentGetSetupTx => 8
    case PendingSellerReturnSetupTx => 9
    case SellerInitiateMicrotransfer => 10
    case SellerAcceptMicrotransfer => 11
    case PendingMicrotransferComplete => 12
    case PendingMicrotransferConfirm => 13
    case MicrotransferComplete => 14
  }

  datatype Side = Common | Buyers | Sellers | Closing

  /** Whose states a state belongs to. */
  function SideOf(state: State): Side
  {
    match state
    case Unset => Common
    case PendingCalibration => Common
    case PendingHandshake => Common
    case PendingContract => Common
    case PendingBuyerSetupTxConfirm => Buyers
    case PendingBuyerReturnRefundSig => Buyers
    case PendingBuyerGetRefundSig => Buyers
    case BuyerSentGetRefundSig => Buyers
    case PendingBuyerReturnSetupTx => Buyers
    case PendingBuyerGetSetupTx => Buyers
    case BuyerSentGetSetupTx => Buyers
    case BuyerAcceptMicrotransfer => Buyers
    case PendingSellerGetRefundSig => Sellers
    case SellerSentGetRefundSig => Sellers
    case PendingSellerReturnRefundSig => Sellers
    case PendingSellerGetSetupTx => Sellers
    case SellerSentGetSetupTx => Sellers
    case PendingSellerReturnSetupTx => Sellers
    case SellerInitiateMicrotransfer => Sellers
    case SellerAcceptMicrotransfer => Sellers
    case PendingMicrotransferComplete => Closing
    case PendingMicrotransferConfirm => Closing
    case MicrotransferComplete => Closing
  }

  /** Where a match may step over a state: the calibration, the wait for a setup that
      is confirmed already, the wait for the redemption. */
  predicate MayStepOver(from: State, to: State)
  {
    (from.Unset? && to.PendingHandshake?) || (from.PendingContract? && to.PendingBuyerReturnRefundSig?) ||
    (from.PendingMicrotransferComplete? && to.MicrotransferComplete?)
  }

  /** One state on along its own side. */
  predicate GoesOn(from: State, to: State)
  {
    Rank(to) == Rank(from) + 1 && MayFollow(SideOf(from), SideOf(to))
  }

  lemma GuardKeepsToLine(from: State, to: State)
    ensures Precedes(from, to) ==> MayStepOver(from, to) || GoesOn(from, to)
  {
    match to
    case Unset =>
    case PendingCalibration =>
    case PendingHandshake =>
    case PendingContract =>
    case PendingBuyerSetupTxConfirm =>
    case PendingBuyerReturnRefundSig =>
    case PendingBuyerGetRefundSig =>
    case BuyerSentGetRefundSig =>
    case PendingBuyerReturnSetupTx =>
    case PendingBuyerGetSetupTx =>
    case BuyerSentGetSetupTx =>
    case BuyerAcceptMicrotransfer =>
    case PendingSellerGetRefundSig =>
    case SellerSentGetRefundSig =>
    case PendingSellerReturnRefundSig =>
    case PendingSellerGetSetupTx =>
    case SellerSentGetSetupTx =>
    case PendingSellerReturnSetupTx =>
    case SellerInitiateMicrotransfer =>
    case SellerAcceptMicrotransfer =>
    case PendingMicrotransferComplete =>
    case PendingMicrotransferConfirm =>
    case MicrotransferComplete =>
  }

  lemma LineIsOpen(from: State, to: State)
    ensures GoesOn(from, to) ==> Precedes(from, to)
  {
    match to
    case Unset =>
    case PendingCalibration =>
    case PendingHandshake =>
    case PendingContract =>
    case PendingBuyerSetupTxConfirm =>
    case PendingBuyerReturnRefundSig =>
    case PendingBuyerGetRefundSig =>
    case BuyerSentGetRefundSig =>
    case PendingBuyerReturnSetupTx =>
    case PendingBuyerGetSetupTx =>
    case BuyerSentGetSetupTx =>
    case BuyerAcceptMicrotransfer =>
    case PendingSellerGetRefundSig =>
    case SellerSentGetRefundSig =>
    case PendingSellerReturnRefundSig =>
    case PendingSellerGetSetupTx =>
    case SellerSentGetSetupTx =>
    case PendingSellerReturnSetupTx =>
    case SellerInitiateMicrotransfer =>
    case SellerAcceptMicrotransfer =>
    case PendingMicrotransferComplete =>
    case PendingMicrotransferConfirm =>
    case MicrotransferComplete =>
  }

  /** The guard lets a match go one state on along its own side, or step over one of
      three, and nowhere else. */
  lemma GuardIsALine(from: State, to: State)
    ensures Precedes(from, to) <==> MayStepOver(from, to) || GoesOn(from, to)
  {
    GuardKeepsToLine(from, to);
    LineIsOpen(from, to);
  }

  /** The states a match goes through under a sequence of update requests. */
  function History(state: State, requests: seq<State>): (states: seq<State>)
    ensures |states| == |requests| + 1 && states[0] == state
    decreases |requests|
  {
    if requests == [] then [state]
    else [state] + History(Updated(state, requests[0]), requests[1..])
  }

  lemma RequestMovesForward(state: State, request: State)
    ensures Updated(state, request) == state || Rank(Updated(state, request)) > Rank(state)
  {
    match request
    case Unset =>
    case PendingCalibration =>
    case PendingHandshake =>
    case PendingContract =>
    case PendingBuyerSetupTxConfirm =>
    case PendingBuyerReturnRefundSig =>
    case PendingBuyerGetRefundSig =>
    case BuyerSentGetRefundSig =>
    case PendingBuyerReturnSetupTx =>
    case PendingBuyerGetSetupTx =>
    case BuyerSentGetSetupTx =>
    case BuyerAcceptMicrotransfer =>
    case PendingSellerGetRefundSig =>
    case SellerSentGetRefundSig =>
    case PendingSellerReturnRefundSig =>
    case PendingSellerGetSetupTx =>
    case SellerSentGetSetupTx =>
    case PendingSellerReturnSetupTx =>
    case SellerInitiateMicrotransfer =>
    case SellerAcceptMicrotransfer =>
    case PendingMicrotransferComplete =>
    case PendingMicrotransferConfirm =>
    case MicrotransferComplete =>
  }

  /** Whatever is requested, in whatever order, the rank strictly increases with
      every change of state, so no state is ever left and entered again. */
  lemma {:induction false} StatesMoveForward(state: State, requests: seq<State>, i: nat, j: nat)
    requires i <= j <= |requests|
    ensures var states := History(state, requests);
            states[i] == states[j] || Rank(states[i]) < Rank(states[j])
    decreases |requests|
  {
    var states := History(state, requests);
    if i < j {
      var next := Updated(state, requests[0]);
      RequestMovesForward(state, requests[0]);
      if i == 0 {
        StatesMoveForward(next, requests[1..], 0, j - 1);
        assert states[j] == History(next, requests[1..])[j - 1];
      } else {
        StatesMoveForward(next, requests[1..], i - 1, j - 1);
      }
    }
  }

  /** A match that entered one side's states never enters the other side's. */
  lemma {:induction false} SidesStayApart(state: State, requests: seq<State>, i: nat, j: nat)
    requires i <= |requests| && j <= |requests|
    ensures var states := History(state, requests);
            !(SideOf(states[i]).Buyers? && SideOf(states[j]).Sellers?)
  {
    var states := History(state, requests);
    if SideOf(states[i]).Buyers? && i <= j {
      StaysOnSide(states[i], requests[i..], j - i);
      HistorySuffix(state, requests, i);
    } else if SideOf(states[j]).Sellers? && j < i {
      StaysOnSide(states[j], requests[j..], i - j);
      HistorySuffix(state, requests, j);
    }
  }

  lemma {:induction false} HistorySuffix(state: State, requests: seq<State>, i: nat)
    requires i <= |requests|
    ensures History(History(state, requests)[i], requests[i..]) == History(state, requests)[i..]
    decreases |requests|
  {
    if i == 0 {
      assert requests[0..] == requests;
    } else {
      HistorySuffix(Updated(state, requests[0]), requests[1..], i - 1);
      assert requests[1..][i - 1..] == requests[i..];
    }
  }

  /** Having left the common states, a match stays on its side or closes. */
  predicate MayFollow(side: Side, next: Side)
  {
    side.Common? || next == side || next.Closing?
  }

  lemma OneRequestStaysOnSide(state: State, request: State)
    ensures MayFollow(SideOf(state), SideOf(Updated(state, request)))
  {
    match request
    case Unset =>
    case PendingCalibration =>
    case PendingHandshake =>
    case PendingContract =>
    case PendingBuyerSetupTxConfirm =>
    case PendingBuyerReturnRefundSig =>
    case PendingBuyerGetRefundSig =>
    case BuyerSentGetRefundSig =>
    case PendingBuyerReturnSetupTx =>
    case PendingBuyerGetSetupTx =>
    case BuyerSentGetSetupTx =>
    case BuyerAcceptMicrotransfer =>
    case PendingSellerGetRefundSig =>
    case SellerSentGetRefundSig =>
    case PendingSellerReturnRefundSig =>
    case PendingSellerGetSetupTx =>
    case SellerSentGetSetupTx =>
    case PendingSellerReturnSetupTx =>
    case SellerInitiateMicrotransfer =>
    case SellerAcceptMicrotransfer =>
    case PendingMicrotransferComplete =>
    case PendingMicrotransferConfirm =>
    case MicrotransferComplete =>
  }

  lemma {:induction false} StaysOnSide(state: State, requests: seq<State>, j: nat)
    requires j <= |requests|
    ensures MayFollow(SideOf(state), SideOf(History(state, requests)[j]))
    decreases |requests|
  {
    if j > 0 {
      var next := Updated(state, requests[0]);
      OneRequestStaysOnSide(state, requests[0]);
      StaysOnSide(next, requests[1..], j - 1);
    }
  }

  // ----- calibration ---------------------------------------------------------------

  datatype Action = Buy | Sell

  datatype Terms = Terms(action: Action, amount: Amount, pair: (nat, nat), ppc: Amount, orderHash: nat)

  /** A match message; its timestamp is taken by the node that holds it. */
  datatype Match = Match(trade: Terms, timestamp: int)

  /** What each side asked for, at the amount, pair and price of a template. */
  function Recast(trade: Terms, template: Terms): Terms
  {
    trade.(amount := template.amount, pair := template.pair, ppc := template.ppc)
  }

  /** A trade of its own side and order, on the terms of another. */
  predicate Keeps(r: Terms, own: Terms, terms: Terms)
  {
    r.action == own.action && r.orderHash == own.orderHash &&
    r.amount == terms.amount && r.pair == terms.pair && r.ppc == terms.ppc
  }

  function Template(sent: Match, reply: Match): Terms
  {
    if sent.timestamp > reply.timestamp then sent.trade else reply.trade
  }

  /** The guarded state and the calibration are methods of one object. */
  class MatchState {
    var state: State
    var matchSent: Option<Match>
    var matchReply: Option<Match>
    var toSend: Option<Terms>
    var toRecv: Option<Terms>

    constructor (sent: Option<Match>, reply: Option<Match>)
      requires sent.Some? || reply.Some?
      ensures state == Unset && matchSent == sent && matchReply == reply
      ensures toSend == None && toRecv == None
    {
      state, matchSent, matchReply, toSend, toRecv := Unset, sent, reply, None, None;
    }

    method UpdateState(request: State) returns (taken: bool)
      modifies this`state
      ensures taken == MayEnter(old(state), request)
      ensures state == Updated(old(state), request)
      ensures state != old(state) ==> Rank(state) > Rank(old(state))
    {
      RequestMovesForward(state, request);
      if MayEnter(state, request) {
        state := request;
        return true;
      }
      return false;
    }

    method CalibrateTrades() returns (done: bool)
      modifies this`toSend, this`toRecv
      ensures done == (matchSent.Some? && matchReply.Some?)
      ensures done ==>
                var template := Template(matchSent.value, matchReply.value);
                toSend == Some(Recast(matchSent.value.trade, template)) &&
                toRecv == Some(Recast(matchReply.value.trade, template))
      ensures done ==>
                var (sent, reply) := (matchSent.value, matchReply.value);
                var newer := if reply.timestamp < sent.timestamp then sent.trade else reply.trade;
                Keeps(toSend.value, sent.trade, newer) && Keeps(toRecv.value, reply.trade, newer)
      ensures !done ==> toSend == old(toSend) && toRecv == old(toRecv)
    {
      if matchSent == None || matchReply == None { return false; }
      var sent, reply := matchSent.value, matchReply.value;
      if sent.timestamp > reply.timestamp {
        toSend := Some(Terms(sent.trade.action, sent.trade.amount, sent.trade.pair, sent.trade.ppc,
                             sent.trade.orderHash));
        toRecv := Some(Terms(reply.trade.action, sent.trade.amount, sent.trade.pair, sent.trade.ppc,
                             reply.trade.orderHash));
      } else {
        toSend := Some(Terms(sent.trade.action, reply.trade.amount, reply.trade.pair, reply.trade.ppc,
                             sent.trade.orderHash));
        toRecv := Some(Terms(reply.trade.action, reply.trade.amount, reply.trade.pair, reply.trade.ppc,
                             reply.trade.orderHash));
      }
      return true;
    }
  }

  /** Two nodes hold the same two matches with their roles swapped, each with its
      own timestamps. What one will send is what the other will receive exactly
      when both take the same match as the newer one, or its terms do not differ. */
  lemma CalibrationsMirror(a: Terms, b: Terms, ours: (int, int), theirs: (int, int))
    ensures var template := Template(Match(a, ours.0), Match(b, ours.1));
            var template' := Template(Match(b, theirs.1), Match(a, theirs.0));
            Recast(a, template) == Recast(a, template') && Recast(b, template) == Recast(b, template')
            <==> (ours.0 > ours.1 <==> theirs.0 >= theirs.1)
                 || (a.amount == b.amount && a.pair == b.pair && a.ppc == b.ppc)
  {
  }
}
