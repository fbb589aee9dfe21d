/** One microtransfer contract: its amounts, the refund transactions it builds
    and the payment channel that moves the amounts one chunk at a time. */
module Microtransfer {
  import opened Amounts
  import opened Outcome

  // ----- transactions --------------------------------------------------------------

  type Txid = nat
  type Address = nat
  type Key = nat

  const FINAL_SEQUENCE: nat := 0xffffffff

  datatype Input = Input(prevout: Txid, sequence: nat)

  /** An output to an address, in satoshi. */
  datatype Output = Output(to: Address, value: nat)

  datatype Tx = Tx(inputs: seq<Input>, outputs: seq<Output>, lockTime: nat)

  /** A signature is known by the key that made it and the transaction signed. */
  datatype Sig = Sig(key: Key, tx: Tx)

  /** What one side of a contract knows from the start. */
  datatype Terms = Terms(
    toSend: Amount,
    toRecv: Amount,
    ourChunk: Amount,
    theirChunk: Amount,
    ourFee: Amount,
    theirFee: Amount,
    ourAddress: Address,
    theirAddress: Address,
    changeAddress: Address,
    ourKeys: (Key, Key),
    theirKeys: (Key, Key),
    lockTime: nat)
  {
    /** What may be moved to the other side. */
    function Upload(): Amount
      requires ourChunk + ourFee <= toSend
    {
      toSend - (ourChunk + ourFee)
    }

    function Download(): Amount
      requires theirChunk + theirFee <= toRecv
    {
      toRecv - (theirChunk + theirFee)
    }
  }

  /** The checks of the constructor; a contract failing one of them raises. */
  predicate Feasible(t: Terms, ourDust: Amount, theirDust: Amount)
  {
    t.ourChunk + t.ourFee < t.toSend && t.theirChunk + t.theirFee < t.toRecv &&
    t.Upload() >= ourDust && t.Download() >= theirDust
  }

  /** A contract can be made exactly when what either side would move is something,
      and no less than its coin's dust. */
  lemma FeasibleIff(t: Terms, ourDust: Amount, theirDust: Amount)
    ensures var (up, down) := (t.toSend - t.ourChunk - t.ourFee, t.toRecv - t.theirChunk - t.theirFee);
            Feasible(t, ourDust, theirDust) <==> 0 < up && ourDust <= up && 0 < down && theirDust <= down
  {
  }

  /** The part of Feasible that does not depend on the coins' dust thresholds. */
  predicate Fundable(t: Terms)
  {
    t.ourChunk + t.ourFee < t.toSend && t.theirChunk + t.theirFee < t.toRecv
  }

  // ----- refund transactions -----------------------------------------------------------

  /** The full refund, time-locked, that is signed before any coin is committed. */
  function FullRefund(t: Terms, setupTxid: Txid): Tx
    requires Fundable(t)
  {
    Tx([Input(setupTxid, 0)], [Output(t.changeAddress, InSatoshi(t.Upload()))], t.lockTime)
  }

  /** A final transaction paying `amount` to them and the rest back. */
  function AdjustedRefund(t: Terms, setupTxid: Txid, amount: Amount): Tx
    requires Fundable(t) && amount <= t.Upload()
  {
    var rest := t.Upload() - amount;
    Tx([Input(setupTxid, FINAL_SEQUENCE)],
       (if rest > 0 then [Output(t.changeAddress, InSatoshi(rest))] else [])
       + [Output(t.theirAddress, InSatoshi(amount))],
       0)
  }

  /** The first output to an address. */
  function FirstPaid(outputs: seq<Output>, to: Address): nat
  {
    if outputs == [] then 0
    else if outputs[0].to == to then outputs[0].value else FirstPaid(outputs[1..], to)
  }

  function Total(outputs: seq<Output>): nat
  {
    if outputs == [] then 0 else outputs[0].value + Total(outputs[1..])
  }

  /** In whole satoshi every refund spends exactly the contract output less the
      transaction fee; otherwise truncation leaves at most one satoshi more. */
  lemma RefundsSpendTheContract(t: Terms, setupTxid: Txid, amount: Amount)
    requires Fundable(t) && amount <= t.Upload()
    ensures Total(FullRefund(t, setupTxid).outputs) == InSatoshi(t.Upload())
    ensures var paid := Total(AdjustedRefund(t, setupTxid, amount).outputs);
            InSatoshi(t.Upload()) - 1 <= paid <= InSatoshi(t.Upload())
    ensures WholeSatoshi(amount) || WholeSatoshi(t.Upload() - amount) ==>
              Total(AdjustedRefund(t, setupTxid, amount).outputs) == InSatoshi(t.Upload())
    ensures WholeSatoshi(t.ourFee) ==>
              Total(FullRefund(t, setupTxid).outputs) + InSatoshi(t.ourFee)
              == InSatoshi(t.Upload() + t.ourFee)
  {
    var outs := AdjustedRefund(t, setupTxid, amount).outputs;
    if t.Upload() > amount {
      assert outs[1..] == [Output(t.theirAddress, InSatoshi(amount))];
      assert outs[1..][1..] == [];
    } else {
      assert outs[1..] == [];
    }
  }

  // ----- the channel -------------------------------------------------------------------

  /** What arrives with return_adjusted_refund. */
  datatype Payment = Payment(tx: Tx, sig1: Sig, sig2: Sig)

  /** The result of adjusting: refused, finished, or a payment to pass on. */
  datatype Adjusted = Refused | Finished | Pays(payment: Payment)

  /** What has moved, and the latest payment taken with its signatures. */
  datatype Channel = Channel(sent: Amount, recv: Amount, download: Option<Payment>)

  function Min(a: Amount, b: Amount): Amount
  {
    if a < b then a else b
  }

  predicate Open(t: Terms, c: Channel)
  {
    Fundable(t) && c.sent <= t.Upload() && c.recv <= t.Download()
  }

  function SendChunk(t: Terms, c: Channel): Amount
    requires Open(t, c)
  {
    Min(t.ourChunk, t.Upload() - c.sent)
  }

  function RecvChunk(t: Terms, c: Channel): Amount
    requires Open(t, c)
  {
    Min(t.theirChunk, t.Download() - c.recv)
  }

  /** A payment is taken when it is final, spends their setup, pays us what is
      expected by now (and something at all) and is signed by both their keys. */
  predicate Acceptable(t: Terms, c: Channel, theirSetup: Txid, theirRefund: Tx, p: Payment)
    requires Open(t, c)
  {
    theirRefund.inputs != [] && theirRefund.inputs[0].prevout == theirSetup &&
    p.tx.inputs != [] && p.tx.inputs[0].prevout == theirSetup &&
    var found := FirstPaid(p.tx.outputs, t.ourAddress);
    found != 0 && found >= InSatoshi(c.recv + RecvChunk(t, c)) &&
    p.tx.lockTime == 0 &&
    (forall i :: 0 <= i < |p.tx.inputs| ==> p.tx.inputs[i].sequence == FINAL_SEQUENCE) &&
    p.sig1 == Sig(t.theirKeys.0, p.tx) && p.sig2 == Sig(t.theirKeys.1, p.tx)
  }

  function SignedRefund(t: Terms, setupTxid: Txid, amount: Amount): Payment
    requires Fundable(t) && amount <= t.Upload()
  {
    var tx := AdjustedRefund(t, setupTxid, amount);
    Payment(tx, Sig(t.ourKeys.0, tx), Sig(t.ourKeys.1, tx))
  }

  /** The state after adjusting with a received payment, or to initiate. */
  function After(t: Terms, c: Channel, theirSetup: Txid, theirRefund: Tx, received: Option<Payment>): Channel
    requires Open(t, c)
  {
    match received
    case None => Channel(c.sent + SendChunk(t, c), c.recv, c.download)
    case Some(p) =>
      if Acceptable(t, c, theirSetup, theirRefund, p)
      then Channel(c.sent + SendChunk(t, c), c.recv + RecvChunk(t, c), Some(p))
      else c
  }

  function Answer(t: Terms, c: Channel, ourSetup: Txid, theirSetup: Txid, theirRefund: Tx,
                  received: Option<Payment>): Adjusted
    requires Open(t, c)
  {
    if received.Some? && !Acceptable(t, c, theirSetup, theirRefund, received.value) then Refused
    else if SendChunk(t, c) == 0 && (received.None? || RecvChunk(t, c) == 0) then Finished
    else Pays(SignedRefund(t, ourSetup, c.sent + SendChunk(t, c)))
  }

  /** The contract as the node holds it: trade.sent, trade.recv and the latest
      download change with every payment that is taken. */
  class MicrotransferContract {
    const terms: Terms
    var sent: Amount
    var recv: Amount
    var download: Option<Payment>

    ghost predicate Valid()
      reads this
    {
      Open(terms, View())
    }

    function View(): Channel
      reads this
    {
      Channel(sent, recv, download)
    }

    constructor (terms: Terms)
      requires Fundable(terms)
      ensures this.terms == terms && View() == Channel(0, 0, None) && Valid()
    {
      this.terms := terms;
      sent, recv, download := 0, 0, None;
    }

    /** Builds the contract, or raises when an amount is too small. */
    static method Create(t: Terms, ourDust: Amount, theirDust: Amount)
        returns (r: Result<MicrotransferContract>)
      ensures r.Ok? <==> Feasible(t, ourDust, theirDust)
      ensures r.Ok? ==> fresh(r.value) && r.value.terms == t && r.value.Valid()
      ensures r.Ok? ==> r.value.View() == Channel(0, 0, None)
    {
      var ourCeiling := t.ourChunk + t.ourFee;
      var theirCeiling := t.theirChunk + t.theirFee;
      if ourCeiling >= t.toSend { return Raised; }
      if theirCeiling >= t.toRecv { return Raised; }
      var upload := t.toSend - ourCeiling;
      var download := t.toRecv - theirCeiling;
      if upload < ourDust { return Raised; }
      if download < theirDust { return Raised; }
      var contract := new MicrotransferContract(t);
      r := Ok(contract);
    }

    method AdjustRefundTx(ourSetup: Txid, theirSetup: Txid, theirRefund: Tx, received: Option<Payment>)
        returns (ret: Adjusted)
      requires Valid()
      modifies this
      ensures Valid()
      ensures View() == After(terms, old(View()), theirSetup, theirRefund, received)
      ensures ret == Answer(terms, old(View()), ourSetup, theirSetup, theirRefund, received)
    {
      var remaining := terms.Upload() - sent;
      var sendChunk := terms.ourChunk;
      if sendChunk > remaining { sendChunk := remaining; }
      remaining := terms.Download() - recv;
      var recvChunk := terms.theirChunk;
      if recvChunk > remaining { recvChunk := remaining; }

      if received.Some? {
        var tx := received.value.tx;
        if theirRefund.inputs == [] || theirRefund.inputs[0].prevout != theirSetup { return Refused; }
        var expected := recv + recvChunk;
        if tx.inputs == [] || tx.inputs[0].prevout != theirSetup { return Refused; }
        var found := FindOutput(tx.outputs);
        if found == 0 { return Refused; }
        if found < InSatoshi(expected) { return Refused; }
        if tx.lockTime != 0 { return Refused; }
        for i := 0 to |tx.inputs|
          invariant forall j :: 0 <= j < i ==> tx.inputs[j].sequence == FINAL_SEQUENCE
        {
          if tx.inputs[i].sequence != FINAL_SEQUENCE { return Refused; }
        }
        if received.value.sig1 != Sig(terms.theirKeys.0, tx) ||
           received.value.sig2 != Sig(terms.theirKeys.1, tx) { return Refused; }
        download := received;
      } else {
        recvChunk := 0;
      }

      var refundAmount := sent + sendChunk;
      var payment := SignedRefund(terms, ourSetup, refundAmount);
      sent := sent + sendChunk;
      recv := recv + recvChunk;
      if sendChunk == 0 && recvChunk == 0 { return Finished; }
      return Pays(payment);
    }

    method FindOutput(outputs: seq<Output>) returns (found: nat)
      ensures found == FirstPaid(outputs, terms.ourAddress)
      ensures forall i :: 0 <= i < |outputs| && outputs[i].to == terms.ourAddress ==>
                found == outputs[i].value || exists j :: 0 <= j < i && outputs[j].to == terms.ourAddress
      ensures (forall i :: 0 <= i < |outputs| ==> outputs[i].to != terms.ourAddress) ==> found == 0
    {
      found := 0;
      for i := 0 to |outputs|
        invariant found == 0 && forall j :: 0 <= j < i ==> outputs[j].to != terms.ourAddress
        invariant FirstPaid(outputs, terms.ourAddress) == FirstPaid(outputs[i..], terms.ourAddress)
      {
        if outputs[i].to == terms.ourAddress {
          return outputs[i].value;
        }
        assert outputs[i..][1..] == outputs[i + 1..];
      }
    }
  }

  // ----- bounded exposure -----------------------------------------------------------

  /** A payment as the channel meets it: with their setup and refund as known then. */
  datatype Incoming = Incoming(theirSetup: Txid, theirRefund: Tx, payment: Payment)

  /** The channel after a sequence of arbitrary payments. */
  function Fed(t: Terms, c: Channel, msgs: seq<Incoming>): (r: Channel)
    requires Open(t, c)
    ensures Open(t, r)
    decreases |msgs|
  {
    if msgs == [] then c
    else Fed(t, After(t, c, msgs[0].theirSetup, msgs[0].theirRefund, Some(msgs[0].payment)), msgs[1..])
  }

  /** How many of them are taken. */
  function Taken(t: Terms, c: Channel, msgs: seq<Incoming>): (k: nat)
    requires Open(t, c)
    ensures k <= |msgs|
    decreases |msgs|
  {
    if msgs == [] then 0
    else
      (if Acceptable(t, c, msgs[0].theirSetup, msgs[0].theirRefund, msgs[0].payment) then 1 else 0)
      + Taken(t, After(t, c, msgs[0].theirSetup, msgs[0].theirRefund, Some(msgs[0].payment)), msgs[1..])
  }

  /** A payment that can be published at any time: both its owners have signed it as
      it is, and nothing holds it up. */
  predicate Redeemable(t: Terms, p: Payment)
  {
    p.sig1.key == t.theirKeys.0 && p.sig2.key == t.theirKeys.1 && p.sig1.tx == p.tx == p.sig2.tx &&
    p.tx.lockTime == 0 && p.tx.inputs != [] &&
    forall i :: 0 <= i < |p.tx.inputs| ==> p.tx.inputs[i].sequence == FINAL_SEQUENCE
  }

  /** The amounts after k payments were taken, `ahead` chunks having been sent first,
      and what the latest payment taken is worth. */
  ghost predicate Settled(t: Terms, c: Channel, k: nat, ahead: nat)
    requires Fundable(t)
  {
    c.recv == Min(k * t.theirChunk, t.Download()) &&
    c.sent == Min((k + ahead) * t.ourChunk, t.Upload()) &&
    (k > 0 ==> c.download.Some? && Redeemable(t, c.download.value) &&
               FirstPaid(c.download.value.tx.outputs, t.ourAddress) >= InSatoshi(c.recv))
  }

  /** Adding a chunk, but no more than is left, counts one chunk more. */
  lemma NextChunk(k: nat, chunk: Amount, limit: Amount)
    ensures Min(k * chunk, limit) + Min(chunk, limit - Min(k * chunk, limit)) == Min((k + 1) * chunk, limit)
  {
    assert (k + 1) * chunk == k * chunk + chunk;
  }

  lemma TakenStep(t: Terms, c: Channel, k: nat, ahead: nat, m: Incoming)
    requires Open(t, c) && Settled(t, c, k, ahead)
    ensures var c' := After(t, c, m.theirSetup, m.theirRefund, Some(m.payment));
            if Acceptable(t, c, m.theirSetup, m.theirRefund, m.payment) then Settled(t, c', k + 1, ahead)
            else c' == c
  {
    NextChunk(k, t.theirChunk, t.Download());
    NextChunk(k + ahead, t.ourChunk, t.Upload());
  }

  lemma {:induction false} SettledRun(t: Terms, c: Channel, k: nat, ahead: nat, msgs: seq<Incoming>)
    requires Open(t, c) && Settled(t, c, k, ahead)
    ensures Settled(t, Fed(t, c, msgs), k + Taken(t, c, msgs), ahead)
    decreases |msgs|
  {
    if msgs != [] {
      var m := msgs[0];
      TakenStep(t, c, k, ahead, m);
      var c' := After(t, c, m.theirSetup, m.theirRefund, Some(m.payment));
      SettledRun(t, c', if Acceptable(t, c, m.theirSetup, m.theirRefund, m.payment) then k + 1 else k,
                 ahead, msgs[1..]);
    }
  }

  function Fresh(): Channel
  {
    Channel(0, 0, None)
  }

  /** What one side risks against any counterparty, whatever arrives: the side
      that initiates has signed one chunk more than it was paid for, the other
      side none, and the download it holds pays what it was credited. */
  lemma BoundedExposure(t: Terms, initiator: bool, theirSetup: Txid, theirRefund: Tx, msgs: seq<Incoming>)
    requires Fundable(t)
    ensures var start := if initiator then After(t, Fresh(), theirSetup, theirRefund, None) else Fresh();
            Settled(t, Fed(t, start, msgs), Taken(t, start, msgs), if initiator then 1 else 0)
  {
    var start := if initiator then After(t, Fresh(), theirSetup, theirRefund, None) else Fresh();
    NextChunk(0, t.ourChunk, t.Upload());
    SettledRun(t, start, 0, if initiator then 1 else 0, msgs);
  }

  /** A payment is refused, and changes nothing, if any one thing is wrong with it:
      its signatures, lock time or sequences, what it spends, or what it pays us. */
  lemma FaultyIsRefused(t: Terms, c: Channel, ourSetup: Txid, theirSetup: Txid, theirRefund: Tx, p: Payment)
    requires Open(t, c)
    requires !Redeemable(t, p) || p.tx.inputs[0].prevout != theirSetup
             || theirRefund.inputs == [] || theirRefund.inputs[0].prevout != theirSetup
             || FirstPaid(p.tx.outputs, t.ourAddress) == 0
             || FirstPaid(p.tx.outputs, t.ourAddress) < InSatoshi(Min(c.recv + t.theirChunk, t.Download()))
    ensures After(t, c, theirSetup, theirRefund, Some(p)) == c
    ensures Answer(t, c, ourSetup, theirSetup, theirRefund, Some(p)) == Refused
  {
  }

  /** And only then: a payment with none of these faults is taken. */
  lemma FlawlessIsTaken(t: Terms, c: Channel, ourSetup: Txid, theirSetup: Txid, theirRefund: Tx, p: Payment)
    requires Open(t, c)
    requires Redeemable(t, p) && p.tx.inputs[0].prevout == theirSetup
    requires theirRefund.inputs != [] && theirRefund.inputs[0].prevout == theirSetup
    requires FirstPaid(p.tx.outputs, t.ourAddress) > 0
    requires FirstPaid(p.tx.outputs, t.ourAddress) >= InSatoshi(Min(c.recv + t.theirChunk, t.Download()))
    ensures var r := After(t, c, theirSetup, theirRefund, Some(p));
            r.download == Some(p) && r.recv == Min(c.recv + t.theirChunk, t.Download()) &&
            r.sent == Min(c.sent + t.ourChunk, t.Upload())
    ensures !Answer(t, c, ourSetup, theirSetup, theirRefund, Some(p)).Refused?
  {
  }

  /** The download held after any messages is one of the payments that came, and
      spends the setup that was known to be theirs when it came. */
  lemma {:induction false} DownloadCame(t: Terms, c: Channel, msgs: seq<Incoming>)
    requires Open(t, c)
    ensures var r := Fed(t, c, msgs).download;
            r == c.download ||
            exists i :: 0 <= i < |msgs| && r == Some(msgs[i].payment) && Redeemable(t, msgs[i].payment) &&
                        msgs[i].payment.tx.inputs[0].prevout == msgs[i].theirSetup
    decreases |msgs|
  {
    if msgs != [] {
      var m := msgs[0];
      var next := After(t, c, m.theirSetup, m.theirRefund, Some(m.payment));
      DownloadCame(t, next, msgs[1..]);
      var r := Fed(t, c, msgs).download;
      if r == next.download {
        assert next == c || r == Some(msgs[0].payment);
      } else {
        var i :| 0 <= i < |msgs[1..]| && r == Some(msgs[1..][i].payment) && Redeemable(t, msgs[1..][i].payment) &&
                 msgs[1..][i].payment.tx.inputs[0].prevout == msgs[1..][i].theirSetup;
        assert msgs[i + 1] == msgs[1..][i];
      }
    }
  }

  // ----- two honest sides ------------------------------------------------------------

  /** The two ends of one contract: what one side sends the other receives. */
  ghost predicate Mirrored(a: Terms, b: Terms)
  {
    a.toSend == b.toRecv && b.toSend == a.toRecv &&
    a.ourChunk == b.theirChunk && b.ourChunk == a.theirChunk &&
    a.ourFee == b.theirFee && b.ourFee == a.theirFee &&
    a.ourAddress == b.theirAddress && b.ourAddress == a.theirAddress &&
    a.ourKeys == b.theirKeys && b.ourKeys == a.theirKeys &&
    a.lockTime == b.lockTime &&
    a.changeAddress != b.ourAddress && b.changeAddress != a.ourAddress
  }

  /** The payment that raises the total sent to n chunks. */
  function NthPayment(t: Terms, setup: Txid, n: nat): Payment
    requires Fundable(t)
  {
    SignedRefund(t, setup, Min(n * t.ourChunk, t.Upload()))
  }

  lemma FirstPaidByRefund(a: Terms, setup: Txid, amount: Amount, to: Address)
    requires Fundable(a) && amount <= a.Upload() && a.theirAddress == to && a.changeAddress != to
    ensures FirstPaid(AdjustedRefund(a, setup, amount).outputs, to) == InSatoshi(amount)
  {
    var outs := AdjustedRefund(a, setup, amount).outputs;
    if a.Upload() > amount {
      assert outs[1..] == [Output(to, InSatoshi(amount))];
    }
  }

  /** The (k+1)-st honest payment is taken after k others exactly when it is worth
      a satoshi at all. */
  lemma HonestPaymentTaken(a: Terms, b: Terms, c: Channel, k: nat, ahead: nat, setup: Txid, refund: Tx)
    requires Fundable(a) && Open(b, c) && Mirrored(a, b) && Settled(b, c, k, ahead)
    requires refund.inputs != [] && refund.inputs[0].prevout == setup
    ensures Acceptable(b, c, setup, refund, NthPayment(a, setup, k + 1))
            <==> InSatoshi(Min((k + 1) * a.ourChunk, a.Upload())) > 0
  {
    NextChunk(k, b.theirChunk, b.Download());
    FirstPaidByRefund(a, setup, Min((k + 1) * a.ourChunk, a.Upload()), b.ourAddress);
  }

  /** After k payments a side answers with its next payment unless all is done. */
  lemma HonestAnswer(b: Terms, c: Channel, k: nat, ahead: nat, ourSetup: Txid, theirSetup: Txid,
                     refund: Tx, p: Payment)
    requires Open(b, c) && Settled(b, c, k, ahead) && Acceptable(b, c, theirSetup, refund, p)
    requires b.ourChunk > 0 && b.theirChunk > 0
    ensures var answer := Answer(b, c, ourSetup, theirSetup, refund, Some(p));
            if c.sent == b.Upload() && c.recv == b.Download() then answer == Finished
            else answer == Pays(NthPayment(b, ourSetup, k + ahead + 1))
  {
    NextChunk(k + ahead, b.ourChunk, b.Upload());
  }

  /** The number of chunks an amount takes. */
  function Rounds(amount: Amount, chunk: Amount): nat
    requires chunk > 0
  {
    (amount + chunk - 1) / chunk
  }

  lemma RoundsReach(amount: Amount, chunk: Amount, n: nat)
    requires chunk > 0
    ensures Min(n * chunk, amount) == amount <==> n >= Rounds(amount, chunk)
  {
    var r := Rounds(amount, chunk);
    assert amount + chunk - 1 == r * chunk + (amount + chunk - 1) % chunk;
    assert r * chunk >= amount && (r - 1) * chunk < amount by {
      assert (r - 1) * chunk == r * chunk - chunk;
    }
    if n >= r {
      assert n * chunk >= r * chunk by { assert (n - r) * chunk >= 0; }
    } else {
      assert n * chunk <= (r - 1) * chunk by { assert (r - 1 - n) * chunk >= 0; }
    }
  }
}
