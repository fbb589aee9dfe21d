/** The setup transaction that funds a factory's contracts: how its outputs are
    built, and the fee equation by which both the other nodes and the contract
    server check it. */
module SetupTx {
  import opened Outcome
  import opened Amounts
  import M = Microtransfer

  type Script = nat

  const MAX_CONTRACTS: nat := 10

  /** A transaction output, in satoshi. */
  datatype Vout = Vout(script: Script, value: nat)

  /** A contract as its factory sees it. */
  datatype Slot = Slot(hash: nat, toSend: Amount, chunk: Amount, script: Script)

  /** What a factory starts from: the amount behind its green address, the fee
      rate, and the coin's transaction fee and dust threshold. */
  datatype Terms = Terms(deposit: Amount, rate: Amount, txFee: Amount, dust: Amount)

  /** What changes as contracts are added. */
  datatype Book = Book(remaining: Amount, total: Amount, fees: Amount, contracts: seq<Slot>)

  function Chunks(slots: seq<Slot>): Amount
  {
    if slots == [] then 0 else slots[0].chunk + Chunks(slots[1..])
  }

  function Sends(slots: seq<Slot>): Amount
  {
    if slots == [] then 0 else slots[0].toSend + Sends(slots[1..])
  }

  /** The contract passed its own check of its amounts. */
  predicate Fundable(txFee: Amount, s: Slot)
  {
    s.chunk + txFee < s.toSend
  }

  /** What a contract's output holds: its upload amount and one transaction fee. */
  function Funding(txFee: Amount, s: Slot): Amount
    requires Fundable(txFee, s)
  {
    (s.toSend - (s.chunk + txFee)) + txFee
  }

  predicate AllFundable(txFee: Amount, slots: seq<Slot>)
  {
    forall i :: 0 <= i < |slots| ==> Fundable(txFee, slots[i])
  }

  /** An insertion-ordered dictionary: a hash already known keeps its place. */
  function Put(slots: seq<Slot>, s: Slot): (r: seq<Slot>)
    ensures |slots| <= |r| <= |slots| + 1
    ensures forall i :: 0 <= i < |r| ==> r[i] == s || r[i] in slots
  {
    if slots == [] then [s]
    else if slots[0].hash == s.hash then [s] + slots[1..]
    else [slots[0]] + Put(slots[1..], s)
  }

  predicate Known(slots: seq<Slot>, hash: nat)
  {
    exists i :: 0 <= i < |slots| && slots[i].hash == hash
  }

  lemma {:induction false} PutAddsUp(slots: seq<Slot>, s: Slot)
    ensures Sends(Put(slots, s)) <= Sends(slots) + s.toSend
    ensures !Known(slots, s.hash) ==>
              Put(slots, s) == slots + [s] && Sends(Put(slots, s)) == Sends(slots) + s.toSend
    decreases |slots|
  {
    if slots != [] {
      assert slots == [slots[0]] + slots[1..];
      if slots[0].hash == s.hash {
        assert ([s] + slots[1..])[1..] == slots[1..];
      } else {
        PutAddsUp(slots[1..], s);
        assert ([slots[0]] + Put(slots[1..], s))[1..] == Put(slots[1..], s);
        assert Known(slots[1..], s.hash) ==> Known(slots, s.hash);
      }
    } else {
      assert [s][1..] == [];
    }
  }

  function Lookup(slots: seq<Slot>, hash: nat): Option<Slot>
  {
    if slots == [] then None else if slots[0].hash == hash then Some(slots[0]) else Lookup(slots[1..], hash)
  }

  /** Recording a contract changes what is found under its hash and nothing else. */
  lemma {:induction false} PutIsFound(slots: seq<Slot>, s: Slot, hash: nat)
    ensures Lookup(Put(slots, s), hash) == if hash == s.hash then Some(s) else Lookup(slots, hash)
    decreases |slots|
  {
    if slots != [] {
      PutIsFound(slots[1..], s, hash);
      assert ([slots[0]] + Put(slots[1..], s))[1..] == Put(slots[1..], s) && ([s] + slots[1..])[1..] == slots[1..];
    }
  }

  // ----- filling a factory ----------------------------------------------------------------

  /** What a factory keeps as contracts are added to it. */
  predicate Kept(t: Terms, b: Book)
  {
    b.fees == Times(t.deposit, t.rate) &&
    b.remaining + b.total + b.fees == t.deposit &&
    Sends(b.contracts) <= b.total &&
    |b.contracts| <= MAX_CONTRACTS && AllFundable(t.txFee, b.contracts) &&
    (b.contracts != [] ==> b.remaining == 0 || b.remaining >= t.dust)
  }

  predicate Addable(t: Terms, b: Book, s: Slot, feasible: bool)
  {
    b.remaining >= s.toSend && |b.contracts| < MAX_CONTRACTS && feasible &&
    (b.remaining - s.toSend == 0 || b.remaining - s.toSend >= t.dust)
  }

  function Added(b: Book, s: Slot): Book
    requires b.remaining >= s.toSend
  {
    Book(b.remaining - s.toSend, b.total + s.toSend, b.fees, Put(b.contracts, s))
  }

  /** A new contract can be added exactly when what is left covers it and the factory
      then still is as it should be. */
  lemma AddableIff(t: Terms, b: Book, s: Slot)
    requires Kept(t, b) && Fundable(t.txFee, s) && !Known(b.contracts, s.hash)
    ensures Addable(t, b, s, true) <==> s.toSend <= b.remaining && Kept(t, Added(b, s))
  {
    PutAddsUp(b.contracts, s);
    if s.toSend <= b.remaining {
      assert Added(b, s).contracts == b.contracts + [s];
    }
  }

  /** A factory takes ten contracts and no more. */
  lemma TenAtMost(t: Terms, b: Book, s: Slot)
    requires Kept(t, b) && s.toSend == b.remaining
    ensures Addable(t, b, s, true) <==> |b.contracts| < 10
  {
  }

  // ----- the outputs ---------------------------------------------------------------------

  /** The trade fee charged: on the whole deposit when every coin of it goes into
      a contract, otherwise only on what does not. */
  function Charged(t: Terms, b: Book): Amount
  {
    if Sends(b.contracts) + b.fees < t.deposit
    then Times(t.deposit - (Sends(b.contracts) + b.fees), t.rate) else b.fees
  }

  function FeeOutput(t: Terms, b: Book): Amount
  {
    Chunks(b.contracts) + Charged(t, b)
  }

  function Fundings(txFee: Amount, slots: seq<Slot>): (r: seq<Amount>)
    requires AllFundable(txFee, slots)
    ensures |r| == |slots|
  {
    if slots == [] then [] else [Funding(txFee, slots[0])] + Fundings(txFee, slots[1..])
  }

  function Sum(amounts: seq<Amount>): Amount
  {
    if amounts == [] then 0 else amounts[0] + Sum(amounts[1..])
  }

  lemma {:induction false} FundingsAndChunks(txFee: Amount, slots: seq<Slot>)
    requires AllFundable(txFee, slots)
    ensures Sum(Fundings(txFee, slots)) + Chunks(slots) == Sends(slots)
    decreases |slots|
  {
    if slots != [] {
      FundingsAndChunks(txFee, slots[1..]);
    }
  }

  /** What the fee output and the contract outputs take from the deposit. */
  function Taken(t: Terms, b: Book): Amount
    requires AllFundable(t.txFee, b.contracts)
  {
    FeeOutput(t, b) + Sum(Fundings(t.txFee, b.contracts))
  }

  /** Outputs before they are rounded to satoshi: fee, contracts, change. */
  function Outputs(t: Terms, b: Book): seq<Amount>
    requires AllFundable(t.txFee, b.contracts)
  {
    [FeeOutput(t, b)] + Fundings(t.txFee, b.contracts)
    + (if Taken(t, b) < t.deposit then [t.deposit - Taken(t, b)] else [])
  }

  lemma {:induction false} SumAppends(a: seq<Amount>, b: seq<Amount>)
    ensures Sum(a + b) == Sum(a) + Sum(b)
    decreases |a|
  {
    if a == [] {
      assert a + b == b;
    } else {
      SumAppends(a[1..], b);
      assert (a + b)[1..] == a[1..] + b;
    }
  }

  lemma TakenWithinDeposit(t: Terms, b: Book)
    requires Kept(t, b) && t.rate <= SCALE
    ensures Taken(t, b) == Sends(b.contracts) + Charged(t, b) <= t.deposit
  {
    FundingsAndChunks(t.txFee, b.contracts);
    var rest := t.deposit - (Sends(b.contracts) + b.fees);
    RateAtMostOne(rest, t.rate);
  }

  /** A factory filled through AddContract splits its deposit exactly: not one unit
      is lost and none is spent twice. */
  lemma OutputsSumToTheDeposit(t: Terms, b: Book)
    requires Kept(t, b) && t.rate <= SCALE
    ensures Sum(Outputs(t, b)) == t.deposit
  {
    TakenWithinDeposit(t, b);
    var head, mid := [FeeOutput(t, b)], Fundings(t.txFee, b.contracts);
    var change := if Taken(t, b) < t.deposit then [t.deposit - Taken(t, b)] else [];
    SumAppends(head + mid, change);
    SumAppends(head, mid);
    assert head[1..] == [] && (change != [] ==> change[1..] == []);
  }

  // ----- in satoshi ----------------------------------------------------------------------

  function SatoshiSum(amounts: seq<Amount>): nat
  {
    if amounts == [] then 0 else InSatoshi(amounts[0]) + SatoshiSum(amounts[1..])
  }

  predicate AllWhole(amounts: seq<Amount>)
  {
    forall i :: 0 <= i < |amounts| ==> WholeSatoshi(amounts[i])
  }

  /** Rounding each amount to satoshi loses less than one satoshi an amount, and
      nothing when they are whole. */
  lemma {:induction false} RoundingLoses(amounts: seq<Amount>)
    ensures SatoshiSum(amounts) * SATOSHI <= Sum(amounts)
    ensures amounts != [] ==> Sum(amounts) < (SatoshiSum(amounts) + |amounts|) * SATOSHI
    ensures AllWhole(amounts) ==> SatoshiSum(amounts) * SATOSHI == Sum(amounts)
    decreases |amounts|
  {
    if amounts != [] {
      assert AllWhole(amounts) ==> AllWhole(amounts[1..]);
      RoundingLoses(amounts[1..]);
    }
  }

  function Total(vouts: seq<Vout>): nat
  {
    if vouts == [] then 0 else vouts[0].value + Total(vouts[1..])
  }

  function ContractVouts(txFee: Amount, slots: seq<Slot>): (r: seq<Vout>)
    requires AllFundable(txFee, slots)
    ensures |r| == |slots|
    ensures forall i :: 0 <= i < |r| ==> r[i].script == slots[i].script
  {
    if slots == [] then []
    else [Vout(slots[0].script, InSatoshi(Funding(txFee, slots[0])))] + ContractVouts(txFee, slots[1..])
  }

  /** The setup transaction's outputs. */
  function SetupVouts(t: Terms, b: Book, feeScript: Script, changeScript: Script): seq<Vout>
    requires AllFundable(t.txFee, b.contracts)
  {
    [Vout(feeScript, InSatoshi(FeeOutput(t, b)))] + ContractVouts(t.txFee, b.contracts)
    + (if Taken(t, b) < t.deposit then [Vout(changeScript, InSatoshi(t.deposit - Taken(t, b)))] else [])
  }

  lemma {:induction false} TotalAppends(a: seq<Vout>, b: seq<Vout>)
    ensures Total(a + b) == Total(a) + Total(b)
    decreases |a|
  {
    if a == [] {
      assert a + b == b;
    } else {
      TotalAppends(a[1..], b);
      assert (a + b)[1..] == a[1..] + b;
    }
  }

  lemma {:induction false} SatoshiSumAppends(a: seq<Amount>, b: seq<Amount>)
    ensures SatoshiSum(a + b) == SatoshiSum(a) + SatoshiSum(b)
    decreases |a|
  {
    if a == [] {
      assert a + b == b;
    } else {
      SatoshiSumAppends(a[1..], b);
      assert (a + b)[1..] == a[1..] + b;
    }
  }

  lemma {:induction false} ContractTotal(txFee: Amount, slots: seq<Slot>)
    requires AllFundable(txFee, slots)
    ensures Total(ContractVouts(txFee, slots)) == SatoshiSum(Fundings(txFee, slots))
    decreases |slots|
  {
    if slots != [] {
      ContractTotal(txFee, slots[1..]);
    }
  }

  lemma VoutsRoundOutputs(t: Terms, b: Book, feeScript: Script, changeScript: Script)
    requires AllFundable(t.txFee, b.contracts)
    ensures Total(SetupVouts(t, b, feeScript, changeScript)) == SatoshiSum(Outputs(t, b))
  {
    var fee, fee' := [Vout(feeScript, InSatoshi(FeeOutput(t, b)))], [FeeOutput(t, b)];
    var mid, mid' := ContractVouts(t.txFee, b.contracts), Fundings(t.txFee, b.contracts);
    var rest := t.deposit - Taken(t, b);
    var last := if rest > 0 then [Vout(changeScript, InSatoshi(rest))] else [];
    var last' := if rest > 0 then [rest] else [];
    TotalAppends(fee + mid, last);
    TotalAppends(fee, mid);
    SatoshiSumAppends(fee' + mid', last');
    SatoshiSumAppends(fee', mid');
    ContractTotal(t.txFee, b.contracts);
    assert fee[1..] == [] && fee'[1..] == [];
    assert rest > 0 ==> last[1..] == [] && last'[1..] == [];
  }

  /** On the chain the outputs spend the deposit to within a satoshi an output,
      and exactly when every amount is whole. */
  lemma SetupSpendsTheDeposit(t: Terms, b: Book, feeScript: Script, changeScript: Script)
    requires Kept(t, b) && t.rate <= SCALE
    ensures var spent := Total(SetupVouts(t, b, feeScript, changeScript)) * SATOSHI;
            spent <= t.deposit < spent + |Outputs(t, b)| * SATOSHI &&
            (AllWhole(Outputs(t, b)) ==> spent == t.deposit)
  {
    OutputsSumToTheDeposit(t, b);
    VoutsRoundOutputs(t, b, feeScript, changeScript);
    RoundingLoses(Outputs(t, b));
  }

  /** What the deposit is spent on, output by output. The fee output takes every
      chunk and the rate on what is not matched, or on the whole deposit when all is;
      each contract gets what it sends but for its chunk; and the change is what is
      neither matched nor charged. */
  predicate SpendsDeposit(t: Terms, b: Book, feeScript: Script, changeScript: Script, vouts: seq<Vout>)
  {
    var unmatched := t.deposit - Sends(b.contracts) - b.fees;
    var charge := Times(if unmatched > 0 then unmatched else t.deposit, t.rate);
    var change := t.deposit - Sends(b.contracts) - charge;
    change >= 0 && LaidOut(b.contracts, Vout(feeScript, InSatoshi(Chunks(b.contracts) + charge)),
                           if change > 0 then [Vout(changeScript, InSatoshi(change))] else [], vouts)
  }

  /** A fee output, one output a contract, and perhaps change. */
  predicate LaidOut(slots: seq<Slot>, fee: Vout, change: seq<Vout>, vouts: seq<Vout>)
  {
    |vouts| == 1 + |slots| + |change| && vouts[0] == fee && vouts[1 + |slots|..] == change &&
    forall i :: 0 <= i < |slots| ==>
      slots[i].chunk < slots[i].toSend &&
      vouts[i + 1] == Vout(slots[i].script, InSatoshi(slots[i].toSend - slots[i].chunk))
  }

  lemma {:induction false} ContractPays(txFee: Amount, slots: seq<Slot>, i: nat)
    requires AllFundable(txFee, slots) && i < |slots|
    ensures ContractVouts(txFee, slots)[i] == Vout(slots[i].script, InSatoshi(slots[i].toSend - slots[i].chunk))
    decreases i
  {
    if i > 0 { ContractPays(txFee, slots[1..], i - 1); }
  }

  lemma ContractsAreLaidOut(txFee: Amount, slots: seq<Slot>, fee: Vout, change: seq<Vout>)
    requires AllFundable(txFee, slots)
    ensures LaidOut(slots, fee, change, [fee] + ContractVouts(txFee, slots) + change)
  {
    forall i | 0 <= i < |slots|
      ensures ContractVouts(txFee, slots)[i] == Vout(slots[i].script, InSatoshi(slots[i].toSend - slots[i].chunk))
    {
      ContractPays(txFee, slots, i);
    }
  }

  lemma ChargeIs(t: Terms, b: Book)
    requires Kept(t, b) && t.rate <= SCALE
    ensures var unmatched := t.deposit - Sends(b.contracts) - b.fees;
            var charge := Times(if unmatched > 0 then unmatched else t.deposit, t.rate);
            FeeOutput(t, b) == Chunks(b.contracts) + charge && Taken(t, b) == Sends(b.contracts) + charge <= t.deposit
  {
    TakenWithinDeposit(t, b);
  }

  lemma LaidOutWith(t: Terms, b: Book, feeScript: Script, changeScript: Script, charge: Amount)
    requires AllFundable(t.txFee, b.contracts) && FeeOutput(t, b) == Chunks(b.contracts) + charge
    requires Taken(t, b) == Sends(b.contracts) + charge <= t.deposit
    ensures var change := t.deposit - Sends(b.contracts) - charge;
            LaidOut(b.contracts, Vout(feeScript, InSatoshi(Chunks(b.contracts) + charge)),
                    if change > 0 then [Vout(changeScript, InSatoshi(change))] else [],
                    SetupVouts(t, b, feeScript, changeScript))
  {
    var change := t.deposit - Sends(b.contracts) - charge;
    ContractsAreLaidOut(t.txFee, b.contracts, Vout(feeScript, InSatoshi(FeeOutput(t, b))),
                        if change > 0 then [Vout(changeScript, InSatoshi(change))] else []);
  }

  lemma SetupSpendsAsItShould(t: Terms, b: Book, feeScript: Script, changeScript: Script)
    requires Kept(t, b) && t.rate <= SCALE
    ensures SpendsDeposit(t, b, feeScript, changeScript, SetupVouts(t, b, feeScript, changeScript))
  {
    var unmatched := t.deposit - Sends(b.contracts) - b.fees;
    ChargeIs(t, b);
    LaidOutWith(t, b, feeScript, changeScript, Times(if unmatched > 0 then unmatched else t.deposit, t.rate));
  }

  /** At rates of at most one the deposit is spent as it should be. */
  predicate Pays(t: Terms, b: Book, feeScript: Script, changeScript: Script, vouts: seq<Vout>)
  {
    t.rate <= SCALE ==> SpendsDeposit(t, b, feeScript, changeScript, vouts)
  }

  lemma WhatSetupPays(t: Terms, b: Book, feeScript: Script, changeScript: Script, vouts: seq<Vout>)
    requires Kept(t, b) && vouts == SetupVouts(t, b, feeScript, changeScript)
    ensures Pays(t, b, feeScript, changeScript, vouts)
  {
    if t.rate <= SCALE { SetupSpendsAsItShould(t, b, feeScript, changeScript); }
  }

  /** The output funded for a contract is what its refunds spend: with a whole
      satoshi fee the time-locked refund and the fee make up the output, and so
      does every adjusted refund of a whole amount. */
  lemma RefundsSpendTheFundedOutput(m: M.Terms, hash: nat, script: Script, setup: M.Txid, amount: Amount)
    requires M.Fundable(m) && amount <= m.Upload() && WholeSatoshi(m.ourFee)
    ensures var funded := InSatoshi(Funding(m.ourFee, Slot(hash, m.toSend, m.ourChunk, script)));
            M.Total(M.FullRefund(m, setup).outputs) + InSatoshi(m.ourFee) == funded &&
            (WholeSatoshi(amount) ==>
               M.Total(M.AdjustedRefund(m, setup, amount).outputs) + InSatoshi(m.ourFee) == funded)
  {
    M.RefundsSpendTheContract(m, setup, amount);
  }

  // ----- the fee equation ------------------------------------------------------------------

  /** What a counterparty signed about its chunk size: the script its contract
      output must have, and whether both signatures hold. */
  datatype Info = Info(script: Script, chunk: Amount, authentic: bool)

  datatype Verdict = Rejected(code: int) | Passed | Crashed

  function Matches(vouts: seq<Vout>, script: Script): nat
  {
    if vouts == [] then 0 else (if vouts[0].script == script then 1 else 0) + Matches(vouts[1..], script)
  }

  function Collateral(infos: seq<Info>, vouts: seq<Vout>): Amount
  {
    if infos == [] then 0
    else (if infos[0].authentic then Matches(vouts, infos[0].script) * infos[0].chunk else 0)
         + Collateral(infos[1..], vouts)
  }

  /** Every signed chunk size has found its contract. */
  predicate AllFound(infos: seq<Info>, vouts: seq<Vout>)
  {
    forall i :: 0 <= i < |infos| ==> infos[i].authentic && Matches(vouts, infos[i].script) > 0
  }

  /** The fee equation; subtracting more change than there are coins raises. */
  function FeeCheck(fee: Amount, contracts: Amount, change: Amount, collateral: Amount, rate: Amount): Verdict
  {
    if fee + contracts < change then Crashed
    else if collateral + Times(fee + contracts - change, rate) != fee then Rejected(-40) else Passed
  }

  /** The amount-checking part of validate_setup_tx. */
  function Validated(vouts: seq<Vout>, feeScript: Script, changeScript: Script, infos: seq<Info>, rate: Amount): Verdict
  {
    if |vouts| < 2 then Rejected(-3)
    else
      var changed := vouts[|vouts| - 1].script == changeScript;
      var contracts := if changed then vouts[1..|vouts| - 1] else vouts[1..];
      var change := if changed then vouts[|vouts| - 1].value * SATOSHI else 0;
      if vouts[0].script != feeScript then Rejected(-4)
      else if !AllFound(infos, contracts) then Passed
      else FeeCheck(vouts[0].value * SATOSHI, Total(contracts) * SATOSHI, change, Collateral(infos, contracts), rate)
  }

  /** A setup of too few outputs, or whose first does not pay the fee script, is
      refused; and one in which some signed chunk size finds no output is passed
      without a look at its fee. */
  lemma WhatIsNotWeighed(vouts: seq<Vout>, feeScript: Script, changeScript: Script, infos: seq<Info>, rate: Amount)
    ensures var verdict := Validated(vouts, feeScript, changeScript, infos, rate);
            (|vouts| < 2 ==> verdict == Rejected(-3)) &&
            (|vouts| >= 2 && vouts[0].script != feeScript ==> verdict == Rejected(-4)) &&
            (|vouts| >= 2 && vouts[0].script == feeScript &&
             (exists i :: 0 <= i < |infos| && (!infos[i].authentic || Matches(vouts[1..], infos[i].script) == 0)) ==>
               verdict == Passed)
  {
    if |vouts| >= 2 && vouts[0].script == feeScript {
      var rest := vouts[1..];
      var kept := rest[..|rest| - 1];
      forall i | 0 <= i < |infos| && Matches(rest, infos[i].script) == 0
        ensures Matches(kept, infos[i].script) == 0
      {
        FewerMatch(rest, infos[i].script);
      }
      assert kept == vouts[1..|vouts| - 1];
    }
  }

  lemma {:induction false} FewerMatch(vouts: seq<Vout>, script: Script)
    requires vouts != []
    ensures Matches(vouts[..|vouts| - 1], script) <= Matches(vouts, script)
    decreases |vouts|
  {
    if |vouts| > 1 {
      FewerMatch(vouts[1..], script);
      assert vouts[..|vouts| - 1][1..] == vouts[1..][..|vouts| - 2];
    }
  }

  /** For every amount left as change: the fee equation holds of the setup exactly
      when the charge is the rate on the deposit less twice the change. */
  lemma FeeEquation(t: Terms, b: Book, change: Amount)
    requires Kept(t, b) && t.rate <= SCALE && Taken(t, b) + change == t.deposit
    ensures FeeCheck(FeeOutput(t, b), Sum(Fundings(t.txFee, b.contracts)), change, Chunks(b.contracts), t.rate) ==
            if 2 * change > t.deposit then Crashed
            else if Times(t.deposit - 2 * change, t.rate) != Charged(t, b) then Rejected(-40) else Passed
  {
    TakenWithinDeposit(t, b);
    FundingsAndChunks(t.txFee, b.contracts);
  }

  /** With every coin of the deposit in a contract there is no change, and the
      charge is right. */
  lemma FullyMatchedFee(t: Terms, b: Book)
    requires Kept(t, b) && t.rate <= SCALE && Sends(b.contracts) + b.fees == t.deposit
    ensures Taken(t, b) == t.deposit
    ensures FeeCheck(FeeOutput(t, b), Sum(Fundings(t.txFee, b.contracts)), 0, Chunks(b.contracts), t.rate) == Passed
  {
    TakenWithinDeposit(t, b);
    FeeEquation(t, b, 0);
  }

  function InfosOf(slots: seq<Slot>): (r: seq<Info>)
    ensures |r| == |slots|
    ensures forall i :: 0 <= i < |r| ==> r[i] == Info(slots[i].script, slots[i].chunk, true)
  {
    if slots == [] then [] else [Info(slots[0].script, slots[0].chunk, true)] + InfosOf(slots[1..])
  }

  predicate Distinct(slots: seq<Slot>)
  {
    forall i, j :: 0 <= i < j < |slots| ==> slots[i].script != slots[j].script
  }

  lemma {:induction false} NoMatch(vouts: seq<Vout>, script: Script)
    requires forall i :: 0 <= i < |vouts| ==> vouts[i].script != script
    ensures Matches(vouts, script) == 0
    decreases |vouts|
  {
    if vouts != [] {
      NoMatch(vouts[1..], script);
    }
  }

  lemma {:induction false} OneMatch(vouts: seq<Vout>, k: nat)
    requires k < |vouts| && forall i :: 0 <= i < |vouts| && i != k ==> vouts[i].script != vouts[k].script
    ensures Matches(vouts, vouts[k].script) == 1
    decreases |vouts|
  {
    if k == 0 {
      NoMatch(vouts[1..], vouts[0].script);
    } else {
      OneMatch(vouts[1..], k - 1);
    }
  }

  lemma {:induction false} ChunksAreFound(slots: seq<Slot>, vouts: seq<Vout>)
    requires forall i :: 0 <= i < |slots| ==> Matches(vouts, slots[i].script) == 1
    ensures Collateral(InfosOf(slots), vouts) == Chunks(slots)
    decreases |slots|
  {
    if slots != [] {
      ChunksAreFound(slots[1..], vouts);
      assert InfosOf(slots)[1..] == InfosOf(slots[1..]);
    }
  }

  /** What the change output pays, if there is one. */
  function ChangePaid(t: Terms, b: Book): nat
    requires AllFundable(t.txFee, b.contracts)
  {
    if Taken(t, b) < t.deposit then InSatoshi(t.deposit - Taken(t, b)) else 0
  }

  /** Every contract has a script of its own, other than that of the change. */
  predicate Separate(b: Book, changeScript: Script)
  {
    b.contracts != [] && Distinct(b.contracts) &&
    forall i :: 0 <= i < |b.contracts| ==> b.contracts[i].script != changeScript
  }

  /** What the validator makes of a built setup, matched to whatever extent, when it
      was given every counterparty's signed chunk size. */
  lemma NodeVerdict(t: Terms, b: Book, feeScript: Script, changeScript: Script)
    requires AllFundable(t.txFee, b.contracts) && Separate(b, changeScript)
    ensures Validated(SetupVouts(t, b, feeScript, changeScript), feeScript, changeScript, InfosOf(b.contracts), t.rate)
            == FeeCheck(InSatoshi(FeeOutput(t, b)) * SATOSHI, Total(ContractVouts(t.txFee, b.contracts)) * SATOSHI,
                        ChangePaid(t, b) * SATOSHI, Chunks(b.contracts), t.rate)
  {
    BuiltParts(t, b, feeScript, changeScript);
    ContractsAreFound(t, b);
  }

  lemma BuiltParts(t: Terms, b: Book, feeScript: Script, changeScript: Script)
    requires AllFundable(t.txFee, b.contracts) && Separate(b, changeScript)
    ensures var vouts := SetupVouts(t, b, feeScript, changeScript);
            var (last, changed) := (vouts[|vouts| - 1], Taken(t, b) < t.deposit);
            |vouts| >= 2 && vouts[0] == Vout(feeScript, InSatoshi(FeeOutput(t, b))) &&
            (last.script == changeScript <==> changed) && (changed ==> last.value == ChangePaid(t, b)) &&
            ContractVouts(t.txFee, b.contracts) == if changed then vouts[1..|vouts| - 1] else vouts[1..]
  {
  }

  lemma ContractsAreFound(t: Terms, b: Book)
    requires AllFundable(t.txFee, b.contracts) && Distinct(b.contracts)
    ensures var contracts := ContractVouts(t.txFee, b.contracts);
            AllFound(InfosOf(b.contracts), contracts) &&
            Collateral(InfosOf(b.contracts), contracts) == Chunks(b.contracts)
  {
    var contracts := ContractVouts(t.txFee, b.contracts);
    forall i | 0 <= i < |contracts| ensures Matches(contracts, b.contracts[i].script) == 1 {
      OneMatch(contracts, i);
    }
    ChunksAreFound(b.contracts, contracts);
  }

  /** A fully matched setup in whole satoshi, checked by a node that was given every
      counterparty's signed chunk size, passes. */
  lemma FullyMatchedIsValid(t: Terms, b: Book, feeScript: Script, changeScript: Script)
    requires Kept(t, b) && t.rate <= SCALE && Separate(b, changeScript)
    requires Sends(b.contracts) + b.fees == t.deposit && AllWhole(Outputs(t, b))
    ensures Validated(SetupVouts(t, b, feeScript, changeScript), feeScript, changeScript,
                      InfosOf(b.contracts), t.rate) == Passed
  {
    FullyMatchedFee(t, b);
    NodeVerdict(t, b, feeScript, changeScript);
    WholeOutputs(t, b);
  }

  lemma WholeOutputs(t: Terms, b: Book)
    requires AllFundable(t.txFee, b.contracts) && AllWhole(Outputs(t, b))
    ensures InSatoshi(FeeOutput(t, b)) * SATOSHI == FeeOutput(t, b)
    ensures Total(ContractVouts(t.txFee, b.contracts)) * SATOSHI == Sum(Fundings(t.txFee, b.contracts))
    ensures Taken(t, b) < t.deposit ==> ChangePaid(t, b) * SATOSHI == t.deposit - Taken(t, b)
  {
    var fundings := Fundings(t.txFee, b.contracts);
    var outputs := Outputs(t, b);
    assert outputs[0] == FeeOutput(t, b);
    assert AllWhole(fundings) by {
      forall i | 0 <= i < |fundings| ensures WholeSatoshi(fundings[i]) {
        assert fundings[i] == outputs[i + 1];
      }
    }
    assert Taken(t, b) < t.deposit ==> outputs[|outputs| - 1] == t.deposit - Taken(t, b);
    ContractTotal(t.txFee, b.contracts);
    RoundingLoses(fundings);
  }

  /** In whole satoshi the validator passes a setup, matched to whatever extent,
      exactly when the rate on what is not matched, or on all if everything is, comes
      to the rate on the deposit less twice the change. */
  lemma ValidIff(t: Terms, b: Book, feeScript: Script, changeScript: Script)
    requires Kept(t, b) && t.rate <= SCALE && Separate(b, changeScript) && AllWhole(Outputs(t, b))
    ensures var unmatched := t.deposit - Sends(b.contracts) - b.fees;
            var charge := Times(if unmatched > 0 then unmatched else t.deposit, t.rate);
            var change := t.deposit - Sends(b.contracts) - charge;
            change >= 0 &&
            Validated(SetupVouts(t, b, feeScript, changeScript), feeScript, changeScript,
                      InfosOf(b.contracts), t.rate) ==
            if 2 * change > t.deposit then Crashed
            else if Times(t.deposit - 2 * change, t.rate) != charge then Rejected(-40) else Passed
  {
    TakenWithinDeposit(t, b);
    NodeVerdict(t, b, feeScript, changeScript);
    WholeOutputs(t, b);
    FeeEquation(t, b, t.deposit - Taken(t, b));
  }

  /** A setup that is only partly matched can be refused by the very check its
      builder has to pass: 100 coins at one percent, 79 of them in one contract. */
  lemma PartlyMatchedFails()
    ensures var coin := SCALE;
            var t := Terms(100 * coin, coin / 100, 0, 0);
            var b := Book(20 * coin, 79 * coin, coin, [Slot(1, 79 * coin, coin, 7)]);
            Kept(t, b) && AllWhole(Outputs(t, b)) && Taken(t, b) < t.deposit &&
            Validated(SetupVouts(t, b, 8, 9), 8, 9, InfosOf(b.contracts), t.rate) == Rejected(-40)
  {
    var t := Terms(100 * SCALE, SCALE / 100, 0, 0);
    var b := Book(20 * SCALE, 79 * SCALE, SCALE, [Slot(1, 79 * SCALE, SCALE, 7)]);
    assert b.contracts[1..] == [];
    assert Sends(b.contracts) == 79 * SCALE && Chunks(b.contracts) == SCALE;
    assert Charged(t, b) == SCALE / 5;
    assert Fundings(0, b.contracts) == [78 * SCALE];
    assert Sum([78 * SCALE]) == 78 * SCALE by { assert [78 * SCALE][1..] == []; }
    ValidIff(t, b, 8, 9);
  }

  lemma {:induction false} OneMoreOutput(txFee: Amount, slots: seq<Slot>, i: nat)
    requires i < |slots| && AllFundable(txFee, slots)
    ensures ContractVouts(txFee, slots[..i + 1])
            == ContractVouts(txFee, slots[..i]) + [Vout(slots[i].script, InSatoshi(Funding(txFee, slots[i])))]
    ensures Sum(Fundings(txFee, slots[..i + 1])) == Sum(Fundings(txFee, slots[..i])) + Funding(txFee, slots[i])
    decreases i
  {
    var a, b := slots[..i], slots[..i + 1];
    if i == 0 {
      assert a == [] && b[1..] == [] && b[0] == slots[0];
      assert Fundings(txFee, b)[1..] == [];
    } else {
      OneMoreOutput(txFee, slots[1..], i - 1);
      assert a[1..] == slots[1..][..i - 1] && b[1..] == slots[1..][..i];
      assert Fundings(txFee, a)[1..] == Fundings(txFee, a[1..]) && Fundings(txFee, b)[1..] == Fundings(txFee, b[1..]);
    }
  }

  /** The loop over the contracts that builds their outputs. */
  method ContractOutputs(txFee: Amount, slots: seq<Slot>) returns (vouts: seq<Vout>, spent: Amount)
    requires AllFundable(txFee, slots)
    ensures vouts == ContractVouts(txFee, slots) && spent == Sum(Fundings(txFee, slots))
  {
    vouts, spent := [], 0;
    for i := 0 to |slots|
      invariant vouts == ContractVouts(txFee, slots[..i])
      invariant spent == Sum(Fundings(txFee, slots[..i]))
    {
      var amount := (slots[i].toSend - (slots[i].chunk + txFee)) + txFee;
      OneMoreOutput(txFee, slots, i);
      vouts := vouts + [Vout(slots[i].script, InSatoshi(amount))];
      spent := spent + amount;
    }
    assert slots[..|slots|] == slots;
  }

  // ----- the factory ----------------------------------------------------------------------

  /** A selling factory. */
  class MicrotransferFactory {
    const terms: Terms
    var remaining: Amount
    var fees: Amount
    var total: Amount
    var contracts: seq<Slot>

    function View(): Book
      reads this
    {
      Book(remaining, total, fees, contracts)
    }

    ghost predicate Valid()
      reads this
    {
      Kept(terms, View())
    }

    constructor (terms: Terms)
      requires Times(terms.deposit, terms.rate) <= terms.deposit
      ensures this.terms == terms && Valid() && contracts == [] && total == 0
    {
      this.terms := terms;
      fees := Times(terms.deposit, terms.rate);
      remaining := terms.deposit - Times(terms.deposit, terms.rate);
      total, contracts := 0, [];
    }

    /** Sets the trade fee aside, or raises when it is more than the trade. */
    static method Create(terms: Terms) returns (r: Result<MicrotransferFactory>)
      ensures r.Ok? <==> Times(terms.deposit, terms.rate) <= terms.deposit
      ensures r.Ok? ==> fresh(r.value) && r.value.terms == terms && r.value.Valid() && r.value.contracts == []
    {
      var fee := Times(terms.deposit, terms.rate);
      if fee > terms.deposit { return Raised; }
      var factory := new MicrotransferFactory(terms);
      r := Ok(factory);
    }

    /** Adds a contract; `feasible` says whether the other side's amounts pass. */
    method AddContract(s: Slot, feasible: bool) returns (r: Result<Slot>)
      requires Valid()
      modifies this
      ensures Valid()
      ensures r.Ok? <==> Addable(terms, old(View()), s, feasible && Fundable(terms.txFee, s))
      ensures View() == if r.Ok? then Added(old(View()), s) else old(View())
    {
      if remaining < s.toSend { return Raised; }
      var vout := |contracts| + 1;
      if vout > MAX_CONTRACTS { return Raised; }
      if !feasible || s.chunk + terms.txFee >= s.toSend { return Raised; }
      var newRemaining := remaining - s.toSend;
      if newRemaining != 0 && newRemaining < terms.dust { return Raised; }
      PutAddsUp(contracts, s);
      remaining := remaining - s.toSend;
      total := total + s.toSend;
      contracts := Put(contracts, s);
      return Ok(s);
    }

    method SumContracts() returns (collateral: Amount, toSend: Amount)
      requires Valid()
      ensures collateral == Chunks(contracts) && toSend == Sends(contracts)
    {
      collateral, toSend := 0, 0;
      for i := 0 to |contracts|
        invariant collateral + Chunks(contracts[i..]) == Chunks(contracts)
        invariant toSend + Sends(contracts[i..]) == Sends(contracts)
      {
        var c := contracts[i];
        assert contracts[i..][0] == c && contracts[i..][1..] == contracts[i + 1..];
        collateral := collateral + c.chunk;
        toSend := toSend + ((c.toSend - (c.chunk + terms.txFee)) + c.chunk + terms.txFee);
      }
    }

    /** Builds the outputs from the wallet balance and the coins at the green
        address, or raises when either does not cover the trade. */
    method BuildSetup(balance: Amount, greenTotal: Amount, feeScript: Script, changeScript: Script)
        returns (r: Result<seq<Vout>>)
      requires Valid()
      ensures r.Ok? <==> balance >= terms.deposit - fees && greenTotal >= terms.deposit
      ensures r.Ok? ==> r.value == SetupVouts(terms, View(), feeScript, changeScript)
      ensures r.Ok? ==> Pays(terms, View(), feeScript, changeScript, r.value)
    {
      if balance < terms.deposit - fees { return Raised; }
      if greenTotal < terms.deposit { return Raised; }
      var collateral, toSend := SumContracts();
      var charged := fees;
      toSend := toSend + charged;
      if toSend < terms.deposit {
        var ceiling := terms.deposit - toSend;
        charged := Times(ceiling, terms.rate);
      }
      collateral := collateral + charged;
      var vouts, spent := ContractOutputs(terms.txFee, contracts);
      vouts := [Vout(feeScript, InSatoshi(collateral))] + vouts;
      spent := collateral + spent;
      assert spent == Taken(terms, View());
      if spent < terms.deposit {
        var change := terms.deposit - spent;
        if change > 0 {
          vouts := vouts + [Vout(changeScript, InSatoshi(change))];
        }
      }
      assert vouts == SetupVouts(terms, View(), feeScript, changeScript);
      WhatSetupPays(terms, View(), feeScript, changeScript, vouts);
      return Ok(vouts);
    }
  }

  // ----- the two checks ---------------------------------------------------------------------

  method SumVouts(vouts: seq<Vout>) returns (total: Amount)
    ensures total == Total(vouts) * SATOSHI
  {
    total := 0;
    for i := 0 to |vouts|
      invariant total + Total(vouts[i..]) * SATOSHI == Total(vouts) * SATOSHI
    {
      assert vouts[i..][1..] == vouts[i + 1..];
      total := total + vouts[i].value * SATOSHI;
    }
  }

  /** The outputs to a counterparty's script, each of which adds its chunk. */
  method CountMatches(vouts: seq<Vout>, script: Script) returns (n: nat)
    ensures n == Matches(vouts, script)
  {
    n := 0;
    for i := 0 to |vouts|
      invariant n + Matches(vouts[i..], script) == Matches(vouts, script)
    {
      assert vouts[i..][1..] == vouts[i + 1..];
      if vouts[i].script == script { n := n + 1; }
    }
  }

  /** What a node does with the setup of a counterparty, or with its own. */
  method ValidateSetupTx(vouts: seq<Vout>, feeScript: Script, changeScript: Script, infos: seq<Info>, rate: Amount)
      returns (r: Verdict)
    ensures r == Validated(vouts, feeScript, changeScript, infos, rate)
  {
    if |vouts| < 2 { return Rejected(-3); }
    var contractVouts := vouts[1..];
    var changeTotal := 0;
    if contractVouts[|contractVouts| - 1].script == changeScript {
      changeTotal := contractVouts[|contractVouts| - 1].value * SATOSHI;
      contractVouts := contractVouts[..|contractVouts| - 1];
    }
    assert contractVouts == if vouts[|vouts| - 1].script == changeScript then vouts[1..|vouts| - 1] else vouts[1..];
    var contractTotal := SumVouts(contractVouts);
    var feeTotal := vouts[0].value * SATOSHI;
    if vouts[0].script != feeScript { return Rejected(-4); }

    var remaining := false;
    var collateral := 0;
    for i := 0 to |infos|
      invariant collateral + Collateral(infos[i..], contractVouts) == Collateral(infos, contractVouts)
      invariant remaining <==> !AllFound(infos[..i], contractVouts)
    {
      var info := infos[i];
      assert infos[i..][0] == info && infos[i..][1..] == infos[i + 1..];
      assert infos[..i + 1] == infos[..i] + [info];
      var found := false;
      if info.authentic {
        var n := CountMatches(contractVouts, info.script);
        found := n > 0;
        collateral := collateral + n * info.chunk;
      }
      remaining := remaining || !found;
    }
    assert infos[..|infos|] == infos;
    if !remaining {
      var totalCoins := feeTotal + contractTotal;
      if totalCoins < changeTotal { return Crashed; }
      var expected := collateral + Times(totalCoins - changeTotal, rate);
      if expected != feeTotal { return Rejected(-40); }
    }
    return Passed;
  }

  /** The chunk sizes the contract server has for an output, once both sides' are. */
  datatype Recorded = Recorded(ours: Option<Amount>, theirs: Option<Amount>)

  function ServerCollateral(chunks: seq<Option<Recorded>>): Amount
  {
    if chunks == [] || chunks[0].None? || chunks[0].value.ours.None? || chunks[0].value.theirs.None? then 0
    else chunks[0].value.ours.value + ServerCollateral(chunks[1..])
  }

  /** The contract server's own check of one side's setup. */
  method ServerFeeCheck(fee: Amount, contracts: Amount, change: Amount, chunks: seq<Option<Recorded>>, rate: Amount)
      returns (r: Verdict)
    ensures r == FeeCheck(fee, contracts, change, ServerCollateral(chunks), rate)
  {
    var collateral, index := 0, 0;
    while index < |chunks|
      invariant index <= |chunks|
      invariant collateral + ServerCollateral(chunks[index..]) == ServerCollateral(chunks)
    {
      assert chunks[index..][1..] == chunks[index + 1..];
      if chunks[index] == None { break; }
      var recorded := chunks[index].value;
      if recorded.ours == None || recorded.theirs == None { break; }
      collateral := collateral + recorded.ours.value;
      index := index + 1;
    }
    if fee + contracts < change { return Crashed; }
    var expected := collateral + Times(fee + contracts - change, rate);
    if expected != fee { return Rejected(-40); }
    return Passed;
  }

  lemma {:induction false} ServerFindsChunks(slots: seq<Slot>, chunks: seq<Option<Recorded>>)
    requires |chunks| == |slots|
    requires forall i :: 0 <= i < |chunks| ==>
               chunks[i].Some? && chunks[i].value.theirs.Some? && chunks[i].value.ours == Some(slots[i].chunk)
    ensures ServerCollateral(chunks) == Chunks(slots)
    decreases |slots|
  {
    if slots != [] {
      ServerFindsChunks(slots[1..], chunks[1..]);
    }
  }

  /** The server adds up to the first output whose chunk sizes it does not have. */
  lemma {:induction false} ServerStopsAtGap(chunks: seq<Option<Recorded>>, gap: Option<Recorded>,
                                            rest: seq<Option<Recorded>>)
    requires gap.Some? ==> gap.value.ours.None? || gap.value.theirs.None?
    ensures ServerCollateral(chunks + [gap] + rest) == ServerCollateral(chunks)
    decreases |chunks|
  {
    var all := chunks + [gap] + rest;
    if chunks == [] {
      assert all[0] == gap;
    } else {
      ServerStopsAtGap(chunks[1..], gap, rest);
      assert all[1..] == chunks[1..] + [gap] + rest;
    }
  }

  /** Once the server has every chunk size it agrees with the nodes on every built
      setup, matched to whatever extent, with the amounts as they are rounded; and it
      passes every fully matched one in whole satoshi. */
  lemma ServerAgrees(t: Terms, b: Book, feeScript: Script, changeScript: Script, chunks: seq<Option<Recorded>>)
    requires Kept(t, b) && t.rate <= SCALE && Separate(b, changeScript) && |chunks| == |b.contracts|
    requires forall i :: 0 <= i < |chunks| ==>
               chunks[i].Some? && chunks[i].value.theirs.Some? && chunks[i].value.ours == Some(b.contracts[i].chunk)
    ensures var verdict := FeeCheck(InSatoshi(FeeOutput(t, b)) * SATOSHI,
                                    Total(ContractVouts(t.txFee, b.contracts)) * SATOSHI,
                                    ChangePaid(t, b) * SATOSHI, ServerCollateral(chunks), t.rate);
            verdict == Validated(SetupVouts(t, b, feeScript, changeScript), feeScript, changeScript,
                                 InfosOf(b.contracts), t.rate) &&
            (Sends(b.contracts) + b.fees == t.deposit && AllWhole(Outputs(t, b)) ==> verdict == Passed)
  {
    ServerFindsChunks(b.contracts, chunks);
    NodeVerdict(t, b, feeScript, changeScript);
    if Sends(b.contracts) + b.fees == t.deposit && AllWhole(Outputs(t, b)) {
      FullyMatchedIsValid(t, b, feeScript, changeScript);
    }
  }
}
