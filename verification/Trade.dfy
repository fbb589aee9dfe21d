/** Limit trades: matching a buy with a sell, undoing a match, and what any
    sequence of matches conserves. */
module Trades {
  import opened Outcome
  import opened Amounts

  datatype Action = Buy | Sell

  datatype Status = Pending | Opened | Closed

  /** A trade; `sent` and `recv` are what has moved so far. */
  datatype Order = Order(
    action: Action,
    pair: (string, string),
    amount: Amount,
    ppc: Amount,
    sent: Amount,
    recv: Amount,
    remaining: Amount,
    status: Status)

  /** What has moved of the traded coin, and of the coin it is paid in. */
  function Coins(o: Order): Amount
  {
    if o.action.Buy? then o.recv else o.sent
  }

  function Value(o: Order): Amount
  {
    if o.action.Buy? then o.sent else o.recv
  }

  function Fresh(action: Action, pair: (string, string), amount: Amount, ppc: Amount): Order
  {
    Order(action, pair, amount, ppc, 0, 0, amount, Pending)
  }

  predicate Balanced(o: Order)
  {
    Coins(o) + o.remaining == o.amount
  }

  /** No more coins than the amount have moved, none for more than the price, and
      everything fits the currency type. */
  predicate Sane(o: Order)
  {
    InRange(o.amount) && InRange(Times(o.amount, o.ppc)) &&
    Balanced(o) && Value(o) <= Times(Coins(o), o.ppc)
  }

  /** The == that decides whether two trades can be matched. */
  predicate Equal(a: Order, b: Order)
  {
    a.status.Opened? && b.status.Opened? && a.pair == b.pair && a.action != b.action &&
    (if a.action.Buy? then a.ppc >= b.ppc else b.ppc >= a.ppc) &&
    a.amount == b.amount && a.remaining > 0 && b.remaining > 0
  }

  function Min(a: Amount, b: Amount): Amount
  {
    if a < b then a else b
  }

  /** A match moves as many coins as both sides still want, at the seller's price,
      and closes the side or sides it fills. */
  function Matched(buy: Order, sell: Order): (Order, Order)
    requires buy.action.Buy? && sell.action.Sell?
  {
    var change := Min(buy.remaining, sell.remaining);
    var value := Times(change, sell.ppc);
    (buy.(recv := buy.recv + change, sent := buy.sent + value, remaining := buy.remaining - change,
          status := if buy.remaining <= sell.remaining then Closed else buy.status),
     sell.(sent := sell.sent + change, recv := sell.recv + value, remaining := sell.remaining - change,
           status := if sell.remaining <= buy.remaining then Closed else sell.status))
  }

  /** The price limit survives truncation: the parts never add up to more than the
      whole would cost. */
  lemma MatchingStaysSane(buy: Order, sell: Order)
    requires buy.action.Buy? && sell.action.Sell? && Sane(buy) && Sane(sell) && buy.ppc >= sell.ppc
    ensures var (b, s) := Matched(buy, sell);
            Sane(b) && Sane(s) && InRange(b.sent) && InRange(b.recv) && InRange(s.sent) && InRange(s.recv)
    ensures var (b, s) := Matched(buy, sell);
            b.recv - buy.recv == s.sent - sell.sent && b.sent - buy.sent == s.recv - sell.recv
    ensures var (b, s) := Matched(buy, sell);
            (b.remaining == 0 || s.remaining == 0) &&
            b.status == (if b.remaining == 0 then Closed else buy.status) &&
            s.status == (if s.remaining == 0 then Closed else sell.status)
  {
    var change := Min(buy.remaining, sell.remaining);
    TimesMonotone(change, sell.ppc, change, buy.ppc);
    RoomFor(buy, change, Times(change, sell.ppc));
    RoomFor(sell, change, Times(change, sell.ppc));
  }

  /** More coins, no more than remain, for no more than the price. */
  lemma RoomFor(o: Order, coins: Amount, value: Amount)
    requires Sane(o) && coins <= o.remaining && value <= Times(coins, o.ppc)
    ensures InRange(Coins(o) + coins) && InRange(Value(o) + value)
    ensures Value(o) + value <= Times(Coins(o) + coins, o.ppc)
  {
    TimesSuperadditive(Coins(o), coins, o.ppc);
    TimesMonotone(Coins(o) + coins, o.ppc, o.amount, o.ppc);
    SmallerInRange(Coins(o) + coins, o.amount);
    SmallerInRange(Value(o) + value, Times(o.amount, o.ppc));
  }

  lemma SmallerInRange(a: Amount, b: Amount)
    requires a <= b && InRange(b)
    ensures InRange(a)
  {
  }

  /** The value that moves with the coins is what they cost at the seller's price,
      less what is below the last decimal. */
  lemma MatchIsPriced(buy: Order, sell: Order)
    requires buy.action.Buy? && sell.action.Sell? && Balanced(buy) && Balanced(sell)
    ensures var (b, s) := Matched(buy, sell);
            var (coins, value) := (Coins(s) - Coins(sell), Value(s) - Value(sell));
            coins == Coins(b) - Coins(buy) && value == Value(b) - Value(buy) && coins >= 0 && value >= 0 &&
            value * SCALE <= coins * sell.ppc < (value + 1) * SCALE
  {
  }

  /** Trades that may be matched are open, want something of the same pair, and are
      within each other's price, whichever is asked. */
  lemma EqualAgrees(a: Order, b: Order)
    requires Equal(a, b)
    ensures Equal(b, a) && Agree(a, b) && Agree(b, a)
    ensures a.status.Opened? && b.status.Opened? && a.pair == b.pair && a.remaining > 0 && b.remaining > 0
  {
  }

  /** They fill each other, if neither has moved yet, and are not matched again. */
  lemma EqualFills(a: Order, b: Order, c: Order)
    requires Equal(a, b) && Balanced(a) && Balanced(b) && Unmoved(a) && Unmoved(b)
    ensures var (x, y) := MatchedPair(a, b);
            x.remaining == 0 == y.remaining && x.status.Closed? && y.status.Closed? &&
            !Equal(x, c) && !Equal(c, x) && !Equal(y, c) && !Equal(c, y)
  {
  }

  // ----- a book of trades -----------------------------------------------------------------

  predicate AllSane(book: seq<Order>)
  {
    forall i :: 0 <= i < |book| ==> Sane(book[i])
  }

  /** A match of the i-th trade, a buy, with the j-th, a sell within its price. */
  predicate Allowed(book: seq<Order>, step: (nat, nat))
  {
    step.0 < |book| && step.1 < |book| && book[step.0].action.Buy? && book[step.1].action.Sell? &&
    book[step.0].ppc >= book[step.1].ppc
  }

  function Stepped(book: seq<Order>, step: (nat, nat)): (r: seq<Order>)
    requires AllSane(book)
    ensures |r| == |book| && AllSane(r)
  {
    if !Allowed(book, step) then book
    else
      MatchingStaysSane(book[step.0], book[step.1]);
      var (b, s) := Matched(book[step.0], book[step.1]);
      book[step.0 := b][step.1 := s]
  }

  function Traded(book: seq<Order>, steps: seq<(nat, nat)>): (r: seq<Order>)
    requires AllSane(book)
    ensures |r| == |book| && AllSane(r)
    decreases |steps|
  {
    if steps == [] then book else Traded(Stepped(book, steps[0]), steps[1..])
  }

  function Weight(o: Order, action: Action, value: bool): nat
  {
    if o.action != action then 0 else if value then Value(o) else Coins(o)
  }

  /** All coins, or all value, moved by the trades of one action. */
  function Total(book: seq<Order>, action: Action, value: bool): nat
    decreases |book|
  {
    if book == [] then 0 else Weight(book[0], action, value) + Total(book[1..], action, value)
  }

  lemma {:induction false} TotalUpdated(book: seq<Order>, i: nat, o: Order, action: Action, value: bool)
    requires i < |book|
    ensures Total(book[i := o], action, value) + Weight(book[i], action, value)
            == Total(book, action, value) + Weight(o, action, value)
    decreases |book|
  {
    if i == 0 {
      assert book[0 := o][1..] == book[1..];
    } else {
      assert book[i := o][1..] == book[1..][i - 1 := o];
      TotalUpdated(book[1..], i - 1, o, action, value);
    }
  }

  lemma StepConserves(book: seq<Order>, step: (nat, nat), value: bool)
    requires AllSane(book)
    ensures var r := Stepped(book, step);
            Total(r, Buy, value) - Total(book, Buy, value) == Total(r, Sell, value) - Total(book, Sell, value)
  {
    if Allowed(book, step) {
      var (i, j) := step;
      var (b, s) := Matched(book[i], book[j]);
      TotalUpdated(book, i, b, Buy, value);
      TotalUpdated(book, i, b, Sell, value);
      TotalUpdated(book[i := b], j, s, Buy, value);
      TotalUpdated(book[i := b], j, s, Sell, value);
    }
  }

  /** Whatever is matched with whatever, in whatever order: what buyers received is
      what sellers sent, and what buyers sent is what sellers received. */
  lemma {:induction false} MatchingConserves(book: seq<Order>, steps: seq<(nat, nat)>, value: bool)
    requires AllSane(book) && Total(book, Buy, value) == Total(book, Sell, value)
    ensures Total(Traded(book, steps), Buy, value) == Total(Traded(book, steps), Sell, value)
    decreases |steps|
  {
    if steps != [] {
      StepConserves(book, steps[0], value);
      MatchingConserves(Stepped(book, steps[0]), steps[1..], value);
    }
  }

  /** What never changes about a trade. */
  predicate SameTrade(a: Order, b: Order)
  {
    a.action == b.action && a.pair == b.pair && a.amount == b.amount && a.ppc == b.ppc
  }

  lemma {:induction false} TradesKeepTheirTerms(book: seq<Order>, steps: seq<(nat, nat)>, i: nat)
    requires AllSane(book) && i < |book|
    ensures SameTrade(book[i], Traded(book, steps)[i])
    decreases |steps|
  {
    if steps != [] {
      TradesKeepTheirTerms(Stepped(book, steps[0]), steps[1..], i);
    }
  }

  /** No trade ever moves more coins than its amount, or pays more than its total
      at its own price, however finely it is filled. */
  lemma LimitsAreRespected(book: seq<Order>, steps: seq<(nat, nat)>, i: nat)
    requires AllSane(book) && i < |book|
    ensures var o := Traded(book, steps)[i];
            Coins(o) <= book[i].amount && Value(o) <= Times(book[i].amount, book[i].ppc)
            && Coins(o) + o.remaining == book[i].amount
  {
    TradesKeepTheirTerms(book, steps, i);
    var o := Traded(book, steps)[i];
    TimesMonotone(Coins(o), o.ppc, o.amount, o.ppc);
  }

  /** How many matches the i-th trade, a sell, takes part in. */
  function SalesOf(book: seq<Order>, steps: seq<(nat, nat)>, i: nat): (n: nat)
    requires AllSane(book)
    ensures n <= |steps|
    decreases |steps|
  {
    if steps == [] then 0
    else (if Allowed(book, steps[0]) && steps[0].1 == i then 1 else 0) + SalesOf(Stepped(book, steps[0]), steps[1..], i)
  }

  /** What a sell received falls short of its price by less than a unit a match. */
  predicate Shortfall(o: Order, n: nat)
  {
    Value(o) * SCALE <= Coins(o) * o.ppc <= Value(o) * SCALE + n * (SCALE - 1)
  }

  lemma StepLosesLittle(book: seq<Order>, step: (nat, nat), i: nat, n: nat)
    requires AllSane(book) && i < |book| && book[i].action.Sell? && Shortfall(book[i], n)
    ensures Shortfall(Stepped(book, step)[i], n + if Allowed(book, step) && step.1 == i then 1 else 0)
  {
    if Allowed(book, step) && step.1 == i {
      var (o, o') := (book[i], Matched(book[step.0], book[i]).1);
      MatchIsPriced(book[step.0], o);
      SaleAddsUp(Coins(o), Coins(o') - Coins(o), Value(o), Value(o') - Value(o), o.ppc, n);
    }
  }

  lemma SaleAddsUp(coins: nat, more: nat, value: nat, gain: nat, ppc: nat, n: nat)
    requires value * SCALE <= coins * ppc <= value * SCALE + n * (SCALE - 1)
    requires gain * SCALE <= more * ppc < (gain + 1) * SCALE
    ensures (value + gain) * SCALE <= (coins + more) * ppc <= (value + gain) * SCALE + (n + 1) * (SCALE - 1)
  {
    assert (coins + more) * ppc == coins * ppc + more * ppc;
  }

  lemma {:induction false} SalesLoseLittle(book: seq<Order>, steps: seq<(nat, nat)>, i: nat, n: nat)
    requires AllSane(book) && i < |book| && book[i].action.Sell? && Shortfall(book[i], n)
    ensures Shortfall(Traded(book, steps)[i], n + SalesOf(book, steps, i))
    decreases |steps|
  {
    if steps != [] {
      StepLosesLittle(book, steps[0], i, n);
      SalesLoseLittle(Stepped(book, steps[0]), steps[1..], i,
                      n + if Allowed(book, steps[0]) && steps[0].1 == i then 1 else 0);
    }
  }

  /** Over any sequence of matches in any book, a sell receives its price for what it
      has sold: at most that, and short of it by less than one unit of the last
      decimal for every match it takes part in. */
  lemma SellersGetTheirPrice(book: seq<Order>, steps: seq<(nat, nat)>, i: nat)
    requires AllSane(book) && i < |book| && book[i].action.Sell? && Unmoved(book[i])
    ensures var (o, n) := (Traded(book, steps)[i], SalesOf(book, steps, i));
            var price := Times(Coins(o), book[i].ppc);
            Value(o) <= price && (n == 0 ==> price == Value(o)) && (n > 0 ==> price < Value(o) + n)
  {
    TradesKeepTheirTerms(book, steps, i);
    FreshFallsShortByNothing(book[i]);
    SalesLoseLittle(book, steps, i, 0);
    ShortfallInUnits(Traded(book, steps)[i], SalesOf(book, steps, i));
  }

  lemma FreshFallsShortByNothing(o: Order)
    requires Unmoved(o)
    ensures Shortfall(o, 0)
  {
  }

  lemma ShortfallInUnits(o: Order, n: nat)
    requires Shortfall(o, n)
    ensures var price := Times(Coins(o), o.ppc);
            Value(o) <= price && (n == 0 ==> price == Value(o)) && (n > 0 ==> price < Value(o) + n)
  {
    PriceFrom(Coins(o) * o.ppc, Value(o), n);
  }

  lemma PriceFrom(cost: nat, value: nat, n: nat)
    requires value * SCALE <= cost <= value * SCALE + n * (SCALE - 1)
    ensures value <= cost / SCALE && (n == 0 ==> cost / SCALE == value) && (n > 0 ==> cost / SCALE < value + n)
  {
    if n > 0 { assert cost < (value + n) * SCALE; }
  }

  // ----- how many matches there can be ------------------------------------------------------

  /** The trades that still want something. */
  function Unfilled(book: seq<Order>): nat
  {
    if book == [] then 0 else (if book[0].remaining > 0 then 1 else 0) + Unfilled(book[1..])
  }

  lemma {:induction false} UnfilledUpdated(book: seq<Order>, i: nat, o: Order)
    requires i < |book|
    ensures Unfilled(book[i := o]) + (if book[i].remaining > 0 then 1 else 0)
            == Unfilled(book) + (if o.remaining > 0 then 1 else 0)
    decreases |book|
  {
    if i == 0 {
      assert book[0 := o][1..] == book[1..];
    } else {
      assert book[i := o][1..] == book[1..][i - 1 := o];
      UnfilledUpdated(book[1..], i - 1, o);
    }
  }

  /** A run in which every match is allowed and finds both sides wanting. */
  predicate Effective(book: seq<Order>, steps: seq<(nat, nat)>)
    requires AllSane(book)
    decreases |steps|
  {
    steps == [] ||
    (Allowed(book, steps[0]) && book[steps[0].0].remaining > 0 && book[steps[0].1].remaining > 0 &&
     Effective(Stepped(book, steps[0]), steps[1..]))
  }

  lemma StepFills(book: seq<Order>, step: (nat, nat))
    requires AllSane(book) && Allowed(book, step)
    requires book[step.0].remaining > 0 && book[step.1].remaining > 0
    ensures Unfilled(Stepped(book, step)) < Unfilled(book) && Unfilled(book) >= 2
  {
    var (i, j) := step;
    var (b, s) := Matched(book[i], book[j]);
    UnfilledUpdated(book, i, b);
    UnfilledUpdated(book[i := b], j, s);
    UnfilledUpdated(book, i, b.(remaining := 0));
    UnfilledUpdated(book[i := b.(remaining := 0)], j, s.(remaining := 0));
  }

  /** Every match fills a trade for good, so there are fewer matches than trades
      that wanted something at the start. */
  lemma {:induction false} MatchingIsBounded(book: seq<Order>, steps: seq<(nat, nat)>)
    requires AllSane(book) && Effective(book, steps)
    ensures steps != [] ==> |steps| < Unfilled(book)
    decreases |steps|
  {
    if steps != [] {
      StepFills(book, steps[0]);
      MatchingIsBounded(Stepped(book, steps[0]), steps[1..]);
    }
  }

  // ----- undoing matches ------------------------------------------------------------------

  /** Taking a match back, or the point at which a subtraction raised. */
  datatype Undone = Undone(buy: Order, sell: Order) | Negative(buy: Order, sell: Order)

  function Cleared(o: Order): Order
  {
    o.(sent := 0, recv := 0, remaining := o.amount, status := Opened)
  }

  /** The side that traded more value gives back what the other had; the other
      starts afresh, and both do when they traded the same. */
  function Unmatched(buy: Order, sell: Order): (r: Undone)
    requires buy.action.Buy? && sell.action.Sell? && Balanced(buy) && Balanced(sell)
    ensures r.Undone? ==> Balanced(r.buy) && Balanced(r.sell) && SameTrade(buy, r.buy) && SameTrade(sell, r.sell)
  {
    if buy.sent > sell.recv then
      if buy.recv < sell.sent then Negative(buy.(sent := buy.sent - sell.recv), sell)
      else Undone(buy.(sent := buy.sent - sell.recv, recv := buy.recv - sell.sent,
                       remaining := buy.remaining + sell.sent),
                  Cleared(sell))
    else if buy.sent < sell.recv then
      if sell.sent < buy.recv then Negative(buy, sell)
      else Undone(Cleared(buy),
                  sell.(sent := sell.sent - buy.recv, recv := sell.recv - buy.sent,
                        remaining := sell.remaining + buy.recv))
    else Undone(Cleared(buy), Cleared(sell))
  }

  /** One trade against another of the other action. */
  function MatchedPair(a: Order, b: Order): (Order, Order)
    requires a.action != b.action
  {
    if a.action.Buy? then Matched(a, b) else var (x, y) := Matched(b, a); (y, x)
  }

  function UnmatchedPair(a: Order, b: Order): (r: Option<(Order, Order)>)
    requires a.action != b.action && Balanced(a) && Balanced(b)
    ensures r.Some? ==> Balanced(r.value.0) && Balanced(r.value.1)
                        && SameTrade(a, r.value.0) && SameTrade(b, r.value.1)
  {
    if a.action.Buy? then
      match Unmatched(a, b) case Undone(x, y) => Some((x, y)) case Negative(_, _) => None
    else
      match Unmatched(b, a) case Undone(x, y) => Some((y, x)) case Negative(_, _) => None
  }

  /** Two trades within each other's price. */
  predicate Agree(a: Order, b: Order)
  {
    a.action != b.action && (if a.action.Buy? then a.ppc >= b.ppc else b.ppc >= a.ppc)
  }

  predicate AllAgree(hub: Order, others: seq<Order>)
  {
    forall i :: 0 <= i < |others| ==> Agree(hub, others[i]) && Sane(others[i])
  }

  /** One trade matched with one counterparty after another. */
  function MatchedAll(hub: Order, others: seq<Order>): (r: (Order, seq<Order>))
    requires Sane(hub) && AllAgree(hub, others)
    ensures Sane(r.0) && |r.1| == |others| && SameTrade(r.0, hub)
    ensures forall i :: 0 <= i < |others| ==> Sane(r.1[i]) && SameTrade(r.1[i], others[i])
    decreases |others|
  {
    if others == [] then (hub, [])
    else
      PairStaysSane(hub, others[0]);
      var (h, o) := MatchedPair(hub, others[0]);
      var (h', os) := MatchedAll(h, others[1..]);
      (h', [o] + os)
  }

  lemma PairStaysSane(a: Order, b: Order)
    requires Agree(a, b) && Sane(a) && Sane(b)
    ensures var (x, y) := MatchedPair(a, b);
            Sane(x) && Sane(y) && SameTrade(a, x) && SameTrade(b, y) &&
            Coins(x) - Coins(a) == Coins(y) - Coins(b) && Value(x) - Value(a) == Value(y) - Value(b)
  {
    if a.action.Buy? { MatchingStaysSane(a, b); } else { MatchingStaysSane(b, a); }
  }

  /** Matches taken back one by one, by the places of the counterparties. */
  function UnmatchedAll(hub: Order, others: seq<Order>, order: seq<nat>): Option<(Order, seq<Order>)>
    requires Balanced(hub) && forall i :: 0 <= i < |others| ==> others[i].action != hub.action && Balanced(others[i])
    requires forall k :: 0 <= k < |order| ==> order[k] < |others|
    decreases |order|
  {
    if order == [] then Some((hub, others))
    else
      match UnmatchedPair(hub, others[order[0]])
      case None => None
      case Some(pair) => UnmatchedAll(pair.0, others[order[0] := pair.1], order[1..])
  }

  function Sum(others: seq<Order>, value: bool): nat
    decreases |others|
  {
    if others == [] then 0 else (if value then Value(others[0]) else Coins(others[0])) + Sum(others[1..], value)
  }

  lemma {:induction false} SumUpdated(others: seq<Order>, i: nat, o: Order, value: bool)
    requires i < |others|
    ensures var w := if value then Value(others[i]) else Coins(others[i]);
            var w' := if value then Value(o) else Coins(o);
            w <= Sum(others, value) && Sum(others[i := o], value) == Sum(others, value) - w + w'
    decreases |others|
  {
    if i == 0 {
      assert others[0 := o][1..] == others[1..];
    } else {
      assert others[i := o][1..] == others[1..][i - 1 := o];
      SumUpdated(others[1..], i - 1, o, value);
    }
  }

  predicate Unmoved(o: Order)
  {
    o.sent == 0 && o.recv == 0
  }

  predicate AllUnmoved(others: seq<Order>)
  {
    forall i :: 0 <= i < |others| ==> Unmoved(others[i])
  }

  /** A hub against the counterparties it was matched with. Its value is all theirs;
      so are its coins, unless it was reset while some still held coins of no value. */
  predicate Hub(hub: Order, others: seq<Order>)
  {
    Balanced(hub) && (forall i :: 0 <= i < |others| ==> others[i].action != hub.action && Balanced(others[i])) &&
    Value(hub) == Sum(others, true) &&
    (Coins(hub) == Sum(others, false) || (Value(hub) == 0 && Coins(hub) == 0))
  }

  lemma {:induction false} MatchingAddsUp(hub: Order, others: seq<Order>)
    requires Sane(hub) && AllAgree(hub, others) && AllUnmoved(others)
    ensures var (h, os) := MatchedAll(hub, others);
            Coins(h) == Coins(hub) + Sum(os, false) && Value(h) == Value(hub) + Sum(os, true)
    decreases |others|
  {
    if others != [] {
      PairStaysSane(hub, others[0]);
      var (h, o) := MatchedPair(hub, others[0]);
      MatchingAddsUp(h, others[1..]);
      var os := MatchedAll(h, others[1..]).1;
      assert ([o] + os)[1..] == os;
    }
  }

  /** Taking back a match with a counterparty of the hub never raises, and clears
      the counterparty. */
  lemma UnmatchingKeepsHub(hub: Order, others: seq<Order>, i: nat)
    requires Hub(hub, others) && i < |others|
    ensures var r := UnmatchedPair(hub, others[i]);
            r.Some? && Unmoved(r.value.1) && r.value.1.status.Opened? && Hub(r.value.0, others[i := r.value.1]) &&
            r.value.0.status == if Value(r.value.0) == 0 then Opened else hub.status
  {
    SumUpdated(others, i, Cleared(others[i]), true);
    SumUpdated(others, i, Cleared(others[i]), false);
    UnmatchedByValue(hub, others[i]);
  }

  /** The two cases a hub meets: it moved more value than the counterparty, or
      exactly as much. */
  lemma UnmatchedByValue(a: Order, b: Order)
    requires a.action != b.action && Balanced(a) && Balanced(b)
    ensures var r := UnmatchedPair(a, b);
            (Value(a) == Value(b) ==> r == Some((Cleared(a), Cleared(b)))) &&
            (Value(a) > Value(b) && Coins(a) >= Coins(b) ==>
               r.Some? && r.value.1 == Cleared(b) && Coins(r.value.0) == Coins(a) - Coins(b)
               && Value(r.value.0) == Value(a) - Value(b) && r.value.0.status == a.status)
  {
  }

  lemma {:induction false} UnmatchingClears(hub: Order, others: seq<Order>, order: seq<nat>, cleared: set<nat>)
    requires Hub(hub, others) && forall k :: 0 <= k < |order| ==> order[k] < |others|
    requires forall i :: i in cleared ==> i < |others| && Unmoved(others[i]) && others[i].status.Opened?
    ensures var r := UnmatchedAll(hub, others, order);
            r.Some? && |r.value.1| == |others| && Hub(r.value.0, r.value.1) &&
            (order != [] && Value(r.value.0) == 0 ==> r.value.0.status.Opened?) &&
            forall i :: (i in cleared || i in order) ==> Unmoved(r.value.1[i]) && r.value.1[i].status.Opened?
    decreases |order|
  {
    if order != [] {
      var i := order[0];
      UnmatchingKeepsHub(hub, others, i);
      var (h, o) := UnmatchedPair(hub, others[i]).value;
      UnmatchingClears(h, others[i := o], order[1..], cleared + {i});
    }
  }

  lemma {:induction false} UnmovedSum(others: seq<Order>, value: bool)
    requires AllUnmoved(others)
    ensures Sum(others, value) == 0
    decreases |others|
  {
    if others != [] {
      UnmovedSum(others[1..], value);
    }
  }

  /** A fresh trade matched with any number of fresh counterparties, and unmatched
      from all of them in any order: everyone is open and back where it started, even
      those whose match was too small to be worth anything. */
  lemma UnmatchingRestores(hub: Order, others: seq<Order>, order: seq<nat>)
    requires Sane(hub) && Unmoved(hub) && AllAgree(hub, others) && AllUnmoved(others)
    requires forall k :: 0 <= k < |order| ==> order[k] < |others|
    requires forall i :: 0 <= i < |others| ==> i in order
    ensures var (h, os) := MatchedAll(hub, others);
            var r := UnmatchedAll(h, os, order);
            r.Some? && Unmoved(r.value.0) && r.value.0.remaining == r.value.0.amount &&
            (order != [] ==> r.value.0.status.Opened?) && |r.value.1| == |others| &&
            forall i :: 0 <= i < |others| ==>
              Unmoved(r.value.1[i]) && r.value.1[i].remaining == r.value.1[i].amount && r.value.1[i].status.Opened?
  {
    var (h, os) := MatchedAll(hub, others);
    MatchingAddsUp(hub, others);
    UnmatchingClears(h, os, order, {});
    var (h', os') := UnmatchedAll(h, os, order).value;
    UnmovedSum(os', true);
    UnmovedSum(os', false);
  }

  /** On the way there the hub's coins are exactly those of the counterparties it
      is still matched with if and only if they traded some value, or no coins. */
  lemma StepwiseExact(hub: Order, others: seq<Order>, i: nat)
    requires Hub(hub, others) && Coins(hub) == Sum(others, false) && i < |others|
    ensures var r := UnmatchedPair(hub, others[i]);
            r.Some? &&
            var rest := others[i := r.value.1];
            (Coins(r.value.0) == Sum(rest, false) <==> Sum(rest, true) > 0 || Sum(rest, false) == 0)
  {
    SumUpdated(others, i, Cleared(others[i]), true);
    SumUpdated(others, i, Cleared(others[i]), false);
    UnmatchedByValue(hub, others[i]);
  }

  // ----- the trade object -------------------------------------------------------------------

  class Trade {
    const action: Action
    const pair: (string, string)
    const amount: Amount
    const ppc: Amount
    var sent: Amount
    var recv: Amount
    var remaining: Amount
    var status: Status

    function View(): Order
      reads this
    {
      Order(action, pair, amount, ppc, sent, recv, remaining, status)
    }

    constructor (action: Action, pair: (string, string), amount: Amount, ppc: Amount)
      ensures View() == Fresh(action, pair, amount, ppc)
    {
      this.action, this.pair, this.amount, this.ppc := action, pair, amount, ppc;
      sent, recv, remaining, status := 0, 0, amount, Pending;
    }

    method Equals(other: Trade) returns (r: bool)
      ensures r == Equal(View(), other.View())
    {
      if status != Opened || other.status != Opened { return false; }
      if pair != other.pair { return false; }
      if action == other.action { return false; }
      var buy, sell := BuySell(other);
      if buy.ppc < sell.ppc { return false; }
      if buy.amount != sell.amount { return false; }
      if remaining == 0 || other.remaining == 0 { return false; }
      return true;
    }

    method BuySell(other: Trade) returns (buy: Trade, sell: Trade)
      ensures {buy, sell} == {this, other}
      ensures action.Buy? ==> buy == this
      ensures action.Sell? ==> sell == this
      ensures action != other.action ==> buy.action.Buy? && sell.action.Sell?
    {
      if action == Buy { return this, other; }
      return other, this;
    }

    /** A buy against a sell: the smaller remainder moves, at the seller's price. */
    static method Fill(buy: Trade, sell: Trade) returns (change: Amount)
      requires buy.action.Buy? && sell.action.Sell? && Balanced(buy.View()) && Balanced(sell.View())
      modifies buy, sell
      ensures (buy.View(), sell.View()) == Matched(old(buy.View()), old(sell.View()))
      ensures change == Min(old(buy.remaining), old(sell.remaining))
    {
      var closeBuy, closeSell := false, false;
      change := 0;
      if buy.remaining > sell.remaining {
        change := sell.remaining;
        closeSell := true;
      }
      if buy.remaining < sell.remaining {
        change := buy.remaining;
        closeBuy := true;
      }
      if buy.remaining == sell.remaining {
        change := buy.remaining;
        closeBuy, closeSell := true, true;
      }
      var value := Times(change, sell.ppc);
      buy.recv := buy.recv + change;
      buy.sent := buy.sent + value;
      buy.remaining := buy.amount - buy.recv;
      sell.sent := sell.sent + change;
      sell.recv := sell.recv + value;
      sell.remaining := sell.amount - sell.sent;
      if closeBuy { buy.status := Closed; }
      if closeSell { sell.status := Closed; }
    }

    /** Matches two trades; the result is the amount moved and its price. */
    method Divide(other: Trade) returns (moved: (Amount, Amount))
      requires Agree(View(), other.View()) && Sane(View()) && Sane(other.View())
      modifies this, other
      ensures (View(), other.View()) == MatchedPair(old(View()), old(other.View()))
      ensures Sane(View()) && Sane(other.View())
      ensures moved == (Coins(View()) - Coins(old(View())), if action.Buy? then other.ppc else ppc)
      ensures Value(View()) - Value(old(View())) == Times(moved.0, moved.1)
      ensures Value(other.View()) - Value(old(other.View())) == Times(moved.0, moved.1)
    {
      PairStaysSane(View(), other.View());
      var buy, sell := BuySell(other);
      var change := Fill(buy, sell);
      return (change, sell.ppc);
    }

    /** Unmatches two trades. A subtraction that would go below zero raises, and
        leaves what was assigned before it. */
    method Multiply(other: Trade) returns (r: Result<()>)
      requires action != other.action && Balanced(View()) && Balanced(other.View())
      modifies this, other
      ensures var (a, b) := (old(View()), old(other.View()));
              var undone := if action.Buy? then Unmatched(a, b) else Unmatched(b, a);
              (r.Ok? <==> undone.Undone?) &&
              (undone.buy, undone.sell) == if action.Buy? then (View(), other.View()) else (other.View(), View())
    {
      var buy, sell := BuySell(other);
      var openBuy, openSell := false, false;
      if buy.sent > sell.recv {
        buy.sent := buy.sent - sell.recv;
        if buy.recv < sell.sent { return Result.Raised; }
        buy.recv := buy.recv - sell.sent;
        sell.sent, sell.recv := 0, 0;
        openSell := true;
      }
      if buy.sent < sell.recv {
        if sell.sent < buy.recv { return Result.Raised; }
        sell.sent := sell.sent - buy.recv;
        sell.recv := sell.recv - buy.sent;
        buy.sent, buy.recv := 0, 0;
        openBuy := true;
      }
      if buy.sent == sell.recv {
        buy.sent, buy.recv, sell.sent, sell.recv := 0, 0, 0, 0;
        openBuy, openSell := true, true;
      }
      buy.remaining := buy.amount - buy.recv;
      sell.remaining := sell.amount - sell.sent;
      if openBuy { buy.status := Opened; }
      if openSell { sell.status := Opened; }
      return Ok(());
    }
  }
}
