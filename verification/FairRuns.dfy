/** Every fair run of two honest nodes ends with the contract complete: the
    measure that only grows, and what keeps it from resting before the end. */
module FairRuns {
  import opened Outcome
  import opened Amounts
  import opened MatchStates
  import opened M = Microtransfer
  import opened Protocol
  import opened Lockstep

  // ----- every fair run ends -----------------------------------------------------------------

  /** How much has happened to a side. */
  function Work(x: Party): nat
  {
    x.heard + |x.said| + Rank(x.node.state)
    + (if x.node.ready.Some? then 1 else 0) + (if x.node.confirmed then 1 else 0)
  }

  /** The side but for where its event loop is and how old its messages are. */
  function Core(x: Party): Party
  {
    x.(receiving := false, late := 0, node := x.node.(checked := Unset))
  }

  /** The event loop is where the event can happen. */
  predicate Enabled(x: Party, e: Event)
  {
    x.receiving == (e.Receives? || e.Routes?)
  }

  /** The event has nothing to work on. */
  predicate Idle(x: Party, incoming: nat, e: Event)
  {
    match e
    case Acts(_) => !HasAction(x.node.state)
    case Receives(_) => x.heard >= incoming
    case Routes(_) => x.node.replies == [] || !x.node.confirmed
    case Readied(_) => x.node.ready.Some?
    case Confirms(_) => x.node.ready.None? || x.node.confirmed
    case Redeems(_) => !x.node.state.PendingMicrotransferConfirm?
    case Expires(_, _) => true
  }

  lemma ActWorks(me: Identity, them: Identity, x: Party)
    requires Pair(me, them) && Well(me, them, x)
    ensures var y := SideStep(me, them, x, [], 0, Acts(me.role));
            Work(y) >= Work(x) && (Work(y) == Work(x) ==> Core(y) == Core(x) && (x.receiving || !HasAction(x.node.state)))
  {
    if !x.receiving {
      if x.node.state.SellerInitiateMicrotransfer? {
        InitiatingPays(me, them, x);
      } else {
        OtherActsWork(me, x);
      }
    }
  }

  lemma OtherActsWork(me: Identity, x: Party)
    requires Solvent(me, x.node) && !x.receiving && !x.node.state.SellerInitiateMicrotransfer?
    requires HasAction(x.node.state) ==> x.node.checked != x.node.state
    ensures var y := SideStep(me, me, x, [], 0, Acts(me.role));
            Work(y) >= Work(x) && (Work(y) == Work(x) ==> Core(y) == Core(x) && !HasAction(x.node.state))
  {
    if !HasAction(x.node.state) { assert x.said + [] == x.said; }
  }

  lemma RouteWorks(me: Identity, them: Identity, x: Party)
    requires Pair(me, them) && Well(me, them, x)
    ensures var y := SideStep(me, them, x, [], 0, Routes(me.role));
            Work(y) >= Work(x) &&
            (Work(y) == Work(x) ==> Core(y) == Core(x) && (x.receiving ==> Idle(x, 0, Routes(me.role))))
  {
    assert x.said + [] == x.said;
    if x.receiving && x.node.replies != [] {
      RoutedOne(x.node, Line(me, them, |x.said|), x.node.replies[0].deferred);
    }
  }

  lemma HearingWorks(me: Identity, x: Party, m: Message)
    requires Solvent(me, x.node)
    ensures Work(Heard(me, x, m)) > Work(x)
  {
    HandlingMovesForward(me, x.node, m);
    HandlingKeepsFlags(me, x.node, m);
  }

  lemma EventWorks(me: Identity, them: Identity, x: Party, e: Event)
    requires Pair(me, them) && Well(me, them, x) && e.who == me.role
    requires e.Readied? || e.Confirms? || e.Redeems?
    ensures var y := SideStep(me, them, x, [], 0, e);
            Work(y) >= Work(x) && (Work(y) == Work(x) ==> y == x && (Enabled(x, e) ==> Idle(x, 0, e)))
  {
    if e.Confirms? { ConfirmWorks(me, them, x); }
  }

  lemma ConfirmWorks(me: Identity, them: Identity, x: Party)
    requires Solvent(me, x.node)
    ensures var e := Confirms(me.role);
            var y := SideStep(me, them, x, [], 0, e);
            Work(y) >= Work(x) && (Work(y) == Work(x) ==> y == x && (Enabled(x, e) ==> Idle(x, 0, e)))
  {
    RequestMovesForward(x.node.state, if me.role.Seller? then PendingSellerGetRefundSig
                                      else PendingBuyerReturnRefundSig);
  }

  lemma SideWorks(me: Identity, them: Identity, x: Party, incoming: seq<Message>, late: nat, e: Event)
    requires Pair(me, them) && Well(me, them, x) && e.who == me.role
    ensures var y := SideStep(me, them, x, incoming, late, e);
            Work(y) >= Work(x) &&
            (Work(y) == Work(x) ==> Core(y) == Core(x) && (Enabled(x, e) ==> Idle(x, |incoming|, e)))
  {
    match e
    case Acts(_) => ActWorks(me, them, x);
    case Routes(_) => RouteWorks(me, them, x);
    case Receives(_) =>
      if x.receiving && x.heard < |incoming| {
        HearingWorks(me, x, incoming[x.heard]);
      }
    case Expires(_, _) =>
    case _ => EventWorks(me, them, x, e);
  }

  predicate IdleIn(s: System, e: Event)
  {
    if e.who.Seller? then Idle(s.seller, |s.buyer.said|, e) else Idle(s.buyer, |s.seller.said|, e)
  }

  predicate EnabledIn(s: System, e: Event)
  {
    Enabled(if e.who.Seller? then s.seller else s.buyer, e)
  }

  function Progress(s: System): nat
  {
    Work(s.seller) + Work(s.buyer)
  }

  predicate Alike(s: System, t: System)
  {
    Core(s.seller) == Core(t.seller) && Core(s.buyer) == Core(t.buyer)
  }

  lemma StepWorks(d: Deal, s: System, e: Event)
    requires Honest(d) && Inv(d, s)
    ensures var t := Step(d, s, e);
            Progress(t) >= Progress(s) &&
            (Progress(t) == Progress(s) ==> Alike(s, t) && (EnabledIn(s, e) ==> IdleIn(s, e)))
  {
    if e.who.Seller? {
      SideWorks(d.seller, d.buyer, s.seller, s.buyer.said, s.buyer.late, e);
    } else {
      SideWorks(d.buyer, d.seller, s.buyer, s.seller.said, s.seller.late, e);
    }
  }

  lemma AlikeIdle(s: System, t: System, e: Event)
    requires Alike(s, t)
    ensures IdleIn(s, e) == IdleIn(t, e)
  {
    var a, b := Core(s.seller), Core(t.seller);
    var a', b' := Core(s.buyer), Core(t.buyer);
    assert a.node.state == b.node.state && a'.node.state == b'.node.state;
    assert a.node.replies == b.node.replies && a'.node.replies == b'.node.replies;
    assert a.node.ready == b.node.ready && a'.node.ready == b'.node.ready;
    assert a.node.confirmed == b.node.confirmed && a'.node.confirmed == b'.node.confirmed;
  }

  /** Somewhere in a stretch of the run the event is taken in its turn, or there is
      a moment at which it has nothing to work on. */
  predicate Served(d: Deal, s: System, es: seq<Event>, e: Event)
    requires Sound(d, s)
    decreases |es|
  {
    IdleIn(s, e) ||
    (es != [] && ((es[0] == e && EnabledIn(s, e)) || Served(d, Step(d, s, es[0]), es[1..], e)))
  }

  lemma {:induction false} RunWorks(d: Deal, s: System, es: seq<Event>)
    requires Honest(d) && Inv(d, s) && Timely(d, s, es)
    ensures Progress(Run(d, s, es)) >= Progress(s)
    decreases |es|
  {
    if es != [] {
      StepKeepsInv(d, s, es[0]);
      StepWorks(d, s, es[0]);
      RunWorks(d, Step(d, s, es[0]), es[1..]);
    }
  }

  /** A stretch in which nothing gets done leaves every event it serves idle. */
  lemma {:induction false} QuietStretch(d: Deal, s: System, es: seq<Event>, e: Event)
    requires Honest(d) && Inv(d, s) && Timely(d, s, es)
    requires Progress(Run(d, s, es)) == Progress(s) && Served(d, s, es, e)
    ensures IdleIn(s, e)
    decreases |es|
  {
    if !IdleIn(s, e) {
      var t := Step(d, s, es[0]);
      StepKeepsInv(d, s, es[0]);
      StepWorks(d, s, es[0]);
      RunWorks(d, t, es[1..]);
      AlikeIdle(s, t, e);
      QuietStretch(d, t, es[1..], e);
    }
  }

  /** Both sides have come to the end of the contract with everything moved. */
  ghost predicate Done(d: Deal, s: System)
    requires Sound(d, s)
  {
    s.seller.node.state.MicrotransferComplete? && s.buyer.node.state.MicrotransferComplete? &&
    Complete(d.seller.terms, s.seller.node.channel) && Complete(d.buyer.terms, s.buyer.node.channel)
  }

  /** Where a side stands when its event loop has nothing to do. */
  lemma WhereASideRests(me: Identity, them: Identity, x: Party)
    requires Pair(me, them) && Well(me, them, x)
    requires !HasAction(x.node.state) && x.node.confirmed && x.node.replies == []
    requires !x.node.state.PendingMicrotransferConfirm?
    ensures var (h, p, last) := (x.heard, |x.said|, Last(me));
            if me.role.Seller? then
              (h == 0 && p == 1) || (h == 1 && p == 1) || (h == 2 && p == 3) || (h == 3 && p == 3) ||
              (4 <= h < 4 + last && p == h + 1) ||
              (x.node.state.MicrotransferComplete? && h >= 4 + last && p == 5 + last)
            else
              (h == 0 && p == 0) || (h == 1 && p == 2) || (h == 2 && p == 2) || (h == 3 && p == 4) ||
              (4 <= h < 4 + last && p == h) ||
              (x.node.state.MicrotransferComplete? && h >= 4 + last && p == 4 + last)
  {
  }

  /** The two sides' last payments fit each other. */
  lemma LastsFit(d: Deal)
    requires Honest(d)
    ensures 1 <= Last(d.seller) <= Last(d.buyer) <= Last(d.seller) + 1
  {
    RoundsReach(d.buyer.terms.Upload(), d.buyer.terms.ourChunk, 0);
    RoundsReach(d.seller.terms.Upload(), d.seller.terms.ourChunk, 0);
  }

  lemma DoneWhenComplete(d: Deal, s: System)
    requires Honest(d) && Inv(d, s)
    requires s.seller.node.state.MicrotransferComplete? && s.buyer.node.state.MicrotransferComplete?
    ensures Done(d, s)
  {
    CompleteAtLast(d.seller, d.buyer, s.seller.node.channel, Last(d.seller));
    CompleteAtLast(d.buyer, d.seller, s.buyer.node.channel, Last(d.buyer));
  }

  /** When nothing is left to do anywhere, the contract is complete. */
  lemma RestIsDone(d: Deal, s: System)
    requires Honest(d) && Inv(d, s)
    requires forall e :: IdleIn(s, e)
    ensures Done(d, s)
  {
    assert IdleIn(s, Readied(Seller)) && IdleIn(s, Confirms(Seller));
    assert IdleIn(s, Readied(Buyer)) && IdleIn(s, Confirms(Buyer));
    assert IdleIn(s, Routes(Seller)) && IdleIn(s, Routes(Buyer));
    assert IdleIn(s, Acts(Seller)) && IdleIn(s, Acts(Buyer));
    assert IdleIn(s, Redeems(Seller)) && IdleIn(s, Redeems(Buyer));
    assert IdleIn(s, Receives(Seller)) && IdleIn(s, Receives(Buyer));
    WhereASideRests(d.seller, d.buyer, s.seller);
    WhereASideRests(d.buyer, d.seller, s.buyer);
    LastsFit(d);
    DoneWhenComplete(d, s);
  }

  // ----- the bound, and the theorem ----------------------------------------------------------

  /** More than ever happens in one honest contract. */
  function Bound(d: Deal): nat
    requires Fundable(d.seller.terms) && d.seller.terms.ourChunk > 0 && d.seller.terms.theirChunk > 0
    requires Fundable(d.buyer.terms) && d.buyer.terms.ourChunk > 0 && d.buyer.terms.theirChunk > 0
  {
    50 + 2 * (Last(d.seller) + Last(d.buyer))
  }

  lemma SaidIsBounded(me: Identity, them: Identity, x: Party)
    requires Pair(me, them) && Well(me, them, x)
    ensures |x.said| <= (if me.role.Seller? then 5 else 4) + Last(me) && Rank(x.node.state) <= 14
  {
  }

  lemma ProgressIsBounded(d: Deal, s: System)
    requires Honest(d) && Inv(d, s)
    ensures Progress(s) <= Bound(d)
  {
    SaidIsBounded(d.seller, d.buyer, s.seller);
    SaidIsBounded(d.buyer, d.seller, s.buyer);
  }

  lemma CompleteIsLast(state: State)
    ensures state.MicrotransferComplete? <==> Rank(state) >= 14
  {
  }

  lemma CompleteStays(me: Identity, them: Identity, x: Party, incoming: seq<Message>, late: nat, e: Event)
    requires Solvent(me, x.node) && x.node.state.MicrotransferComplete?
    ensures SideStep(me, them, x, incoming, late, e).node.state.MicrotransferComplete?
  {
    SideMovesForward(me, them, x, incoming, late, e);
    CompleteIsLast(SideStep(me, them, x, incoming, late, e).node.state);
  }

  lemma {:induction false} DoneStays(d: Deal, s: System, es: seq<Event>)
    requires Honest(d) && Inv(d, s) && Timely(d, s, es)
    requires s.seller.node.state.MicrotransferComplete? && s.buyer.node.state.MicrotransferComplete?
    ensures var t := Run(d, s, es);
            t.seller.node.state.MicrotransferComplete? && t.buyer.node.state.MicrotransferComplete?
    decreases |es|
  {
    if es != [] {
      var e := es[0];
      StepKeepsInv(d, s, e);
      if e.who.Seller? {
        CompleteStays(d.seller, d.buyer, s.seller, s.buyer.said, s.buyer.late, e);
      } else {
        CompleteStays(d.buyer, d.seller, s.buyer, s.seller.said, s.seller.late, e);
      }
      DoneStays(d, Step(d, s, e), es[1..]);
    }
  }

  /** A fair run comes in stretches, each of which serves every event. */
  ghost predicate FairRun(d: Deal, s: System, stretches: seq<seq<Event>>)
    requires Sound(d, s)
    decreases |stretches|
  {
    stretches == [] ||
    ((forall e :: Served(d, s, stretches[0], e)) && FairRun(d, Run(d, s, stretches[0]), stretches[1..]))
  }

  predicate AllTimely(d: Deal, s: System, stretches: seq<seq<Event>>)
    requires Sound(d, s)
    decreases |stretches|
  {
    stretches == [] || (Timely(d, s, stretches[0]) && AllTimely(d, Run(d, s, stretches[0]), stretches[1..]))
  }

  function End(d: Deal, s: System, stretches: seq<seq<Event>>): (r: System)
    requires Sound(d, s)
    ensures Sound(d, r)
    decreases |stretches|
  {
    if stretches == [] then s else End(d, Run(d, s, stretches[0]), stretches[1..])
  }

  lemma QuietIsDone(d: Deal, s: System, es: seq<Event>)
    requires Honest(d) && Inv(d, s) && Timely(d, s, es)
    requires Progress(Run(d, s, es)) == Progress(s) && forall e :: Served(d, s, es, e)
    ensures Done(d, s)
  {
    forall e ensures IdleIn(s, e) {
      QuietStretch(d, s, es, e);
    }
    RestIsDone(d, s);
  }

  predicate BothComplete(s: System)
  {
    s.seller.node.state.MicrotransferComplete? && s.buyer.node.state.MicrotransferComplete?
  }

  /** A stretch gets something done, unless all is done. */
  lemma StretchWorks(d: Deal, s: System, es: seq<Event>)
    requires Honest(d) && Inv(d, s) && Timely(d, s, es) && forall e :: Served(d, s, es, e)
    ensures var t := Run(d, s, es);
            Inv(d, t) && (Progress(t) > Progress(s) || BothComplete(t)) && (BothComplete(s) ==> BothComplete(t))
  {
    RunKeepsInv(d, s, es);
    RunWorks(d, s, es);
    if Progress(Run(d, s, es)) == Progress(s) {
      QuietIsDone(d, s, es);
    }
    if BothComplete(s) { DoneStays(d, s, es); }
  }

  lemma {:induction false} FairRunWorks(d: Deal, s: System, stretches: seq<seq<Event>>)
    requires Honest(d) && Inv(d, s) && FairRun(d, s, stretches) && AllTimely(d, s, stretches)
    requires Progress(s) + |stretches| > Bound(d) || BothComplete(s)
    ensures Done(d, End(d, s, stretches))
    decreases |stretches|
  {
    if stretches == [] {
      ProgressIsBounded(d, s);
      DoneWhenComplete(d, s);
    } else {
      StretchWorks(d, s, stretches[0]);
      FairRunWorks(d, Run(d, s, stretches[0]), stretches[1..]);
    }
  }

  lemma {:induction false} WedgedToTheEnd(d: Deal, s: System, stretches: seq<seq<Event>>)
    requires Honest(d) && Sound(d, s) && Wedged(d, s)
    ensures Wedged(d, End(d, s, stretches))
    decreases |stretches|
  {
    if stretches != [] {
      WedgedForever(d, s, stretches[0]);
      WedgedToTheEnd(d, Run(d, s, stretches[0]), stretches[1..]);
    }
  }

  lemma {:induction false} UntimelyIsWedged(d: Deal, s: System, stretches: seq<seq<Event>>)
    requires Honest(d) && Inv(d, s) && !AllTimely(d, s, stretches)
    ensures Wedged(d, End(d, s, stretches))
    decreases |stretches|
  {
    var t := Run(d, s, stretches[0]);
    TimelyOrWedged(d, s, stretches[0]);
    if Timely(d, s, stretches[0]) {
      RunKeepsInv(d, s, stretches[0]);
      UntimelyIsWedged(d, t, stretches[1..]);
    } else {
      WedgedToTheEnd(d, t, stretches[1..]);
    }
  }

  /** A fair run of two honest sides, of more stretches than Bound, ends with the
      contract complete on both sides and both amounts moved if and only if the
      buyer's READY was not late and nothing still needed grew too old. */
  lemma EveryFairRunCompletes(d: Deal, stretches: seq<seq<Event>>)
    requires Honest(d) && FairRun(d, Start(), stretches) && |stretches| > Bound(d)
    ensures Done(d, End(d, Start(), stretches)) <==> AllTimely(d, Start(), stretches)
  {
    StartIsWell(d);
    if AllTimely(d, Start(), stretches) {
      FairRunWorks(d, Start(), stretches);
    } else {
      UntimelyIsWedged(d, Start(), stretches);
      WedgedIsUndone(d, End(d, Start(), stretches));
    }
  }

  // ----- what is in flight ------------------------------------------------------------------

  /** How many payments a side has taken. */
  function Paid(me: Identity, x: Party): nat
    requires Fundable(me.terms) && me.terms.ourChunk > 0 && me.terms.theirChunk > 0
  {
    if Rank(x.node.state) < 11 then 0 else if x.heard - 4 < Last(me) then (if x.heard < 4 then 0 else x.heard - 4)
    else Last(me)
  }

  /** How many payments a side has made. */
  function Given(me: Identity, x: Party): nat
    requires Fundable(me.terms) && me.terms.ourChunk > 0 && me.terms.theirChunk > 0
  {
    if me.role.Seller? && Rank(x.node.state) >= 11 then Paid(me, x) + 1 else Paid(me, x)
  }

  lemma ChannelCounts(me: Identity, them: Identity, x: Party)
    requires Pair(me, them) && Well(me, them, x)
    ensures x.node.channel.recv == Min(Paid(me, x) * me.terms.theirChunk, me.terms.Download())
    ensures x.node.channel.sent == Min(Given(me, x) * me.terms.ourChunk, me.terms.Upload())
    ensures |x.said| > 4 ==> |x.said| <= 4 + Given(me, x)
    ensures Paid(me, x) > 0 ==> x.heard >= 4 + Paid(me, x)
    ensures 4 <= x.heard ==> Given(me, x) <= x.heard - 4 + 1
    ensures me.role.Buyer? ==> Given(me, x) == Paid(me, x)
    ensures me.role.Seller? ==> Paid(me, x) <= Given(me, x) <= Paid(me, x) + 1
    ensures me.role.Seller? && Paid(me, x) > 0 ==> Given(me, x) == Paid(me, x) + 1
  {
  }

  lemma Gap(chunk: Amount, limit: Amount, taken: nat, given: nat)
    requires taken <= given <= taken + 1
    ensures Min(taken * chunk, limit) <= Min(given * chunk, limit) <= Min(taken * chunk, limit) + chunk
  {
    NextChunk(taken, chunk, limit);
  }

  /** What was made is what was taken, or one more. */
  lemma CountsFit(d: Deal, s: System)
    requires Honest(d) && Inv(d, s)
    ensures Paid(d.buyer, s.buyer) <= Given(d.seller, s.seller) <= Paid(d.buyer, s.buyer) + 1
    ensures Paid(d.seller, s.seller) <= Given(d.buyer, s.buyer) <= Paid(d.seller, s.seller) + 1
  {
    ChannelCounts(d.seller, d.buyer, s.seller);
    ChannelCounts(d.buyer, d.seller, s.buyer);
    LastsFit(d);
  }

  /** At every moment of an honest run what one side is credited with is what the
      other has sent, but for at most one chunk in each direction. */
  lemma AtMostOneChunkInFlight(d: Deal, es: seq<Event>)
    requires Honest(d) && Timely(d, Start(), es)
    ensures var s := Run(d, Start(), es);
            var (a, b) := (s.seller.node.channel, s.buyer.node.channel);
            b.recv <= a.sent <= b.recv + d.seller.terms.ourChunk &&
            a.recv <= b.sent <= a.recv + d.buyer.terms.ourChunk
  {
    StartIsWell(d);
    RunKeepsInv(d, Start(), es);
    var s := Run(d, Start(), es);
    CountsFit(d, s);
    ChannelCounts(d.seller, d.buyer, s.seller);
    ChannelCounts(d.buyer, d.seller, s.buyer);
    Gap(d.seller.terms.ourChunk, d.seller.terms.Upload(), Paid(d.buyer, s.buyer), Given(d.seller, s.seller));
    Gap(d.buyer.terms.ourChunk, d.buyer.terms.Upload(), Paid(d.seller, s.seller), Given(d.buyer, s.buyer));
  }

  // ----- running both event loops is fair -----------------------------------------------------

  /** One pass of a node's event loop: the rest of the pass it is in, what arrives
      between passes, then actions, one message, and routing. */
  function Pass(who: Role): seq<Event>
  {
    [Routes(who), Readied(who), Confirms(who), Redeems(who), Acts(who), Receives(who), Routes(who)]
  }

  function Phase(receiving: bool, e: Event, who: Role): bool
  {
    if e.who != who then receiving else if e.Acts? then true else if e.Routes? then false else receiving
  }

  /** The event comes up in its turn, by the phases of the event loop alone. */
  predicate ComesUp(receiving: bool, es: seq<Event>, e: Event)
    decreases |es|
  {
    es != [] &&
    ((es[0] == e && receiving == (e.Receives? || e.Routes?)) || ComesUp(Phase(receiving, es[0], e.who), es[1..], e))
  }

  lemma {:induction false} ComingUpServes(d: Deal, s: System, es: seq<Event>, e: Event)
    requires Sound(d, s)
    requires ComesUp(if e.who.Seller? then s.seller.receiving else s.buyer.receiving, es, e)
    ensures Served(d, s, es, e)
    decreases |es|
  {
    if !(es[0] == e && EnabledIn(s, e)) {
      ComingUpServes(d, Step(d, s, es[0]), es[1..], e);
    }
  }

  lemma {:induction false} ComesUpLater(receiving: bool, other: seq<Event>, es: seq<Event>, e: Event)
    requires forall i :: 0 <= i < |other| ==> other[i].who != e.who
    requires ComesUp(receiving, es, e)
    ensures ComesUp(receiving, other + es, e)
    decreases |other|
  {
    if other == [] {
      assert other + es == es;
    } else {
      ComesUpLater(receiving, other[1..], es, e);
      assert (other + es)[1..] == other[1..] + es;
    }
  }

  lemma {:induction false} ComesUpBefore(receiving: bool, es: seq<Event>, more: seq<Event>, e: Event)
    requires ComesUp(receiving, es, e)
    ensures ComesUp(receiving, es + more, e)
    decreases |es|
  {
    if !(es[0] == e && receiving == (e.Receives? || e.Routes?)) {
      ComesUpBefore(Phase(receiving, es[0], e.who), es[1..], more, e);
      assert (es + more)[1..] == es[1..] + more;
    }
  }

  lemma PassTurns(receiving: bool, e: Event)
    requires !e.Expires?
    ensures ComesUp(receiving, Pass(e.who), e)
  {
    var w := e.who;
    var p := Pass(w);
    var (p1, p2, p3, p4, p5, p6) := (p[1..], p[2..], p[3..], p[4..], p[5..], p[6..]);
    assert p1[1..] == p2 && p2[1..] == p3 && p3[1..] == p4 && p4[1..] == p5 && p5[1..] == p6;
    assert p[0] == Routes(w) && p1[0] == Readied(w) && p2[0] == Confirms(w) && p3[0] == Redeems(w);
    assert p4[0] == Acts(w) && p5[0] == Receives(w) && p6[0] == Routes(w);
    assert e.Routes? ==> ComesUp(true, p6, e);
    assert e.Routes? || e.Receives? ==> ComesUp(true, p5, e);
    assert e.Routes? || e.Receives? || e.Acts? ==> ComesUp(false, p4, e);
    assert e.Routes? || e.Receives? || e.Acts? || e.Redeems? ==> ComesUp(false, p3, e);
    assert !e.Readied? ==> ComesUp(false, p2, e);
    assert ComesUp(false, p1, e);
  }

  /** One pass of both event loops, whatever came before, serves every event. */
  lemma PassesAreFair(d: Deal, s: System, e: Event)
    requires Sound(d, s)
    ensures Served(d, s, Pass(Buyer) + Pass(Seller), e)
  {
    if !e.Expires? {
      PassesTakeTurns(if e.who.Seller? then s.seller.receiving else s.buyer.receiving, e);
      ComingUpServes(d, s, Pass(Buyer) + Pass(Seller), e);
    }
  }

  lemma PassesTakeTurns(receiving: bool, e: Event)
    requires !e.Expires?
    ensures ComesUp(receiving, Pass(Buyer) + Pass(Seller), e)
  {
    PassTurns(receiving, e);
    if e.who.Seller? {
      ComesUpLater(receiving, Pass(Buyer), Pass(Seller), e);
    } else {
      ComesUpBefore(receiving, Pass(Buyer), Pass(Seller), e);
    }
  }

  /** Once the buyer has its READY, whatever follows without delay is timely. */
  lemma {:induction false} ReadyIsTimely(d: Deal, s: System, es: seq<Event>)
    requires Sound(d, s) && s.buyer.node.ready.Some?
    requires forall i :: 0 <= i < |es| ==> !es[i].Expires?
    ensures Timely(d, s, es)
    decreases |es|
  {
    if es != [] {
      ReadyStays(d.buyer, d.seller, s.buyer, s.seller.said, s.seller.late, es[0]);
      ReadyIsTimely(d, Step(d, s, es[0]), es[1..]);
    }
  }

  function Repeated(es: seq<Event>, n: nat): (stretches: seq<seq<Event>>)
    ensures |stretches| == n
  {
    if n == 0 then [] else [es] + Repeated(es, n - 1)
  }

  lemma {:induction false} ReadyRunStays(d: Deal, s: System, es: seq<Event>)
    requires Sound(d, s) && s.buyer.node.ready.Some?
    ensures Run(d, s, es).buyer.node.ready.Some?
    decreases |es|
  {
    if es != [] {
      ReadyStays(d.buyer, d.seller, s.buyer, s.seller.said, s.seller.late, es[0]);
      ReadyRunStays(d, Step(d, s, es[0]), es[1..]);
    }
  }

  lemma {:induction false} RepeatingIsFair(d: Deal, s: System, es: seq<Event>, n: nat)
    requires Sound(d, s) && s.buyer.node.ready.Some?
    requires forall t, e :: Sound(d, t) ==> Served(d, t, es, e)
    requires forall i :: 0 <= i < |es| ==> !es[i].Expires?
    ensures FairRun(d, s, Repeated(es, n)) && AllTimely(d, s, Repeated(es, n))
    decreases n
  {
    if n > 0 {
      ReadyIsTimely(d, s, es);
      ReadyRunStays(d, s, es);
      RepeatingIsFair(d, Run(d, s, es), es, n - 1);
    }
  }

  lemma PassesDoNotExpire()
    ensures var es := Pass(Buyer) + Pass(Seller); forall i :: 0 <= i < |es| ==> !es[i].Expires?
  {
  }

  /** Once the buyer has READY, running both event loops often enough, without
      delay, completes the contract if and only if all has been timely so far,
      whatever else has happened. */
  lemma EventLoopsComplete(d: Deal, es: seq<Event>)
    requires Honest(d) && Run(d, Start(), es).buyer.node.ready.Some?
    ensures Done(d, End(d, Run(d, Start(), es), Repeated(Pass(Buyer) + Pass(Seller), Bound(d) + 1)))
            <==> Timely(d, Start(), es)
  {
    var s := Run(d, Start(), es);
    var passes := Pass(Buyer) + Pass(Seller);
    StartIsWell(d);
    TimelyOrWedged(d, Start(), es);
    if Timely(d, Start(), es) {
      RunKeepsInv(d, Start(), es);
      PassesComplete(d, s);
    } else {
      WedgedToTheEnd(d, s, Repeated(passes, Bound(d) + 1));
      WedgedIsUndone(d, End(d, s, Repeated(passes, Bound(d) + 1)));
    }
  }

  lemma PassesComplete(d: Deal, s: System)
    requires Honest(d) && Inv(d, s) && s.buyer.node.ready.Some?
    ensures Done(d, End(d, s, Repeated(Pass(Buyer) + Pass(Seller), Bound(d) + 1)))
  {
    var passes := Pass(Buyer) + Pass(Seller);
    forall t, e | Sound(d, t) ensures Served(d, t, passes, e) {
      PassesAreFair(d, t, e);
    }
    PassesDoNotExpire();
    RepeatingIsFair(d, s, passes, Bound(d) + 1);
    FairRunWorks(d, s, Repeated(passes, Bound(d) + 1));
  }
}
