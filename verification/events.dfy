/** The signal ledger (app/models/events.go): an ordered record of BUY and SELL decisions with
    the alternation guards, the profit walk and the suffix query. */
module Events {
  import opened Wrappers
  import opened Bitflyer

  /** The two side strings the ledger ever writes, "BUY" and "SELL". */
  datatype Side = BUY | SELL

  function Opposite(side: Side): Side
  {
    match side
    case BUY => SELL
    case SELL => BUY
  }

  datatype SignalEvent = SignalEvent(
    time: Time,
    productCode: string,
    side: Side,
    price: real,
    size: real)

  /** The Signals slice of a SignalEvents value, oldest first. */
  type SignalEvents = seq<SignalEvent>

  /** Whether a Buy or Sell call was accepted, and the ledger after it. */
  datatype Attempt = Attempt(accepted: bool, signals: SignalEvents)

  function Last(s: SignalEvents): SignalEvent
    requires |s| > 0
  {
    s[|s| - 1]
  }

  /** Neighbouring events have opposite sides. */
  predicate Alternating(s: SignalEvents)
  {
    forall i :: 0 < i < |s| ==> s[i].side != s[i - 1].side
  }

  /** Event times strictly increase. */
  predicate TimesIncrease(s: SignalEvents)
  {
    forall i :: 0 < i < |s| ==> s[i - 1].time < s[i].time
  }

  /** The ledger invariant the guards keep. */
  predicate WellFormed(s: SignalEvents)
  {
    Alternating(s) && TimesIncrease(s)
  }

  /** The shared guard: an empty ledger, or a last event of the other side strictly before t. */
  predicate CanPlace(s: SignalEvents, side: Side, t: Time)
  {
    |s| == 0 || (Last(s).side == Opposite(side) && Last(s).time < t)
  }

  /** CanBuy: an empty ledger, or one whose last event is a SELL strictly before t; a later
      instant is accepted too. */
  predicate CanBuy(s: SignalEvents, t: Time)
    ensures CanBuy(s, t) <==> |s| == 0 || (Last(s).side == SELL && Last(s).time < t)
    ensures CanBuy(s, t) ==> forall u :: t <= u ==> CanPlace(s, BUY, u)
  {
    CanPlace(s, BUY, t)
  }

  /** CanSell: an empty ledger, or one whose last event is a BUY strictly before t; on a
      non-empty ledger it excludes CanBuy. */
  predicate CanSell(s: SignalEvents, t: Time)
    ensures CanSell(s, t) <==> |s| == 0 || (Last(s).side == BUY && Last(s).time < t)
    ensures |s| > 0 && CanSell(s, t) ==> !CanBuy(s, t)
    ensures CanSell(s, t) ==> forall u :: t <= u ==> CanPlace(s, SELL, u)
  {
    CanPlace(s, SELL, t)
  }

  /** Appends an event of the given side when the guard allows it (the save=false path:
      nothing is persisted). */
  function Place(s: SignalEvents, side: Side, productCode: string, t: Time, price: real, size: real): (r: Attempt)
    ensures r.accepted <==> CanPlace(s, side, t)
    ensures !r.accepted ==> r.signals == s
    ensures r.accepted ==> r.signals == s + [SignalEvent(t, productCode, side, price, size)]
    ensures WellFormed(s) ==> WellFormed(r.signals)
  {
    if !CanPlace(s, side, t) then Attempt(false, s)
    else Attempt(true, s + [SignalEvent(t, productCode, side, price, size)])
  }

  function Buy(s: SignalEvents, productCode: string, t: Time, price: real, size: real): (r: Attempt)
    ensures r.accepted <==> (|s| == 0 || (Last(s).side == SELL && Last(s).time < t))
    ensures !r.accepted ==> r.signals == s
    ensures r.accepted ==> r.signals == s + [SignalEvent(t, productCode, BUY, price, size)]
    ensures WellFormed(s) ==> WellFormed(r.signals)
  {
    Place(s, BUY, productCode, t, price, size)
  }

  function Sell(s: SignalEvents, productCode: string, t: Time, price: real, size: real): (r: Attempt)
    ensures r.accepted <==> (|s| == 0 || (Last(s).side == BUY && Last(s).time < t))
    ensures !r.accepted ==> r.signals == s
    ensures r.accepted ==> r.signals == s + [SignalEvent(t, productCode, SELL, price, size)]
    ensures WellFormed(s) ==> WellFormed(r.signals)
  {
    Place(s, SELL, productCode, t, price, size)
  }

  /** One requested trade, as a caller of Buy or Sell passes it. */
  datatype Order = Order(side: Side, productCode: string, time: Time, price: real, size: real)

  /** The ledger that a run of Buy/Sell calls builds from an empty ledger; rejected orders
      leave no trace. */
  function Apply(orders: seq<Order>): SignalEvents
  {
    if |orders| == 0 then []
    else
      var o := orders[|orders| - 1];
      Place(Apply(orders[..|orders| - 1]), o.side, o.productCode, o.time, o.price, o.size).signals
  }

  /** Every ledger built from empty by Buy/Sell alternates and has strictly increasing times. */
  lemma {:induction false} ApplyWellFormed(orders: seq<Order>)
    ensures WellFormed(Apply(orders))
  {
    if |orders| > 0 {
      ApplyWellFormed(orders[..|orders| - 1]);
    }
  }

  /** The loop of Profit, index by index: `total` is the running cash, `beforeSell` the cash
      just after the last SELL, `holding` whether the last event looked at was a BUY. */
  function ProfitLoop(s: SignalEvents, i: nat, total: real, beforeSell: real, holding: bool): (r: real)
    requires i <= |s|
    decreases |s| - i
    ensures NonNegativeAmounts(s, i) ==> r <= (if total >= beforeSell then total else beforeSell)
  {
    if i == |s| then total
    else if i == 0 && s[i].side == SELL then ProfitLoop(s, i + 1, total, beforeSell, holding)
    else
      var e := s[i];
      var total' := total - e.price * e.size;  // both the BUY and the SELL branch subtract
      var holding' := e.side == BUY;
      var beforeSell' := if e.side == SELL then total' else beforeSell;
      if holding' then beforeSell' else ProfitLoop(s, i + 1, total', beforeSell', holding')
  }

  /** Every event from index i on has a non-negative price * size. */
  predicate NonNegativeAmounts(s: SignalEvents, i: nat)
  {
    forall k :: i <= k < |s| ==> s[k].price * s[k].size >= 0.0
  }

  /** Profit: with non-negative trade amounts the reported profit is never positive. */
  function Profit(s: SignalEvents): (r: real)
    ensures NonNegativeAmounts(s, 0) ==> r <= 0.0
  {
    ProfitLoop(s, 0, 0.0, 0.0, false)
  }

  /** Where the profit walk starts: after a leading SELL. */
  function Start(s: SignalEvents): nat
  {
    if |s| > 0 && s[0].side == SELL then 1 else 0
  }

  /** The total price * size of the run of SELL events from index i up to the first BUY. */
  function SellRunCost(s: SignalEvents, i: nat): real
    requires i <= |s|
    decreases |s| - i
  {
    if i == |s| || s[i].side == BUY then 0.0
    else s[i].price * s[i].size + SellRunCost(s, i + 1)
  }

  lemma {:induction false} ProfitLoopFromSellRun(s: SignalEvents, i: nat, total: real, holding: bool)
    requires i <= |s|
    requires i != 0 || Start(s) == 0
    ensures ProfitLoop(s, i, total, total, holding) == total - SellRunCost(s, i)
    decreases |s| - i
  {
    if i < |s| && s[i].side == SELL {
      ProfitLoopFromSellRun(s, i + 1, total - s[i].price * s[i].size, false);
    }
  }

  /** Profit equals minus the cost of the SELL run that follows an optional leading SELL:
      a BUY returns the snapshot taken after the last SELL, never a round-trip gain. */
  lemma ProfitIsMinusSellRun(s: SignalEvents)
    ensures Profit(s) == -SellRunCost(s, Start(s))
  {
    ProfitLoopFromSellRun(s, Start(s), 0.0, false);
  }

  /** An alternating ledger reports zero profit. */
  lemma ProfitOfAlternatingIsZero(s: SignalEvents)
    requires Alternating(s)
    ensures Profit(s) == 0.0
  {
    ProfitIsMinusSellRun(s);
    if Start(s) == 1 && |s| > 1 {
      assert s[1].side != s[0].side;
    }
  }

  /** Neighbouring events of an alternating ledger have opposite sides. */
  lemma NeighboursDiffer(s: SignalEvents, i: nat)
    requires Alternating(s) && 0 < i < |s|
    ensures s[i].side == Opposite(s[i - 1].side)
  {
  }

  /** Every ledger built by Buy/Sell from empty, the empty one included, reports zero profit. */
  lemma ProfitOfAppliedIsZero(orders: seq<Order>)
    ensures Profit(Apply(orders)) == 0.0
  {
    ApplyWellFormed(orders);
    ProfitOfAlternatingIsZero(Apply(orders));
  }

  /** A closed round trip bought at 100 and sold at 150 reports 0, and so does a leading SELL
      followed by a round trip from 50 to 80. */
  lemma ProfitOfRoundTrips(code: string)
    ensures Profit([SignalEvent(1, code, BUY, 100.0, 1.0), SignalEvent(2, code, SELL, 150.0, 1.0)]) == 0.0
    ensures Profit([SignalEvent(1, code, SELL, 100.0, 1.0), SignalEvent(2, code, BUY, 50.0, 1.0),
                    SignalEvent(3, code, SELL, 80.0, 1.0)]) == 0.0
  {
    ProfitOfAlternatingIsZero([SignalEvent(1, code, BUY, 100.0, 1.0), SignalEvent(2, code, SELL, 150.0, 1.0)]);
    ProfitOfAlternatingIsZero([SignalEvent(1, code, SELL, 100.0, 1.0), SignalEvent(2, code, BUY, 50.0, 1.0),
                               SignalEvent(3, code, SELL, 80.0, 1.0)]);
  }

  /** The profit walk as evidently intended: a BUY pays its price * size, a SELL receives it,
      a leading SELL is skipped, and a BUY still open at the end is left out by returning the
      cash after the last SELL. */
  function IntendedLoop(s: SignalEvents, i: nat, total: real, beforeSell: real, holding: bool): real
    requires i <= |s|
    decreases |s| - i
  {
    if i == |s| then (if holding then beforeSell else total)
    else if i == 0 && s[i].side == SELL then IntendedLoop(s, i + 1, total, beforeSell, holding)
    else
      var e := s[i];
      var total' := if e.side == BUY then total - e.price * e.size else total + e.price * e.size;
      var beforeSell' := if e.side == SELL then total' else beforeSell;
      IntendedLoop(s, i + 1, total', beforeSell', e.side == BUY)
  }

  /** The sum of sell proceeds minus buy costs over the closed round trips (a BUY directly
      followed by a SELL) from index i on. */
  function ClosedGain(s: SignalEvents, i: nat): real
    requires i <= |s|
    decreases |s| - i
  {
    if i + 1 >= |s| then 0.0
    else if s[i].side == BUY && s[i + 1].side == SELL then
      s[i + 1].price * s[i + 1].size - s[i].price * s[i].size + ClosedGain(s, i + 2)
    else ClosedGain(s, i + 1)
  }

  /** From a BUY (or the end) of an alternating ledger, the intended walk adds the closed
      round trips' gain to the cash. */
  lemma {:induction false} IntendedFromBuy(s: SignalEvents, i: nat, total: real)
    requires Alternating(s) && i <= |s|
    requires i == |s| || s[i].side == BUY
    ensures IntendedLoop(s, i, total, total, false) == total + ClosedGain(s, i)
    decreases |s| - i
  {
    if i + 1 < |s| {
      assert s[i + 1].side == SELL;
      if i + 2 < |s| {
        assert s[i + 2].side != s[i + 1].side;
      }
      var a := s[i + 1].price * s[i + 1].size;
      var b := s[i].price * s[i].size;
      IntendedFromBuy(s, i + 2, total - b + a);
    }
  }

  /** The intended walk of an alternating ledger from its start is its closed round trips' gain. */
  lemma IntendedWalkOfAlternating(s: SignalEvents)
    requires Alternating(s)
    ensures IntendedLoop(s, 0, 0.0, 0.0, false) == ClosedGain(s, Start(s))
  {
    if Start(s) == 1 && |s| > 1 {
      assert s[1].side != s[0].side;
    }
    IntendedFromBuy(s, Start(s), 0.0);
  }

  /** Profit as evidently intended: on an alternating ledger, the sum of sell minus buy
      over its closed round trips. */
  function IntendedProfit(s: SignalEvents): (r: real)
    ensures Alternating(s) ==> r == ClosedGain(s, Start(s))
  {
    if Alternating(s) then
      IntendedWalkOfAlternating(s);
      IntendedLoop(s, 0, 0.0, 0.0, false)
    else IntendedLoop(s, 0, 0.0, 0.0, false)
  }

  /** The intended profit of the round trips where the as-written Profit reports 0: 50 for a
      BUY at 100 and a SELL at 150, and 30 after a skipped leading SELL for a BUY at 50 and a
      SELL at 80. */
  lemma IntendedProfitOfRoundTrips(code: string)
    ensures IntendedProfit([SignalEvent(1, code, BUY, 100.0, 1.0), SignalEvent(2, code, SELL, 150.0, 1.0)]) == 50.0
    ensures IntendedProfit([SignalEvent(1, code, SELL, 100.0, 1.0), SignalEvent(2, code, BUY, 50.0, 1.0),
                            SignalEvent(3, code, SELL, 80.0, 1.0)]) == 30.0
  {
    var s1 := [SignalEvent(1, code, BUY, 100.0, 1.0), SignalEvent(2, code, SELL, 150.0, 1.0)];
    var s2 := [SignalEvent(1, code, SELL, 100.0, 1.0), SignalEvent(2, code, BUY, 50.0, 1.0),
               SignalEvent(3, code, SELL, 80.0, 1.0)];
    assert ClosedGain(s1, 0) == 50.0 + ClosedGain(s1, 2);
    assert ClosedGain(s2, 1) == 30.0 + ClosedGain(s2, 3);
  }

  /** The loop of CollectAfter from index i. */
  function CollectFrom(s: SignalEvents, t: Time, i: nat): (r: Option<SignalEvents>)
    requires i <= |s|
    ensures r.None? <==> forall k :: i <= k < |s| ==> s[k].time < t
    ensures r.Some? ==> exists k :: i <= k < |s| && r.value == s[k..] && s[k].time >= t
                                    && forall j :: i <= j < k ==> s[j].time < t
    decreases |s| - i
  {
    if i == |s| then None
    else if t > s[i].time then CollectFrom(s, t, i + 1)
    else Some(s[i..])
  }

  /** The events from the first one at or after t onward; None when every event is earlier. */
  function CollectAfter(s: SignalEvents, t: Time): (r: Option<SignalEvents>)
    ensures r.None? <==> forall k :: 0 <= k < |s| ==> s[k].time < t
    ensures r.Some? ==> exists k :: 0 <= k < |s| && r.value == s[k..] && s[k].time >= t
                                    && forall j :: 0 <= j < k ==> s[j].time < t
  {
    CollectFrom(s, t, 0)
  }

  /** On a ledger with increasing times, CollectAfter keeps exactly the events at or after t. */
  lemma CollectAfterFilters(s: SignalEvents, t: Time)
    requires TimesIncrease(s)
    requires CollectAfter(s, t).Some?
    ensures forall e :: e in CollectAfter(s, t).value <==> e in s && e.time >= t
  {
    var r := CollectAfter(s, t).value;
    var k :| 0 <= k < |s| && r == s[k..] && s[k].time >= t && forall j :: 0 <= j < k ==> s[j].time < t;
    SuffixFilters(s, t, k);
  }

  lemma SuffixFilters(s: SignalEvents, t: Time, k: nat)
    requires TimesIncrease(s)
    requires k < |s| && s[k].time >= t
    requires forall j :: 0 <= j < k ==> s[j].time < t
    ensures forall e :: e in s[k..] <==> e in s && e.time >= t
  {
    forall e | e in s && e.time >= t
      ensures e in s[k..]
    {
      var m :| 0 <= m < |s| && s[m] == e;
      assert k <= m;
      assert s[k..][m - k] == s[m];
    }
    forall e | e in s[k..]
      ensures e in s && e.time >= t
    {
      var m :| 0 <= m < |s[k..]| && s[k..][m] == e;
      assert s[k..][m] == s[k + m];
      TimesAscend(s, k, k + m);
    }
  }

  lemma {:induction false} TimesAscend(s: SignalEvents, i: nat, j: nat)
    requires TimesIncrease(s)
    requires i <= j < |s|
    ensures s[i].time <= s[j].time
    decreases j - i
  {
    if i < j {
      TimesAscend(s, i, j - 1);
    }
  }
}
