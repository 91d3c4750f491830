/**
 * The price-alert monitor: a buy threshold and a sell threshold, each optional.
 * Every monitoring tick compares the current index price with both; a threshold
 * that is reached fires one notification and is deleted, so one saved value fires
 * at most once.  A parsed number that is `NaN` is `None` here.
 */
module Alerts {
  import opened Wrappers

  datatype Side = BuySide | SellSide

  datatype Thresholds = Thresholds(buy: Option<real>, sell: Option<real>)

  datatype TickResult = TickResult(buyFired: bool, sellFired: bool, next: Thresholds)

  function Get(t: Thresholds, side: Side): Option<real> {
    match side
    case BuySide => t.buy
    case SellSide => t.sell
  }

  function Fired(r: TickResult, side: Side): bool {
    match side
    case BuySide => r.buyFired
    case SellSide => r.sellFired
  }

  /** A buy threshold is reached at or below it, a sell threshold at or above it; `NaN` reaches nothing. */
  predicate Reaches(side: Side, current: Option<real>, threshold: real) {
    current.Some? &&
    match side
    case BuySide => current.value <= threshold
    case SellSide => current.value >= threshold
  }

  predicate Hit(side: Side, t: Option<real>, current: Option<real>) {
    t.Some? && Reaches(side, current, t.value)
  }

  /** One monitoring tick. */
  function Tick(t: Thresholds, current: Option<real>): (r: TickResult)
    ensures forall side :: Fired(r, side) <==> Get(t, side).Some? && Reaches(side, current, Get(t, side).value)
    ensures forall side :: Get(r.next, side).None? <==> Get(t, side).None? || Fired(r, side)
    ensures forall side :: Get(r.next, side).Some? ==> Get(r.next, side) == Get(t, side)
  {
    var b := Hit(BuySide, t.buy, current);
    var s := Hit(SellSide, t.sell, current);
    TickResult(b, s, Thresholds(if b then None else t.buy, if s then None else t.sell))
  }

  /** The ticks over a feed of price readings. */
  function Run(t: Thresholds, feed: seq<Option<real>>): (rs: seq<TickResult>)
    ensures |rs| == |feed|
    ensures feed != [] ==> rs[0] == Tick(t, feed[0]) && rs[1..] == Run(rs[0].next, feed[1..])
    decreases |feed|
  {
    if feed == [] then []
    else
      var r := Tick(t, feed[0]);
      [r] + Run(r.next, feed[1..])
  }

  /** A side whose threshold is unset never fires. */
  lemma {:induction false} UnsetNeverFires(t: Thresholds, side: Side, feed: seq<Option<real>>)
    requires Get(t, side).None?
    ensures forall i :: 0 <= i < |feed| ==> !Fired(Run(t, feed)[i], side)
    decreases |feed|
  {
    if feed != [] {
      var r := Tick(t, feed[0]);
      UnsetNeverFires(r.next, side, feed[1..]);
      forall i | 0 <= i < |feed| ensures !Fired(Run(t, feed)[i], side) {
        if i > 0 {
          assert Run(t, feed)[i] == Run(r.next, feed[1..])[i - 1];
        }
      }
    }
  }

  /** A set threshold fires exactly on the first reading that reaches it, and never again. */
  lemma {:induction false} FiresOnFirstCrossing(t: Thresholds, side: Side, feed: seq<Option<real>>, i: nat)
    requires Get(t, side).Some? && i < |feed|
    ensures Fired(Run(t, feed)[i], side) <==>
      Reaches(side, feed[i], Get(t, side).value) &&
      forall j :: 0 <= j < i ==> !Reaches(side, feed[j], Get(t, side).value)
    decreases i
  {
    var x := Get(t, side).value;
    var r := Tick(t, feed[0]);
    if i > 0 {
      assert Run(t, feed)[i] == Run(r.next, feed[1..])[i - 1];
      if Fired(r, side) {
        UnsetNeverFires(r.next, side, feed[1..]);
        assert Reaches(side, feed[0], x);
      } else {
        assert Get(r.next, side) == Some(x);
        FiresOnFirstCrossing(r.next, side, feed[1..], i - 1);
        if Reaches(side, feed[i], x) && forall j :: 0 <= j < i ==> !Reaches(side, feed[j], x) {
          forall j | 0 <= j < i - 1 ensures !Reaches(side, feed[1..][j], x) {
            assert feed[1..][j] == feed[j + 1];
          }
        }
        if Fired(Run(t, feed)[i], side) {
          forall j | 0 <= j < i ensures !Reaches(side, feed[j], x) {
            if j > 0 {
              assert feed[j] == feed[1..][j - 1];
            }
          }
        }
      }
    }
  }

  /** One saved value fires at most once over any feed. */
  lemma FiresAtMostOnce(t: Thresholds, side: Side, feed: seq<Option<real>>, i: nat, j: nat)
    requires i < j < |feed|
    ensures !(Fired(Run(t, feed)[i], side) && Fired(Run(t, feed)[j], side))
  {
    if Get(t, side).None? {
      UnsetNeverFires(t, side, feed);
    } else {
      FiresOnFirstCrossing(t, side, feed, i);
      FiresOnFirstCrossing(t, side, feed, j);
    }
  }

  /** A buy threshold of 3200 over the readings 3250, 3210, 3195 fires on the third tick only. */
  lemma BuyAlertExample()
    ensures var rs := Run(Thresholds(Some(3200.0), None), [Some(3250.0), Some(3210.0), Some(3195.0)]);
      !rs[0].buyFired && !rs[1].buyFired && rs[2].buyFired && rs[2].next.buy == None
  {
  }

  /** Both alerts can fire on the same tick. */
  lemma BothFireTogether()
    ensures var r := Tick(Thresholds(Some(3200.0), Some(3100.0)), Some(3150.0));
      r.buyFired && r.sellFired && r.next == Thresholds(None, None)
  {
  }

  /** The alert thresholds kept by the page. */
  class Monitor {
    var buyAlert: Option<real>
    var sellAlert: Option<real>

    constructor (buy: Option<real>, sell: Option<real>)
      ensures buyAlert == buy && sellAlert == sell
    {
      buyAlert, sellAlert := buy, sell;
    }

    function Current(): Thresholds
      reads this
    {
      Thresholds(buyAlert, sellAlert)
    }

    /** The buy button: a parsed price replaces the buy threshold; `NaN` changes nothing. */
    method SetBuyAlert(parsed: Option<real>) returns (accepted: bool)
      modifies this
      ensures accepted <==> parsed.Some?
      ensures accepted ==> buyAlert == parsed && sellAlert == old(sellAlert)
      ensures !accepted ==> buyAlert == old(buyAlert) && sellAlert == old(sellAlert)
    {
      accepted := parsed.Some?;
      if accepted {
        buyAlert := parsed;
      }
    }

    /** The sell button: a parsed price replaces the sell threshold; `NaN` changes nothing. */
    method SetSellAlert(parsed: Option<real>) returns (accepted: bool)
      modifies this
      ensures accepted <==> parsed.Some?
      ensures accepted ==> sellAlert == parsed && buyAlert == old(buyAlert)
      ensures !accepted ==> buyAlert == old(buyAlert) && sellAlert == old(sellAlert)
    {
      accepted := parsed.Some?;
      if accepted {
        sellAlert := parsed;
      }
    }

    /** The body of the monitoring interval; `current` is the parsed index price. */
    method CheckPrice(current: Option<real>) returns (buyFired: bool, sellFired: bool)
      modifies this
      ensures var r := Tick(old(Current()), current);
        buyFired == r.buyFired && sellFired == r.sellFired && Current() == r.next
    {
      buyFired := buyAlert.Some? && current.Some? && current.value <= buyAlert.value;
      if buyFired {
        buyAlert := None;
      }
      sellFired := sellAlert.Some? && current.Some? && current.value >= sellAlert.value;
      if sellFired {
        sellAlert := None;
      }
    }
  }
}
