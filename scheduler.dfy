/**
 * The page's interval timers.  The browser's table of live intervals is a map from
 * handle to the job the interval runs; `setInterval` hands out a new positive
 * handle and `clearInterval` removes one.  Auto-refresh keeps its handle in a global
 * and always stops before it starts, so at most one refresh interval is ever live;
 * the auto-trade and scraper starters do not stop first.
 */
module Scheduler {
  import opened Wrappers

  /** What a live interval runs. */
  datatype Kind = Refresh | AutoTrade | Scraper

  /** Handles of the live intervals of one kind. */
  function LiveOf(timers: map<nat, Kind>, kind: Kind): (hs: set<nat>)
    ensures forall h :: h in hs <==> h in timers && timers[h] == kind
  {
    set h | h in timers && timers[h] == kind
  }

  function HandleSet(handle: Option<nat>): set<nat> {
    if handle.Some? then {handle.value} else {}
  }

  // ---------------------------------------------------------------------------
  // The auto-refresh global as the script writes it: it is assigned in
  // `startAutoRefresh` but declared nowhere, and `stopAutoRefresh` reads it before
  // anything assigns it.  Reading an undeclared global throws a ReferenceError.

  datatype Binding = Undeclared | Declared(handle: Option<nat>)

  datatype Timers = Timers(binding: Binding, timers: map<nat, Kind>, nextHandle: nat)

  datatype Outcome = ReferenceError | Completed(state: Timers)

  /** `stopAutoRefresh`: the read of the undeclared global throws before any state changes. */
  function StopAutoRefreshAsWritten(s: Timers): (o: Outcome)
    ensures o == ReferenceError <==> s.binding == Undeclared
    ensures o.Completed? ==>
      o.state == Timers(Declared(None), s.timers - HandleSet(s.binding.handle), s.nextHandle)
  {
    match s.binding
    case Undeclared => ReferenceError
    case Declared(None) => Completed(s)
    case Declared(Some(h)) => Completed(s.(binding := Declared(None), timers := s.timers - {h}))
  }

  /** `startAutoRefresh`: throws whenever its first step, the stop, throws; otherwise arms a new refresh interval. */
  function StartAutoRefreshAsWritten(s: Timers): (o: Outcome)
    ensures o == ReferenceError <==> s.binding == Undeclared
    ensures o.Completed? ==>
      o.state == Timers(Declared(Some(s.nextHandle)),
                        (s.timers - HandleSet(s.binding.handle))[s.nextHandle := Refresh],
                        s.nextHandle + 1)
  {
    match StopAutoRefreshAsWritten(s)
    case ReferenceError => ReferenceError
    case Completed(t) =>
      Completed(t.(binding := Declared(Some(t.nextHandle)),
                   timers := t.timers[t.nextHandle := Refresh],
                   nextHandle := t.nextHandle + 1))
  }

  /** A sequence of toggles of the auto-refresh switch: true starts, false stops. */
  function ToggleAsWritten(s: Timers, calls: seq<bool>): (r: Timers)
    ensures r.binding == Undeclared <==> s.binding == Undeclared
    ensures r.nextHandle >= s.nextHandle
    decreases |calls|
  {
    if calls == [] then s
    else
      var o := if calls[0] then StartAutoRefreshAsWritten(s) else StopAutoRefreshAsWritten(s);
      match o
      case ReferenceError => ToggleAsWritten(s, calls[1..])
      case Completed(t) => ToggleAsWritten(t, calls[1..])
  }

  /** As written, no sequence of starts and stops ever gets a refresh interval running. */
  lemma {:induction false} AsWrittenNeverRefreshes(s: Timers, calls: seq<bool>)
    requires s.binding == Undeclared
    ensures ToggleAsWritten(s, calls) == s
    ensures StartAutoRefreshAsWritten(s) == ReferenceError
    decreases |calls|
  {
    if calls != [] {
      AsWrittenNeverRefreshes(s, calls[1..]);
    }
  }

  /** Once the global exists, the as-written pair does keep one refresh interval after a start. */
  lemma DeclaredStartLeavesOne(s: Timers)
    requires s.binding.Declared?
    requires LiveOf(s.timers, Refresh) == HandleSet(s.binding.handle)
    requires forall h :: h in s.timers ==> h < s.nextHandle
    ensures StartAutoRefreshAsWritten(s).Completed?
    ensures var t := StartAutoRefreshAsWritten(s).state;
      LiveOf(t.timers, Refresh) == {s.nextHandle} && t.binding == Declared(Some(s.nextHandle))
  {
  }

  // ---------------------------------------------------------------------------
  // The page's timers with the globals declared (initially null).

  class Page {
    var timers: map<nat, Kind>
    var nextHandle: nat
    var autoRefreshInterval: Option<nat>
    var autoTradeInterval: Option<nat>
    var scraperInterval: Option<nat>

    ghost predicate Valid()
      reads this
    {
      && 0 < nextHandle
      && (forall h :: h in timers ==> 0 < h < nextHandle)
      && LiveOf(timers, Refresh) == HandleSet(autoRefreshInterval)
      && (autoTradeInterval.Some? ==> autoTradeInterval.value in timers && timers[autoTradeInterval.value] == AutoTrade)
      && (scraperInterval.Some? ==> scraperInterval.value in timers && timers[scraperInterval.value] == Scraper)
    }

    constructor ()
      ensures Valid()
      ensures timers == map[] && autoRefreshInterval == None && autoTradeInterval == None && scraperInterval == None
    {
      timers := map[];
      nextHandle := 1;
      autoRefreshInterval, autoTradeInterval, scraperInterval := None, None, None;
    }

    /** `setInterval`: a new positive handle, never used before. */
    method SetInterval(kind: Kind) returns (h: nat)
      modifies this
      ensures h == old(nextHandle) && nextHandle == h + 1
      ensures timers == old(timers)[h := kind]
      ensures autoRefreshInterval == old(autoRefreshInterval)
      ensures autoTradeInterval == old(autoTradeInterval) && scraperInterval == old(scraperInterval)
    {
      h := nextHandle;
      timers := timers[h := kind];
      nextHandle := nextHandle + 1;
    }

    /** `clearInterval` */
    method ClearInterval(h: nat)
      modifies this
      ensures timers == old(timers) - {h} && nextHandle == old(nextHandle)
      ensures autoRefreshInterval == old(autoRefreshInterval)
      ensures autoTradeInterval == old(autoTradeInterval) && scraperInterval == old(scraperInterval)
    {
      timers := timers - {h};
    }

    method StopAutoRefresh()
      requires Valid()
      modifies this
      ensures Valid()
      ensures autoRefreshInterval == None && LiveOf(timers, Refresh) == {}
      ensures timers == old(timers) - HandleSet(old(autoRefreshInterval))
      ensures old(autoRefreshInterval) == None ==> timers == old(timers)
      ensures nextHandle == old(nextHandle)
      ensures autoTradeInterval == old(autoTradeInterval) && scraperInterval == old(scraperInterval)
    {
      if autoRefreshInterval.Some? {
        ClearInterval(autoRefreshInterval.value);
        autoRefreshInterval := None;
      }
    }

    method StartAutoRefresh()
      requires Valid()
      modifies this
      ensures Valid()
      ensures autoRefreshInterval.Some? && autoRefreshInterval.value !in old(timers)
      ensures LiveOf(timers, Refresh) == {autoRefreshInterval.value}
      ensures forall k :: k != Refresh ==> LiveOf(timers, k) == old(LiveOf(timers, k))
      ensures autoTradeInterval == old(autoTradeInterval) && scraperInterval == old(scraperInterval)
    {
      StopAutoRefresh();
      var h := SetInterval(Refresh);
      autoRefreshInterval := Some(h);
    }

    method StartAutoTrade()
      requires Valid()
      modifies this
      ensures Valid()
      ensures autoTradeInterval.Some? && autoTradeInterval.value !in old(timers)
      ensures LiveOf(timers, AutoTrade) == old(LiveOf(timers, AutoTrade)) + {autoTradeInterval.value}
      ensures forall k :: k != AutoTrade ==> LiveOf(timers, k) == old(LiveOf(timers, k))
      ensures autoRefreshInterval == old(autoRefreshInterval) && scraperInterval == old(scraperInterval)
    {
      var h := SetInterval(AutoTrade);
      autoTradeInterval := Some(h);
    }

    method StopAutoTrade()
      requires Valid()
      modifies this
      ensures Valid()
      ensures autoTradeInterval == None
      ensures timers == old(timers) - HandleSet(old(autoTradeInterval)) && nextHandle == old(nextHandle)
      ensures autoRefreshInterval == old(autoRefreshInterval) && scraperInterval == old(scraperInterval)
    {
      if autoTradeInterval.Some? {
        ClearInterval(autoTradeInterval.value);
        autoTradeInterval := None;
      }
    }

    method StartScraper()
      requires Valid()
      modifies this
      ensures Valid()
      ensures scraperInterval.Some? && scraperInterval.value !in old(timers)
      ensures LiveOf(timers, Scraper) == old(LiveOf(timers, Scraper)) + {scraperInterval.value}
      ensures forall k :: k != Scraper ==> LiveOf(timers, k) == old(LiveOf(timers, k))
      ensures autoRefreshInterval == old(autoRefreshInterval) && autoTradeInterval == old(autoTradeInterval)
    {
      var h := SetInterval(Scraper);
      scraperInterval := Some(h);
    }

    method StopScraper()
      requires Valid()
      modifies this
      ensures Valid()
      ensures scraperInterval == None
      ensures timers == old(timers) - HandleSet(old(scraperInterval)) && nextHandle == old(nextHandle)
      ensures autoRefreshInterval == old(autoRefreshInterval) && autoTradeInterval == old(autoTradeInterval)
    {
      if scraperInterval.Some? {
        ClearInterval(scraperInterval.value);
        scraperInterval := None;
      }
    }
  }

  /**
   * Starting twice in a row: auto-refresh ends with one live interval, auto-trade
   * (which does not stop first) with two.
   */
  method StartTwice() returns (refreshLive: nat, tradeLive: nat)
    ensures refreshLive == 1 && tradeLive == 2
  {
    var page := new Page();
    page.StartAutoRefresh();
    page.StartAutoRefresh();
    refreshLive := |LiveOf(page.timers, Refresh)|;
    var before := LiveOf(page.timers, AutoTrade);
    assert before == {} by {
      assert LiveOf(map[], AutoTrade) == {};
    }
    page.StartAutoTrade();
    var first := page.autoTradeInterval.value;
    page.StartAutoTrade();
    var second := page.autoTradeInterval.value;
    assert first != second;
    assert LiveOf(page.timers, AutoTrade) == {first, second};
    tradeLive := |LiveOf(page.timers, AutoTrade)|;
  }
}
