/**
 * The volume-ranking classifier: `analyzeStock` maps one symbol and one sample
 * (price, percentage change, volume, ranking period) to a buy / sell / hold
 * suggestion and a rationale.  The rationale is kept abstract: the branch of the
 * decision chain that was taken, plus at most one sector note.
 */
module Classifier {
  import opened Wrappers

  /** Static symbol metadata, as in the ranking table of the dashboard. */
  datatype Stock = Stock(name: string, code: string, basePrice: real, sector: string)

  /** One sample fed to the classifier; `period` is the ranking selector's value. */
  datatype Sample = Sample(price: real, change: real, volume: real, period: string)

  /** 买入 / 卖出 / 观望 */
  datatype Suggestion = Buy | Sell | Hold

  /** The branches of the decision chain, in the order they are tried. */
  datatype Rule =
    | VolumeDip      // heavy volume, strong fall, low valuation
    | VolumePeak     // heavy volume, strong rise, high valuation
    | VolumeRise     // heavy volume, moderate rise
    | VolumeFall     // heavy volume, moderate fall
    | HistoricHigh   // strong rise at a very high valuation
    | Oversold       // strong fall at a very low valuation
    | MildRise       // moderate rise
    | MildFall       // moderate fall
    | Quiet          // nothing else matched

  /** The sector remark appended to the rationale. */
  datatype SectorNote = LiquorValuation | NewEnergyPolicy | BankSafety

  datatype Analysis = Analysis(suggestion: Suggestion, rule: Rule, note: Option<SectorNote>)

  const Liquor: string := "白酒"
  const NewEnergy: string := "新能源"
  const Banking: string := "银行"

  /** Volume (in lots of ten thousand shares) above which a period counts as heavy trading. */
  function VolumeThreshold(period: string): (t: real)
    ensures period == "day" <==> t == 500.0
    ensures period == "week" <==> t == 2000.0
    ensures period != "day" && period != "week" <==> t == 8000.0
  {
    if period == "day" then 500.0 else if period == "week" then 2000.0 else 8000.0
  }

  predicate HighVolume(s: Sample) {
    s.volume > VolumeThreshold(s.period)
  }

  predicate StrongRise(change: real) { change > 3.0 }
  predicate StrongFall(change: real) { change < -3.0 }
  predicate ModerateRise(change: real) { change > 0.0 && change <= 3.0 }
  predicate ModerateFall(change: real) { change < 0.0 && change >= -3.0 }

  /**
   * Linear position of the price in the band [0.8, 1.2] times the base price.
   * It is not clamped: a price outside the band gives a value outside [0, 1].
   */
  function Percentile(price: real, basePrice: real): (p: real)
    requires basePrice > 0.0
    ensures p * (basePrice * 0.4) == price - basePrice * 0.8
  {
    (price - basePrice * 0.8) / (basePrice * 0.4)
  }

  function SuggestionOf(rule: Rule): Suggestion {
    match rule
    case VolumeDip | VolumeRise | Oversold => Buy
    case VolumePeak | HistoricHigh => Sell
    case VolumeFall | MildRise | MildFall | Quiet => Hold
  }

  /** Position of a rule in the decision table. */
  function Rank(rule: Rule): nat {
    match rule
    case VolumeDip => 0
    case VolumePeak => 1
    case VolumeRise => 2
    case VolumeFall => 3
    case HistoricHigh => 4
    case Oversold => 5
    case MildRise => 6
    case MildFall => 7
    case Quiet => 8
  }

  /** The condition of each row of the decision table, for percentile `p`. */
  predicate Guard(rule: Rule, p: real, s: Sample) {
    match rule
    case VolumeDip => HighVolume(s) && StrongFall(s.change) && p < 0.3
    case VolumePeak => HighVolume(s) && StrongRise(s.change) && p > 0.7
    case VolumeRise => HighVolume(s) && ModerateRise(s.change)
    case VolumeFall => HighVolume(s) && ModerateFall(s.change)
    case HistoricHigh => StrongRise(s.change) && p > 0.8
    case Oversold => StrongFall(s.change) && p < 0.2
    case MildRise => ModerateRise(s.change)
    case MildFall => ModerateFall(s.change)
    case Quiet => true
  }

  /** The if / else-if chain choosing the branch. */
  function Decide(p: real, s: Sample): (rule: Rule)
    ensures Guard(rule, p, s)
    ensures forall r :: Rank(r) < Rank(rule) ==> !Guard(r, p, s)
  {
    var hv := HighVolume(s);
    if hv && StrongFall(s.change) && p < 0.3 then VolumeDip
    else if hv && StrongRise(s.change) && p > 0.7 then VolumePeak
    else if hv && ModerateRise(s.change) then VolumeRise
    else if hv && ModerateFall(s.change) then VolumeFall
    else if StrongRise(s.change) && p > 0.8 then HistoricHigh
    else if StrongFall(s.change) && p < 0.2 then Oversold
    else if ModerateRise(s.change) then MildRise
    else if ModerateFall(s.change) then MildFall
    else Quiet
  }

  /** The second else-if chain: at most one sector note. */
  function NoteFor(sector: string, p: real, change: real): (note: Option<SectorNote>)
    ensures note == Some(LiquorValuation) <==> sector == Liquor && p < 0.4
    ensures note == Some(NewEnergyPolicy) <==> sector == NewEnergy && StrongRise(change)
    ensures note == Some(BankSafety) <==> sector == Banking && p < 0.3
  {
    if sector == Liquor && p < 0.4 then Some(LiquorValuation)
    else if sector == NewEnergy && StrongRise(change) then Some(NewEnergyPolicy)
    else if sector == Banking && p < 0.3 then Some(BankSafety)
    else None
  }

  function AnalyzeStock(stock: Stock, s: Sample): (a: Analysis)
    requires stock.basePrice > 0.0
    ensures Guard(a.rule, Percentile(s.price, stock.basePrice), s)
    ensures forall r :: Rank(r) < Rank(a.rule) ==> !Guard(r, Percentile(s.price, stock.basePrice), s)
    ensures a.suggestion == SuggestionOf(a.rule)
    ensures a.note == NoteFor(stock.sector, Percentile(s.price, stock.basePrice), s.change)
  {
    var p := Percentile(s.price, stock.basePrice);
    var rule := Decide(p, s);
    Analysis(SuggestionOf(rule), rule, NoteFor(stock.sector, p, s.change))
  }

  // ---------------------------------------------------------------------------
  // Properties of the classifier

  /** The four change flags are pairwise exclusive; ±3 is moderate; 0 matches none. */
  lemma ChangeBands(change: real)
    ensures !(StrongRise(change) && StrongFall(change))
    ensures !(StrongRise(change) && ModerateRise(change))
    ensures !(StrongFall(change) && ModerateFall(change))
    ensures !(ModerateRise(change) && ModerateFall(change))
    ensures change == 3.0 ==> ModerateRise(change) && !StrongRise(change)
    ensures change == -3.0 ==> ModerateFall(change) && !StrongFall(change)
    ensures change == 0.0 <==>
      !StrongRise(change) && !StrongFall(change) && !ModerateRise(change) && !ModerateFall(change)
  {
  }

  /** Exactly one row of the table is chosen: the first whose guard holds. */
  lemma ExactlyOneRule(p: real, s: Sample, r: Rule)
    requires Guard(r, p, s)
    requires forall q :: Rank(q) < Rank(r) ==> !Guard(q, p, s)
    ensures r == Decide(p, s)
  {
  }

  /** The percentile is 0 at 0.8 times the base price, 1 at 1.2 times, and leaves [0, 1] outside that band. */
  lemma PercentileUnclamped(price: real, basePrice: real)
    requires basePrice > 0.0
    ensures Percentile(basePrice * 0.8, basePrice) == 0.0
    ensures Percentile(basePrice * 1.2, basePrice) == 1.0
    ensures price < basePrice * 0.8 <==> Percentile(price, basePrice) < 0.0
    ensures price > basePrice * 1.2 <==> Percentile(price, basePrice) > 1.0
  {
  }

  /** A higher price never gives a lower percentile. */
  lemma PercentileMonotone(x: real, y: real, basePrice: real)
    requires basePrice > 0.0 && x <= y
    ensures Percentile(x, basePrice) <= Percentile(y, basePrice)
  {
  }

  /** "Sell" exactly when the change is a strong rise and the valuation is above 0.7 (heavy volume) or 0.8 (otherwise). */
  lemma SellIff(stock: Stock, s: Sample)
    requires stock.basePrice > 0.0
    ensures var p := Percentile(s.price, stock.basePrice);
      AnalyzeStock(stock, s).suggestion == Sell <==>
        StrongRise(s.change) && p > (if HighVolume(s) then 0.7 else 0.8)
  {
  }

  /** "Buy" exactly on a heavy-volume moderate rise, or on a strong fall below 0.3 (heavy volume) or 0.2 (otherwise). */
  lemma BuyIff(stock: Stock, s: Sample)
    requires stock.basePrice > 0.0
    ensures var p := Percentile(s.price, stock.basePrice);
      AnalyzeStock(stock, s).suggestion == Buy <==>
        (HighVolume(s) && ModerateRise(s.change)) ||
        (StrongFall(s.change) && p < (if HighVolume(s) then 0.3 else 0.2))
  {
  }

  /** A sell suggestion implies a strong rise and a percentile above 0.7. */
  lemma SellNeedsStrongRise(stock: Stock, s: Sample)
    requires stock.basePrice > 0.0
    requires AnalyzeStock(stock, s).suggestion == Sell
    ensures s.change > 3.0 && Percentile(s.price, stock.basePrice) > 0.7
  {
  }

  /** Without heavy volume, a change within [-3, 3] always yields "hold". */
  lemma CalmMeansHold(stock: Stock, s: Sample)
    requires stock.basePrice > 0.0
    requires !HighVolume(s) && -3.0 <= s.change <= 3.0
    ensures AnalyzeStock(stock, s).suggestion == Hold
  {
  }

  /** Raising only the price keeps a sell a sell. */
  lemma SellMonotoneInPrice(stock: Stock, s: Sample, higher: real)
    requires stock.basePrice > 0.0 && s.price <= higher
    requires AnalyzeStock(stock, s).suggestion == Sell
    ensures AnalyzeStock(stock, s.(price := higher)).suggestion == Sell
  {
  }

  /** Lowering only the price keeps a buy a buy. */
  lemma BuyAntitoneInPrice(stock: Stock, s: Sample, lower: real)
    requires stock.basePrice > 0.0 && lower <= s.price
    requires AnalyzeStock(stock, s).suggestion == Buy
    ensures AnalyzeStock(stock, s.(price := lower)).suggestion == Buy
  {
  }

  /** The sector overlay never changes the suggestion or the branch. */
  lemma SectorOnlyAddsNote(stock: Stock, s: Sample, sector: string)
    requires stock.basePrice > 0.0
    ensures AnalyzeStock(stock.(sector := sector), s).suggestion == AnalyzeStock(stock, s).suggestion
    ensures AnalyzeStock(stock.(sector := sector), s).rule == AnalyzeStock(stock, s).rule
  {
  }

  /** A sector outside the three named ones never gets a note. */
  lemma OtherSectorNoNote(stock: Stock, s: Sample)
    requires stock.basePrice > 0.0
    requires stock.sector != Liquor && stock.sector != NewEnergy && stock.sector != Banking
    ensures AnalyzeStock(stock, s).note == None
  {
  }

  /** Moutai (base 1800, 白酒) at 1450, -4 %, 800 lots, daily: buy on the first rule, with the liquor note. */
  lemma MoutaiDip()
    ensures var a := AnalyzeStock(Stock("贵州茅台", "600519", 1800.0, Liquor), Sample(1450.0, -4.0, 800.0, "day"));
      a.suggestion == Buy && a.rule == VolumeDip && a.note == Some(LiquorValuation)
  {
  }
}
