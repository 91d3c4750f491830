/**
 * The watchlist ("my stocks"): an ordered list of entries keyed by stock code.
 * `addStock` appends after validating the trimmed inputs, `removeStock` filters a
 * code out, and `loadMyStocks` seeds three default entries when nothing is saved.
 */
module Watchlist {
  import opened Wrappers

  /** The synthetic quote that accompanies a new entry (drawn at random by the page). */
  datatype Quote = Quote(price: real, change: real, volume: real)

  datatype Entry = Entry(name: string, code: string, price: real, change: real, volume: real)

  /** Why an add did or did not happen (the notification the page shows). */
  datatype AddOutcome = Added | MissingField | DuplicateCode

  datatype Edit = AddEdit(code: string, name: string, quote: Quote) | RemoveEdit(code: string)

  // ---------------------------------------------------------------------------
  // String.prototype.trim

  /** ECMAScript WhiteSpace and LineTerminator code points. */
  predicate IsWhiteSpace(c: char) {
    || '\t' <= c <= '\r'                 // tab, line feed, vertical tab, form feed, carriage return
    || c == ' ' || c == '\U{00A0}' || c == '\U{1680}'
    || '\U{2000}' <= c <= '\U{200A}'     // en quad .. hair space
    || c == '\U{2028}' || c == '\U{2029}' // line and paragraph separators
    || c == '\U{202F}' || c == '\U{205F}' || c == '\U{3000}' || c == '\U{FEFF}'
  }

  /** How many characters at the start of `s` are white space. */
  function LeadingSpaces(s: string): (n: nat)
    ensures n <= |s|
    ensures forall k :: 0 <= k < n ==> IsWhiteSpace(s[k])
    ensures n < |s| ==> !IsWhiteSpace(s[n])
  {
    if s != [] && IsWhiteSpace(s[0]) then 1 + LeadingSpaces(s[1..]) else 0
  }

  /** How many characters at the end of `s` are white space. */
  function TrailingSpaces(s: string): (n: nat)
    ensures n <= |s|
    ensures forall k :: |s| - n <= k < |s| ==> IsWhiteSpace(s[k])
    ensures n < |s| ==> !IsWhiteSpace(s[|s| - n - 1])
  {
    if s != [] && IsWhiteSpace(s[|s| - 1]) then 1 + TrailingSpaces(s[..|s| - 1]) else 0
  }

  /**
   * `String.prototype.trim`: the slice of `s` that starts after its leading white space
   * and ends before its trailing white space; empty when `s` is all white space.
   */
  function Trim(s: string): (r: string)
    ensures var i := LeadingSpaces(s);
      && i + |r| <= |s| && r == s[i..i + |r|]
      && (forall k :: 0 <= k < i ==> IsWhiteSpace(s[k]))
      && (forall k :: i + |r| <= k < |s| ==> IsWhiteSpace(s[k]))
    ensures r == [] <==> forall k :: 0 <= k < |s| ==> IsWhiteSpace(s[k])
    ensures r != [] ==> !IsWhiteSpace(r[0]) && !IsWhiteSpace(r[|r| - 1])
  {
    var i := LeadingSpaces(s);
    if i == |s| then []
    else
      var n := TrailingSpaces(s);
      assert !IsWhiteSpace(s[i]);
      s[i..|s| - n]
  }

  /** Trimming an already trimmed string changes nothing. */
  lemma TrimIdempotent(s: string)
    ensures Trim(Trim(s)) == Trim(s)
  {
    var r := Trim(s);
    if r != [] {
      assert LeadingSpaces(r) == 0;
      assert TrailingSpaces(r) == 0;
    }
  }

  // ---------------------------------------------------------------------------
  // The list and its key

  predicate HasCode(stocks: seq<Entry>, code: string) {
    exists i :: 0 <= i < |stocks| && stocks[i].code == code
  }

  predicate UniqueCodes(stocks: seq<Entry>) {
    forall i, j :: 0 <= i < j < |stocks| ==> stocks[i].code != stocks[j].code
  }

  function Codes(stocks: seq<Entry>): (r: seq<string>)
    ensures |r| == |stocks|
    ensures forall i :: 0 <= i < |r| ==> r[i] == stocks[i].code
  {
    if stocks == [] then [] else [stocks[0].code] + Codes(stocks[1..])
  }

  /** What `addStock` reports for the raw input fields. */
  function AddOutcomeOf(stocks: seq<Entry>, rawCode: string, rawName: string): (o: AddOutcome)
    ensures o == MissingField <==> Trim(rawCode) == [] || Trim(rawName) == []
    ensures o == DuplicateCode <==> Trim(rawCode) != [] && Trim(rawName) != [] && HasCode(stocks, Trim(rawCode))
  {
    var code, name := Trim(rawCode), Trim(rawName);
    if code == [] || name == [] then MissingField
    else if HasCode(stocks, code) then DuplicateCode
    else Added
  }

  /** The list after `addStock`. */
  function Add(stocks: seq<Entry>, rawCode: string, rawName: string, q: Quote): (r: seq<Entry>)
    ensures AddOutcomeOf(stocks, rawCode, rawName) != Added ==> r == stocks
    ensures AddOutcomeOf(stocks, rawCode, rawName) == Added ==>
      |r| == |stocks| + 1 && r[..|stocks|] == stocks &&
      r[|stocks|] == Entry(Trim(rawName), Trim(rawCode), q.price, q.change, q.volume)
  {
    if AddOutcomeOf(stocks, rawCode, rawName) == Added
    then stocks + [Entry(Trim(rawName), Trim(rawCode), q.price, q.change, q.volume)]
    else stocks
  }

  /** The list after `removeStock`: every entry with that code filtered out. */
  function Without(stocks: seq<Entry>, code: string): (r: seq<Entry>)
    ensures |r| <= |stocks|
    ensures !HasCode(r, code)
    ensures forall e :: e in r <==> e in stocks && e.code != code
  {
    if stocks == [] then []
    else if stocks[0].code == code then Without(stocks[1..], code)
    else [stocks[0]] + Without(stocks[1..], code)
  }

  /** The three entries seeded when nothing is saved. */
  function Defaults(q1: Quote, q2: Quote, q3: Quote): (r: seq<Entry>)
    ensures Codes(r) == ["600519", "601318", "600036"]
    ensures UniqueCodes(r)
  {
    [Entry("贵州茅台", "600519", q1.price, q1.change, q1.volume),
     Entry("中国平安", "601318", q2.price, q2.change, q2.volume),
     Entry("招商银行", "600036", q3.price, q3.change, q3.volume)]
  }

  function Apply(stocks: seq<Entry>, edits: seq<Edit>): seq<Entry>
    decreases |edits|
  {
    if edits == [] then stocks
    else
      var next := match edits[0]
        case AddEdit(code, name, q) => Add(stocks, code, name, q)
        case RemoveEdit(code) => Without(stocks, code);
      Apply(next, edits[1..])
  }

  // ---------------------------------------------------------------------------
  // Properties of add and remove

  /** An accepted add keeps codes unique and puts exactly one entry with the new code in the list. */
  lemma AddKeepsCodesUnique(stocks: seq<Entry>, rawCode: string, rawName: string, q: Quote)
    requires UniqueCodes(stocks)
    ensures UniqueCodes(Add(stocks, rawCode, rawName, q))
    ensures Trim(rawCode) != [] && Trim(rawName) != [] ==> HasCode(Add(stocks, rawCode, rawName, q), Trim(rawCode))
  {
  }

  /** Adding the same code a second time is rejected and leaves the list as it was. */
  lemma AddTwiceRejected(stocks: seq<Entry>, rawCode: string, rawName: string, q: Quote, rawName2: string, q2: Quote)
    requires AddOutcomeOf(stocks, rawCode, rawName) == Added
    ensures AddOutcomeOf(Add(stocks, rawCode, rawName, q), rawCode, rawName2) != Added
    ensures Add(Add(stocks, rawCode, rawName, q), rawCode, rawName2, q2) == Add(stocks, rawCode, rawName, q)
  {
  }

  lemma {:induction false} WithoutAbsent(stocks: seq<Entry>, code: string)
    requires !HasCode(stocks, code)
    ensures Without(stocks, code) == stocks
  {
    if stocks != [] {
      assert stocks[0].code != code;
      WithoutAbsent(stocks[1..], code);
      assert stocks == [stocks[0]] + stocks[1..];
    }
  }

  /** Filtering distributes over concatenation, so the survivors keep their relative order. */
  lemma {:induction false} WithoutConcat(a: seq<Entry>, b: seq<Entry>, code: string)
    ensures Without(a + b, code) == Without(a, code) + Without(b, code)
  {
    if a == [] {
      assert a + b == b;
    } else {
      assert (a + b)[0] == a[0];
      assert (a + b)[1..] == a[1..] + b;
      WithoutConcat(a[1..], b, code);
    }
  }

  /** With unique codes, the code at position i occurs neither before nor after it. */
  lemma CodeOnlyAt(stocks: seq<Entry>, i: nat)
    requires UniqueCodes(stocks) && i < |stocks|
    ensures !HasCode(stocks[..i], stocks[i].code)
    ensures !HasCode(stocks[i + 1..], stocks[i].code)
  {
  }

  /** With unique codes, removing a present code deletes exactly that one entry and nothing else. */
  lemma RemoveDeletesOne(stocks: seq<Entry>, i: nat)
    requires UniqueCodes(stocks) && i < |stocks|
    ensures Without(stocks, stocks[i].code) == stocks[..i] + stocks[i + 1..]
  {
    var code := stocks[i].code;
    var before, after := stocks[..i], stocks[i + 1..];
    assert stocks == before + ([stocks[i]] + after);
    CodeOnlyAt(stocks, i);
    WithoutConcat(before, [stocks[i]] + after, code);
    WithoutConcat([stocks[i]], after, code);
    WithoutAbsent(before, code);
    WithoutAbsent(after, code);
    assert Without([stocks[i]], code) == [];
  }

  /** Removing keeps codes unique. */
  lemma {:induction false} WithoutKeepsCodesUnique(stocks: seq<Entry>, code: string)
    requires UniqueCodes(stocks)
    ensures UniqueCodes(Without(stocks, code))
  {
    if stocks != [] {
      var tail := stocks[1..];
      assert UniqueCodes(tail) by {
        forall i, j | 0 <= i < j < |tail| ensures tail[i].code != tail[j].code {
          assert tail[i] == stocks[i + 1] && tail[j] == stocks[j + 1];
        }
      }
      WithoutKeepsCodesUnique(tail, code);
      var rest := Without(tail, code);
      if stocks[0].code != code {
        var r := [stocks[0]] + rest;
        forall i, j | 0 <= i < j < |r| ensures r[i].code != r[j].code {
          if i == 0 {
            assert r[j] in tail;
            var k :| 0 <= k < |tail| && tail[k] == r[j];
            assert stocks[k + 1] == r[j];
          } else {
            assert r[i] == rest[i - 1] && r[j] == rest[j - 1];
          }
        }
      }
    }
  }

  /** Removing a freshly added code restores the list. */
  lemma RemoveUndoesAdd(stocks: seq<Entry>, rawCode: string, rawName: string, q: Quote)
    requires AddOutcomeOf(stocks, rawCode, rawName) == Added
    ensures Without(Add(stocks, rawCode, rawName, q), Trim(rawCode)) == stocks
  {
    var code := Trim(rawCode);
    var e := Entry(Trim(rawName), code, q.price, q.change, q.volume);
    WithoutConcat(stocks, [e], code);
    WithoutAbsent(stocks, code);
    assert Without([e], code) == [];
  }

  /** Codes stay unique across any sequence of adds and removes. */
  lemma {:induction false} EditsKeepCodesUnique(stocks: seq<Entry>, edits: seq<Edit>)
    requires UniqueCodes(stocks)
    ensures UniqueCodes(Apply(stocks, edits))
    decreases |edits|
  {
    if edits != [] {
      match edits[0]
      case AddEdit(code, name, q) =>
        AddKeepsCodesUnique(stocks, code, name, q);
        EditsKeepCodesUnique(Add(stocks, code, name, q), edits[1..]);
      case RemoveEdit(code) =>
        WithoutKeepsCodesUnique(stocks, code);
        EditsKeepCodesUnique(Without(stocks, code), edits[1..]);
    }
  }

  // ---------------------------------------------------------------------------
  // The page's `myStocks` global

  class Store {
    var myStocks: seq<Entry>

    /** `let myStocks = [];` */
    constructor ()
      ensures myStocks == []
    {
      myStocks := [];
    }

    method AddStock(rawCode: string, rawName: string, q: Quote) returns (outcome: AddOutcome)
      modifies this
      ensures outcome == AddOutcomeOf(old(myStocks), rawCode, rawName)
      ensures myStocks == Add(old(myStocks), rawCode, rawName, q)
      ensures outcome != Added ==> myStocks == old(myStocks)
      ensures outcome == Added ==>
        myStocks == old(myStocks) + [Entry(Trim(rawName), Trim(rawCode), q.price, q.change, q.volume)]
      ensures UniqueCodes(old(myStocks)) ==> UniqueCodes(myStocks)
    {
      var code := Trim(rawCode);
      var name := Trim(rawName);
      if code == [] || name == [] {
        return MissingField;
      }
      if HasCode(myStocks, code) {
        return DuplicateCode;
      }
      if UniqueCodes(myStocks) {
        AddKeepsCodesUnique(myStocks, rawCode, rawName, q);
      }
      myStocks := myStocks + [Entry(name, code, q.price, q.change, q.volume)];
      outcome := Added;
    }

    method RemoveStock(code: string)
      modifies this
      ensures myStocks == Without(old(myStocks), code)
      ensures !HasCode(myStocks, code)
      ensures !HasCode(old(myStocks), code) ==> myStocks == old(myStocks)
      ensures UniqueCodes(old(myStocks)) ==> UniqueCodes(myStocks)
    {
      if UniqueCodes(myStocks) {
        WithoutKeepsCodesUnique(myStocks, code);
      }
      if !HasCode(myStocks, code) {
        WithoutAbsent(myStocks, code);
      }
      myStocks := Without(myStocks, code);
    }

    /** `saved` is the parsed storage item, if any; the quotes stand in for the random data of the defaults. */
    method LoadMyStocks(saved: Option<seq<Entry>>, q1: Quote, q2: Quote, q3: Quote)
      modifies this
      ensures saved.Some? ==> myStocks == saved.value
      ensures saved.None? ==> myStocks == Defaults(q1, q2, q3)
      ensures saved.None? || UniqueCodes(saved.value) ==> UniqueCodes(myStocks)
    {
      match saved
      case Some(stocks) => myStocks := stocks;
      case None => myStocks := Defaults(q1, q2, q3);
    }
  }
}
