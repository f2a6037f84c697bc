/**
 * The pure parts of the ledger edits: name trimming, re-keying transactions
 * on a rename, the filters that delete rates and transactions, finding a
 * transaction by id, the shape an imported file must have, and the key the
 * calendar cache is checked against.
 */
module Edits {
  import opened Dates
  import opened Records
  import opened Valuation

  // ---------------------------------------------------------------------
  // Names

  /** The white space and line terminators `String.prototype.trim` removes. */
  predicate IsSpace(c: char)
  {
    || c == ' ' || c == '\t' || c == '\n' || c == '\r' || c == '\U{000B}' || c == '\U{000C}'
    || c == '\U{00A0}' || c == '\U{1680}' || ('\U{2000}' <= c <= '\U{200A}')
    || c == '\U{2028}' || c == '\U{2029}' || c == '\U{202F}' || c == '\U{205F}'
    || c == '\U{3000}' || c == '\U{FEFF}'
  }

  /** `s` without its leading white space. */
  function TrimStart(s: string): (r: string)
    ensures |r| <= |s| && r == s[|s| - |r|..]
    ensures forall k :: 0 <= k < |s| - |r| ==> IsSpace(s[k])
    ensures |r| > 0 ==> !IsSpace(r[0])
  {
    if |s| > 0 && IsSpace(s[0]) then TrimStart(s[1..]) else s
  }

  /** `s` without its trailing white space. */
  function TrimEnd(s: string): (r: string)
    ensures |r| <= |s| && r == s[..|r|]
    ensures forall k :: |r| <= k < |s| ==> IsSpace(s[k])
    ensures |r| > 0 ==> !IsSpace(r[|r| - 1])
  {
    if |s| > 0 && IsSpace(s[|s| - 1]) then TrimEnd(s[..|s| - 1]) else s
  }

  /** How many leading characters `TrimStart` removes. */
  function Lead(s: string): nat
  {
    |s| - |TrimStart(s)|
  }

  /** `s.trim()`. */
  function Trim(s: string): string
  {
    TrimEnd(TrimStart(s))
  }

  /**
   * The trimmed name is a stretch of the input with only white space around
   * it, and neither starts nor ends with white space.
   */
  lemma TrimShape(s: string)
    ensures Lead(s) + |Trim(s)| <= |s| && Trim(s) == s[Lead(s)..Lead(s) + |Trim(s)|]
    ensures forall k :: 0 <= k < Lead(s) ==> IsSpace(s[k])
    ensures forall k :: Lead(s) + |Trim(s)| <= k < |s| ==> IsSpace(s[k])
    ensures |Trim(s)| > 0 ==> !IsSpace(Trim(s)[0]) && !IsSpace(Trim(s)[|Trim(s)| - 1])
  {
    var front := TrimStart(s);
    var i := Lead(s);
    var r := Trim(s);
    assert r == s[i..i + |r|];
    if |r| > 0 {
      assert r[0] == front[0];
    }
  }

  /** Trimming a trimmed name changes nothing. */
  lemma TrimIdempotent(s: string)
    ensures Trim(Trim(s)) == Trim(s)
  {
    var r := Trim(s);
    TrimShape(s);
    if |r| > 0 {
      assert TrimStart(r) == r;
    }
  }

  /** No name occurs twice. */
  ghost predicate Unique(names: seq<string>)
  {
    forall i, j :: 0 <= i < j < |names| ==> names[i] != names[j]
  }

  /** Appending a name not yet in the list keeps the names unique. */
  lemma AppendUnique(names: seq<string>, name: string)
    requires Unique(names) && name !in names
    ensures Unique(names + [name])
  {
  }

  /** Replacing one name by a name not yet in the list keeps the names unique. */
  lemma ReplaceUnique(names: seq<string>, index: nat, name: string)
    requires Unique(names) && index < |names| && name !in names
    ensures Unique(names[index := name])
  {
    var renamed := names[index := name];
    forall i, j | 0 <= i < j < |names| ensures renamed[i] != renamed[j] {
      if i != index && j != index {
      } else if i == index {
        assert names[j] in names;
      } else {
        assert names[i] in names;
      }
    }
  }

  /** The transactions with `oldName` renamed to `newName`, all others as they were. */
  function Rekey(txs: seq<Tx>, oldName: string, newName: string): (r: seq<Tx>)
    ensures |r| == |txs|
    ensures forall k :: 0 <= k < |txs| ==>
      r[k] == if txs[k].itemType == oldName then txs[k].(itemType := newName) else txs[k]
  {
    if |txs| == 0 then []
    else
      var x := txs[|txs| - 1];
      Rekey(txs[..|txs| - 1], oldName, newName) + [if x.itemType == oldName then x.(itemType := newName) else x]
  }

  /**
   * After a rename to a name no transaction carries, a transaction carries the
   * new name iff it carried the old one, and nothing else about any
   * transaction changes.
   */
  lemma RekeyMovesExactlyOldName(txs: seq<Tx>, oldName: string, newName: string)
    requires forall x :: x in txs ==> x.itemType != newName
    ensures forall k :: 0 <= k < |txs| ==>
      (Rekey(txs, oldName, newName)[k].itemType == newName <==> txs[k].itemType == oldName)
    ensures forall k :: 0 <= k < |txs| ==>
      Rekey(txs, oldName, newName)[k] == txs[k].(itemType := Rekey(txs, oldName, newName)[k].itemType)
    ensures forall x :: x in Rekey(txs, oldName, newName) ==> x.itemType != oldName || oldName == newName
  {
    var r := Rekey(txs, oldName, newName);
    forall k | 0 <= k < |txs| ensures r[k].itemType == newName <==> txs[k].itemType == oldName {
      assert txs[k] in txs;
    }
  }

  // ---------------------------------------------------------------------
  // Deleting

  /** `rates.filter(r => r.date !== date)`. */
  function DropDate(rates: seq<Rate>, date: Date): (r: seq<Rate>)
    ensures |r| <= |rates|
    ensures forall x :: x in r <==> x in rates && x.date != date
    ensures forall x :: multiset(r)[x] == if x.date != date then multiset(rates)[x] else 0
  {
    if |rates| == 0 then []
    else
      var last := rates[|rates| - 1];
      var init := DropDate(rates[..|rates| - 1], date);
      assert rates == rates[..|rates| - 1] + [last];
      assert forall x :: x in rates <==> x in rates[..|rates| - 1] || x == last;
      if last.date != date then init + [last] else init
  }

  /** `txs.filter(t => String(t.id) !== idStr)`. */
  function DropId(txs: seq<Tx>, id: nat): (r: seq<Tx>)
    ensures |r| <= |txs|
    ensures forall x :: x in r <==> x in txs && x.id != id
    ensures forall x :: multiset(r)[x] == if x.id != id then multiset(txs)[x] else 0
  {
    if |txs| == 0 then []
    else
      var last := txs[|txs| - 1];
      var init := DropId(txs[..|txs| - 1], id);
      assert txs == txs[..|txs| - 1] + [last];
      assert forall x :: x in txs <==> x in txs[..|txs| - 1] || x == last;
      if last.id != id then init + [last] else init
  }

  /** Each day has at most one rate. */
  ghost predicate OneRatePerDate(rates: seq<Rate>)
  {
    forall i, j :: 0 <= i < j < |rates| ==> rates[i].date != rates[j].date
  }

  /** The filter keeps the rates in their order, so it keeps at most one per day. */
  lemma {:induction false} DropDateKeepsOnePerDate(rates: seq<Rate>, date: Date)
    requires OneRatePerDate(rates)
    ensures OneRatePerDate(DropDate(rates, date))
  {
    if |rates| > 0 {
      var n := |rates| - 1;
      var last := rates[n];
      OnePerDatePrefix(rates, n);
      DropDateKeepsOnePerDate(rates[..n], date);
      var init := DropDate(rates[..n], date);
      if last.date != date {
        forall i | 0 <= i < |init| ensures init[i].date != last.date {
          OtherDayBefore(rates, init[i]);
        }
        OnePerDateAppend(init, last);
        assert DropDate(rates, date) == init + [last];
      } else {
        assert DropDate(rates, date) == init;
      }
    }
  }

  lemma OnePerDatePrefix(rates: seq<Rate>, n: nat)
    requires OneRatePerDate(rates) && n <= |rates|
    ensures OneRatePerDate(rates[..n])
  {
    forall i, j | 0 <= i < j < n ensures rates[..n][i].date != rates[..n][j].date {
      assert rates[..n][i] == rates[i] && rates[..n][j] == rates[j];
    }
  }

  /** In a list with one rate per day, a rate among the earlier ones is of another day than the last. */
  lemma OtherDayBefore(rates: seq<Rate>, x: Rate)
    requires OneRatePerDate(rates) && |rates| > 0 && x in rates[..|rates| - 1]
    ensures x.date != rates[|rates| - 1].date
  {
    var n := |rates| - 1;
    var k :| 0 <= k < n && rates[..n][k] == x;
    assert rates[k] == x;
  }

  lemma OnePerDateAppend(init: seq<Rate>, x: Rate)
    requires OneRatePerDate(init)
    requires forall i :: 0 <= i < |init| ==> init[i].date != x.date
    ensures OneRatePerDate(init + [x])
  {
    var r := init + [x];
    forall i, j | 0 <= i < j < |r| ensures r[i].date != r[j].date {
      assert r[i] == init[i];
      if j < |init| {
        assert r[j] == init[j];
      }
    }
  }

  /**
   * Saving a rate drops every rate of its day first: afterwards its day has
   * exactly that rate, and a ledger with one rate per day keeps one per day.
   */
  lemma SaveRateKeepsOnePerDate(rates: seq<Rate>, r: Rate)
    ensures var saved := DropDate(rates, r.date) + [r];
      && (forall i :: 0 <= i < |saved| && saved[i].date == r.date ==> i == |saved| - 1)
      && (OneRatePerDate(rates) ==> OneRatePerDate(saved))
  {
    var dropped := DropDate(rates, r.date);
    forall i | 0 <= i < |dropped| ensures dropped[i].date != r.date {
      assert dropped[i] in dropped;
    }
    if OneRatePerDate(rates) {
      DropDateKeepsOnePerDate(rates, r.date);
    }
  }

  /** A saved rate is the rate of its own day. */
  lemma SavedRateApplies(rates: seq<Rate>, r: Rate)
    ensures RateForDate(DropDate(rates, r.date) + [r], r.date) == r.value
  {
    var saved := DropDate(rates, r.date) + [r];
    SaveRateKeepsOnePerDate(rates, r);
    LeReflexive(r.date);
    var i := |saved| - 1;
    RatePicksLatest(saved, r.date, i);
  }

  // ---------------------------------------------------------------------
  // Finding a transaction

  /** `arr.find(t => String(t.id) === idStr)`, as the index of the first match. */
  function FindById(txs: seq<Tx>, id: nat): (r: Option<nat>)
    ensures r.Some? ==> r.value < |txs| && txs[r.value].id == id
    ensures r.Some? ==> forall k :: 0 <= k < r.value ==> txs[k].id != id
    ensures r.None? <==> forall k :: 0 <= k < |txs| ==> txs[k].id != id
  {
    if |txs| == 0 then None
    else if txs[0].id == id then Some(0)
    else
      var rest := FindById(txs[1..], id);
      assert forall k :: 1 <= k < |txs| ==> txs[k] == txs[1..][k - 1];
      if rest.Some? then Some(rest.value + 1) else None
  }

  // ---------------------------------------------------------------------
  // Importing

  /** A parsed import file; a key that is missing or null reads as `None`. */
  datatype ImportFile = ImportFile(
    itemTypes: Option<seq<string>>,
    purchases: Option<seq<Tx>>,
    sales: Option<seq<Tx>>,
    rates: Option<seq<Rate>>)

  /** `imported.itemTypes && imported.purchases && imported.sales`: an empty list is present. */
  predicate ImportShapeOk(file: ImportFile)
  {
    file.itemTypes.Some? && file.purchases.Some? && file.sales.Some?
  }

  /** `imported.rates || []`. */
  function ImportedRates(file: ImportFile): (r: seq<Rate>)
    ensures file.rates.Some? ==> r == file.rates.value
    ensures file.rates.None? ==> r == []
  {
    if file.rates.Some? then file.rates.value else []
  }

  // ---------------------------------------------------------------------
  // The cache key

  /** `id + date + time` of one transaction. */
  datatype Stamp = Stamp(id: nat, date: Date, time: string)

  /** What the calendar cache is keyed on: sale and purchase stamps, and the rates. */
  datatype CacheKey = CacheKey(sales: seq<Stamp>, purchases: seq<Stamp>, rates: seq<Rate>)

  function Stamps(txs: seq<Tx>): (r: seq<Stamp>)
    ensures |r| == |txs|
    ensures forall i :: 0 <= i < |txs| ==> r[i] == Stamp(txs[i].id, txs[i].date, txs[i].time)
  {
    seq(|txs|, i requires 0 <= i < |txs| => Stamp(txs[i].id, txs[i].date, txs[i].time))
  }

  function KeyOf(books: Books): CacheKey
  {
    CacheKey(Stamps(books.sales), Stamps(books.purchases), books.rates)
  }

  /**
   * The key sees ids, days, times and rates, but not quantities, amounts,
   * currencies or item types: two ledgers that differ only in a quantity have
   * the same key.
   */
  lemma KeyIgnoresQuantities(books: Books, i: nat, q: Qty)
    requires i < |books.sales|
    ensures KeyOf(books.(sales := books.sales[i := books.sales[i].(quantity := q)])) == KeyOf(books)
  {
    var changed := books.(sales := books.sales[i := books.sales[i].(quantity := q)]);
    assert Stamps(changed.sales) == Stamps(books.sales);
  }
}
