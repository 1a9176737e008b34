/** The table one refresh builds (index.js:86-125), as functions of the feed's
    answer: the dollar quotes, the chosen ticker, and the two cross quotes
    added in rotation mode. The class in bot.dfy fills the same table in
    place and is proved to agree with these. */
module Snapshot {
  import opened Options
  import opened Quotes
  import opened Rotation
  import opened Publish

  /** The feed's `data.found`, in the order of `Object.keys`. */
  type Found = seq<(string, RawQuote)>

  /** The two reference assets, in the order the cross loop visits them. */
  const Comparisons: seq<string> := ["ETH", "BTC"]

  predicate IsReference(key: string)
  {
    key == "ETH" || key == "BTC"
  }

  /** The dollar quotes after the loop over the found keys: one entry per key,
      a later entry for a key replacing an earlier one. */
  function BaseTable(found: Found): (table: map<string, Quote>)
    ensures found != [] ==>
      var last := found[|found| - 1];
      last.0 in table && table[last.0] == Normalize(last.1)
  {
    if found == [] then map[]
    else
      var last := found[|found| - 1];
      BaseTable(found[..|found| - 1])[last.0 := Normalize(last.1)]
  }

  /** The table has exactly the found keys. */
  lemma {:induction false} BaseTableKeys(found: Found)
    ensures BaseTable(found).Keys == set i | 0 <= i < |found| :: found[i].0
  {
    if found != [] {
      var init := found[..|found| - 1];
      BaseTableKeys(init);
      assert (set i | 0 <= i < |found| :: found[i].0)
          == (set i | 0 <= i < |init| :: init[i].0) + {found[|found| - 1].0};
    }
  }

  /** Each key holds the quote normalised from its last occurrence. */
  lemma {:induction false} BaseTableEntry(found: Found, i: nat)
    requires i < |found|
    requires forall j :: i < j < |found| ==> found[j].0 != found[i].0
    ensures found[i].0 in BaseTable(found)
    ensures BaseTable(found)[found[i].0] == Normalize(found[i].1)
  {
    if i < |found| - 1 {
      var init := found[..|found| - 1];
      BaseTableEntry(init, i);
    }
  }

  /** `priceData.ticker` after the loop over the found keys, starting from
      `init`: a reference ticker names itself as soon as any key is found;
      any other ticker takes the key of each non-reference entry in turn. */
  function PickTicker(ticker: string, found: Found, init: Option<string>): (t: Option<string>)
    ensures t != init ==>
      if IsReference(ticker) then t == Some(ticker) else t.Some? && !IsReference(t.value)
  {
    if found == [] then init
    else
      var before := PickTicker(ticker, found[..|found| - 1], init);
      var key := found[|found| - 1].0;
      if IsReference(ticker) then Some(ticker)
      else if !IsReference(key) then Some(key)
      else before
  }

  /** A reference ticker is the snapshot's ticker whenever the feed found
      anything, whichever keys it found. */
  lemma PickReferenceTicker(ticker: string, found: Found, init: Option<string>)
    requires IsReference(ticker) && found != []
    ensures PickTicker(ticker, found, init) == Some(ticker)
  {
  }

  /** For any other ticker, the last found key that is neither ETH nor BTC
      becomes the snapshot's ticker. */
  lemma {:induction false} PickLastOther(ticker: string, found: Found, init: Option<string>, i: nat)
    requires !IsReference(ticker)
    requires i < |found| && !IsReference(found[i].0)
    requires forall j :: i < j < |found| ==> IsReference(found[j].0)
    ensures PickTicker(ticker, found, init) == Some(found[i].0)
  {
    if i < |found| - 1 {
      PickLastOther(ticker, found[..|found| - 1], init, i);
    }
  }

  /** For any other ticker, when every found key is ETH or BTC the ticker is
      left as it was, `undefined` on a fresh snapshot. */
  lemma {:induction false} PickOnlyReferences(ticker: string, found: Found, init: Option<string>)
    requires !IsReference(ticker)
    requires forall j :: 0 <= j < |found| ==> IsReference(found[j].0)
    ensures PickTicker(ticker, found, init) == init
  {
    if found != [] {
      PickOnlyReferences(ticker, found[..|found| - 1], init);
    }
  }

  /** Whatever the configured ticker, a ticker chosen on a fresh snapshot is
      either the configured reference ticker or a found key that is not a
      reference asset. */
  lemma {:induction false} PickedIsFound(ticker: string, found: Found)
    ensures var t := PickTicker(ticker, found, None);
      t.Some? ==>
        if IsReference(ticker) then t.value == ticker
        else !IsReference(t.value) && exists i :: 0 <= i < |found| && found[i].0 == t.value
  {
    if found != [] {
      var init := found[..|found| - 1];
      PickedIsFound(ticker, init);
      var t := PickTicker(ticker, init, None);
      if t.Some? && !IsReference(ticker) {
        var i :| 0 <= i < |init| && init[i].0 == t.value;
        assert found[i].0 == t.value;
      }
    }
  }

  /** The table after the cross loop, and whether the loop ran to the end. */
  datatype Filled = Filled(table: map<string, Quote>, complete: bool)

  /** The cross loop over `comparisons` for the ticker written as `name`
      (index.js:109-124). It stops at the first comparison for which the
      ticker's entry or the comparison's entry is missing: reading a field of
      `undefined` throws, and the entries added before stay in the table. */
  function AddCross(name: string, table: map<string, Quote>, comparisons: seq<string>): (r: Filled)
    ensures table.Keys <= r.table.Keys
    ensures r.table.Keys <= table.Keys + (set c | c in comparisons :: name + c)
    ensures forall k :: (k in table && (forall c :: c in comparisons ==> k != name + c)
                         ==> r.table[k] == table[k])
    decreases |comparisons|
  {
    if comparisons == [] then Filled(table, true)
    else
      var comparison := comparisons[0];
      if name !in table || comparison !in table then Filled(table, false)
      else
        var cross := Cross(table[name], table[comparison], comparison);
        AddCross(name, table[name + comparison := cross], comparisons[1..])
  }

  /** The cross loop of a refresh completes exactly when the ticker, ETH and
      BTC all have entries; it then adds the ETH and BTC cross quotes under
      `name + "ETH"` and `name + "BTC"` and changes nothing else. When only
      the BTC entry is missing, the ETH cross quote is still added. */
  lemma CrossEntries(name: string, table: map<string, Quote>)
    ensures var r := AddCross(name, table, Comparisons);
      && (r.complete <==> name in table && "ETH" in table && "BTC" in table)
      && (name !in table || "ETH" !in table ==> r.table == table)
      && (name in table && "ETH" in table ==>
            var withEth := table[name + "ETH" := Cross(table[name], table["ETH"], "ETH")];
            if r.complete
            then r.table == withEth[name + "BTC" := Cross(table[name], table["BTC"], "BTC")]
            else r.table == withEth)
  {
    var r := AddCross(name, table, Comparisons);
    if name in table && "ETH" in table {
      var withEth := table[name + "ETH" := Cross(table[name], table["ETH"], "ETH")];
      assert name + "ETH" != name by {
        assert |name + "ETH"| != |name|;
      }
      assert name + "ETH" != "BTC" by {
        if |name + "ETH"| == 3 {
          assert (name + "ETH")[0] == 'E';
        }
      }
      assert withEth[name] == table[name];
      assert Comparisons[1..] == ["BTC"];
      assert r == AddCross(name, withEth, ["BTC"]);
    }
  }

  /** After a complete cross loop, each of the three cursor values finds its
      entry: `$` the dollar quote, `Ξ` the ETH cross quote and `₿` the BTC
      cross quote. */
  lemma TicksAfterRefresh(name: string, table: map<string, Quote>)
    requires name in table && "ETH" in table && "BTC" in table
    ensures var r := AddCross(name, table, Comparisons);
      && (forall d: Denom :: PriceKey(name, d) in r.table)
      && r.table[PriceKey(name, Dollar)] == table[name]
      && r.table[PriceKey(name, Ether)] == Cross(table[name], table["ETH"], "ETH")
      && r.table[PriceKey(name, Bitcoin)] == Cross(table[name], table["BTC"], "BTC")
  {
    CrossEntries(name, table);
    assert name + "ETH" != name && name + "BTC" != name by {
      assert |name + "ETH"| != |name| && |name + "BTC"| != |name|;
    }
    assert name + "ETH" != name + "BTC" by {
      assert (name + "ETH")[|name|] != (name + "BTC")[|name|];
    }
  }
}
