/**
 * The pure parts of the symbol universe: market-cap banding, the record of
 * one checked stock, the parse of the pipe-delimited NASDAQ listing, the
 * shape check of the cached database, and the symbol lists drawn from its
 * categories, including the de-duplicated union of several categories.
 * The listing text and the cached database are inputs; no I/O is modelled.
 */
module StockFetcher {
  import opened Wrappers
  import Strings

  // ---- Market-cap bands ----

  const MegaCapFloor: real := 200_000_000_000.0
  const LargeCapFloor: real := 10_000_000_000.0
  const MidCapFloor: real := 2_000_000_000.0
  const SmallCapFloor: real := 300_000_000.0

  const Categories: seq<string> := ["mega_cap", "large_cap", "mid_cap", "small_cap", "micro_cap"]

  /** `get_market_cap_category`: the band whose lower bound the value reaches, micro below them all. */
  function MarketCapCategory(marketCap: real): (c: string)
    ensures c in Categories
    ensures c == "mega_cap" <==> marketCap >= MegaCapFloor
    ensures c == "large_cap" <==> LargeCapFloor <= marketCap < MegaCapFloor
    ensures c == "mid_cap" <==> MidCapFloor <= marketCap < LargeCapFloor
    ensures c == "small_cap" <==> SmallCapFloor <= marketCap < MidCapFloor
    ensures c == "micro_cap" <==> marketCap < SmallCapFloor
  {
    if marketCap >= MegaCapFloor then "mega_cap"
    else if marketCap >= LargeCapFloor then "large_cap"
    else if marketCap >= MidCapFloor then "mid_cap"
    else if marketCap >= SmallCapFloor then "small_cap"
    else "micro_cap"
  }

  /** The size rank of a category, micro being 0 and mega 4. */
  function Rank(category: string): nat {
    if category == "mega_cap" then 4
    else if category == "large_cap" then 3
    else if category == "mid_cap" then 2
    else if category == "small_cap" then 1
    else 0
  }

  /** A larger market cap never falls in a smaller band. */
  lemma CategoryMonotone(x: real, y: real)
    requires x <= y
    ensures Rank(MarketCapCategory(x)) <= Rank(MarketCapCategory(y))
  {
  }

  /** One key of the ticker's info dictionary: absent, present with value `None`, or present with a value. */
  datatype InfoEntry<T> = Absent | Null | Given(value: T)

  /** What the ticker's info dictionary supplies for the four keys read. */
  datatype TickerInfo = TickerInfo(marketCap: InfoEntry<real>, longName: InfoEntry<string>,
                                   sector: InfoEntry<string>, industry: InfoEntry<string>)

  /** The record of one checked stock; a text field is `None` where the info held `None`. */
  datatype StockRecord = StockRecord(symbol: string, marketCap: real, category: string,
                                     name: Option<string>, sector: Option<string>, industry: Option<string>)

  /** `dict.get(key, default)`: the default only for an absent key; a stored `None` comes back as `None`. */
  function Lookup<T>(entry: InfoEntry<T>, default: T): Option<T> {
    match entry
    case Absent => Some(default)
    case Null => None
    case Given(v) => Some(v)
  }

  /**
   * `check_market_cap` on the fetched info: a record only for a positive
   * market cap (an absent or `None` cap is falsy), banded by it. The symbol
   * stands in for an absent name and "N/A" for an absent sector or industry;
   * a key present with `None` passes `None` on.
   */
  function CheckMarketCap(symbol: string, info: TickerInfo): (r: Option<StockRecord>)
    ensures r.Some? <==> info.marketCap.Given? && info.marketCap.value > 0.0
    ensures r.Some? ==>
      && r.value.symbol == symbol && r.value.marketCap == info.marketCap.value
      && r.value.category == MarketCapCategory(info.marketCap.value)
    ensures r.Some? ==>
      && (info.longName.Absent? ==> r.value.name == Some(symbol))
      && (info.longName.Null? ==> r.value.name == None)
      && (info.longName.Given? ==> r.value.name == Some(info.longName.value))
    ensures r.Some? ==>
      && (info.sector.Absent? ==> r.value.sector == Some("N/A"))
      && (info.sector.Null? ==> r.value.sector == None)
      && (info.sector.Given? ==> r.value.sector == Some(info.sector.value))
      && (info.industry.Absent? ==> r.value.industry == Some("N/A"))
      && (info.industry.Null? ==> r.value.industry == None)
      && (info.industry.Given? ==> r.value.industry == Some(info.industry.value))
  {
    match Lookup(info.marketCap, 0.0)
    case Some(cap) =>
      if cap > 0.0 then
        Some(StockRecord(symbol, cap, MarketCapCategory(cap), Lookup(info.longName, symbol),
                         Lookup(info.sector, "N/A"), Lookup(info.industry, "N/A")))
      else None
    case None => None
  }

  // ---- The NASDAQ listing ----

  /**
   * The symbol one data line of the listing contributes: its stripped first
   * field, when the line is not blank, has at least 8 '|' fields, and its
   * stripped seventh field (the ETF flag) is exactly "N".
   */
  function LineSymbol(line: string): Option<string> {
    if Strings.Strip(line) == [] then None
    else
      var parts := Strings.Split(line, '|');
      if |parts| >= 8 && Strings.Strip(parts[6]) == "N" then Some(Strings.Strip(parts[0])) else None
  }

  /** A line contributes its stripped first field exactly when it qualifies. */
  lemma LineSymbolMeaning(line: string)
    ensures LineSymbol(line).Some? <==>
      Strings.Strip(line) != [] && |Strings.Split(line, '|')| >= 8 && Strings.Strip(Strings.Split(line, '|')[6]) == "N"
    ensures LineSymbol(line).Some? ==> LineSymbol(line).value == Strings.Strip(Strings.Split(line, '|')[0])
  {
  }

  /** The lines of the listing after the header: the stripped text split at newlines, less the first. */
  function DataLines(content: string): seq<string> {
    Strings.Split(Strings.Strip(content), '\n')[1..]
  }

  /** The parse of `fetch_nasdaq_symbols` as a function of the downloaded text. */
  function ListingSymbols(content: string): seq<string> {
    Collect(LineSymbol, DataLines(content))
  }

  /**
   * The listing's symbols are exactly the first fields of its qualifying data
   * lines, at most one per line.
   */
  lemma ListingMembers(content: string, s: string)
    ensures |ListingSymbols(content)| <= |DataLines(content)|
    ensures s in ListingSymbols(content) <==> exists j :: 0 <= j < |DataLines(content)| && LineSymbol(DataLines(content)[j]) == Some(s)
  {
    CollectMembers(LineSymbol, DataLines(content), s);
  }

  /** `fetch_nasdaq_symbols` once the listing is downloaded: skip the header, then parse the data lines. */
  method FetchNasdaqSymbols(content: string) returns (stocks: seq<string>)
    ensures stocks == ListingSymbols(content)
  {
    var lines := Strings.Split(Strings.Strip(content), '\n');
    stocks := ParseListing(lines[1..]);
  }

  /** The parse loop: append the symbol of each qualifying line. */
  method ParseListing(data: seq<string>) returns (stocks: seq<string>)
    ensures stocks == Collect(LineSymbol, data)
  {
    stocks := [];
    for j := 0 to |data|
      invariant stocks == Collect(LineSymbol, data[..j])
    {
      var symbol := ParseLine(data[j]);
      assert data[..j + 1][..j] == data[..j];
      if symbol.Some? {
        stocks := stocks + [symbol.value];
      }
    }
    assert data[..|data|] == data;
  }

  /** The body of the parse loop for one line: blank, short and ETF lines contribute nothing. */
  method ParseLine(line: string) returns (symbol: Option<string>)
    ensures symbol == LineSymbol(line)
  {
    symbol := None;
    if Strings.Strip(line) != [] {
      var parts := Strings.Split(line, '|');
      if |parts| >= 8 {
        var etfFlag := Strings.Strip(parts[6]);
        if etfFlag == "N" {
          symbol := Some(Strings.Strip(parts[0]));
        }
      }
    }
  }

  // ---- The cached database ----

  /** A JSON value as loaded from the cache file. */
  datatype Json =
    | JNull
    | JBool(b: bool)
    | JNum(x: real)
    | JStr(s: string)
    | JList(items: seq<Json>)
    | JObject(fields: map<string, Json>)

  /**
   * Python's `key in container` on a JSON value: a key of an object, an
   * element of a list, a substring of a string; `None` where it raises.
   */
  function Holds(container: Json, key: string): Option<bool> {
    match container
    case JObject(fields) => Some(key in fields)
    case JList(items) => Some(JStr(key) in items)
    case JStr(s) => Some(Strings.Contains(s, key))
    case _ => None
  }

  /**
   * `_validate_data`: an object with "summary" and "stocks" whose stocks hold
   * the five categories. A test that raises makes the load fail, so it counts
   * as invalid here.
   */
  function ValidateData(data: Json): (ok: bool)
    ensures ok ==> data.JObject? && "summary" in data.fields && "stocks" in data.fields
    ensures data.JObject? && "summary" in data.fields && "stocks" in data.fields && data.fields["stocks"].JObject? ==>
      (ok <==> forall c :: c in Categories ==> c in data.fields["stocks"].fields)
  {
    if !data.JObject? || "summary" !in data.fields || "stocks" !in data.fields then false
    else
      var stocks := data.fields["stocks"];
      forall c :: c in Categories ==> Holds(stocks, c) == Some(true)
  }

  /** The `stocks` part of a valid cache: each category's list of entries. */
  type Database = map<string, seq<Json>>

  /** Whether an entry is a record with a string "symbol". */
  predicate HasSymbol(entry: Json) {
    entry.JObject? && "symbol" in entry.fields && entry.fields["symbol"].JStr?
  }

  /** `get_stocks_by_category`: the symbols of the category's record entries, in order; none for a missing category. */
  function StocksByCategory(db: Database, category: string): (r: seq<string>)
    ensures category !in db ==> r == []
    ensures category in db ==> |r| <= |db[category]|
    ensures forall s :: s in r <==> category in db && JStr(s) in SymbolsOf(db[category])
    ensures category in db ==> r == Collect(SymbolOf, db[category])
  {
    if category in db then Symbols(db[category]) else []
  }

  /** The symbol values of the record entries. */
  function SymbolsOf(entries: seq<Json>): set<Json> {
    set e | e in entries && HasSymbol(e) :: e.fields["symbol"]
  }

  /** The symbol of one entry, when it is a record with a string "symbol". */
  function SymbolOf(entry: Json): Option<string> {
    if HasSymbol(entry) then Some(entry.fields["symbol"].s) else None
  }

  /**
   * The symbols of a list of entries, skipping entries that are not records
   * with a symbol: the entries' own symbols, in entry order and with repeats
   * kept.
   */
  function Symbols(entries: seq<Json>): (r: seq<string>)
    ensures |r| <= |entries|
    ensures forall s :: s in r <==> JStr(s) in SymbolsOf(entries)
    ensures r == Collect(SymbolOf, entries)
  {
    if |entries| == 0 then []
    else
      var init := entries[..|entries| - 1];
      var e := entries[|entries| - 1];
      var r := Symbols(init) + (if HasSymbol(e) then [e.fields["symbol"].s] else []);
      assert entries == init + [e];
      assert SymbolsOf(entries) == SymbolsOf(init) + (if HasSymbol(e) then {e.fields["symbol"]} else {});
      r
  }

  /** `get_all_stocks`: the five categories one after another, from mega to micro. */
  function AllStocks(db: Database): seq<string> {
    StocksByCategory(db, "mega_cap") + StocksByCategory(db, "large_cap") + StocksByCategory(db, "mid_cap")
    + StocksByCategory(db, "small_cap") + StocksByCategory(db, "micro_cap")
  }

  /** `get_large_cap_stocks`: mega followed by large. */
  function LargeCapStocks(db: Database): seq<string> {
    StocksByCategory(db, "mega_cap") + StocksByCategory(db, "large_cap")
  }

  /** The symbols one requested category stands for: "all" and "large_cap" expand, others are looked up. */
  function CategorySymbols(db: Database, category: string): seq<string> {
    if category == "all" then AllStocks(db)
    else if category == "large_cap" then LargeCapStocks(db)
    else StocksByCategory(db, category)
  }

  /** The symbols of the requested categories concatenated, duplicates included. */
  function Requested(db: Database, categories: seq<string>): seq<string> {
    if |categories| == 0 then []
    else Requested(db, categories[..|categories| - 1]) + CategorySymbols(db, categories[|categories| - 1])
  }

  /** The "large_cap" request is the mega list followed by the large list, so it includes every mega-cap stock. */
  lemma LargeCapIncludesMega(db: Database, s: string)
    requires s in StocksByCategory(db, "mega_cap")
    ensures s in CategorySymbols(db, "large_cap") && s in CategorySymbols(db, "all")
  {
  }

  // ---- De-duplication ----

  /** Each element at its first occurrence only. */
  function Dedup(xs: seq<string>): seq<string> {
    if |xs| == 0 then []
    else
      var init := xs[..|xs| - 1];
      Dedup(init) + (if xs[|xs| - 1] in init then [] else [xs[|xs| - 1]])
  }

  predicate NoDuplicates(xs: seq<string>) {
    forall i, j :: 0 <= i < j < |xs| ==> xs[i] != xs[j]
  }

  /** The position of the first occurrence. */
  function FirstIndex(xs: seq<string>, x: string): (i: nat)
    requires x in xs
    ensures i < |xs| && xs[i] == x && x !in xs[..i]
  {
    if xs[0] == x then 0
    else
      var i := 1 + FirstIndex(xs[1..], x);
      assert xs[..i] == [xs[0]] + xs[1..][..i - 1];
      i
  }

  /**
   * De-duplication keeps exactly the elements of the input, each once, in the
   * order of their first occurrences.
   */
  lemma {:induction false} DedupProperties(xs: seq<string>)
    ensures forall x :: x in Dedup(xs) <==> x in xs
    ensures NoDuplicates(Dedup(xs))
    ensures forall i, j :: 0 <= i < j < |Dedup(xs)| ==> FirstIndex(xs, Dedup(xs)[i]) < FirstIndex(xs, Dedup(xs)[j])
  {
    if |xs| > 0 {
      var init := xs[..|xs| - 1];
      var x := xs[|xs| - 1];
      DedupProperties(init);
      assert xs == init + [x];
      forall y | y in init ensures FirstIndex(xs, y) == FirstIndex(init, y) {
        FirstIndexPrefix(init, [x], y);
      }
      if x !in init {
        assert FirstIndex(xs, x) == |init| by {
          assert xs[|init|] == x && xs[..|init|] == init;
          FirstIndexUnique(xs, x, |init|);
        }
      }
    }
  }

  lemma FirstIndexPrefix(a: seq<string>, b: seq<string>, y: string)
    requires y in a
    ensures y in a + b && FirstIndex(a + b, y) == FirstIndex(a, y)
  {
    var i := FirstIndex(a, y);
    assert (a + b)[i] == y && (a + b)[..i] == a[..i];
    FirstIndexUnique(a + b, y, i);
  }

  /** The first occurrence is the one position holding `x` with no `x` before it. */
  lemma FirstIndexUnique(xs: seq<string>, x: string, i: nat)
    requires i < |xs| && xs[i] == x && x !in xs[..i]
    ensures FirstIndex(xs, x) == i
  {
    var k := FirstIndex(xs, x);
    assert xs[..i][..k] == xs[..k];
  }

  /**
   * `get_stocks_by_categories`: walks the requested categories and their
   * symbols, keeping a symbol the first time it is seen.
   */
  method StocksByCategories(db: Database, categories: seq<string>) returns (allSymbols: seq<string>)
    ensures allSymbols == Dedup(Requested(db, categories))
  {
    allSymbols := [];
    var seen: set<string> := {};
    for c := 0 to |categories|
      invariant allSymbols == Dedup(Requested(db, categories[..c]))
      invariant forall x :: x in seen <==> x in Requested(db, categories[..c])
    {
      var symbols := CategorySymbols(db, categories[c]);
      RequestedSnoc(db, categories, c);
      allSymbols, seen := AppendUnseen(allSymbols, seen, symbols, Requested(db, categories[..c]));
    }
    assert categories[..|categories|] == categories;
  }

  /**
   * The inner loop of `get_stocks_by_categories`: appends each symbol not yet
   * seen and marks it seen; `done` is what was walked before.
   */
  method AppendUnseen(allSymbols: seq<string>, seen: set<string>, symbols: seq<string>, ghost done: seq<string>)
    returns (allSymbols': seq<string>, seen': set<string>)
    requires allSymbols == Dedup(done)
    requires forall x :: x in seen <==> x in done
    ensures allSymbols' == Dedup(done + symbols)
    ensures forall x :: x in seen' <==> x in done + symbols
  {
    allSymbols', seen' := allSymbols, seen;
    assert done + symbols[..0] == done;
    for k := 0 to |symbols|
      invariant allSymbols' == Dedup(done + symbols[..k])
      invariant forall x :: x in seen' <==> x in done + symbols[..k]
    {
      var symbol := symbols[k];
      DedupSnoc(done + symbols[..k], symbol);
      assert done + symbols[..k + 1] == (done + symbols[..k]) + [symbol];
      if symbol !in seen' {
        seen' := seen' + {symbol};
        allSymbols' := allSymbols' + [symbol];
      }
    }
    assert symbols[..|symbols|] == symbols;
  }

  lemma RequestedSnoc(db: Database, categories: seq<string>, c: nat)
    requires c < |categories|
    ensures Requested(db, categories[..c + 1]) == Requested(db, categories[..c]) + CategorySymbols(db, categories[c])
  {
    assert categories[..c + 1][..c] == categories[..c];
  }

  /** Adding one element adds it to the de-duplicated sequence unless it was already there. */
  lemma DedupSnoc(xs: seq<string>, x: string)
    ensures Dedup(xs + [x]) == Dedup(xs) + (if x in xs then [] else [x])
  {
    assert (xs + [x])[..|xs|] == xs;
  }

  /**
   * The union of several categories: every requested symbol once, nothing
   * else, in first-occurrence order.
   */
  lemma CategoriesUnion(db: Database, categories: seq<string>)
    ensures var r := Dedup(Requested(db, categories));
      && NoDuplicates(r)
      && (forall s :: s in r <==> s in Requested(db, categories))
  {
    DedupProperties(Requested(db, categories));
  }

  /** The lists concatenated in order. */
  function Flatten(parts: seq<seq<string>>): seq<string> {
    if |parts| == 0 then [] else Flatten(parts[..|parts| - 1]) + parts[|parts| - 1]
  }

  /** The list each requested category stands for. */
  function CategoryParts(db: Database, categories: seq<string>): (r: seq<seq<string>>)
    ensures |r| == |categories|
  {
    seq(|categories|, c requires 0 <= c < |categories| => CategorySymbols(db, categories[c]))
  }

  lemma {:induction false} RequestedFlatten(db: Database, categories: seq<string>)
    ensures Requested(db, categories) == Flatten(CategoryParts(db, categories))
  {
    if |categories| > 0 {
      var init := categories[..|categories| - 1];
      RequestedFlatten(db, init);
      assert CategoryParts(db, categories)[..|categories| - 1] == CategoryParts(db, init);
    }
  }

  lemma {:induction false} FlattenMembers(parts: seq<seq<string>>, s: string)
    ensures s in Flatten(parts) <==> exists c :: 0 <= c < |parts| && s in parts[c]
  {
    if |parts| > 0 {
      var init := parts[..|parts| - 1];
      FlattenMembers(init, s);
      if s in Flatten(init) {
        var c :| 0 <= c < |init| && s in init[c];
        assert parts[c] == init[c];
      }
      if exists c :: 0 <= c < |parts| && s in parts[c] {
        var c :| 0 <= c < |parts| && s in parts[c];
        if c < |init| {
          assert init[c] == parts[c];
        }
      }
    }
  }

  /** A symbol requested is in the union exactly when one of the requested categories lists it. */
  lemma RequestedMembers(db: Database, categories: seq<string>, s: string)
    ensures s in Requested(db, categories) <==>
      exists c :: 0 <= c < |categories| && s in CategorySymbols(db, categories[c])
  {
    var parts := CategoryParts(db, categories);
    RequestedFlatten(db, categories);
    FlattenMembers(parts, s);
    if exists c :: 0 <= c < |parts| && s in parts[c] {
      var c :| 0 <= c < |parts| && s in parts[c];
      assert s in CategorySymbols(db, categories[c]);
    }
    if exists c :: 0 <= c < |categories| && s in CategorySymbols(db, categories[c]) {
      var c :| 0 <= c < |categories| && s in CategorySymbols(db, categories[c]);
      assert s in parts[c];
    }
  }
}
