/** The arbitrage detector of scanner.py.

    `ArbitrageScanner` holds the configured exchanges and, per exchange,
    the symbols it will scan (`load_markets`).  `find_arbitrage` evaluates
    two built-in test pairs followed by the pairs of a small live scan: for
    each pair it takes the cheapest and the dearest numeric price, computes a
    fee-adjusted percentage and a dollar profit, keeps the pair when both
    clear the caller's thresholds, and returns the best three by percentage.

    Exchange connectivity is an input: each exchange's market listing is a
    `Listing`, and the ticker fetch and random jitter of the live scan are
    function parameters.  Prices are `real`. */
module Scanner {
  import opened Basics
  import opened StableSort

  // ---------------------------------------------------------------------
  // Configuration

  /** The configured exchanges, in the order of the scanner's exchange table. */
  const EXCHANGES: seq<string> := ["kucoin", "bybit", "okx", "gateio", "htx"]

  lemma ExchangesDistinct()
    ensures Distinct(EXCHANGES)
  {
  }

  /** The symbols an exchange gets when loading its markets fails. */
  const BACKUP_SYMBOLS: seq<string> := ["BTC/USDT", "ETH/USDT", "SOL/USDT", "BNB/USDT", "XRP/USDT"]

  /** At most this many symbols are kept per exchange. */
  const MAX_SYMBOLS: nat := 50

  /** Only the first this many exchanges take part in the live scan. */
  const LIVE_EXCHANGES: nat := 2

  /** The estimated round-trip fee, in percentage points. */
  const FEE_PCT: real := 0.4

  /** The share of the gross dollar profit left after fees. */
  const PROCEEDS_FRACTION: real := 0.98

  /** How many opportunities a scan returns at most. */
  const TOP_K: nat := 3

  // ---------------------------------------------------------------------
  // Markets

  /** One market record of an exchange: its symbol, whether it is a spot
      market (a missing or falsy `spot` entry is `false`), and its quote
      currency (`None` when the record has no `quote` entry). */
  datatype Market = Market(symbol: string, spot: bool, quote: Option<string>)

  /** What loading an exchange's markets produced: a failure (network,
      authentication, ...) or its market records in iteration order. */
  datatype Listing = Unreachable | Listed(markets: seq<Market>)

  predicate IsSpotUsdt(m: Market) {
    m.spot && m.quote == Some("USDT")
  }

  /** Reading the quote of this market fails: it is spot but has no quote. */
  predicate LacksQuote(m: Market) {
    m.spot && m.quote.None?
  }

  /** The symbols of the spot, USDT-quoted markets, in order; `None` when
      reading a market's quote fails first. */
  function SpotUsdt(ms: seq<Market>): Option<seq<string>>
    decreases |ms|
  {
    if ms == [] then Some([])
    else
      var m := ms[|ms| - 1];
      match SpotUsdt(ms[..|ms| - 1])
      case None => None
      case Some(found) =>
        if !m.spot then Some(found)
        else if m.quote.None? then None
        else if m.quote.value == "USDT" then Some(found + [m.symbol])
        else Some(found)
  }

  /** The symbol list `load_markets` stores for one exchange: the backup
      list when loading fails or a spot market has no quote, otherwise the
      first (at most) 50 spot USDT symbols in market order. */
  function ExchangeSymbols(l: Listing): (r: seq<string>)
    ensures |r| <= MAX_SYMBOLS
    ensures (l.Unreachable? || exists i :: 0 <= i < |l.markets| && LacksQuote(l.markets[i])) ==> r == BACKUP_SYMBOLS
    ensures l.Listed? && SpotUsdt(l.markets).Some? ==>
      r <= SpotUsdt(l.markets).value && |r| == Min(|SpotUsdt(l.markets).value|, MAX_SYMBOLS)
    ensures forall x :: x in r ==>
      || x in BACKUP_SYMBOLS
      || (l.Listed? && exists i :: 0 <= i < |l.markets| && IsSpotUsdt(l.markets[i]) && l.markets[i].symbol == x)
  {
    match l
    case Unreachable => BACKUP_SYMBOLS
    case Listed(ms) =>
      SpotUsdtSpec(ms);
      match SpotUsdt(ms)
      case None => BACKUP_SYMBOLS
      case Some(found) =>
        var r := Take(found, MAX_SYMBOLS);
        assert forall x :: x in r ==> x in found;
        r
  }

  lemma {:induction false} SpotUsdtSpec(ms: seq<Market>)
    ensures SpotUsdt(ms).None? <==> exists i :: 0 <= i < |ms| && LacksQuote(ms[i])
    ensures SpotUsdt(ms).Some? ==>
      && |SpotUsdt(ms).value| <= |ms|
      && forall x :: x in SpotUsdt(ms).value <==>
           exists i :: 0 <= i < |ms| && IsSpotUsdt(ms[i]) && ms[i].symbol == x
    decreases |ms|
  {
    if ms != [] {
      var n := |ms| - 1;
      var init := ms[..n];
      SpotUsdtSpec(init);
      assert forall i :: 0 <= i < n ==> ms[i] == init[i];
      if SpotUsdt(ms).Some? {
        var s := SpotUsdt(ms).value;
        forall x | exists i :: 0 <= i < |ms| && IsSpotUsdt(ms[i]) && ms[i].symbol == x
          ensures x in s
        {
          var i :| 0 <= i < |ms| && IsSpotUsdt(ms[i]) && ms[i].symbol == x;
          if i < n {
            assert IsSpotUsdt(init[i]) && init[i].symbol == x;
          }
        }
      }
    }
  }

  /** Once reading a quote has failed, later markets do not matter. */
  lemma {:induction false} SpotUsdtFailurePersists(ms: seq<Market>, n: nat)
    requires n <= |ms| && SpotUsdt(ms[..n]).None?
    ensures SpotUsdt(ms).None?
    decreases |ms| - n
  {
    if n < |ms| {
      assert ms[..n + 1][..n] == ms[..n];
      SpotUsdtFailurePersists(ms, n + 1);
    } else {
      assert ms[..n] == ms;
    }
  }

  /** The inner loop of `load_markets`: collects the spot USDT symbols of one
      exchange, or fails (`None`) on a spot market without a quote. */
  method CollectSpotUsdt(ms: seq<Market>) returns (r: Option<seq<string>>)
    ensures r == SpotUsdt(ms)
  {
    var symbols: seq<string> := [];
    var i := 0;
    while i < |ms|
      invariant 0 <= i <= |ms|
      invariant SpotUsdt(ms[..i]) == Some(symbols)
    {
      var m := ms[i];
      assert ms[..i + 1][..i] == ms[..i];
      if m.spot {
        if m.quote.None? {
          SpotUsdtFailurePersists(ms, i + 1);
          return None;
        }
        if m.quote.value == "USDT" {
          symbols := symbols + [m.symbol];
        }
      }
      i := i + 1;
    }
    assert ms[..i] == ms;
    return Some(symbols);
  }

  /** The body of the `try`/`except` in `load_markets` for one exchange. */
  method LoadSymbols(l: Listing) returns (symbols: seq<string>)
    ensures symbols == ExchangeSymbols(l)
  {
    match l {
      case Unreachable =>
        symbols := BACKUP_SYMBOLS;
      case Listed(ms) =>
        var found := CollectSpotUsdt(ms);
        symbols := if found.Some? then Take(found.value, MAX_SYMBOLS) else BACKUP_SYMBOLS;
    }
  }

  // ---------------------------------------------------------------------
  // The scanner's `markets` dictionary (insertion ordered)

  type Markets = seq<(string, seq<string>)>

  function Keys(d: Markets): seq<string> {
    if d == [] then [] else [d[0].0] + Keys(d[1..])
  }

  ghost predicate DistinctKeys(d: Markets) {
    forall i, j :: 0 <= i < j < |d| ==> d[i].0 != d[j].0
  }

  function Lookup(d: Markets, k: string): Option<seq<string>> {
    if d == [] then None
    else if d[0].0 == k then Some(d[0].1)
    else Lookup(d[1..], k)
  }

  /** `d[k] = v`: replaces the value in place, or appends a new entry. */
  function Assign(d: Markets, k: string, v: seq<string>): Markets {
    if d == [] then [(k, v)]
    else if d[0].0 == k then [(k, v)] + d[1..]
    else [d[0]] + Assign(d[1..], k, v)
  }

  /** `d[k] = v` maps `k` to `v` and leaves every other key alone. */
  lemma {:induction false} AssignLookup(d: Markets, k: string, v: seq<string>)
    ensures forall j :: Lookup(Assign(d, k, v), j) == if j == k then Some(v) else Lookup(d, j)
  {
    if d != [] && d[0].0 != k {
      AssignLookup(d[1..], k, v);
      assert Assign(d, k, v)[1..] == Assign(d[1..], k, v);
    }
  }

  /** `d[k] = v` keeps the key order, appending `k` when it is new. */
  lemma {:induction false} AssignKeys(d: Markets, k: string, v: seq<string>)
    ensures Keys(Assign(d, k, v)) == if k in Keys(d) then Keys(d) else Keys(d) + [k]
  {
    if d != [] && d[0].0 != k {
      AssignKeys(d[1..], k, v);
      assert Assign(d, k, v)[1..] == Assign(d[1..], k, v);
      assert k in Keys(d) <==> k in Keys(d[1..]);
    }
  }

  /** `d[k] = v` never creates a second entry for a key. */
  lemma {:induction false} AssignDistinct(d: Markets, k: string, v: seq<string>)
    requires DistinctKeys(d)
    ensures DistinctKeys(Assign(d, k, v))
  {
    if d != [] && d[0].0 != k {
      AssignDistinct(d[1..], k, v);
      AssignLookup(d[1..], k, v);
      var t := Assign(d[1..], k, v);
      assert Assign(d, k, v) == [d[0]] + t;
      KeysIn(d[1..]);
      KeysIn(t);
      forall j | 0 < j < |[d[0]] + t| ensures ([d[0]] + t)[j].0 != d[0].0 {
        assert t[j - 1].0 in Keys(t);
      }
    }
  }

  /** `d[k] = v` with `k` among `names` keeps the keys distinct and among `names`. */
  lemma AssignWithin(d: Markets, k: string, v: seq<string>, names: seq<string>)
    requires DistinctKeys(d) && k in names
    requires forall x :: x in Keys(d) ==> x in names
    ensures DistinctKeys(Assign(d, k, v))
    ensures forall x :: x in Keys(Assign(d, k, v)) ==> x in names
  {
    AssignDistinct(d, k, v);
    AssignKeys(d, k, v);
  }

  lemma {:induction false} KeysIn(d: Markets)
    ensures |Keys(d)| == |d|
    ensures forall i :: 0 <= i < |d| ==> Keys(d)[i] == d[i].0
    ensures forall k :: k in Keys(d) <==> Lookup(d, k).Some?
  {
    if d != [] {
      KeysIn(d[1..]);
    }
  }

  /** The dictionary after `load_markets` has stored the symbols of each of
      `names`, in order. */
  function Loaded(d: Markets, names: seq<string>, listings: seq<Listing>): Markets
    requires |names| == |listings|
    decreases |names|
  {
    if names == [] then d
    else
      var n := |names| - 1;
      Assign(Loaded(d, names[..n], listings[..n]), names[n], ExchangeSymbols(listings[n]))
  }

  ghost predicate Distinct(names: seq<string>) {
    forall i, j :: 0 <= i < j < |names| ==> names[i] != names[j]
  }

  lemma DistinctPrefix(names: seq<string>, n: nat)
    requires Distinct(names) && n <= |names|
    ensures Distinct(names[..n])
  {
    forall i, j | 0 <= i < j < n ensures names[..n][i] != names[..n][j] {
      assert names[..n][i] == names[i] && names[..n][j] == names[j];
    }
  }

  lemma DistinctLast(names: seq<string>)
    requires Distinct(names) && names != []
    ensures names[|names| - 1] !in names[..|names| - 1]
  {
    var n := |names| - 1;
    forall i | 0 <= i < n ensures names[..n][i] != names[n] {
      assert names[..n][i] == names[i];
    }
  }

  /** Every named exchange ends up with the symbols of its own listing, and
      no other entry changes. */
  lemma {:induction false} LoadedLookup(d: Markets, names: seq<string>, listings: seq<Listing>)
    requires |names| == |listings| && Distinct(names)
    ensures forall i :: 0 <= i < |names| ==> Lookup(Loaded(d, names, listings), names[i]) == Some(ExchangeSymbols(listings[i]))
    ensures forall k :: k !in names ==> Lookup(Loaded(d, names, listings), k) == Lookup(d, k)
    decreases |names|
  {
    if names != [] {
      var n := |names| - 1;
      var prev := Loaded(d, names[..n], listings[..n]);
      var v := ExchangeSymbols(listings[n]);
      LoadedLookup(d, names[..n], listings[..n]);
      AssignLookup(prev, names[n], v);
      forall i | 0 <= i < |names|
        ensures Lookup(Loaded(d, names, listings), names[i]) == Some(ExchangeSymbols(listings[i]))
      {
        if i < n {
          assert names[..n][i] == names[i] && listings[..n][i] == listings[i];
        }
      }
      forall k | k !in names
        ensures Lookup(Loaded(d, names, listings), k) == Lookup(d, k)
      {
        assert k !in names[..n];
      }
    }
  }

  /** Loading never creates a second entry for a key. */
  lemma {:induction false} LoadedDistinct(d: Markets, names: seq<string>, listings: seq<Listing>)
    requires |names| == |listings| && DistinctKeys(d)
    ensures DistinctKeys(Loaded(d, names, listings))
    decreases |names|
  {
    if names != [] {
      var n := |names| - 1;
      LoadedDistinct(d, names[..n], listings[..n]);
      AssignDistinct(Loaded(d, names[..n], listings[..n]), names[n], ExchangeSymbols(listings[n]));
    }
  }

  /** Loading distinct names into an empty dictionary creates the entries
      in the order of the names. */
  lemma {:induction false} LoadedKeys(names: seq<string>, listings: seq<Listing>)
    requires |names| == |listings| && Distinct(names)
    ensures Keys(Loaded([], names, listings)) == names
    decreases |names|
  {
    if names != [] {
      var n := |names| - 1;
      var prev := Loaded([], names[..n], listings[..n]);
      var v := ExchangeSymbols(listings[n]);
      DistinctPrefix(names, n);
      LoadedKeys(names[..n], listings[..n]);
      assert Keys(prev) == names[..n];
      DistinctLast(names);
      assert names[n] !in Keys(prev);
      AssignKeys(prev, names[n], v);
      assert Keys(Assign(prev, names[n], v)) == names[..n] + [names[n]];
      assert Loaded([], names, listings) == Assign(prev, names[n], v);
      assert names == names[..n] + [names[n]];
    }
  }

  // ---------------------------------------------------------------------
  // Candidate pairs and opportunities

  /** A value of a pair record: a number (an exchange's price) or anything else. */
  datatype Field = Num(value: real) | Text(text: string)

  /** A candidate pair: its symbol and its other entries in insertion order. */
  datatype Pair = Pair(symbol: string, fields: seq<(string, Field)>)

  /** An exchange and its price. */
  type Quote = (string, real)

  datatype Opportunity = Opportunity(
    symbol: string,
    buyExchange: string, buyPrice: real,
    sellExchange: string, sellPrice: real,
    profitUsd: real, profitPct: real,
    volume: real)

  /** A pair whose cheapest price is 0 makes the profit division fail. */
  datatype ScanError = ZeroDivision

  /** The two pairs every scan evaluates first. */
  const TEST_PAIRS: seq<Pair> := [
    Pair("SOL", [("kucoin", Num(150.25)), ("bybit", Num(152.80)), ("okx", Num(151.10))]),
    Pair("BNB", [("htx", Num(550.40)), ("gateio", Num(558.20))])
  ]

  /** The numeric entries of a pair, in insertion order. */
  function Prices(fields: seq<(string, Field)>): (ps: seq<Quote>)
    ensures |ps| <= |fields|
  {
    if fields == [] then []
    else (if fields[0].1.Num? then [(fields[0].0, fields[0].1.value)] else []) + Prices(fields[1..])
  }

  /** The kept entries are exactly the numeric ones. */
  lemma {:induction false} PricesSpec(fields: seq<(string, Field)>)
    ensures forall q :: q in Prices(fields) <==> (q.0, Num(q.1)) in fields
  {
    if fields != [] {
      PricesSpec(fields[1..]);
      assert fields == [fields[0]] + fields[1..];
    }
  }

  function PriceOf(q: Quote): real { q.1 }

  /** The sort key of `sorted(..., key=profit_pct, reverse=True)`. */
  function NegPct(o: Opportunity): real { -o.profitPct }

  function ProfitPct(buy: real, sell: real): real
    requires buy != 0.0
  {
    (sell - buy) / buy * 100.0 - FEE_PCT
  }

  function ProfitUsd(volume: real, buy: real, sell: real): real
    requires buy != 0.0
  {
    (volume / buy) * (sell - buy) * PROCEEDS_FRACTION
  }

  /** The dollar figure is the percentage figure, before the fee, applied to
      the volume and scaled by the proceeds fraction. */
  lemma UsdMatchesPct(volume: real, buy: real, sell: real)
    requires buy != 0.0
    ensures ProfitUsd(volume, buy, sell) == volume * (ProfitPct(buy, sell) + FEE_PCT) / 100.0 * PROCEEDS_FRACTION
  {
    var g := (sell - buy) / buy;
    assert ProfitPct(buy, sell) + FEE_PCT == g * 100.0;
    assert (volume / buy) * (sell - buy) == volume * g;
  }

  function UpperChar(c: char): char {
    if 'a' <= c <= 'z' then (c as int - 32) as char else c
  }

  function LowerChar(c: char): char {
    if 'A' <= c <= 'Z' then (c as int + 32) as char else c
  }

  /** Python's `str.capitalize` on ASCII letters. */
  function Capitalize(s: string): (r: string)
    ensures |r| == |s|
    ensures s != [] ==> r[0] == UpperChar(s[0])
    ensures forall i :: 0 < i < |s| ==> r[i] == LowerChar(s[i])
  {
    if s == [] then []
    else [UpperChar(s[0])] + seq(|s| - 1, i requires 0 <= i < |s| - 1 => LowerChar(s[i + 1]))
  }

  /** Python's `s.replace(pat, '')`: removes every non-overlapping
      occurrence of `pat`, scanning left to right. */
  function RemoveAll(s: string, pat: string): (r: string)
    requires pat != []
    ensures |r| <= |s|
    decreases |s|
  {
    if |s| < |pat| then s
    else if s[..|pat|] == pat then RemoveAll(s[|pat|..], pat)
    else [s[0]] + RemoveAll(s[1..], pat)
  }

  /** Everything an opportunity promises about itself. */
  ghost predicate Qualifies(o: Opportunity, minVolume: real, minProfit: real, minPct: real) {
    && o.buyPrice != 0.0
    && o.buyPrice <= o.sellPrice
    && o.profitPct == ProfitPct(o.buyPrice, o.sellPrice)
    && o.profitUsd == ProfitUsd(minVolume, o.buyPrice, o.sellPrice)
    && o.volume == minVolume
    && o.profitUsd >= minProfit
    && o.profitPct >= minPct
  }

  /** The verdict on a pair whose buy and sell quotes are chosen. */
  function Judge(symbol: string, buy: Quote, sell: Quote, minVolume: real, minProfit: real, minPct: real)
    : Result<Option<Opportunity>, ScanError>
  {
    if buy.1 == 0.0 then Failure(ZeroDivision)
    else
      var pct := ProfitPct(buy.1, sell.1);
      var usd := ProfitUsd(minVolume, buy.1, sell.1);
      if usd >= minProfit && pct >= minPct then
        Success(Some(Opportunity(symbol, Capitalize(buy.0), buy.1, Capitalize(sell.0), sell.1, usd, pct, minVolume)))
      else Success(None)
  }

  /** One iteration of the scan loop: the opportunity a pair yields, if any. */
  function Evaluate(p: Pair, minVolume: real, minProfit: real, minPct: real): Result<Option<Opportunity>, ScanError>
  {
    var ps := Prices(p.fields);
    if |ps| < 2 then Success(None)
    else
      var sorted := Sort(ps, PriceOf);
      Judge(p.symbol, sorted[0], sorted[|sorted| - 1], minVolume, minProfit, minPct)
  }

  /** The buy side is the first cheapest quote and the sell side the last
      dearest one; a pair yields an opportunity exactly when it has two
      prices, a non-zero buy price, and both figures clear their thresholds. */
  lemma EvaluateSpec(p: Pair, minVolume: real, minProfit: real, minPct: real)
    ensures var ps := Prices(p.fields);
      |ps| < 2 ==> Evaluate(p, minVolume, minProfit, minPct) == Success(None)
    ensures var ps := Prices(p.fields);
      |ps| >= 2 ==>
        var buy := ps[FirstMinIndex(ps, PriceOf)];
        var sell := ps[LastMaxIndex(ps, PriceOf)];
        && buy.1 <= sell.1
        && Evaluate(p, minVolume, minProfit, minPct) == Judge(p.symbol, buy, sell, minVolume, minProfit, minPct)
        && (Evaluate(p, minVolume, minProfit, minPct).Failure? <==> buy.1 == 0.0)
        && (Evaluate(p, minVolume, minProfit, minPct).Success? && Evaluate(p, minVolume, minProfit, minPct).value.Some?
            <==> buy.1 != 0.0 && ProfitUsd(minVolume, buy.1, sell.1) >= minProfit && ProfitPct(buy.1, sell.1) >= minPct)
  {
    var ps := Prices(p.fields);
    if |ps| >= 2 {
      var i := FirstMinIndex(ps, PriceOf);
      var j := LastMaxIndex(ps, PriceOf);
      SortEnds(ps, PriceOf);
      assert Evaluate(p, minVolume, minProfit, minPct) == Judge(p.symbol, ps[i], ps[j], minVolume, minProfit, minPct);
      JudgeOutcomes(p.symbol, ps[i], ps[j], minVolume, minProfit, minPct);
    }
  }

  /** Which of its three outcomes a verdict has. */
  lemma JudgeOutcomes(symbol: string, buy: Quote, sell: Quote, minVolume: real, minProfit: real, minPct: real)
    ensures Judge(symbol, buy, sell, minVolume, minProfit, minPct).Failure? <==> buy.1 == 0.0
    ensures Judge(symbol, buy, sell, minVolume, minProfit, minPct).Success? && Judge(symbol, buy, sell, minVolume, minProfit, minPct).value.Some?
      <==> buy.1 != 0.0 && ProfitUsd(minVolume, buy.1, sell.1) >= minProfit && ProfitPct(buy.1, sell.1) >= minPct
  {
  }

  /** Every opportunity a pair yields qualifies. */
  lemma EvaluateQualifies(p: Pair, minVolume: real, minProfit: real, minPct: real)
    ensures forall o :: Evaluate(p, minVolume, minProfit, minPct) == Success(Some(o)) ==>
      Qualifies(o, minVolume, minProfit, minPct) && o.symbol == p.symbol
  {
    var ps := Prices(p.fields);
    if |ps| >= 2 {
      SortSorted(ps, PriceOf);
    }
  }

  /** The verdict of each pair, in scan order. */
  function Verdicts(pairs: seq<Pair>, minVolume: real, minProfit: real, minPct: real)
    : (vs: seq<Result<Option<Opportunity>, ScanError>>)
    ensures |vs| == |pairs|
    ensures forall j :: 0 <= j < |pairs| ==> vs[j] == Evaluate(pairs[j], minVolume, minProfit, minPct)
  {
    seq(|pairs|, j requires 0 <= j < |pairs| => Evaluate(pairs[j], minVolume, minProfit, minPct))
  }

  /** The scan loop over a sequence of verdicts: the opportunities found, in
      scan order; the first failure stops the scan. */
  function Gather(vs: seq<Result<Option<Opportunity>, ScanError>>): Result<seq<Opportunity>, ScanError>
    decreases |vs|
  {
    if vs == [] then Success([])
    else
      var n := |vs| - 1;
      match Gather(vs[..n])
      case Failure(e) => Failure(e)
      case Success(found) =>
        match vs[n]
        case Failure(e) => Failure(e)
        case Success(None) => Success(found)
        case Success(Some(o)) => Success(found + [o])
  }

  /** The opportunities `find_arbitrage` collects from `pairs`. */
  function Collect(pairs: seq<Pair>, minVolume: real, minProfit: real, minPct: real): Result<seq<Opportunity>, ScanError> {
    Gather(Verdicts(pairs, minVolume, minProfit, minPct))
  }

  /** The loop fails exactly when some verdict is a failure. */
  lemma {:induction false} GatherFails(vs: seq<Result<Option<Opportunity>, ScanError>>)
    ensures Gather(vs).Failure? <==> exists j :: 0 <= j < |vs| && vs[j].Failure?
    decreases |vs|
  {
    if vs != [] {
      var n := |vs| - 1;
      GatherFails(vs[..n]);
      if Gather(vs[..n]).Failure? {
        var j :| 0 <= j < n && vs[..n][j].Failure?;
        assert vs[j].Failure?;
      }
    }
  }

  /** A successful loop finds exactly the opportunities of its verdicts, at
      most one per verdict. */
  lemma {:induction false} GatherMembers(vs: seq<Result<Option<Opportunity>, ScanError>>)
    ensures Gather(vs).Success? ==>
      && |Gather(vs).value| <= |vs|
      && forall o :: o in Gather(vs).value <==> exists j :: 0 <= j < |vs| && vs[j] == Success(Some(o))
    decreases |vs|
  {
    if vs != [] && Gather(vs).Success? {
      var n := |vs| - 1;
      var init := vs[..n];
      GatherMembers(init);
      assert forall j :: 0 <= j < n ==> init[j] == vs[j];
      var found := Gather(vs).value;
      forall o | exists j :: 0 <= j < |vs| && vs[j] == Success(Some(o))
        ensures o in found
      {
        var j :| 0 <= j < |vs| && vs[j] == Success(Some(o));
        if j < n {
          assert init[j] == Success(Some(o));
        }
      }
    }
  }

  /** Verdicts that yield nothing do not change the outcome. */
  lemma {:induction false} GatherIgnoresNone(vs: seq<Result<Option<Opportunity>, ScanError>>, ws: seq<Result<Option<Opportunity>, ScanError>>)
    requires forall j :: 0 <= j < |ws| ==> ws[j] == Success(None)
    ensures Gather(vs + ws) == Gather(vs)
    decreases |ws|
  {
    if ws == [] {
      assert vs + ws == vs;
    } else {
      var n := |ws| - 1;
      assert (vs + ws)[..|vs + ws| - 1] == vs + ws[..n];
      GatherIgnoresNone(vs, ws[..n]);
    }
  }

  lemma {:induction false} GatherFailurePersists(vs: seq<Result<Option<Opportunity>, ScanError>>, n: nat)
    requires n <= |vs| && Gather(vs[..n]).Failure?
    ensures Gather(vs) == Gather(vs[..n])
    decreases |vs| - n
  {
    if n < |vs| {
      assert vs[..n + 1][..n] == vs[..n];
      GatherFailurePersists(vs, n + 1);
    } else {
      assert vs[..n] == vs;
    }
  }

  /** The scan fails exactly when some pair fails; a successful scan finds
      exactly the opportunities its pairs yield, at most one per pair, and
      each one qualifies. */
  lemma CollectSpec(pairs: seq<Pair>, minVolume: real, minProfit: real, minPct: real)
    ensures Collect(pairs, minVolume, minProfit, minPct).Failure? <==>
      exists j :: 0 <= j < |pairs| && Evaluate(pairs[j], minVolume, minProfit, minPct).Failure?
    ensures Collect(pairs, minVolume, minProfit, minPct).Success? ==>
      var found := Collect(pairs, minVolume, minProfit, minPct).value;
      && |found| <= |pairs|
      && (forall o :: o in found <==>
            exists j :: 0 <= j < |pairs| && Evaluate(pairs[j], minVolume, minProfit, minPct) == Success(Some(o)))
      && (forall o :: o in found ==> Qualifies(o, minVolume, minProfit, minPct))
  {
    var vs := Verdicts(pairs, minVolume, minProfit, minPct);
    GatherFails(vs);
    GatherMembers(vs);
    forall j | 0 <= j < |pairs| {
      EvaluateQualifies(pairs[j], minVolume, minProfit, minPct);
    }
  }

  /** Pairs with fewer than two prices never change the outcome of a scan. */
  lemma CollectIgnoresThinPairs(pairs: seq<Pair>, extra: seq<Pair>, minVolume: real, minProfit: real, minPct: real)
    requires forall p :: p in extra ==> |Prices(p.fields)| < 2
    ensures Collect(pairs + extra, minVolume, minProfit, minPct) == Collect(pairs, minVolume, minProfit, minPct)
  {
    var vs := Verdicts(pairs, minVolume, minProfit, minPct);
    var ws := Verdicts(extra, minVolume, minProfit, minPct);
    assert Verdicts(pairs + extra, minVolume, minProfit, minPct) == vs + ws;
    GatherIgnoresNone(vs, ws);
  }

  /** The scan loop of `find_arbitrage`: evaluates the pairs in order,
      appending each opportunity found, and stops at the first failure. */
  method CollectOpportunities(pairs: seq<Pair>, minVolume: real, minProfit: real, minPct: real)
    returns (r: Result<seq<Opportunity>, ScanError>)
    ensures r == Collect(pairs, minVolume, minProfit, minPct)
  {
    ghost var vs := Verdicts(pairs, minVolume, minProfit, minPct);
    var opportunities: seq<Opportunity> := [];
    var i := 0;
    while i < |pairs|
      invariant 0 <= i <= |pairs|
      invariant Gather(vs[..i]) == Success(opportunities)
    {
      assert vs[..i + 1][..i] == vs[..i];
      var verdict := Evaluate(pairs[i], minVolume, minProfit, minPct);
      if verdict.Failure? {
        assert Gather(vs[..i + 1]) == Failure(verdict.error);
        GatherFailurePersists(vs, i + 1);
        return Failure(verdict.error);
      }
      if verdict.value.Some? {
        opportunities := opportunities + [verdict.value.value];
      }
      i := i + 1;
    }
    assert vs[..i] == vs;
    return Success(opportunities);
  }

  /** `sorted(found, key=profit_pct, reverse=True)[:3]`. */
  function Rank(found: seq<Opportunity>): seq<Opportunity> {
    Take(Sort(found, NegPct), TOP_K)
  }

  /** The ranking keeps the best three by percentage, in non-increasing
      order, drops nothing better than what it keeps, and keeps opportunities
      with equal percentages in scan order. */
  lemma RankSpec(found: seq<Opportunity>)
    ensures |Rank(found)| == Min(|found|, TOP_K)
    ensures forall i, j :: 0 <= i < j < |Rank(found)| ==> Rank(found)[i].profitPct >= Rank(found)[j].profitPct
    ensures multiset(Rank(found)) <= multiset(found)
    ensures forall o :: o in multiset(found) - multiset(Rank(found)) ==>
      forall i :: 0 <= i < |Rank(found)| ==> o.profitPct <= Rank(found)[i].profitPct
    ensures forall k :: Having(Rank(found), NegPct, k) <= Having(found, NegPct, k)
  {
    RankOrdered(found);
    RankDropsWorse(found);
    RankStable(found);
  }

  lemma RankOrdered(found: seq<Opportunity>)
    ensures forall i, j :: 0 <= i < j < |Rank(found)| ==> Rank(found)[i].profitPct >= Rank(found)[j].profitPct
  {
    var sorted := Sort(found, NegPct);
    var r := Rank(found);
    SortSorted(found, NegPct);
    assert r == sorted[..|r|];
    forall i, j | 0 <= i < j < |r| ensures r[i].profitPct >= r[j].profitPct {
      assert NegPct(sorted[i]) <= NegPct(sorted[j]);
    }
  }

  lemma RankDropsWorse(found: seq<Opportunity>)
    ensures multiset(Rank(found)) <= multiset(found)
    ensures forall o :: o in multiset(found) - multiset(Rank(found)) ==>
      forall i :: 0 <= i < |Rank(found)| ==> o.profitPct <= Rank(found)[i].profitPct
  {
    var sorted := Sort(found, NegPct);
    var r := Rank(found);
    var n := |r|;
    SortSorted(found, NegPct);
    assert r == sorted[..n];
    SortedPrefixBest(sorted, n, NegPct);
    forall o | o in multiset(found) - multiset(r)
      ensures forall i :: 0 <= i < n ==> o.profitPct <= r[i].profitPct
    {
      forall i | 0 <= i < n ensures o.profitPct <= r[i].profitPct {
        assert NegPct(r[i]) <= NegPct(o);
      }
    }
  }

  lemma RankStable(found: seq<Opportunity>)
    ensures forall k :: Having(Rank(found), NegPct, k) <= Having(found, NegPct, k)
  {
    var sorted := Sort(found, NegPct);
    var r := Rank(found);
    assert r == sorted[..|r|];
    forall k ensures Having(r, NegPct, k) <= Having(found, NegPct, k) {
      HavingPrefix(sorted, |r|, NegPct, k);
      SortStable(found, NegPct, k);
    }
  }

  /** The result of `find_arbitrage` on a given list of pairs. */
  function Arbitrage(pairs: seq<Pair>, minVolume: real, minProfit: real, minPct: real): Result<seq<Opportunity>, ScanError> {
    match Collect(pairs, minVolume, minProfit, minPct)
    case Failure(e) => Failure(e)
    case Success(found) => Success(Rank(found))
  }

  /** What every successful scan returns: at most three qualifying
      opportunities, in non-increasing order of percentage. */
  lemma ArbitrageSpec(pairs: seq<Pair>, minVolume: real, minProfit: real, minPct: real)
    ensures Arbitrage(pairs, minVolume, minProfit, minPct).Failure? <==>
      exists j :: 0 <= j < |pairs| && Evaluate(pairs[j], minVolume, minProfit, minPct).Failure?
    ensures Arbitrage(pairs, minVolume, minProfit, minPct).Success? ==>
      var r := Arbitrage(pairs, minVolume, minProfit, minPct).value;
      && |r| <= TOP_K
      && (forall o :: o in r ==> Qualifies(o, minVolume, minProfit, minPct))
      && (forall i, j :: 0 <= i < j < |r| ==> r[i].profitPct >= r[j].profitPct)
  {
    CollectSpec(pairs, minVolume, minProfit, minPct);
    var c := Collect(pairs, minVolume, minProfit, minPct);
    if c.Success? {
      RankSpec(c.value);
      forall o | o in Rank(c.value) ensures o in c.value {
        assert o in multiset(Rank(c.value));
      }
    }
  }

  /** The pair one live exchange contributes: its first symbol's price,
      when it has a symbol and the price is not zero. */
  function LivePair(name: string, symbols: seq<string>, ticker: (string, string) -> real, jitter: string -> real)
    : (more: seq<Pair>)
    ensures |more| <= 1
    ensures forall p :: p in more ==> |Prices(p.fields)| == 1
  {
    if symbols != [] && ticker(name, symbols[0]) != 0.0 then
      var p := Pair(RemoveAll(symbols[0], "/USDT"), [(name, Num(ticker(name, symbols[0]) + jitter(name)))]);
      assert Prices(p.fields) == [(name, ticker(name, symbols[0]) + jitter(name))];
      [p]
    else []
  }

  /** The live scan's pairs: for each of the given exchanges that has a
      symbol, one pair with that exchange's (jittered) price of its first
      symbol, unless the ticker fetch gave 0. */
  function RealPairs(d: Markets, ticker: (string, string) -> real, jitter: string -> real): (pairs: seq<Pair>)
    ensures |pairs| <= |d|
    ensures forall p :: p in pairs ==> |Prices(p.fields)| == 1
    decreases |d|
  {
    if d == [] then []
    else
      var n := |d| - 1;
      RealPairs(d[..n], ticker, jitter) + LivePair(d[n].0, d[n].1, ticker, jitter)
  }

  /** One more live exchange appends its own pair, if any. */
  lemma RealPairsStep(d: Markets, i: nat, ticker: (string, string) -> real, jitter: string -> real)
    requires i < |d|
    ensures RealPairs(d[..i + 1], ticker, jitter) == RealPairs(d[..i], ticker, jitter) + LivePair(d[i].0, d[i].1, ticker, jitter)
  {
    assert d[..i + 1][..i] == d[..i];
  }

  /** The live pairs carry one price each, so appending them to the test
      pairs never changes the outcome of the scan. */
  lemma LiveScanIrrelevant(live: seq<Pair>, minVolume: real, minProfit: real, minPct: real)
    requires forall p :: p in live ==> |Prices(p.fields)| < 2
    ensures Arbitrage(TEST_PAIRS + live, minVolume, minProfit, minPct) == Arbitrage(TEST_PAIRS, minVolume, minProfit, minPct)
  {
    CollectIgnoresThinPairs(TEST_PAIRS, live, minVolume, minProfit, minPct);
  }

  /** SOL: bought on KuCoin at 150.25, sold on Bybit at 152.80, about 1.3 %
      after the fee, whatever the volume. */
  lemma SolBelowThreshold(minVolume: real, minProfit: real, minPct: real)
    requires minPct >= 3.0
    ensures var ps := Prices(TEST_PAIRS[0].fields);
      |ps| >= 2 && ps[FirstMinIndex(ps, PriceOf)] == ("kucoin", 150.25) && ps[LastMaxIndex(ps, PriceOf)] == ("bybit", 152.80)
    ensures Evaluate(TEST_PAIRS[0], minVolume, minProfit, minPct) == Success(None)
  {
    var ps := [("kucoin", 150.25), ("bybit", 152.80), ("okx", 151.10)];
    TestQuotes();
    QuoteEnds(ps);
    EvaluateSpec(TEST_PAIRS[0], minVolume, minProfit, minPct);
    assert ProfitPct(150.25, 152.80) < 3.0;
  }

  /** BNB: bought on HTX at 550.40, sold on Gate.io at 558.20, about 1.0 %
      after the fee, whatever the volume. */
  lemma BnbBelowThreshold(minVolume: real, minProfit: real, minPct: real)
    requires minPct >= 3.0
    ensures var ps := Prices(TEST_PAIRS[1].fields);
      |ps| >= 2 && ps[FirstMinIndex(ps, PriceOf)] == ("htx", 550.40) && ps[LastMaxIndex(ps, PriceOf)] == ("gateio", 558.20)
    ensures Evaluate(TEST_PAIRS[1], minVolume, minProfit, minPct) == Success(None)
  {
    var ps := [("htx", 550.40), ("gateio", 558.20)];
    TestQuotes();
    QuoteEnds(ps);
    EvaluateSpec(TEST_PAIRS[1], minVolume, minProfit, minPct);
    assert ProfitPct(550.40, 558.20) < 3.0;
  }

  /** The numeric entries of the two test pairs. */
  lemma TestQuotes()
    ensures Prices(TEST_PAIRS[0].fields) == [("kucoin", 150.25), ("bybit", 152.80), ("okx", 151.10)]
    ensures Prices(TEST_PAIRS[1].fields) == [("htx", 550.40), ("gateio", 558.20)]
  {
  }

  /** When the first quote is the strict minimum and the second the strict
      maximum, they are the ones picked. */
  lemma QuoteEnds(ps: seq<Quote>)
    requires |ps| >= 2
    requires forall j :: 0 < j < |ps| ==> ps[0].1 < ps[j].1 <= ps[1].1
    requires forall j :: 1 < j < |ps| ==> ps[j].1 < ps[1].1
    ensures FirstMinIndex(ps, PriceOf) == 0 && LastMaxIndex(ps, PriceOf) == 1
  {
    var i := FirstMinIndex(ps, PriceOf);
    var k := LastMaxIndex(ps, PriceOf);
    assert PriceOf(ps[i]) <= PriceOf(ps[0]);
    assert PriceOf(ps[1]) <= PriceOf(ps[k]);
  }

  /** With a percentage threshold of 3 % or more (the default is 3 %),
      neither test pair qualifies. */
  lemma TestPairsBelowThreshold(minVolume: real, minProfit: real, minPct: real)
    requires minPct >= 3.0
    ensures Collect(TEST_PAIRS, minVolume, minProfit, minPct) == Success([])
  {
    TestGather(minVolume, minProfit, minPct);
  }

  lemma TestGather(minVolume: real, minProfit: real, minPct: real)
    requires minPct >= 3.0
    ensures Gather(Verdicts(TEST_PAIRS, minVolume, minProfit, minPct)) == Success([])
  {
    var vs := Verdicts(TEST_PAIRS, minVolume, minProfit, minPct);
    TestVerdicts(minVolume, minProfit, minPct);
    assert Gather(vs[..1]) == Success([]) by {
      assert vs[..1][..0] == [];
    }
  }

  lemma TestVerdicts(minVolume: real, minProfit: real, minPct: real)
    requires minPct >= 3.0
    ensures Verdicts(TEST_PAIRS, minVolume, minProfit, minPct)[0] == Success(None)
    ensures Verdicts(TEST_PAIRS, minVolume, minProfit, minPct)[1] == Success(None)
  {
    SolBelowThreshold(minVolume, minProfit, minPct);
    BnbBelowThreshold(minVolume, minProfit, minPct);
  }

  /** Equal prices: the buy side is the first exchange listed with the
      cheapest price and the sell side the last one listed with the dearest. */
  lemma TiePicks(price: real)
    ensures Evaluate(Pair("ETH", [("okx", Num(price)), ("gateio", Num(price))]), 100.0, -1.0, -1.0)
         == Judge("ETH", ("okx", price), ("gateio", price), 100.0, -1.0, -1.0)
  {
    var p := Pair("ETH", [("okx", Num(price)), ("gateio", Num(price))]);
    var ps := Prices(p.fields);
    assert ps == [("okx", price), ("gateio", price)];
    EvaluateSpec(p, 100.0, -1.0, -1.0);
    assert FirstMinIndex(ps, PriceOf) == 0 && LastMaxIndex(ps, PriceOf) == 1;
  }

  /** Equal non-zero prices leave only the negative fee as profit, and the
      exchange names come out capitalized. */
  lemma TieBreakExample(price: real)
    requires price != 0.0
    ensures Evaluate(Pair("ETH", [("okx", Num(price)), ("gateio", Num(price))]), 100.0, -1.0, -1.0)
         == Success(Some(Opportunity("ETH", "Okx", price, "Gateio", price, 0.0, -0.4, 100.0)))
  {
    TiePicks(price);
    assert ProfitPct(price, price) == -0.4;
    assert ProfitUsd(100.0, price, price) == 0.0;
    assert Capitalize("okx") == "Okx";
    assert Capitalize("gateio") == "Gateio";
  }

  // ---------------------------------------------------------------------
  // The scanner object

  class ArbitrageScanner {
    const exchanges: seq<string>
    var markets: Markets

    ghost predicate Valid()
      reads this
    {
      && exchanges == EXCHANGES
      && DistinctKeys(markets)
      && forall k :: k in Keys(markets) ==> k in exchanges
    }

    constructor ()
      ensures Valid() && markets == []
    {
      exchanges := EXCHANGES;
      markets := [];
    }

    /** `load_markets`: stores, for every configured exchange in order, the
        symbols its listing yields, or the backup list when it fails. */
    method LoadMarkets(listings: seq<Listing>)
      requires Valid() && |listings| == |exchanges|
      modifies this
      ensures Valid()
      ensures markets == Loaded(old(markets), exchanges, listings)
      ensures forall i :: 0 <= i < |exchanges| ==> Lookup(markets, exchanges[i]) == Some(ExchangeSymbols(listings[i]))
      ensures old(markets) == [] ==> Keys(markets) == exchanges
    {
      ghost var d := markets;
      var i := 0;
      while i < |exchanges|
        invariant 0 <= i <= |exchanges|
        invariant markets == Loaded(d, exchanges[..i], listings[..i])
        invariant DistinctKeys(markets) && forall k :: k in Keys(markets) ==> k in exchanges
      {
        var symbols := LoadSymbols(listings[i]);
        AssignWithin(markets, exchanges[i], symbols, exchanges);
        markets := Assign(markets, exchanges[i], symbols);
        assert exchanges[..i + 1][..i] == exchanges[..i] && listings[..i + 1][..i] == listings[..i];
        i := i + 1;
      }
      assert exchanges[..i] == exchanges && listings[..i] == listings;
      ExchangesDistinct();
      LoadedLookup(d, exchanges, listings);
      if d == [] {
        LoadedKeys(exchanges, listings);
      }
    }

    /** `_scan_real`: the pairs of the first two entries of `markets`. */
    method ScanReal(ticker: (string, string) -> real, jitter: string -> real) returns (pairs: seq<Pair>)
      requires Valid()
      ensures pairs == RealPairs(Take(markets, LIVE_EXCHANGES), ticker, jitter)
    {
      var live := Take(markets, LIVE_EXCHANGES);
      pairs := [];
      var i := 0;
      while i < |live|
        invariant 0 <= i <= |live|
        invariant pairs == RealPairs(live[..i], ticker, jitter)
      {
        var name := live[i].0;
        var symbols := live[i].1;
        RealPairsStep(live, i, ticker, jitter);
        var more: seq<Pair> := [];
        if symbols != [] {
          var price := ticker(name, symbols[0]);
          if price != 0.0 {
            more := [Pair(RemoveAll(symbols[0], "/USDT"), [(name, Num(price + jitter(name)))])];
          }
        }
        assert more == LivePair(name, symbols, ticker, jitter);
        pairs := pairs + more;
        i := i + 1;
      }
      assert live[..i] == live;
    }

    /** `find_arbitrage`: scans the test pairs and then the live pairs,
        and ranks what qualifies.  The live pairs carry one price each, so
        the outcome is that of the test pairs alone. */
    method FindArbitrage(ticker: (string, string) -> real, jitter: string -> real,
                         minVolume: real := 100.0, minProfit: real := 5.0, minPct: real := 3.0)
      returns (r: Result<seq<Opportunity>, ScanError>)
      requires Valid()
      ensures r == Arbitrage(TEST_PAIRS + RealPairs(Take(markets, LIVE_EXCHANGES), ticker, jitter), minVolume, minProfit, minPct)
      ensures r == Arbitrage(TEST_PAIRS, minVolume, minProfit, minPct)
      ensures r.Success? ==>
        && |r.value| <= TOP_K
        && (forall o :: o in r.value ==> Qualifies(o, minVolume, minProfit, minPct))
        && (forall i, j :: 0 <= i < j < |r.value| ==> r.value[i].profitPct >= r.value[j].profitPct)
      ensures minPct >= 3.0 ==> r == Success([])
    {
      var live := ScanReal(ticker, jitter);
      var found := CollectOpportunities(TEST_PAIRS + live, minVolume, minProfit, minPct);
      r := match found
        case Failure(e) => Failure(e)
        case Success(opportunities) => Success(Rank(opportunities));
      LiveScanIrrelevant(live, minVolume, minProfit, minPct);
      ArbitrageSpec(TEST_PAIRS, minVolume, minProfit, minPct);
      if minPct >= 3.0 {
        TestPairsBelowThreshold(minVolume, minProfit, minPct);
      }
    }
  }
}
