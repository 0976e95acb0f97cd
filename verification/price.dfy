/** Quote lookup in the browser: each requested symbol is sanitised, fiat symbols
    are priced at 1, every other symbol is looked up through a list of public
    proxies in order (the Taiwan exchange for `.TW` symbols, the Yahoo chart
    otherwise), and a `.TW` symbol the listed board does not price is retried on
    the OTC board. Also the USD/TWD rate with its fixed fallback. */
module Price {
  import opened Base

  datatype PriceResult = PriceResult(symbol: string, price: real)

  /** `msgArray[0]` of a Taiwan exchange reply; "" stands for an absent or empty field. */
  datatype TwseQuote = TwseQuote(z: string, b: string, y: string)

  /** What the lookup reads of a decoded JSON document: `contents` ("" when absent
      or empty), `msgArray[0]` and `chart.result[0].meta.regularMarketPrice`. */
  datatype Doc = Doc(contents: string, quote: Option<TwseQuote>, chartPrice: Option<Number>)

  /** What `fetch` and `res.text()` gave: a throw, or the status flag and the body. */
  datatype Reply = Threw | Reply(ok: bool, text: string)

  /** The outside world of one lookup pass: the reply each proxy gives for a
      target URL, `JSON.parse` (None when it throws, or when the document is `null`,
      whose fields cannot be read; any other document that is not an object reads
      as `Doc("", None, None)`), `parseFloat`, and `Date.now()`. */
  datatype Web = Web(
    fetch: (string, string) -> Reply,
    parse: string -> Option<Doc>,
    parseFloat: string -> Number,
    now: nat)

  /** The proxy prefixes, in the order they are tried. */
  const Proxies: seq<string> := ["https://corsproxy.io/?", "https://api.allorigins.win/raw?url="]

  /** The rate used whenever the USD/TWD lookup fails. */
  const FallbackRate: real := 32.5

  // ------------------------------------------------------------ symbol rules

  /** `symbol.trim().split(/\s+/)[0]`. */
  function Sanitize(symbol: string): (s: string)
    ensures s == LeadingWord(Trim(symbol))
  {
    SplitSpace(Trim(symbol))[0]
  }

  /** The sanitised symbol is the first white-space-delimited token of the trimmed
      input: a non-empty prefix with no white space, unless the input is blank. */
  lemma SanitizeFirstToken(symbol: string)
    ensures StartsWith(Trim(symbol), Sanitize(symbol)) && NoSpace(Sanitize(symbol))
    ensures Trim(symbol) != [] <==> Sanitize(symbol) != []
  {
  }

  /** Sanitising a sanitised symbol changes nothing. */
  lemma SanitizeIdempotent(symbol: string)
    ensures Sanitize(Sanitize(symbol)) == Sanitize(symbol)
  {
    var s := Sanitize(symbol);
    NoSpaceTrim(s);
    NoSpaceLeadingWord(s);
  }

  lemma NoSpaceTrim(s: string)
    requires NoSpace(s)
    ensures Trim(s) == s
  {
    assert TrimStart(s) == s;
  }

  lemma {:induction false} NoSpaceLeadingWord(s: string)
    requires NoSpace(s)
    ensures LeadingWord(s) == s
  {
    if s != [] {
      NoSpaceLeadingWord(s[1..]);
    }
  }

  predicate IsFiat(s: string) {
    s == "USD" || s == "USD-USD" || s == "TWD"
  }

  /** The Yahoo symbol of a sanitised symbol: bare BTC, ETH and SOL are quoted against USD. */
  function YahooSymbol(s: string): (y: string)
    ensures s in {"BTC", "ETH", "SOL"} ==> y == s + "-USD"
    ensures s !in {"BTC", "ETH", "SOL"} ==> y == s
  {
    if s == "BTC" then "BTC-USD"
    else if s == "ETH" then "ETH-USD"
    else if s == "SOL" then "SOL-USD"
    else s
  }

  /** Where a quote is looked up: a board (`tse` or `otc`) of the Taiwan exchange, or the Yahoo chart. */
  datatype Endpoint = Twse(board: string, code: string) | Chart(symbol: string)

  /** `s.replace(".TW", "")`: the first `.TW` removed. */
  function TwseCode(s: string): string {
    ReplaceFirst(s, ".TW", "")
  }

  function TargetEndpoint(s: string): Endpoint {
    if EndsWith(s, ".TW") then Twse("tse", TwseCode(s)) else Chart(YahooSymbol(s))
  }

  function Url(e: Endpoint, stamp: nat): string {
    match e
    case Twse(board, code) =>
      "https://mis.twse.com.tw/stock/api/getStockInfo.jsp?ex_ch=" + board + "_" + code
        + ".tw&json=1&_=" + NatToString(stamp)
    case Chart(symbol) =>
      "https://query2.finance.yahoo.com/v8/finance/chart/" + symbol
        + "?interval=1m&range=1d&_=" + NatToString(stamp)
  }

  /** A `.TW` symbol is looked up on the listed board under its code, which is the
      symbol without the suffix when `.TW` occurs only at its end; any other symbol
      is looked up on the Yahoo chart under its Yahoo symbol. */
  lemma TargetEndpointChoice(s: string)
    ensures EndsWith(s, ".TW") ==> TargetEndpoint(s) == Twse("tse", TwseCode(s))
    ensures !EndsWith(s, ".TW") ==> TargetEndpoint(s) == Chart(YahooSymbol(s))
    ensures EndsWith(s, ".TW") && (forall i :: 0 <= i < |s| - 3 ==> !StartsWith(s[i..], ".TW")) ==>
      TwseCode(s) + ".TW" == s
  {
    if EndsWith(s, ".TW") && (forall i :: 0 <= i < |s| - 3 ==> !StartsWith(s[i..], ".TW")) {
      var stem := s[..|s| - 3];
      assert stem + ".TW" == s;
      ReplaceFirstSuffix(stem, ".TW");
    }
  }

  // ------------------------------------------------------------- price rules

  /** `b.split('_')[0]`: `b` up to its first underscore. */
  function BeforeUnderscore(b: string): (r: string)
    ensures StartsWith(b, r) && !Contains(r, '_')
    ensures |r| < |b| ==> b[|r|] == '_'
  {
    if b == [] || b[0] == '_' then [] else [b[0]] + BeforeUnderscore(b[1..])
  }

  /** The text a Taiwan quote is priced from: `z` when it is there and not "-",
      else the best bid before its first `_`, else yesterday's close `y`. */
  function TwsePriceText(q: TwseQuote): string {
    if q.z != "" && q.z != "-" then q.z
    else
      var bid := BeforeUnderscore(q.b);
      if bid != "" then bid else q.y
  }

  lemma TwsePriceTextPriority(q: TwseQuote)
    ensures q.z != "" && q.z != "-" ==> TwsePriceText(q) == q.z
    ensures (q.z == "" || q.z == "-") && BeforeUnderscore(q.b) != "" ==>
      TwsePriceText(q) == BeforeUnderscore(q.b) && StartsWith(q.b, TwsePriceText(q))
    ensures (q.z == "" || q.z == "-") && BeforeUnderscore(q.b) == "" ==> TwsePriceText(q) == q.y
    ensures TwsePriceText(q) != "-" || q.y == "-" || StartsWith(q.b, "-")
  {
  }

  /** The two quotes of the lookup's own examples: a traded price wins over the
      bid, and a "-" trade falls back to the bid before its `_`. */
  lemma TwsePriceTextExamples()
    ensures TwsePriceText(TwseQuote("600.0", "599.0_10", "598.0")) == "600.0"
    ensures TwsePriceText(TwseQuote("-", "599.0_10", "598.0")) == "599.0"
  {
    BidOfExample();
  }

  lemma BidOfExample()
    ensures BeforeUnderscore("599.0_10") == "599.0"
  {
    var w, t := "599.0", "10";
    assert w[0] != '_' && w[1] != '_' && w[2] != '_' && w[3] != '_' && w[4] != '_';
    assert "599.0_10" == w + "_" + t;
    BeforeUnderscoreOf(w, t);
  }

  /** The bid is cut at its first `_`: a word without `_`, then `_` and anything. */
  lemma {:induction false} BeforeUnderscoreOf(w: string, t: string)
    requires forall i :: 0 <= i < |w| ==> w[i] != '_'
    ensures BeforeUnderscore(w + "_" + t) == w
  {
    if w != [] {
      assert forall i :: 0 <= i < |w[1..]| ==> w[1..][i] == w[i + 1];
      BeforeUnderscoreOf(w[1..], t);
      assert (w + "_" + t)[1..] == w[1..] + "_" + t;
      assert w == [w[0]] + w[1..];
    } else {
      assert w + "_" + t == "_" + t;
    }
  }

  /** `parseFloat(text) || 0`, accepted only when positive. */
  function TwsePrice(q: TwseQuote, web: Web): (p: Option<real>)
    ensures p.Some? ==> p.value > 0.0 && web.parseFloat(TwsePriceText(q)) == Num(p.value)
    ensures web.parseFloat(TwsePriceText(q)).Num? && web.parseFloat(TwsePriceText(q)).value > 0.0 ==>
      p == Some(web.parseFloat(TwsePriceText(q)).value)
  {
    var p := OrZero(web.parseFloat(TwsePriceText(q)));
    if p > 0.0 then Some(p) else None
  }

  /** The two kinds of attempt: the first lookup (Taiwan quote or chart), and the OTC retry. */
  datatype Stage = Main(taiwan: bool) | Otc

  /** One proxy attempt. The first lookup skips a reply that threw, is not ok, or
      does not parse (the fallback re-parse of the same text throws again); the OTC
      retry reads any reply and unwraps a `contents` field once. */
  function Attempt(stage: Stage, reply: Reply, web: Web): (p: Option<real>)
    ensures p.Some? ==> p.value != 0.0
    ensures p.Some? ==> reply.Reply? && web.parse(reply.text).Some?
    ensures p.Some? && stage.Main? ==> reply.Reply? && reply.ok
    // an accepted Taiwan reply is priced by its first quote, and only by it
    ensures stage == Main(true) && reply.Reply? && reply.ok && web.parse(reply.text).Some? ==>
      var doc := web.parse(reply.text).value;
      p == if doc.quote.Some? then TwsePrice(doc.quote.value, web) else None
    // an accepted chart reply gives its market price when that is a non-zero number
    ensures stage == Main(false) && reply.Reply? && reply.ok && web.parse(reply.text).Some? ==>
      var price := web.parse(reply.text).value.chartPrice;
      p == if price.Some? && Truthy(price.value) then Some(price.value.value) else None
    // the OTC retry prices the quote of the document, or of its unwrapped `contents`
    ensures stage.Otc? && reply.Reply? && web.parse(reply.text).Some? ==>
      var doc := web.parse(reply.text).value;
      doc.contents == "" ==> p == if doc.quote.Some? then TwsePrice(doc.quote.value, web) else None
    ensures stage.Otc? && reply.Reply? && web.parse(reply.text).Some? ==>
      var doc := web.parse(reply.text).value;
      var inner := web.parse(doc.contents);
      doc.contents != "" ==>
        p == if inner.Some? && inner.value.quote.Some? then TwsePrice(inner.value.quote.value, web) else None
  {
    if reply.Threw? then None
    else
      match web.parse(reply.text)
      case None => None
      case Some(doc) =>
        match stage
        case Main(taiwan) =>
          if !reply.ok then None
          else if taiwan then (if doc.quote.Some? then TwsePrice(doc.quote.value, web) else None)
          else if doc.chartPrice.Some? && Truthy(doc.chartPrice.value) then Some(doc.chartPrice.value.value)
          else None
        case Otc =>
          var inner := if doc.contents != "" then web.parse(doc.contents) else Some(doc);
          if inner.Some? && inner.value.quote.Some? then TwsePrice(inner.value.quote.value, web) else None
  }

  /** The proxies tried in order until one attempt gives a price. */
  function FirstPriced(proxies: seq<string>, url: string, stage: Stage, web: Web): Option<real> {
    if proxies == [] then None
    else
      var p := Attempt(stage, web.fetch(proxies[0], url), web);
      if p.Some? then p else FirstPriced(proxies[1..], url, stage, web)
  }

  /** The price found is that of the first proxy whose attempt succeeds; every
      proxy before it failed, and no price is found only when every proxy failed. */
  lemma {:induction false} FirstPricedStopsAtFirst(proxies: seq<string>, url: string, stage: Stage, web: Web)
    ensures FirstPriced(proxies, url, stage, web).None? <==>
      forall i :: 0 <= i < |proxies| ==> Attempt(stage, web.fetch(proxies[i], url), web).None?
    ensures FirstPriced(proxies, url, stage, web).Some? ==>
      exists i :: 0 <= i < |proxies|
        && Attempt(stage, web.fetch(proxies[i], url), web) == FirstPriced(proxies, url, stage, web)
        && forall j :: 0 <= j < i ==> Attempt(stage, web.fetch(proxies[j], url), web).None?
  {
    if proxies != [] {
      FirstPricedStopsAtFirst(proxies[1..], url, stage, web);
      var rest := proxies[1..];
      if Attempt(stage, web.fetch(proxies[0], url), web).None? {
        assert forall i :: 0 <= i < |rest| ==> rest[i] == proxies[i + 1];
        if FirstPriced(proxies, url, stage, web).Some? {
          var i :| 0 <= i < |rest|
            && Attempt(stage, web.fetch(rest[i], url), web) == FirstPriced(rest, url, stage, web)
            && forall j :: 0 <= j < i ==> Attempt(stage, web.fetch(rest[j], url), web).None?;
          assert forall j :: 0 <= j < i + 1 ==> Attempt(stage, web.fetch(proxies[j], url), web).None? by {
            forall j | 0 <= j < i + 1 ensures Attempt(stage, web.fetch(proxies[j], url), web).None? {
              if j > 0 { assert proxies[j] == rest[j - 1]; }
            }
          }
          assert proxies[i + 1] == rest[i];
        }
      }
    }
  }

  /** The proxy loop of one lookup: stops at the first attempt that gives a price. */
  method TryProxies(url: string, stage: Stage, web: Web) returns (p: Option<real>)
    ensures p == FirstPriced(Proxies, url, stage, web)
  {
    var i := 0;
    while i < |Proxies|
      invariant 0 <= i <= |Proxies|
      invariant FirstPriced(Proxies, url, stage, web) == FirstPriced(Proxies[i..], url, stage, web)
    {
      var got := Attempt(stage, web.fetch(Proxies[i], url), web);
      if got.Some? {
        return got;
      }
      assert Proxies[i..][1..] == Proxies[i + 1..];
      i := i + 1;
    }
    p := None;
  }

  // ------------------------------------------------------------- the lookup

  /** The price one requested symbol ends with, if any. */
  function QuoteFor(symbol: string, web: Web): Option<real> {
    var s := Sanitize(symbol);
    if IsFiat(s) then Some(1.0)
    else
      var taiwan := EndsWith(s, ".TW");
      var first := FirstPriced(Proxies, Url(TargetEndpoint(s), web.now), Main(taiwan), web);
      if first.Some? || !taiwan then first
      else FirstPriced(Proxies, Url(Twse("otc", TwseCode(s)), web.now), Otc, web)
  }

  /** The results of a lookup pass: one per priced symbol, in request order,
      under the symbol as requested. */
  function Collect(symbols: seq<string>, quote: string -> Option<real>): seq<PriceResult> {
    if symbols == [] then []
    else
      var last := symbols[|symbols| - 1];
      var q := quote(last);
      Collect(symbols[..|symbols| - 1], quote) + (if q.Some? then [PriceResult(last, q.value)] else [])
  }

  function Quotes(web: Web): string -> Option<real> {
    s => QuoteFor(s, web)
  }

  /** The results of `fetchPricesWeb`. */
  function WebPrices(symbols: seq<string>, web: Web): seq<PriceResult> {
    Collect(symbols, Quotes(web))
  }

  /** A fiat symbol is priced at 1 whatever the network does. */
  lemma FiatNeedsNoFetch(symbol: string, web: Web, other: Web)
    requires IsFiat(Sanitize(symbol))
    ensures QuoteFor(symbol, web) == QuoteFor(symbol, other) == Some(1.0)
  {
  }

  /** A symbol that is neither fiat nor `.TW` is priced from the Yahoo chart
      under its Yahoo symbol only; the OTC board is never consulted for it. */
  lemma NonTaiwanUsesChartOnly(symbol: string, web: Web)
    requires !IsFiat(Sanitize(symbol)) && !EndsWith(Sanitize(symbol), ".TW")
    ensures QuoteFor(symbol, web) ==
      FirstPriced(Proxies, Url(Chart(YahooSymbol(Sanitize(symbol))), web.now), Main(false), web)
  {
  }

  /** The OTC board is consulted for a `.TW` symbol only when the listed board gave no price. */
  lemma TaiwanOtcOnlyAsRetry(symbol: string, web: Web)
    requires !IsFiat(Sanitize(symbol)) && EndsWith(Sanitize(symbol), ".TW")
    ensures var s := Sanitize(symbol);
      var listed := FirstPriced(Proxies, Url(Twse("tse", TwseCode(s)), web.now), Main(true), web);
      QuoteFor(symbol, web) ==
        if listed.Some? then listed
        else FirstPriced(Proxies, Url(Twse("otc", TwseCode(s)), web.now), Otc, web)
  {
  }

  /** `xs` is `ys` with some elements left out, order kept. */
  ghost predicate Subsequence(xs: seq<string>, ys: seq<string>)
    decreases |ys|
  {
    if xs == [] then true
    else if ys == [] then false
    else
      || (xs[|xs| - 1] == ys[|ys| - 1] && Subsequence(xs[..|xs| - 1], ys[..|ys| - 1]))
      || Subsequence(xs, ys[..|ys| - 1])
  }

  function SymbolsOf(rs: seq<PriceResult>): (ss: seq<string>)
    ensures |ss| == |rs| && forall k :: 0 <= k < |rs| ==> ss[k] == rs[k].symbol
  {
    seq(|rs|, k requires 0 <= k < |rs| => rs[k].symbol)
  }

  /** The output keeps request order under the requested symbols, has at most one
      result per requested symbol, and holds exactly the symbols that were priced,
      each with its price. */
  lemma {:induction false} CollectShape(symbols: seq<string>, quote: string -> Option<real>)
    ensures Subsequence(SymbolsOf(Collect(symbols, quote)), symbols)
    ensures forall k :: 0 <= k < |Collect(symbols, quote)| ==>
      quote(Collect(symbols, quote)[k].symbol) == Some(Collect(symbols, quote)[k].price)
    ensures forall i :: 0 <= i < |symbols| && quote(symbols[i]).Some? ==>
      PriceResult(symbols[i], quote(symbols[i]).value) in Collect(symbols, quote)
  {
    if symbols != [] {
      var init := symbols[..|symbols| - 1];
      var last := symbols[|symbols| - 1];
      CollectShape(init, quote);
      var before := Collect(init, quote);
      var after := Collect(symbols, quote);
      if quote(last).Some? {
        assert SymbolsOf(after)[..|SymbolsOf(after)| - 1] == SymbolsOf(before);
      } else {
        assert SymbolsOf(after) == SymbolsOf(before);
      }
      forall i | 0 <= i < |symbols| && quote(symbols[i]).Some?
        ensures PriceResult(symbols[i], quote(symbols[i]).value) in after
      {
        if i < |init| { assert symbols[i] == init[i]; }
      }
    }
  }

  /** One symbol of `fetchPricesWeb`: fiat pass-through, the first lookup, and
      the OTC retry for a `.TW` symbol the first lookup did not price. */
  method LookUp(symbol: string, web: Web) returns (price: Option<real>)
    ensures price == QuoteFor(symbol, web)
  {
    var sanitized := Sanitize(symbol);
    if IsFiat(sanitized) {
      return Some(1.0);
    }
    var taiwan := EndsWith(sanitized, ".TW");
    price := TryProxies(Url(TargetEndpoint(sanitized), web.now), Main(taiwan), web);
    if price.None? && taiwan {
      price := TryProxies(Url(Twse("otc", TwseCode(sanitized)), web.now), Otc, web);
    }
  }

  /** `fetchPricesWeb(symbols)`: the nested symbol and proxy loops, with the
      `fetched` flag standing for a price found by the first lookup. */
  method FetchPricesWeb(symbols: seq<string>, web: Web) returns (results: seq<PriceResult>)
    ensures results == WebPrices(symbols, web)
  {
    results := [];
    for i := 0 to |symbols|
      invariant results == Collect(symbols[..i], Quotes(web))
    {
      assert symbols[..i + 1][..i] == symbols[..i];
      var price := LookUp(symbols[i], web);
      if price.Some? {
        results := results + [PriceResult(symbols[i], price.value)];
      }
    }
    assert symbols[..|symbols|] == symbols;
  }

  /** `fetchPrices(symbols)`: nothing is fetched for an empty request; in the
      browser the web lookup answers, in the desktop shell the native command
      does (`invoked`), and a failed command gives no prices. */
  method FetchPrices(symbols: seq<string>, desktop: bool, web: Web, invoked: Result<seq<PriceResult>>)
    returns (results: seq<PriceResult>)
    ensures symbols == [] ==> results == []
    ensures symbols != [] && !desktop ==> results == WebPrices(symbols, web)
    ensures symbols != [] && desktop ==> results == if invoked.Ok? then invoked.value else []
  {
    if |symbols| == 0 {
      return [];
    }
    if !desktop {
      results := FetchPricesWeb(symbols, web);
    } else if invoked.Ok? {
      results := invoked.value;
    } else {
      results := [];
    }
  }

  /** `fetchExchangeRate()`: in the browser, `rates.TWD` of the rate service when it
      is a non-zero number, else the fallback; in the desktop shell, the native
      command's rate, or the fallback when it fails. `rates` is None when the
      request or its decoding threw. */
  function ExchangeRate(desktop: bool, rates: Option<Option<Number>>, invoked: Result<real>): (rate: real)
    ensures !desktop ==> rate != 0.0
    ensures !desktop && (rates.None? || rates.value.None?) ==> rate == FallbackRate
    ensures !desktop && rates.Some? && rates.value.Some? && Truthy(rates.value.value) ==>
      rate == rates.value.value.value
    ensures !desktop && rates.Some? && rates.value.Some? && !Truthy(rates.value.value) ==>
      rate == FallbackRate
    ensures desktop ==> rate == if invoked.Ok? then invoked.value else FallbackRate
  {
    if !desktop then
      if rates.Some? && rates.value.Some? && Truthy(rates.value.value) then rates.value.value.value
      else FallbackRate
    else if invoked.Ok? then invoked.value
    else FallbackRate
  }
}
