/** Symbol search for the add-asset form: Taiwan exchange suggestions and Yahoo
    quotes shaped into search results, duplicates by symbol dropped (first one
    kept), then a fuzzy ranking, or the first ten unique results when the ranking
    finds nothing. */
module Search {
  import opened Base
  import opened Database

  /** The `type` of a search result. */
  datatype Kind = Stock | Coin

  datatype SearchResult = SearchResult(symbol: string, name: string, market: Market, kind: Kind)

  // ------------------------------------------------------------- Taiwan search

  /** One suggestion, "<code> <name words>": the code with ".TW" is the symbol,
      the remaining words joined by single spaces are the name. */
  function TwResult(suggestion: string): SearchResult {
    var parts := SplitSpace(Trim(suggestion));
    SearchResult(parts[0] + ".TW", Join(parts[1..], " "), TW, Stock)
  }

  /** `searchTW`: `suggestions` is None when the request or its decoding threw,
      and [] when the answer has no suggestions. */
  function TwResults(suggestions: Option<seq<string>>): (r: seq<SearchResult>)
    ensures suggestions.None? ==> r == []
    ensures suggestions.Some? ==>
      && |r| == |suggestions.value|
      && forall i :: 0 <= i < |r| ==> r[i] == TwResult(suggestions.value[i])
  {
    if suggestions.None? then []
    else seq(|suggestions.value|, i requires 0 <= i < |suggestions.value| => TwResult(suggestions.value[i]))
  }

  lemma {:induction false} LeadingWordOfWord(w: string, s: string)
    requires NoSpace(w) && (s == [] || IsSpace(s[0]))
    ensures LeadingWord(w + s) == w
  {
    if w != [] {
      assert (w + s)[1..] == w[1..] + s;
      LeadingWordOfWord(w[1..], s);
      assert w == [w[0]] + w[1..];
    } else {
      assert w + s == s;
    }
  }

  /** A word followed by one space and a text starting with a non-space: the
      split gives the word, then the split of the text. */
  lemma SplitSpaceStep(w: string, t: string)
    requires NoSpace(w) && t != [] && !IsSpace(t[0])
    ensures SplitSpace(w + " " + t) == [w] + SplitSpace(t)
  {
    var s := w + " " + t;
    assert s == w + (" " + t);
    LeadingWordOfWord(w, " " + t);
    assert s[|w|..] == " " + t;
    assert (" " + t)[1..] == t;
    assert TrimStart(" " + t) == TrimStart(t) == t;
  }

  /** A single word splits into itself. */
  lemma SplitSpaceWord(w: string)
    requires NoSpace(w)
    ensures SplitSpace(w) == [w]
  {
    LeadingWordOfWord(w, []);
    assert w + [] == w;
  }

  lemma {:induction false} JoinStartsWithFirst(ws: seq<string>)
    requires |ws| > 0
    ensures StartsWith(Join(ws, " "), ws[0])
  {
  }

  /** Words joined by single spaces split back into the same words. */
  lemma {:induction false} SplitJoin(ws: seq<string>)
    requires |ws| > 0 && Words(ws)
    ensures SplitSpace(Join(ws, " ")) == ws
    decreases |ws|
  {
    if |ws| == 1 {
      SplitSpaceWord(ws[0]);
    } else {
      var tail := Join(ws[1..], " ");
      JoinStartsWithFirst(ws[1..]);
      assert tail[0] == ws[1][0];
      SplitSpaceStep(ws[0], tail);
      assert Words(ws[1..]);
      SplitJoin(ws[1..]);
      assert ws == [ws[0]] + ws[1..];
    }
  }

  /** A suggestion gives the symbol "<first word>.TW" and a name made of the
      remaining words: splitting the name again gives exactly those words, none
      empty, and no white space survives in either; market TW, type stock. */
  lemma TwResultTokens(suggestion: string)
    ensures var r := TwResult(suggestion);
      var words := SplitSpace(Trim(suggestion));
      && r.symbol == LeadingWord(Trim(suggestion)) + ".TW" && NoSpace(words[0])
      && r.market == TW && r.kind == Stock
      && (|words| == 1 ==> r.name == [])
      && (|words| > 1 ==> Words(words) && SplitSpace(r.name) == words[1..])
      && (Trim(suggestion) != [] ==> words[0] != [])
  {
    var t := Trim(suggestion);
    var words := SplitSpace(t);
    if t != [] {
      SplitTrimmedWords(t);
      if |words| > 1 {
        var rest := words[1..];
        assert Words(rest) by {
          forall k | 0 <= k < |rest| ensures rest[k] != [] && NoSpace(rest[k]) {
            assert rest[k] == words[k + 1];
          }
        }
        SplitJoin(rest);
      }
    }
  }

  /** A suggestion of a code, one space and a one-word name (such as "2330 台積電")
      becomes the code with ".TW", named by that word. */
  lemma TwResultOfCodeAndName(code: string, name: string)
    requires Words([code, name])
    ensures TwResult(code + " " + name) == SearchResult(code + ".TW", name, TW, Stock)
  {
    var s := code + " " + name;
    assert [code, name][0] == code && [code, name][1] == name;
    assert code != [] && NoSpace(code) && name != [] && NoSpace(name);
    assert s[0] == code[0] && s[|s| - 1] == name[|name| - 1];
    TrimOfTrimmed(s);
    SplitSpaceStep(code, name);
    SplitSpaceWord(name);
    var parts := SplitSpace(s);
    assert parts == [code, name];
    assert parts[1..] == [name];
  }

  // -------------------------------------------------------------- Yahoo search

  /** A Yahoo search quote; "" stands for an absent field. */
  datatype Quote = Quote(symbol: string, quoteType: string, shortname: string, longname: string)

  predicate Listed(q: Quote) {
    q.quoteType == "EQUITY" || q.quoteType == "CRYPTOCURRENCY" || q.quoteType == "ETF"
  }

  /** The result a kept quote becomes. The market asked for is not used: the
      market is always inferred from the symbol and the quote type. */
  function YahooResult(q: Quote, market: Market): SearchResult {
    var kind := if q.quoteType == "CRYPTOCURRENCY" then Coin else Stock;
    var detected := if EndsWith(q.symbol, ".TW") then TW else if kind == Coin then Crypto else US;
    var name := if q.shortname != "" then q.shortname else if q.longname != "" then q.longname else q.symbol;
    SearchResult(q.symbol, name, detected, kind)
  }

  /** The quotes of a listed type, in order. */
  function ListedQuotes(quotes: seq<Quote>): (r: seq<Quote>)
    ensures |r| <= |quotes|
  {
    if quotes == [] then []
    else
      var init := ListedQuotes(quotes[..|quotes| - 1]);
      var last := quotes[|quotes| - 1];
      if Listed(last) then init + [last] else init
  }

  /** A quote is kept exactly when it is of a listed type. */
  lemma {:induction false} ListedQuotesMembers(quotes: seq<Quote>, q: Quote)
    ensures q in ListedQuotes(quotes) <==> q in quotes && Listed(q)
  {
    if quotes != [] {
      var init := quotes[..|quotes| - 1];
      ListedQuotesMembers(init, q);
      assert quotes == init + [quotes[|quotes| - 1]];
    }
  }

  /** `searchYahoo`: `quotes` is None when the request or its decoding threw, and
      [] when the answer has no quotes. */
  function YahooResults(quotes: Option<seq<Quote>>, market: Market): seq<SearchResult> {
    if quotes.None? then []
    else
      var kept := ListedQuotes(quotes.value);
      seq(|kept|, i requires 0 <= i < |kept| => YahooResult(kept[i], market))
  }

  /** Only equities, cryptocurrencies and ETFs are kept, one result each, in order;
      the type is crypto exactly for a cryptocurrency; the market is TW for a
      ".TW" symbol, else Crypto for a cryptocurrency, else US, whatever market was
      asked for; the name is the short name, else the long name, else the symbol. */
  lemma YahooResultsShape(quotes: seq<Quote>, market: Market, market': Market)
    ensures var r := YahooResults(Some(quotes), market);
      && r == YahooResults(Some(quotes), market')
      && |r| == |ListedQuotes(quotes)| <= |quotes|
      && (forall q :: q in quotes && Listed(q) ==> exists k :: 0 <= k < |r| && r[k].symbol == q.symbol)
      && forall k :: 0 <= k < |r| ==>
           var q := ListedQuotes(quotes)[k];
           && q in quotes && Listed(q) && r[k].symbol == q.symbol
           && (r[k].kind == Coin <==> q.quoteType == "CRYPTOCURRENCY")
           && r[k].market == (if EndsWith(q.symbol, ".TW") then TW
                              else if q.quoteType == "CRYPTOCURRENCY" then Crypto else US)
           && r[k].name == (if q.shortname != "" then q.shortname
                            else if q.longname != "" then q.longname else q.symbol)
  {
    var kept := ListedQuotes(quotes);
    var r := YahooResults(Some(quotes), market);
    forall k | 0 <= k < |r| ensures kept[k] in quotes && Listed(kept[k]) {
      ListedQuotesMembers(quotes, kept[k]);
    }
    forall q | q in quotes && Listed(q) ensures exists k :: 0 <= k < |r| && r[k].symbol == q.symbol {
      ListedQuotesMembers(quotes, q);
      var k :| 0 <= k < |kept| && kept[k] == q;
      assert r[k].symbol == q.symbol;
    }
    YahooResultsIgnoreMarket(quotes, market, market');
  }

  lemma YahooResultsIgnoreMarket(quotes: seq<Quote>, market: Market, market': Market)
    ensures YahooResults(Some(quotes), market) == YahooResults(Some(quotes), market')
  {
    var kept := ListedQuotes(quotes);
    assert forall i :: 0 <= i < |kept| ==> YahooResult(kept[i], market) == YahooResult(kept[i], market');
  }

  /** A failed Yahoo search contributes nothing. */
  lemma FailedSearchesAreEmpty(market: Market)
    ensures YahooResults(None, market) == [] && TwResults(None) == []
  {
  }

  // ------------------------------------------------------------------ dedupe

  function Symbols(rs: seq<SearchResult>): set<string> {
    set k | 0 <= k < |rs| :: rs[k].symbol
  }

  lemma SymbolsAppend(u: seq<SearchResult>, x: SearchResult)
    ensures Symbols(u + [x]) == Symbols(u) + {x.symbol}
  {
    var v := u + [x];
    forall s | s in Symbols(v) ensures s in Symbols(u) + {x.symbol} {
      var k :| 0 <= k < |v| && v[k].symbol == s;
      if k < |u| { assert v[k] == u[k]; }
    }
    forall s | s in Symbols(u) ensures s in Symbols(v) {
      var k :| 0 <= k < |u| && u[k].symbol == s;
      assert v[k] == u[k];
    }
    assert v[|u|] == x;
  }

  /** The results the `seen`-set filter keeps: each symbol's first result, in
      order; every symbol of the input is kept. */
  function FirstOfEach(rs: seq<SearchResult>): (u: seq<SearchResult>)
    ensures Symbols(u) == Symbols(rs)
    ensures |u| <= |rs|
  {
    if rs == [] then []
    else
      var init := rs[..|rs| - 1];
      var last := rs[|rs| - 1];
      var u := FirstOfEach(init);
      assert rs == init + [last];
      SymbolsAppend(init, last);
      if last.symbol in Symbols(u) then u
      else
        SymbolsAppend(u, last);
        u + [last]
  }

  /** Index `i` of `rs` is the first result with its symbol. */
  ghost predicate FirstWith(rs: seq<SearchResult>, i: int) {
    0 <= i < |rs| && forall j :: 0 <= j < i ==> rs[j].symbol != rs[i].symbol
  }

  ghost predicate DistinctSymbols(u: seq<SearchResult>) {
    forall k, l :: 0 <= k < l < |u| ==> u[k].symbol != u[l].symbol
  }

  /** No two kept results share a symbol. */
  lemma {:induction false} FirstOfEachDistinct(rs: seq<SearchResult>)
    ensures DistinctSymbols(FirstOfEach(rs))
  {
    if rs != [] {
      var init := rs[..|rs| - 1];
      var last := rs[|rs| - 1];
      FirstOfEachDistinct(init);
      var ui := FirstOfEach(init);
      if last.symbol !in Symbols(ui) {
        var u := ui + [last];
        assert FirstOfEach(rs) == u;
        forall k, l | 0 <= k < l < |u| ensures u[k].symbol != u[l].symbol {
          assert u[k] == ui[k];
          if l < |ui| {
            assert u[l] == ui[l];
          } else {
            assert u[l] == last;
            assert ui[k].symbol in Symbols(ui);
          }
        }
      } else {
        assert FirstOfEach(rs) == ui;
      }
    }
  }

  /** Dedupe keeps, in their original order, the first result of each symbol:
      the kept results are the input's results at increasing positions, each the
      first of its symbol. */
  lemma {:induction false} FirstOfEachIndices(rs: seq<SearchResult>) returns (idx: seq<nat>)
    ensures var u := FirstOfEach(rs);
      && |idx| == |u|
      && (forall k :: 0 <= k < |u| ==> FirstWith(rs, idx[k]) && u[k] == rs[idx[k]])
      && (forall k, l :: 0 <= k < l < |u| ==> idx[k] < idx[l])
  {
    if rs == [] {
      return [];
    }
    var n := |rs| - 1;
    var init := rs[..n];
    var last := rs[n];
    var ui := FirstOfEach(init);
    var idx0 := FirstOfEachIndices(init);
    forall k | 0 <= k < |ui| ensures FirstWith(rs, idx0[k]) && ui[k] == rs[idx0[k]] {
      FirstWithPrefix(rs, n, idx0[k]);
    }
    if last.symbol in Symbols(ui) {
      idx := idx0;
    } else {
      idx := idx0 + [n];
      forall j | 0 <= j < n ensures rs[j].symbol != last.symbol {
        assert rs[j] == init[j];
        assert rs[j].symbol in Symbols(init);
      }
      assert FirstWith(rs, n);
    }
  }

  lemma FirstWithPrefix(rs: seq<SearchResult>, n: nat, i: int)
    requires n <= |rs| && FirstWith(rs[..n], i)
    ensures FirstWith(rs, i) && rs[..n][i] == rs[i]
  {
    forall j | 0 <= j < i ensures rs[j].symbol != rs[i].symbol {
      assert rs[..n][j] == rs[j];
    }
  }

  /** The `seen`-set filter. */
  method Dedupe(rs: seq<SearchResult>) returns (unique: seq<SearchResult>)
    ensures unique == FirstOfEach(rs)
  {
    var seen: set<string> := {};
    unique := [];
    for i := 0 to |rs|
      invariant unique == FirstOfEach(rs[..i])
      invariant seen == Symbols(unique)
    {
      assert rs[..i + 1][..i] == rs[..i];
      assert rs[..i + 1][i] == rs[i];
      if rs[i].symbol !in seen {
        SymbolsAppend(unique, rs[i]);
        seen := seen + {rs[i].symbol};
        unique := unique + [rs[i]];
      }
    }
    assert rs[..|rs|] == rs;
  }

  // ------------------------------------------------------------------ search

  /** The results before dedupe: for TW the Taiwan exchange's first, then Yahoo's. */
  function Combined(market: Market, suggestions: Option<seq<string>>, quotes: Option<seq<Quote>>): seq<SearchResult> {
    if market == TW then TwResults(suggestions) + YahooResults(quotes, TW)
    else YahooResults(quotes, market)
  }

  /** The first ten results, or all of them when there are fewer. */
  function FirstTen(rs: seq<SearchResult>): (r: seq<SearchResult>)
    ensures |r| <= 10 && |r| <= |rs| && r == rs[..|r|]
    ensures |rs| >= 10 ==> |r| == 10
    ensures |rs| < 10 ==> r == rs
  {
    if |rs| <= 10 then rs else rs[..10]
  }

  /** `search(query, market)`. The two searches are answered by `suggestions` and
      `quotes`; the fuzzy ranking of the unique results is `rank`. */
  function Searched(query: string, market: Market, suggestions: Option<seq<string>>, quotes: Option<seq<Quote>>,
                    rank: (string, seq<SearchResult>) -> seq<SearchResult>): seq<SearchResult>
  {
    if query == [] then []
    else
      var unique := FirstOfEach(Combined(market, suggestions, quotes));
      var ranked := rank(query, unique);
      if |ranked| > 0 then ranked else FirstTen(unique)
  }

  method Search(query: string, market: Market, suggestions: Option<seq<string>>, quotes: Option<seq<Quote>>,
                rank: (string, seq<SearchResult>) -> seq<SearchResult>)
    returns (results: seq<SearchResult>)
    ensures results == Searched(query, market, suggestions, quotes, rank)
  {
    if query == [] {
      return [];
    }
    var unique := Dedupe(Combined(market, suggestions, quotes));
    var ranked := rank(query, unique);
    if |ranked| > 0 {
      return ranked;
    }
    results := FirstTen(unique);
  }

  /** An empty query gives no results, whatever the searches would answer; when
      the ranking finds nothing, the answer is at most ten results with distinct
      symbols, each the first result of its symbol, in order. */
  lemma SearchFallback(query: string, market: Market, suggestions: Option<seq<string>>, quotes: Option<seq<Quote>>,
                       rank: (string, seq<SearchResult>) -> seq<SearchResult>)
    ensures query == [] ==> Searched(query, market, suggestions, quotes, rank) == []
    ensures var unique := FirstOfEach(Combined(market, suggestions, quotes));
      var r := Searched(query, market, suggestions, quotes, rank);
      query != [] && rank(query, unique) == [] ==>
        && |r| <= 10 && r == unique[..|r|]
        && (|unique| >= 10 ==> |r| == 10) && (|unique| < 10 ==> r == unique)
        && DistinctSymbols(r)
  {
    var all := Combined(market, suggestions, quotes);
    var unique := FirstOfEach(all);
    if query != [] && rank(query, unique) == [] {
      FirstOfEachDistinct(all);
      FirstTenDistinct(unique);
      assert Searched(query, market, suggestions, quotes, rank) == FirstTen(unique);
    }
  }

  lemma FirstTenDistinct(u: seq<SearchResult>)
    requires DistinctSymbols(u)
    ensures DistinctSymbols(FirstTen(u))
  {
    var r := FirstTen(u);
    assert forall k :: 0 <= k < |r| ==> r[k] == u[k];
  }

  /** For TW, a symbol both searches return keeps the Taiwan exchange's result:
      every unique result whose symbol the exchange returned is the exchange's
      first result for that symbol. */
  lemma TaiwanExchangeWins(suggestions: Option<seq<string>>, quotes: Option<seq<Quote>>)
    ensures var tw := TwResults(suggestions);
      var u := FirstOfEach(Combined(TW, suggestions, quotes));
      forall k :: 0 <= k < |u| && u[k].symbol in Symbols(tw) ==>
        exists i :: FirstWith(tw, i) && u[k] == tw[i]
  {
    var tw := TwResults(suggestions);
    var all := Combined(TW, suggestions, quotes);
    var u := FirstOfEach(all);
    var idx := FirstOfEachIndices(all);
    forall k | 0 <= k < |u| && u[k].symbol in Symbols(tw)
      ensures exists i :: FirstWith(tw, i) && u[k] == tw[i]
    {
      var m :| 0 <= m < |tw| && tw[m].symbol == u[k].symbol;
      assert all[m] == tw[m];
      var i := idx[k];
      assert i <= m;
      assert all[i] == tw[i];
      assert FirstWith(tw, i) by {
        forall j | 0 <= j < i ensures tw[j].symbol != tw[i].symbol {
          assert all[j] == tw[j];
        }
      }
    }
  }
}
