/** Quote lookup in the desktop shell (the native `fetch_prices` command): a
    `.TW` symbol is tried on the listed board, then on the OTC board, and falls
    through to the Yahoo chart when neither prices it; every other symbol goes to
    the Yahoo chart directly. Symbols are used as given, without sanitising. */
module NativePrices {
  import opened Base
  import opened Price

  /** `msgArray[0]` as the command reads it: `z` and `y` when they are JSON strings. */
  datatype NativeQuote = NativeQuote(z: Option<string>, y: Option<string>)

  /** The Yahoo chart request: it failed to send, or it was answered with a status
      and, when the status is a success, `regularMarketPrice` if the body has one. */
  datatype YahooReply = SendFailed | Answered(success: bool, price: Option<real>)

  /** The outside world of one command: the Taiwan exchange (URL to `msgArray[0]`,
      None when the request fails, the body is not JSON or has no first entry),
      Rust's `str::parse::<f64>`, and the Yahoo chart (URL to reply). */
  datatype Native = Native(
    twse: string -> Option<NativeQuote>,
    parseF64: string -> Option<real>,
    yahoo: string -> YahooReply)

  /** The Taiwan boards, in the order they are tried. */
  const Boards: seq<string> := ["tse", "otc"]

  function BoardUrl(board: string, code: string): string {
    "https://mis.twse.com.tw/stock/api/getStockInfo.jsp?ex_ch=" + board + "_" + code + ".tw&json=1"
  }

  function ChartUrl(yahooSymbol: string): string {
    "https://query2.finance.yahoo.com/v8/finance/chart/" + yahooSymbol + "?interval=1m&range=1d"
  }

  /** The text a board quote is priced from: `z` when it is a string, else `y`, else "0". */
  function PriceText(q: NativeQuote): string {
    if q.z.Some? then q.z.value else if q.y.Some? then q.y.value else "0"
  }

  /** A board's price: the price text must parse and be positive. */
  function BoardPrice(q: Option<NativeQuote>, env: Native): (p: Option<real>)
    ensures p.Some? <==> q.Some? && env.parseF64(PriceText(q.value)).Some? && env.parseF64(PriceText(q.value)).value > 0.0
    ensures p.Some? ==> p == env.parseF64(PriceText(q.value))
  {
    if q.None? then None
    else
      var parsed := env.parseF64(PriceText(q.value));
      if parsed.Some? && parsed.value > 0.0 then parsed else None
  }

  /** A quote with a string `z` is priced from `z` alone: a `z` of "-" that does
      not parse gives no price even when `y` would. */
  lemma StringZDecides(q: NativeQuote, env: Native)
    ensures q.z.Some? ==> PriceText(q) == q.z.value
    ensures q.z.None? && q.y.Some? ==> PriceText(q) == q.y.value
    ensures q.z.None? && q.y.None? ==> PriceText(q) == "0"
    ensures q.z == Some("-") && env.parseF64("-").None? ==> BoardPrice(Some(q), env).None?
  {
  }

  /** The boards tried in order until one prices the code. */
  function FirstBoard(boards: seq<string>, code: string, env: Native): Option<real> {
    if boards == [] then None
    else
      var p := BoardPrice(env.twse(BoardUrl(boards[0], code)), env);
      if p.Some? then p else FirstBoard(boards[1..], code, env)
  }

  /** The Yahoo symbol the command uses. The arm for short upper-case symbols
      without a dot keeps the symbol, as the catch-all arm does. */
  function NativeYahooSymbol(s: string): string {
    if s == "BTC" then "BTC-USD"
    else if s == "ETH" then "ETH-USD"
    else if s == "SOL" then "SOL-USD"
    else if !Contains(s, '.') && |s| <= 5 && s == Upper(s) then s
    else s
  }

  /** The desktop command and the browser lookup map symbols to Yahoo symbols alike. */
  lemma YahooSymbolsAgree(s: string)
    ensures NativeYahooSymbol(s) == YahooSymbol(s)
    ensures s in {"BTC", "ETH", "SOL"} <==> NativeYahooSymbol(s) != s
  {
  }

  /** A Yahoo reply gives a price exactly when it has a success status and a price. */
  function ChartPrice(r: YahooReply): (p: Option<real>)
    ensures p.Some? <==> r.Answered? && r.success && r.price.Some?
    ensures p.Some? ==> p == r.price
  {
    if r.Answered? && r.success then r.price else None
  }

  /** `symbol.replace(".TW", "")`: every `.TW` removed. */
  function BoardCode(symbol: string): string {
    ReplaceAll(symbol, ".TW", "")
  }

  /** The price the command reports for one symbol, if any. */
  function NativeQuoteFor(symbol: string, env: Native): Option<real> {
    var board := if EndsWith(symbol, ".TW") then FirstBoard(Boards, BoardCode(symbol), env) else None;
    if board.Some? then board
    else ChartPrice(env.yahoo(ChartUrl(NativeYahooSymbol(symbol))))
  }

  /** For a `.TW` symbol the listed board is asked first, the OTC board second,
      and a symbol neither board prices falls through to the Yahoo chart. */
  lemma TaiwanBoardsThenYahoo(symbol: string, env: Native)
    requires EndsWith(symbol, ".TW")
    ensures var listed := BoardPrice(env.twse(BoardUrl("tse", BoardCode(symbol))), env);
      var otc := BoardPrice(env.twse(BoardUrl("otc", BoardCode(symbol))), env);
      NativeQuoteFor(symbol, env) ==
        if listed.Some? then listed
        else if otc.Some? then otc
        else ChartPrice(env.yahoo(ChartUrl(YahooSymbol(symbol))))
  {
    var code := BoardCode(symbol);
    var listed := BoardPrice(env.twse(BoardUrl("tse", code)), env);
    var otc := BoardPrice(env.twse(BoardUrl("otc", code)), env);
    assert Boards[1..] == ["otc"] && ["otc"][1..] == [];
    assert FirstBoard(["otc"], code, env) == if otc.Some? then otc else FirstBoard([], code, env);
    assert FirstBoard(Boards, code, env) == if listed.Some? then listed else FirstBoard(["otc"], code, env);
    YahooSymbolsAgree(symbol);
  }

  /** Any other symbol is priced by the Yahoo chart alone. */
  lemma OtherSymbolsYahooOnly(symbol: string, env: Native)
    requires !EndsWith(symbol, ".TW")
    ensures NativeQuoteFor(symbol, env) == ChartPrice(env.yahoo(ChartUrl(YahooSymbol(symbol))))
  {
    YahooSymbolsAgree(symbol);
  }

  function NativeQuotes(env: Native): string -> Option<real> {
    s => NativeQuoteFor(s, env)
  }

  /** One symbol of `fetch_prices`: the board loop with its `fetched` flag, then
      the Yahoo chart when no board priced the symbol. */
  method NativeLookUp(symbol: string, env: Native) returns (price: Option<real>)
    ensures price == NativeQuoteFor(symbol, env)
  {
    if EndsWith(symbol, ".TW") {
      var code := BoardCode(symbol);
      var fetched := false;
      var i := 0;
      while i < |Boards|
        invariant 0 <= i <= |Boards|
        invariant !fetched ==> FirstBoard(Boards, code, env) == FirstBoard(Boards[i..], code, env)
        invariant fetched ==> price == FirstBoard(Boards, code, env) && price.Some?
      {
        var p := BoardPrice(env.twse(BoardUrl(Boards[i], code)), env);
        if p.Some? {
          price := p;
          fetched := true;
          break;
        }
        assert Boards[i..][1..] == Boards[i + 1..];
        i := i + 1;
      }
      if fetched {
        return;
      }
    }
    price := ChartPrice(env.yahoo(ChartUrl(NativeYahooSymbol(symbol))));
  }

  /** `fetch_prices(symbols)`: always succeeds, with one result per priced symbol
      in request order under the symbol as requested. */
  method FetchPrices(symbols: seq<string>, env: Native) returns (r: Result<seq<PriceResult>>)
    ensures r == Ok(Collect(symbols, NativeQuotes(env)))
  {
    var results: seq<PriceResult> := [];
    for i := 0 to |symbols|
      invariant results == Collect(symbols[..i], NativeQuotes(env))
    {
      assert symbols[..i + 1][..i] == symbols[..i];
      var price := NativeLookUp(symbols[i], env);
      if price.Some? {
        results := results + [PriceResult(symbols[i], price.value)];
      }
    }
    assert symbols[..|symbols|] == symbols;
    r := Ok(results);
  }
}
