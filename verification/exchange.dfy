/** Exchange balances: turning a venue's balance list into one holding per coin
    (Pionex, BitoPro), re-syncing a venue's holdings into the asset table while
    carrying each symbol's cost forward, and deleting a venue. */
module Exchange {
  import opened Base
  import opened Tables
  import opened Database

  /** One entry of Pionex `data.balances`, with `free` and `frozen` already parsed. */
  datatype PionexBalance = PionexBalance(coin: string, free: Number, frozen: Number)

  /** The decoded Pionex reply: `result` (None when absent), `message` ("" when
      absent) and `data.balances` ([] when absent). A document that is not an
      object, other than `null`, reads with every field absent. */
  datatype PionexReply = PionexReply(result: Option<bool>, message: string, balances: seq<PionexBalance>)

  /** One entry of BitoPro `data`, with `amount` already parsed. */
  datatype BitoProBalance = BitoProBalance(currency: string, amount: Number)

  /** The decoded BitoPro reply: `error` ("" when absent) and `data` ([] when
      absent); as for Pionex, a non-object document other than `null` has neither. */
  datatype BitoProReply = BitoProReply(error: string, balances: seq<BitoProBalance>)

  // ------------------------------------------------------------- aggregation

  /** One coin code with the amount it contributes. */
  datatype Entry = Entry(code: string, amount: Number)

  /** The `aggregated` map: its keys in insertion order and the running totals. */
  datatype Tally = Tally(order: seq<string>, totals: map<string, real>)

  /** One `forEach` step: a positive amount is added under the upper-cased code. */
  function Step(t: Tally, e: Entry): Tally {
    if Positive(e.amount) then
      var code := Upper(e.code);
      if code in t.totals then Tally(t.order, t.totals[code := t.totals[code] + e.amount.value])
      else Tally(t.order + [code], t.totals[code := e.amount.value])
    else t
  }

  /** The map after the loop has seen all of `entries`. */
  function Tallied(entries: seq<Entry>): (t: Tally)
    ensures forall c :: c in t.order <==> c in t.totals
  {
    if entries == [] then Tally([], map[])
    else Step(Tallied(entries[..|entries| - 1]), entries[|entries| - 1])
  }

  /** Some entry holds a positive amount of the coin `c`. */
  ghost predicate Held(entries: seq<Entry>, c: string) {
    exists i :: 0 <= i < |entries| && Positive(entries[i].amount) && Upper(entries[i].code) == c
  }

  /** Reference definition: the sum of the positive amounts entered under `c`. */
  function CoinTotal(entries: seq<Entry>, c: string): real {
    if entries == [] then 0.0
    else
      var last := entries[|entries| - 1];
      CoinTotal(entries[..|entries| - 1], c)
        + (if Positive(last.amount) && Upper(last.code) == c then last.amount.value else 0.0)
  }

  predicate Distinct(s: seq<string>) {
    forall i, j :: 0 <= i < j < |s| ==> s[i] != s[j]
  }

  /** The map holds exactly the coins with a positive amount, once each, under
      the sum of their positive amounts. */
  lemma {:induction false} TallyMeaning(entries: seq<Entry>)
    ensures Distinct(Tallied(entries).order)
    ensures forall c :: c in Tallied(entries).totals <==> Held(entries, c)
    ensures forall c :: c in Tallied(entries).totals ==>
      Tallied(entries).totals[c] == CoinTotal(entries, c) && Tallied(entries).totals[c] > 0.0
  {
    if entries != [] {
      var init := entries[..|entries| - 1];
      var last := entries[|entries| - 1];
      TallyMeaning(init);
      forall c ensures Held(entries, c) <==> Held(init, c) || (Positive(last.amount) && Upper(last.code) == c) {
        if Held(entries, c) {
          var i :| 0 <= i < |entries| && Positive(entries[i].amount) && Upper(entries[i].code) == c;
          if i < |entries| - 1 { assert init[i] == entries[i]; }
        }
        if Held(init, c) {
          var i :| 0 <= i < |init| && Positive(init[i].amount) && Upper(init[i].code) == c;
          assert entries[i] == init[i];
        }
      }
      forall c | c in Tallied(entries).totals
        ensures Tallied(entries).totals[c] == CoinTotal(entries, c) && Tallied(entries).totals[c] > 0.0
      {
        if Positive(last.amount) && Upper(last.code) == c {
          if c in Tallied(init).totals {
            assert Tallied(entries).totals[c] == Tallied(init).totals[c] + last.amount.value;
          } else {
            assert !Held(init, c);
            CoinTotalAbsent(init, c);
          }
        }
      }
    }
  }

  /** Reference definition: the index of the first entry holding a positive
      amount of `c`, or `|entries|` when there is none. */
  function FirstHeld(entries: seq<Entry>, c: string): (k: nat)
    ensures k <= |entries|
    ensures k < |entries| ==> Positive(entries[k].amount) && Upper(entries[k].code) == c
    ensures forall i :: 0 <= i < k && i < |entries| ==> !(Positive(entries[i].amount) && Upper(entries[i].code) == c)
  {
    if entries == [] then 0
    else
      var init := entries[..|entries| - 1];
      var last := entries[|entries| - 1];
      var k := FirstHeld(init, c);
      assert forall i :: 0 <= i < |init| ==> init[i] == entries[i];
      if k < |init| then k
      else if Positive(last.amount) && Upper(last.code) == c then |init|
      else |entries|
  }

  /** The map's keys come in the order in which their coins are first held: a
      coin listed before another has its first positive entry earlier. */
  lemma {:induction false} TallyOrder(entries: seq<Entry>)
    ensures forall i :: 0 <= i < |Tallied(entries).order| ==>
      FirstHeld(entries, Tallied(entries).order[i]) < |entries|
    ensures forall i, j :: 0 <= i < j < |Tallied(entries).order| ==>
      FirstHeld(entries, Tallied(entries).order[i]) < FirstHeld(entries, Tallied(entries).order[j])
  {
    if entries != [] {
      var init := entries[..|entries| - 1];
      var last := entries[|entries| - 1];
      TallyOrder(init);
      TallyMeaning(init);
      var before := Tallied(init).order;
      var after := Tallied(entries).order;
      assert forall i :: 0 <= i < |before| ==> FirstHeld(entries, before[i]) == FirstHeld(init, before[i]);
      if after != before {
        var code := Upper(last.code);
        assert after == before + [code] && code !in Tallied(init).totals;
        assert FirstHeld(init, code) == |init|;
        assert FirstHeld(entries, code) == |init|;
      }
    }
  }

  /** A coin nobody holds a positive amount of totals zero. */
  lemma {:induction false} CoinTotalAbsent(entries: seq<Entry>, c: string)
    requires !Held(entries, c)
    ensures CoinTotal(entries, c) == 0.0
  {
    if entries != [] {
      CoinTotalAbsent(entries[..|entries| - 1], c);
    }
  }

  /** The aggregation loop of `fetchPionex` / `fetchBitoPro`. */
  method Aggregate(entries: seq<Entry>) returns (t: Tally)
    ensures t == Tallied(entries)
  {
    t := Tally([], map[]);
    var i := 0;
    while i < |entries|
      invariant 0 <= i <= |entries|
      invariant t == Tallied(entries[..i])
    {
      assert entries[..i + 1][..i] == entries[..i];
      var e := entries[i];
      if Positive(e.amount) {
        var code := Upper(e.code);
        if code in t.totals {
          t := Tally(t.order, t.totals[code := t.totals[code] + e.amount.value]);
        } else {
          t := Tally(t.order + [code], t.totals[code := e.amount.value]);
        }
      }
      i := i + 1;
    }
    assert entries[..i] == entries;
  }

  // ---------------------------------------------------------------- holdings

  /** The quote symbol of a coin: the coin itself when it already names a pair. */
  function PairSymbol(code: string): string {
    if Contains(code, '-') then code else code + "-USD"
  }

  function PionexHolding(coin: string, total: real, now: int): Asset {
    Asset("pionex-" + Lower(coin), PairSymbol(coin), coin, "crypto", "Crypto",
          Num(total), Num(0.0), None, now, "pionex")
  }

  function BitoProHolding(currency: string, total: real, now: int): Asset {
    var isTwd := currency == "TWD";
    Asset("bitopro-" + Lower(currency),
          if isTwd then "TWD" else PairSymbol(currency),
          currency,
          if isTwd then "stock" else "crypto",
          if isTwd then "TW" else "Crypto",
          Num(total), Num(0.0), None, now, "bitopro")
  }

  function PionexEntries(balances: seq<PionexBalance>): (es: seq<Entry>)
    ensures |es| == |balances|
    ensures forall i :: 0 <= i < |balances| ==>
      es[i] == Entry(balances[i].coin, Plus(balances[i].free, balances[i].frozen))
  {
    seq(|balances|, i requires 0 <= i < |balances| =>
      Entry(balances[i].coin, Plus(balances[i].free, balances[i].frozen)))
  }

  function BitoProEntries(balances: seq<BitoProBalance>): (es: seq<Entry>)
    ensures |es| == |balances|
    ensures forall i :: 0 <= i < |balances| ==> es[i] == Entry(balances[i].currency, balances[i].amount)
  {
    seq(|balances|, i requires 0 <= i < |balances| => Entry(balances[i].currency, balances[i].amount))
  }

  /** The holdings built from the aggregated map, one per coin in insertion order. */
  function Holdings(t: Tally, make: (string, real) -> Asset): (hs: seq<Asset>)
    requires forall c :: c in t.order ==> c in t.totals
    ensures |hs| == |t.order|
    ensures forall i :: 0 <= i < |hs| ==> hs[i] == make(t.order[i], t.totals[t.order[i]])
  {
    seq(|t.order|, i requires 0 <= i < |t.order| => make(t.order[i], t.totals[t.order[i]]))
  }

  function PionexMaker(now: int): (string, real) -> Asset {
    (coin: string, total: real) => PionexHolding(coin, total, now)
  }

  function BitoProMaker(now: int): (string, real) -> Asset {
    (currency: string, total: real) => BitoProHolding(currency, total, now)
  }

  /** The holdings of `fetchPionex`, in the map's insertion order. */
  function PionexHoldings(reply: Result<PionexReply>, now: int): Result<seq<Asset>> {
    if reply.Err? then Err(reply.error)
    else if reply.value.result == Some(false) then
      Err(if reply.value.message == "" then "Pionex API error" else reply.value.message)
    else Ok(Holdings(Tallied(PionexEntries(reply.value.balances)), PionexMaker(now)))
  }

  /** The holdings of `fetchBitoPro`, in the map's insertion order. */
  function BitoProHoldings(reply: Result<BitoProReply>, now: int): Result<seq<Asset>> {
    if reply.Err? then Err(reply.error)
    else if reply.value.error != "" then Err(reply.value.error)
    else Ok(Holdings(Tallied(BitoProEntries(reply.value.balances)), BitoProMaker(now)))
  }

  /** `fetchPionex` once the signed request has been answered: `reply` is the
      decoded body, or the message of the error fetching or decoding threw
      (reading a field of a `null` document throws too). */
  method FetchPionex(reply: Result<PionexReply>, now: int) returns (r: Result<seq<Asset>>)
    ensures r == PionexHoldings(reply, now)
  {
    if reply.Err? {
      return Err(reply.error);
    }
    if reply.value.result == Some(false) {
      return Err(if reply.value.message == "" then "Pionex API error" else reply.value.message);
    }
    var t := Aggregate(PionexEntries(reply.value.balances));
    r := Ok(Holdings(t, PionexMaker(now)));
  }

  /** `fetchBitoPro` once the signed request has been answered. */
  method FetchBitoPro(reply: Result<BitoProReply>, now: int) returns (r: Result<seq<Asset>>)
    ensures r == BitoProHoldings(reply, now)
  {
    if reply.Err? {
      return Err(reply.error);
    }
    if reply.value.error != "" {
      return Err(reply.value.error);
    }
    var t := Aggregate(BitoProEntries(reply.value.balances));
    r := Ok(Holdings(t, BitoProMaker(now)));
  }

  /** The coins of the aggregated map are exactly the held coins, each once, and
      their lower-cased spellings are distinct too. */
  lemma TallyCoins(es: seq<Entry>)
    ensures var order := Tallied(es).order;
      && (forall c :: c in order <==> Held(es, c))
      && forall i, j :: 0 <= i < j < |order| ==> order[i] != order[j] && Lower(order[i]) != Lower(order[j])
  {
    TallyMeaning(es);
    var order := Tallied(es).order;
    forall i, j | 0 <= i < j < |order| ensures Lower(order[i]) != Lower(order[j]) {
      LowerInjectiveOnUpper(order[i], order[j], es);
    }
  }

  /** A Pionex reply that is not marked failed gives one holding per coin with a
      positive total, named by the coin: no held coin is missing and none is
      repeated, the record ids `pionex-<coin>` are distinct, and the holdings
      come in the order in which their coins first appear with a positive total. */
  lemma PionexOnePerCoin(reply: Result<PionexReply>, now: int)
    requires reply.Ok? && reply.value.result != Some(false)
    ensures PionexHoldings(reply, now).Ok?
    ensures var hs := PionexHoldings(reply, now).value;
      var es := PionexEntries(reply.value.balances);
      && (forall c :: (exists i :: 0 <= i < |hs| && hs[i].name == c) <==> Held(es, c))
      && (forall i, j :: 0 <= i < j < |hs| ==> hs[i].name != hs[j].name && hs[i].recordId != hs[j].recordId)
      && (forall i, j :: 0 <= i < j < |hs| ==> FirstHeld(es, hs[i].name) < FirstHeld(es, hs[j].name))
  {
    var es := PionexEntries(reply.value.balances);
    var order := Tallied(es).order;
    TallyCoins(es);
    TallyOrder(es);
    var hs := PionexHoldings(reply, now).value;
    HoldingsFollowOrder(hs, order, es, "pionex-");
  }

  /** Each Pionex holding is a crypto holding of the coin's summed `free + frozen`
      (positive), at zero cost, under the `-USD` pair symbol unless the coin
      already names a pair, with the record id `pionex-<coin>`. */
  lemma PionexHoldingFields(reply: Result<PionexReply>, now: int)
    requires reply.Ok? && reply.value.result != Some(false)
    ensures PionexHoldings(reply, now).Ok?
    ensures var hs := PionexHoldings(reply, now).value;
      var es := PionexEntries(reply.value.balances);
      forall i :: 0 <= i < |hs| ==>
        && hs[i].quantity == Num(CoinTotal(es, hs[i].name)) && CoinTotal(es, hs[i].name) > 0.0
        && hs[i].recordId == "pionex-" + Lower(hs[i].name)
        && hs[i].symbol == (if Contains(hs[i].name, '-') then hs[i].name else hs[i].name + "-USD")
        && hs[i].market == "Crypto" && hs[i].assetType == "crypto"
        && hs[i].cost == Num(0.0) && hs[i].source == "pionex"
  {
    var es := PionexEntries(reply.value.balances);
    var t := Tallied(es);
    TallyMeaning(es);
    var hs := PionexHoldings(reply, now).value;
    forall i | 0 <= i < |hs| ensures hs[i].quantity == Num(CoinTotal(es, hs[i].name)) {
      assert hs[i] == PionexHolding(t.order[i], t.totals[t.order[i]], now);
    }
  }

  /** Two distinct upper-cased coin codes stay distinct when lower-cased. */
  lemma LowerInjectiveOnUpper(a: string, b: string, es: seq<Entry>)
    requires Held(es, a) && Held(es, b) && a != b
    ensures Lower(a) != Lower(b)
  {
    var i :| 0 <= i < |es| && Positive(es[i].amount) && Upper(es[i].code) == a;
    var j :| 0 <= j < |es| && Positive(es[j].amount) && Upper(es[j].code) == b;
    UpperLowerRoundTrip(a, es[i].code);
    UpperLowerRoundTrip(b, es[j].code);
  }

  /** On an upper-cased string, lower-casing loses nothing. */
  lemma UpperLowerRoundTrip(u: string, s: string)
    requires u == Upper(s)
    ensures Upper(Lower(u)) == u
  {
    assert forall k :: 0 <= k < |u| ==> UpperChar(LowerChar(UpperChar(s[k]))) == UpperChar(s[k]);
  }

  /** A BitoPro reply without an error gives one holding per currency with a
      positive total, named by the currency: none is missing or repeated, the
      record ids `bitopro-<currency>` are distinct, and the holdings come in the
      order in which their currencies first appear with a positive amount. */
  lemma BitoProOnePerCurrency(reply: Result<BitoProReply>, now: int)
    requires reply.Ok? && reply.value.error == ""
    ensures BitoProHoldings(reply, now).Ok?
    ensures var hs := BitoProHoldings(reply, now).value;
      var es := BitoProEntries(reply.value.balances);
      && (forall c :: (exists i :: 0 <= i < |hs| && hs[i].name == c) <==> Held(es, c))
      && (forall i, j :: 0 <= i < j < |hs| ==> hs[i].name != hs[j].name && hs[i].recordId != hs[j].recordId)
      && (forall i, j :: 0 <= i < j < |hs| ==> FirstHeld(es, hs[i].name) < FirstHeld(es, hs[j].name))
  {
    var es := BitoProEntries(reply.value.balances);
    var order := Tallied(es).order;
    TallyCoins(es);
    TallyOrder(es);
    var hs := BitoProHoldings(reply, now).value;
    HoldingsFollowOrder(hs, order, es, "bitopro-");
  }

  /** Holdings named by the coins of the map, in order, under record ids made of a
      prefix and the lower-cased coin, inherit the map's one-entry-per-coin shape. */
  lemma HoldingsFollowOrder(hs: seq<Asset>, order: seq<string>, es: seq<Entry>, prefix: string)
    requires |hs| == |order|
    requires forall i :: 0 <= i < |hs| ==> hs[i].name == order[i] && hs[i].recordId == prefix + Lower(order[i])
    requires forall c :: c in order <==> Held(es, c)
    requires forall i, j :: 0 <= i < j < |order| ==> order[i] != order[j] && Lower(order[i]) != Lower(order[j])
    ensures forall c :: (exists i :: 0 <= i < |hs| && hs[i].name == c) <==> Held(es, c)
    ensures forall i, j :: 0 <= i < j < |hs| ==> hs[i].name != hs[j].name && hs[i].recordId != hs[j].recordId
  {
    forall c | Held(es, c) ensures exists i :: 0 <= i < |hs| && hs[i].name == c {
      var i :| 0 <= i < |order| && order[i] == c;
      assert hs[i].name == c;
    }
    forall i, j | 0 <= i < j < |hs| ensures hs[i].recordId != hs[j].recordId {
      assert (prefix + Lower(order[i]))[|prefix|..] == Lower(order[i]);
      assert (prefix + Lower(order[j]))[|prefix|..] == Lower(order[j]);
    }
  }

  /** Each BitoPro holding carries the currency's summed amount (positive) at zero
      cost; `TWD` is a TW-market stock under the symbol "TWD", every other
      currency a crypto holding under its pair symbol. */
  lemma BitoProHoldingFields(reply: Result<BitoProReply>, now: int)
    requires reply.Ok? && reply.value.error == ""
    ensures BitoProHoldings(reply, now).Ok?
    ensures var hs := BitoProHoldings(reply, now).value;
      var es := BitoProEntries(reply.value.balances);
      forall i :: 0 <= i < |hs| ==>
        && hs[i].quantity == Num(CoinTotal(es, hs[i].name)) && CoinTotal(es, hs[i].name) > 0.0
        && hs[i].recordId == "bitopro-" + Lower(hs[i].name)
        && hs[i].cost == Num(0.0) && hs[i].source == "bitopro"
        && (hs[i].name == "TWD" ==>
              hs[i].symbol == "TWD" && hs[i].assetType == "stock" && hs[i].market == "TW")
        && (hs[i].name != "TWD" ==>
              hs[i].symbol == PairSymbol(hs[i].name) && hs[i].assetType == "crypto" && hs[i].market == "Crypto")
  {
    var es := BitoProEntries(reply.value.balances);
    var t := Tallied(es);
    TallyMeaning(es);
    var hs := BitoProHoldings(reply, now).value;
    forall i | 0 <= i < |hs| ensures hs[i].quantity == Num(CoinTotal(es, hs[i].name)) {
      assert hs[i] == BitoProHolding(t.order[i], t.totals[t.order[i]], now);
    }
  }

  // -------------------------------------------------------------- re-sync

  /** `exchangeName.toLowerCase().trim()`. */
  function NormalizedSource(exchangeName: string): string {
    Trim(Lower(exchangeName))
  }

  /** The capitalised source older versions stored for a venue. */
  function LegacySource(normalized: string): Option<string> {
    if normalized == "bitopro" then Some("BitoPro")
    else if normalized == "pionex" then Some("Pionex")
    else None
  }

  function SourceIs(source: string): Asset -> bool {
    (a: Asset) => a.source == source
  }

  /** The venue's assets under its normalised or its legacy source. */
  function OwnedBy(normalized: string, legacy: Option<string>): Asset -> bool {
    (a: Asset) => a.source == normalized || (legacy.Some? && a.source == legacy.value)
  }

  /** The holdings the venue's fetch yields (an unknown venue fetches nothing). */
  function Fetched(normalized: string, pionex: Result<PionexReply>, bitopro: Result<BitoProReply>, now: int)
    : Result<seq<Asset>>
  {
    if normalized == "pionex" then PionexHoldings(pionex, now)
    else if normalized == "bitopro" then BitoProHoldings(bitopro, now)
    else Ok([])
  }

  /** The snapshot read before replacing: normalised-source assets, then legacy ones. */
  function Existing(rows: seq<Row<Asset>>, normalized: string): seq<Asset> {
    var legacy := LegacySource(normalized);
    Select(rows, SourceIs(normalized)) + (if legacy.Some? then Select(rows, SourceIs(legacy.value)) else [])
  }

  /** `new Map(existing.map(a => [a.symbol.toUpperCase(), a.cost]))`: a later entry overrides an earlier one. */
  function CostMap(existing: seq<Asset>): map<string, Number> {
    if existing == [] then map[]
    else
      var last := existing[|existing| - 1];
      CostMap(existing[..|existing| - 1])[Upper(last.symbol) := last.cost]
  }

  /** A key is in the cost map exactly when some prior asset has that upper-cased
      symbol, and it maps to the cost of the last such asset. */
  lemma {:induction false} CostMapLastWins(existing: seq<Asset>, key: string)
    ensures key in CostMap(existing) <==> exists i :: 0 <= i < |existing| && Upper(existing[i].symbol) == key
    ensures key in CostMap(existing) ==>
      exists i :: 0 <= i < |existing| && Upper(existing[i].symbol) == key
        && CostMap(existing)[key] == existing[i].cost
        && forall j :: i < j < |existing| ==> Upper(existing[j].symbol) != key
  {
    CostMapKeys(existing, key);
    if key in CostMap(existing) {
      CostMapValue(existing, key);
    }
  }

  lemma {:induction false} CostMapKeys(existing: seq<Asset>, key: string)
    ensures key in CostMap(existing) <==> exists i :: 0 <= i < |existing| && Upper(existing[i].symbol) == key
  {
    if existing != [] {
      var n := |existing| - 1;
      var init := existing[..n];
      CostMapKeys(init, key);
      if key in CostMap(init) {
        var i :| 0 <= i < |init| && Upper(init[i].symbol) == key;
        assert existing[i] == init[i];
      }
      if exists i :: 0 <= i < |existing| && Upper(existing[i].symbol) == key {
        var i :| 0 <= i < |existing| && Upper(existing[i].symbol) == key;
        if i < n { assert init[i] == existing[i]; }
      }
    }
  }

  lemma {:induction false} CostMapValue(existing: seq<Asset>, key: string)
    requires key in CostMap(existing)
    ensures exists i ::
      && 0 <= i < |existing| && Upper(existing[i].symbol) == key
      && CostMap(existing)[key] == existing[i].cost
      && forall j :: i < j < |existing| ==> Upper(existing[j].symbol) != key
  {
    var n := |existing| - 1;
    var init := existing[..n];
    if Upper(existing[n].symbol) == key {
      assert CostMap(existing)[key] == existing[n].cost;
    } else {
      assert key in CostMap(init);
      CostMapValue(init, key);
      var i :| 0 <= i < |init| && Upper(init[i].symbol) == key
        && CostMap(init)[key] == init[i].cost
        && forall j :: i < j < |init| ==> Upper(init[j].symbol) != key;
      assert existing[i] == init[i];
      forall j | i < j < |existing| ensures Upper(existing[j].symbol) != key {
        if j < n { assert existing[j] == init[j]; }
      }
    }
  }

  /** One fetched asset after the cost-restoring loop body. */
  function Carried(a: Asset, costs: map<string, Number>): Asset {
    var u := Upper(a.symbol);
    if u in costs then a.(cost := costs[u]) else a
  }

  /** The cost a fetched asset ends with: that of the last prior asset with the
      same upper-cased symbol, or its own (0) when there is none; nothing else changes. */
  lemma CarriedCost(a: Asset, existing: seq<Asset>)
    ensures Carried(a, CostMap(existing)) == a.(cost := Carried(a, CostMap(existing)).cost)
    ensures (forall i :: 0 <= i < |existing| ==> Upper(existing[i].symbol) != Upper(a.symbol)) ==>
      Carried(a, CostMap(existing)).cost == a.cost
    ensures forall i ::
      (0 <= i < |existing| && Upper(existing[i].symbol) == Upper(a.symbol) &&
       forall j :: i < j < |existing| ==> Upper(existing[j].symbol) != Upper(a.symbol)) ==>
        Carried(a, CostMap(existing)).cost == existing[i].cost
  {
    CostMapLastWins(existing, Upper(a.symbol));
  }

  /** The cost-restoring `for` loop, on the fetched batch in place. */
  method RestoreCosts(batch: array<Asset>, costs: map<string, Number>)
    modifies batch
    ensures forall i :: 0 <= i < batch.Length ==> batch[i] == Carried(old(batch[i]), costs)
  {
    var i := 0;
    while i < batch.Length
      invariant 0 <= i <= batch.Length
      invariant forall k :: 0 <= k < i ==> batch[k] == Carried(old(batch[k]), costs)
      invariant forall k :: i <= k < batch.Length ==> batch[k] == old(batch[k])
    {
      var upper := Upper(batch[i].symbol);
      if upper in costs {
        batch[i] := batch[i].(cost := costs[upper]);
      }
      i := i + 1;
    }
  }

  function CarryAll(incoming: seq<Asset>, costs: map<string, Number>): (r: seq<Asset>)
    ensures |r| == |incoming|
    ensures forall i :: 0 <= i < |incoming| ==> r[i] == Carried(incoming[i], costs)
  {
    seq(|incoming|, i requires 0 <= i < |incoming| => Carried(incoming[i], costs))
  }

  /** The asset rows after the transaction: the venue's old rows deleted (normalised
      source, then legacy source) and the incoming batch appended under new keys. */
  function Resynced(rows: seq<Row<Asset>>, next: nat, normalized: string, incoming: seq<Asset>): seq<Row<Asset>> {
    Kept(rows, normalized) + Numbered(next, incoming)
  }

  /** The rows the two deletes leave: normalised source first, then legacy source. */
  function Kept(rows: seq<Row<Asset>>, normalized: string): seq<Row<Asset>> {
    var legacy := LegacySource(normalized);
    var kept := Without(rows, SourceIs(normalized));
    if legacy.Some? then Without(kept, SourceIs(legacy.value)) else kept
  }

  /** The config after a successful sync: stamped and renamed to the normalised source. */
  function Stamped(normalized: string, now: int): ExchangeConfig -> ExchangeConfig {
    (c: ExchangeConfig) => c.(lastSynced := Some(now), exchangeName := normalized)
  }

  /** The venue's fetch, dispatched on the normalised name. */
  method FetchFor(normalized: string, pionex: Result<PionexReply>, bitopro: Result<BitoProReply>, now: int)
    returns (r: Result<seq<Asset>>)
    ensures r == Fetched(normalized, pionex, bitopro, now)
  {
    r := Ok([]);
    if normalized == "pionex" {
      r := FetchPionex(pionex, now);
    } else if normalized == "bitopro" {
      r := FetchBitoPro(bitopro, now);
    }
  }

  /** The fetched batch with the prior costs restored, through the in-place loop. */
  method CarryCosts(incoming: seq<Asset>, costs: map<string, Number>) returns (r: seq<Asset>)
    ensures r == CarryAll(incoming, costs)
  {
    var batch := new Asset[|incoming|](i requires 0 <= i < |incoming| reads {} => incoming[i]);
    RestoreCosts(batch, costs);
    r := batch[..];
  }

  /** `syncBalances(config)`: fetch the venue's holdings, then in one transaction
      restore prior costs, replace the venue's asset rows and stamp the config.
      A failed fetch changes nothing and is reported as "Sync failed for <name>: <message>".
      `configId` is `config.id`; the replies stand for the signed venue requests. */
  method SyncBalances(assets: Table<Asset>, configs: Table<ExchangeConfig>,
                      config: ExchangeConfig, configId: Option<nat>,
                      pionex: Result<PionexReply>, bitopro: Result<BitoProReply>, now: int)
    returns (r: Result<nat>)
    requires assets.Valid() && configs.Valid()
    modifies assets, configs
    ensures assets.Valid() && configs.Valid()
    ensures var fetched := Fetched(NormalizedSource(config.exchangeName), pionex, bitopro, now);
      (r.Err? <==> fetched.Err?) &&
      (r.Err? ==>
         && r.error == "Sync failed for " + config.exchangeName + ": " + fetched.error
         && assets.rows == old(assets.rows) && assets.nextId == old(assets.nextId)
         && configs.rows == old(configs.rows))
    ensures r.Ok? ==>
      var norm := NormalizedSource(config.exchangeName);
      var fetched := Fetched(norm, pionex, bitopro, now).value;
      && r.value == |fetched|
      && assets.rows == Resynced(old(assets.rows), old(assets.nextId), norm,
                                 CarryAll(fetched, CostMap(Existing(old(assets.rows), norm))))
    ensures r.Ok? ==>
      configs.rows == if configId.Some? && configId.value != 0
                      then Patched(old(configs.rows), configId.value,
                                   Stamped(NormalizedSource(config.exchangeName), now))
                      else old(configs.rows)
  {
    var norm := NormalizedSource(config.exchangeName);
    var fetched := FetchFor(norm, pionex, bitopro, now);
    if fetched.Err? {
      return Err("Sync failed for " + config.exchangeName + ": " + fetched.error);
    }
    var n := Transaction(assets, configs, norm, configId, fetched.value, now);
    r := Ok(n);
  }

  /** The transaction of a successful sync: prior costs restored on the batch,
      the venue's rows replaced by it, and the config keyed `configId` stamped. */
  method Transaction(assets: Table<Asset>, configs: Table<ExchangeConfig>, norm: string,
                     configId: Option<nat>, fetched: seq<Asset>, now: int)
    returns (count: nat)
    requires assets.Valid() && configs.Valid()
    modifies assets, configs
    ensures assets.Valid() && configs.Valid()
    ensures count == |fetched|
    ensures assets.rows == Resynced(old(assets.rows), old(assets.nextId), norm,
                                    CarryAll(fetched, CostMap(Existing(old(assets.rows), norm))))
    ensures configs.rows == if configId.Some? && configId.value != 0
                            then Patched(old(configs.rows), configId.value, Stamped(norm, now))
                            else old(configs.rows)
  {
    var batch := CarryCosts(fetched, CostMap(Existing(assets.rows, norm)));
    ReplaceVenue(assets, norm, batch);
    ghost var replaced := assets.rows;
    if configId.Some? && configId.value != 0 {
      var _ := configs.Update(configId.value, Stamped(norm, now));
    }
    assert assets.rows == replaced;
    count := |batch|;
  }

  /** The transaction's deletes and `bulkAdd`: the venue's rows under its
      normalised source, then under its legacy source, are deleted, and the batch
      is added when it is not empty. */
  method ReplaceVenue(assets: Table<Asset>, norm: string, batch: seq<Asset>)
    requires assets.Valid()
    modifies assets
    ensures assets.Valid()
    ensures assets.rows == Resynced(old(assets.rows), old(assets.nextId), norm, batch)
  {
    var legacy := LegacySource(norm);
    assets.DeleteWhere(SourceIs(norm));
    if legacy.Some? {
      assets.DeleteWhere(SourceIs(legacy.value));
    }
    if |batch| > 0 {
      assets.BulkAdd(batch);
    } else {
      assert assets.rows == assets.rows + Numbered(old(assets.nextId), batch);
    }
  }

  // ----------------------------------------------------- re-sync properties

  /** Every fetched holding carries the venue's normalised source. */
  lemma FetchedSource(norm: string, pionex: Result<PionexReply>, bitopro: Result<BitoProReply>, now: int)
    requires Fetched(norm, pionex, bitopro, now).Ok?
    ensures forall a :: a in Fetched(norm, pionex, bitopro, now).value ==> a.source == norm
  {
  }

  lemma {:induction false} WithoutTwice(rows: seq<Row<Asset>>, p: Asset -> bool, q: Asset -> bool, pq: Asset -> bool)
    requires forall a :: pq(a) == (p(a) || q(a))
    ensures Without(Without(rows, p), q) == Without(rows, pq)
  {
    if rows != [] {
      WithoutTwice(rows[1..], p, q, pq);
      if !p(rows[0].value) {
        assert Without(rows, p) == [rows[0]] + Without(rows[1..], p);
        assert Without(rows, p)[1..] == Without(rows[1..], p);
      }
    }
  }

  lemma {:induction false} SelectWithout(rows: seq<Row<Asset>>, p: Asset -> bool)
    ensures Select(Without(rows, p), p) == []
  {
    if rows != [] {
      SelectWithout(rows[1..], p);
      if !p(rows[0].value) {
        assert Without(rows, p)[1..] == Without(rows[1..], p);
      }
    }
  }

  lemma {:induction false} SelectAppend(xs: seq<Row<Asset>>, ys: seq<Row<Asset>>, p: Asset -> bool)
    ensures Select(xs + ys, p) == Select(xs, p) + Select(ys, p)
  {
    if xs != [] {
      assert (xs + ys)[1..] == xs[1..] + ys;
      SelectAppend(xs[1..], ys, p);
    } else {
      assert xs + ys == ys;
    }
  }

  lemma {:induction false} WithoutAppend(xs: seq<Row<Asset>>, ys: seq<Row<Asset>>, p: Asset -> bool)
    ensures Without(xs + ys, p) == Without(xs, p) + Without(ys, p)
  {
    if xs != [] {
      assert (xs + ys)[1..] == xs[1..] + ys;
      WithoutAppend(xs[1..], ys, p);
    } else {
      assert xs + ys == ys;
    }
  }

  lemma {:induction false} SelectAll(next: nat, incoming: seq<Asset>, p: Asset -> bool)
    requires forall a :: a in incoming ==> p(a)
    ensures Select(Numbered(next, incoming), p) == incoming
    decreases |incoming|
  {
    if incoming != [] {
      assert Numbered(next, incoming)[1..] == Numbered(next + 1, incoming[1..]);
      SelectAll(next + 1, incoming[1..], p);
    }
  }

  lemma {:induction false} WithoutAll(next: nat, incoming: seq<Asset>, p: Asset -> bool)
    requires forall a :: a in incoming ==> p(a)
    ensures Without(Numbered(next, incoming), p) == []
    decreases |incoming|
  {
    if incoming != [] {
      assert Numbered(next, incoming)[1..] == Numbered(next + 1, incoming[1..]);
      WithoutAll(next + 1, incoming[1..], p);
    }
  }

  /** After a re-sync, the assets under the venue's normalised or legacy source are
      exactly the incoming batch, in order, and the rows of every other source are
      the old ones, with the same keys and in the same order. */
  lemma ResyncedReplacesOnlyTheVenue(rows: seq<Row<Asset>>, next: nat, norm: string, incoming: seq<Asset>)
    requires forall a :: a in incoming ==> a.source == norm
    ensures var owned := OwnedBy(norm, LegacySource(norm));
      && Select(Resynced(rows, next, norm, incoming), owned) == incoming
      && Without(Resynced(rows, next, norm, incoming), owned) == Without(rows, owned)
  {
    var owned := OwnedBy(norm, LegacySource(norm));
    var rest := Kept(rows, norm);
    KeptIsWithoutOwned(rows, norm);
    SelectAppend(rest, Numbered(next, incoming), owned);
    SelectWithout(rows, owned);
    SelectAll(next, incoming, owned);
    WithoutAppend(rest, Numbered(next, incoming), owned);
    WithoutAll(next, incoming, owned);
    WithoutIdempotent(rows, owned);
  }

  /** The two deletes remove exactly the venue's rows under either source. */
  lemma KeptIsWithoutOwned(rows: seq<Row<Asset>>, norm: string)
    ensures Kept(rows, norm) == Without(rows, OwnedBy(norm, LegacySource(norm)))
  {
    var legacy := LegacySource(norm);
    var owned := OwnedBy(norm, legacy);
    var kept := Without(rows, SourceIs(norm));
    if legacy.Some? {
      WithoutTwice(rows, SourceIs(norm), SourceIs(legacy.value), owned);
    } else {
      WithoutTwice(rows, SourceIs(norm), _ => false, owned);
      WithoutNothing(kept);
    }
  }

  lemma {:induction false} WithoutNothing(rows: seq<Row<Asset>>)
    ensures Without(rows, _ => false) == rows
  {
    if rows != [] { WithoutNothing(rows[1..]); }
  }

  lemma {:induction false} WithoutIdempotent(rows: seq<Row<Asset>>, p: Asset -> bool)
    ensures Without(Without(rows, p), p) == Without(rows, p)
  {
    if rows != [] {
      WithoutIdempotent(rows[1..], p);
      if !p(rows[0].value) {
        assert Without(rows, p)[1..] == Without(rows[1..], p);
      }
    }
  }

  // ----------------------------------------------------------------- delete

  /** `deleteExchange(id, name)`: removes the config keyed `id` and every asset
      whose source is exactly `name`. */
  method DeleteExchange(configs: Table<ExchangeConfig>, assets: Table<Asset>, id: nat, exchangeName: string)
    requires configs.Valid() && assets.Valid()
    modifies configs, assets
    ensures configs.Valid() && assets.Valid()
    ensures forall x :: x in configs.rows <==> x in old(configs.rows) && x.id != id
    ensures assets.rows == Without(old(assets.rows), SourceIs(exchangeName))
  {
    configs.Delete(id);
    assets.DeleteWhere(SourceIs(exchangeName));
  }
}
