/** The records of the local database (`Asset`, `ExchangeConfig`, `SyncLog`,
    `HistoryRecord`) and the version-4 upgrade that gives every stored asset a
    source and a canonically spelled market. */
module Database {
  import opened Base
  import opened Tables

  /** The three markets the application knows. */
  datatype Market = TW | US | Crypto

  function MarketName(m: Market): string {
    match m
    case TW => "TW"
    case US => "US"
    case Crypto => "Crypto"
  }

  /** An asset record. Text fields hold whatever was stored: the sync pass writes
      raw sheet cells into `assetType` and `market`, and the empty string stands
      for a field the record does not carry (no `recordId`, no `source`). */
  datatype Asset = Asset(
    recordId: string,
    symbol: string,
    name: string,
    assetType: string,
    market: string,
    quantity: Number,
    cost: Number,
    currentPrice: Option<Number>,
    lastUpdated: int,
    source: string)

  datatype ExchangeConfig = ExchangeConfig(
    exchangeName: string,
    apiKey: string,
    apiSecret: string,
    lastSynced: Option<int>)

  datatype SyncStatus = Succeeded | Failed

  datatype SyncLog = SyncLog(lastSyncTime: int, status: SyncStatus, message: string)

  /** One day's total; `date` is the ISO day `YYYY-MM-DD`. */
  datatype HistoryRecord = HistoryRecord(
    date: string,
    totalValue: Number,
    currency: string,
    note: Option<string>)

  // ------------------------------------------------------ version 4 upgrade

  /** A market is canonical when its case-insensitive spelling, if it is one of
      the three known markets, is the application's own spelling. */
  predicate CanonicalMarket(market: string) {
    && (Upper(market) == "CRYPTO" ==> market == "Crypto")
    && (Upper(market) == "TW" ==> market == "TW")
    && (Upper(market) == "US" ==> market == "US")
  }

  function NormalizeMarket(market: string): string {
    var m := Upper(market);
    if m == "CRYPTO" then "Crypto"
    else if m == "TW" then "TW"
    else if m == "US" then "US"
    else market
  }

  /** The per-record step of the version-4 upgrade. */
  function Upgrade(a: Asset): (r: Asset)
    ensures r.source != "" && CanonicalMarket(r.market)
    ensures r == a.(source := r.source, market := r.market)
  {
    assert Upper("Crypto") == "CRYPTO";
    assert Upper("TW") == "TW" && Upper("US") == "US";
    a.(source := if a.source == "" then "manual" else a.source,
       market := NormalizeMarket(a.market))
  }

  /** A known market in any letter case is rewritten to its own spelling, an
      existing source is kept, and a missing one becomes "manual". */
  lemma UpgradeFields(a: Asset)
    ensures a.source != "" ==> Upgrade(a).source == a.source
    ensures a.source == "" ==> Upgrade(a).source == "manual"
    ensures Upper(a.market) == Upper("Crypto") ==> Upgrade(a).market == "Crypto"
    ensures Upper(a.market) == Upper("tw") ==> Upgrade(a).market == "TW"
    ensures Upper(a.market) == Upper("us") ==> Upgrade(a).market == "US"
    ensures Upper(a.market) !in {"CRYPTO", "TW", "US"} ==> Upgrade(a).market == a.market
  {
    assert Upper("Crypto") == "CRYPTO";
    assert Upper("tw") == "TW" && Upper("us") == "US";
  }

  /** A record that already has a source and a canonical market is left as it is. */
  lemma {:induction false} UpgradeKeepsNormalRecord(a: Asset)
    requires a.source != "" && CanonicalMarket(a.market)
    ensures Upgrade(a) == a
  {
  }

  /** Upgrading twice is the same as upgrading once. */
  lemma {:induction false} UpgradeIdempotent(a: Asset)
    ensures Upgrade(Upgrade(a)) == Upgrade(a)
  {
    UpgradeKeepsNormalRecord(Upgrade(a));
  }

  /** `version(4).upgrade`: every stored asset is rewritten in place by `Upgrade`;
      no record is added or removed and every key stays. */
  method UpgradeToVersion4(assets: Table<Asset>)
    requires assets.Valid()
    modifies assets
    ensures assets.Valid() && assets.nextId == old(assets.nextId)
    ensures |assets.rows| == |old(assets.rows)|
    ensures forall i :: 0 <= i < |assets.rows| ==>
      assets.rows[i] == Row(old(assets.rows)[i].id, Upgrade(old(assets.rows)[i].value))
  {
    assets.ModifyAll(Upgrade);
  }
}
