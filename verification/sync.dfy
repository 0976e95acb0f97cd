/** One sync pass with the spreadsheet: resolve the spreadsheet, read its rows,
    push every local asset to it, then store the rows that were read as local
    assets, and record the pass in the sync log whether it succeeded or failed. */
module Sync {
  import opened Base
  import opened Tables
  import opened Database
  import opened Sheets

  /** Cell `k` of a fetched row; a cell the row does not reach reads as "". */
  function CellAt(row: seq<string>, k: nat): string {
    if k < |row| then row[k] else ""
  }

  /** `parseFloat` and `parseInt` (None for NaN), and `Date.now()`. */
  datatype Parsers = Parsers(parseFloat: string -> Number, parseInt: string -> Option<int>, now: int)

  /** The asset a fetched row becomes, read by position; it has no record id and no source. */
  function RowToAsset(row: seq<string>, p: Parsers): Asset {
    var stamp := p.parseInt(CellAt(row, 6));
    Asset("", CellAt(row, 0), CellAt(row, 1), CellAt(row, 2), CellAt(row, 3),
          p.parseFloat(CellAt(row, 4)), p.parseFloat(CellAt(row, 5)), None,
          if stamp.Some? && stamp.value != 0 then stamp.value else p.now, "")
  }

  function RemoteAssets(rows: seq<seq<string>>, p: Parsers): (assets: seq<Asset>)
    ensures |assets| == |rows|
    ensures forall i :: 0 <= i < |rows| ==> assets[i] == RowToAsset(rows[i], p)
  {
    seq(|rows|, i requires 0 <= i < |rows| => RowToAsset(rows[i], p))
  }

  /** Row `i` gives asset `i`: symbol, name, type and market from cells 0 to 3, the
      parsed quantity and cost from cells 4 and 5, and the parsed time of cell 6,
      or the current time when that is missing or zero; cell 7 and beyond are
      ignored, and no record id, price or source is set. */
  lemma RemoteRowsPositional(rows: seq<seq<string>>, p: Parsers)
    ensures forall i :: 0 <= i < |rows| ==>
      var a := RemoteAssets(rows, p)[i];
      var row := rows[i];
      && a.symbol == CellAt(row, 0) && a.name == CellAt(row, 1)
      && a.assetType == CellAt(row, 2) && a.market == CellAt(row, 3)
      && a.quantity == p.parseFloat(CellAt(row, 4)) && a.cost == p.parseFloat(CellAt(row, 5))
      && (p.parseInt(CellAt(row, 6)) in {None, Some(0)} ==> a.lastUpdated == p.now)
      && (p.parseInt(CellAt(row, 6)) !in {None, Some(0)} ==> Some(a.lastUpdated) == p.parseInt(CellAt(row, 6)))
      && a.recordId == "" && a.source == "" && a.currentPrice == None
      && (|row| > 7 ==> RowToAsset(row[..7], p) == a)
  {
    forall i | 0 <= i < |rows| && |rows[i]| > 7
      ensures RowToAsset(rows[i][..7], p) == RowToAsset(rows[i], p)
    {
      var row := rows[i];
      assert forall k :: k < 7 ==> CellAt(row[..7], k) == CellAt(row, k);
    }
  }

  const NoSpreadsheet: string := "Could not find or create spreadsheet"

  /** How a pass ends: `{success: true, count}` or `{success: false, error}`. */
  datatype Outcome = Synced(count: nat) | SyncFailed(error: string)

  /** The sync-log record a pass appends. */
  function LogFor(outcome: Outcome, now: int): SyncLog {
    match outcome
    case Synced(n) => SyncLog(now, Succeeded, "Synced " + NatToString(n) + " assets")
    case SyncFailed(e) => SyncLog(now, Failed, e)
  }

  /** The pass up to the point where remote rows are stored: the spreadsheet id,
      the rows read from it and the push of the local assets, or the first error. */
  function Plan(resolved: Result<string>, fetch: Http<Option<seq<seq<string>>>>, put: Http<()>)
    : Result<seq<seq<string>>>
  {
    if resolved.Err? then Err(resolved.error)
    else if resolved.value == "" then Err(NoSpreadsheet)
    else
      var rows := FetchPortfolio(fetch);
      if rows.Err? then rows
      else
        var pushed := UpdateOutcome(put);
        if pushed.Err? then Err(pushed.error) else rows
  }

  /** A missing spreadsheet id fails the pass before anything is read or written,
      and a 401 at any step fails it with "UNAUTHORIZED". */
  lemma PlanErrors(resolved: Result<string>, fetch: Http<Option<seq<seq<string>>>>, put: Http<()>,
                   fetch': Http<Option<seq<seq<string>>>>, put': Http<()>)
    ensures resolved == Ok("") ==> Plan(resolved, fetch, put) == Plan(resolved, fetch', put') == Err(NoSpreadsheet)
    ensures resolved.Ok? && resolved.value != "" && fetch.Answered? && fetch.status == 401 ==>
      Plan(resolved, fetch, put) == Err(Unauthorized)
    ensures resolved.Ok? && resolved.value != "" && FetchPortfolio(fetch).Ok? && put.Answered? && put.status == 401 ==>
      Plan(resolved, fetch, put) == Err(Unauthorized)
  {
  }

  /** `sync(accessToken)`. The spreadsheet is resolved through `locator`; the rows
      read, the push of the local assets (`pushed`, the request sent, None when the
      pass failed earlier) and the storing of the rows read as new local assets
      happen in that order; one log record is appended in every case; nothing is
      thrown. The local assets are read before any remote row is stored. */
  method Sync(assets: Table<Asset>, logs: Table<SyncLog>, locator: SpreadsheetLocator,
              search: Option<seq<DriveFile>>, create: Http<string>,
              fetch: Http<Option<seq<seq<string>>>>, put: Http<()>, p: Parsers)
    returns (outcome: Outcome, pushed: Option<Put>)
    requires assets.Valid() && logs.Valid()
    modifies assets, logs, locator
    ensures assets.Valid() && logs.Valid()
    ensures locator.stored == Resolve(old(locator.stored), search, create).stored
    ensures var resolved := Resolve(old(locator.stored), search, create).outcome;
      var plan := Plan(resolved, fetch, put);
      && outcome == (if plan.Ok? then Synced(|old(assets.rows)|) else SyncFailed(plan.error))
      && (resolved.Err? || resolved.value == "" || FetchPortfolio(fetch).Err? ==> pushed.None?)
      && (resolved.Ok? && resolved.value != "" && FetchPortfolio(fetch).Ok? ==>
            pushed == Some(UploadRequest(resolved.value, Values(old(assets.rows)))))
      && assets.rows == (if plan.Ok? && |plan.value| > 0
                         then old(assets.rows) + Numbered(old(assets.nextId), RemoteAssets(plan.value, p))
                         else old(assets.rows))
    ensures logs.rows == old(logs.rows) + [Row(old(logs.nextId), LogFor(outcome, p.now))]
  {
    pushed := None;
    var resolved := locator.FindOrCreate(search, create);
    if resolved.Err? {
      outcome := SyncFailed(resolved.error);
    } else if resolved.value == "" {
      outcome := SyncFailed(NoSpreadsheet);
    } else {
      var remote := FetchPortfolio(fetch);
      if remote.Err? {
        outcome := SyncFailed(remote.error);
      } else {
        var local := assets.ToArray();
        pushed := Some(UploadRequest(resolved.value, local));
        var done := UpdateOutcome(put);
        if done.Err? {
          outcome := SyncFailed(done.error);
        } else {
          if |remote.value| > 0 {
            assets.BulkAdd(RemoteAssets(remote.value, p));
          }
          outcome := Synced(|local|);
        }
      }
    }
    var _ := logs.Add(LogFor(outcome, p.now));
  }
}
