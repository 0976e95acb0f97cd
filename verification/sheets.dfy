/** The Google Sheets side of the sync: reading the portfolio rows, writing the
    local assets as a header row plus one 8-column row per asset, clearing the
    sheet, and finding the spreadsheet to use (cached id, then the newest Drive
    match, then a new spreadsheet). A 401 answer is reported as "UNAUTHORIZED". */
module Sheets {
  import opened Base
  import opened Database

  /** An HTTP exchange: the request (or `response.json()`) threw with a message,
      or a status came back with the decoded body (or the decoding error). */
  datatype Http<+T> = Threw(message: string) | Answered(status: int, body: Result<T>)

  const Unauthorized: string := "UNAUTHORIZED"

  /** The common reading of an answer: a throw propagates, a 401 becomes
      "UNAUTHORIZED" before the body is read, and otherwise the body is the result. */
  function Checked<T>(reply: Http<T>): (r: Result<T>)
    ensures reply.Answered? && reply.status == 401 ==> r == Err(Unauthorized)
    ensures reply.Threw? ==> r == Err(reply.message)
    ensures reply.Answered? && reply.status != 401 ==> r == reply.body
  {
    match reply
    case Threw(m) => Err(m)
    case Answered(status, body) => if status == 401 then Err(Unauthorized) else body
  }

  // ----------------------------------------------------------------- reading

  /** `fetchPortfolio`: the rows from A2 down (the header row is not read);
      `values` is None when the answer has no `values` field (or a falsy one, or
      is a document other than `null` that is not an object); a `null` document
      is a decoding error, since reading its `values` throws. */
  function FetchPortfolio(reply: Http<Option<seq<seq<string>>>>): (r: Result<seq<seq<string>>>)
    ensures reply.Answered? && reply.status == 401 ==> r == Err(Unauthorized)
    ensures reply.Threw? ==> r == Err(reply.message)
    ensures reply.Answered? && reply.status != 401 && reply.body.Err? ==> r == Err(reply.body.error)
    ensures reply.Answered? && reply.status != 401 && reply.body.Ok? ==> r.Ok?
    ensures r.Ok? ==> reply.Answered? && reply.status != 401 && reply.body.Ok?
    ensures r.Ok? && reply.body.value.None? ==> r.value == []
    ensures r.Ok? && reply.body.value.Some? ==> r.value == reply.body.value.value
  {
    var checked := Checked(reply);
    if checked.Err? then Err(checked.error)
    else if checked.value.Some? then Ok(checked.value.value)
    else Ok([])
  }

  const PortfolioReadRange: string := "Portfolio!A2:H1000"

  // ----------------------------------------------------------------- writing

  /** One cell written to the sheet. */
  datatype Cell = Text(text: string) | Amount(amount: Number) | Time(millis: int)

  const Header: seq<Cell> := [Text("RecordId"), Text("Symbol"), Text("Name"), Text("Type"),
                              Text("Market"), Text("Quantity"), Text("Cost"), Text("LastUpdated")]

  function AssetRow(a: Asset): seq<Cell> {
    [Text(a.recordId), Text(a.symbol), Text(a.name), Text(a.assetType), Text(a.market),
     Amount(a.quantity), Amount(a.cost), Time(a.lastUpdated)]
  }

  /** The `values` of the PUT body: the header row, then one row per asset in order. */
  function UploadBody(assets: seq<Asset>): (rows: seq<seq<Cell>>)
    ensures |rows| == |assets| + 1 && rows[0] == Header
    ensures forall i :: 0 <= i < |assets| ==> rows[i + 1] == AssetRow(assets[i])
  {
    [Header] + seq(|assets|, i requires 0 <= i < |assets| => AssetRow(assets[i]))
  }

  /** Reading column `k` back out of an asset row. */
  function Column(a: Asset, k: nat): Cell
    requires k < 8
  {
    match k
    case 0 => Text(a.recordId)
    case 1 => Text(a.symbol)
    case 2 => Text(a.name)
    case 3 => Text(a.assetType)
    case 4 => Text(a.market)
    case 5 => Amount(a.quantity)
    case 6 => Amount(a.cost)
    case _ => Time(a.lastUpdated)
  }

  /** Every row of the body has the header's eight columns, and column `k` of the
      row under the header's `k`-th title holds the asset field that title names. */
  lemma UploadBodyColumns(assets: seq<Asset>)
    ensures forall r :: r in UploadBody(assets) ==> |r| == 8
    ensures forall i, k :: 0 <= i < |assets| && 0 <= k < 8 ==>
      UploadBody(assets)[i + 1][k] == Column(assets[i], k)
  {
    forall i, k | 0 <= i < |assets| && 0 <= k < 8
      ensures UploadBody(assets)[i + 1][k] == Column(assets[i], k)
    {
      RowColumns(assets[i]);
    }
  }

  lemma RowColumns(a: Asset)
    ensures |AssetRow(a)| == 8
    ensures forall k :: 0 <= k < 8 ==> AssetRow(a)[k] == Column(a, k)
  {
  }

  /** The written range: rows 1 to n + 1 of columns A to H. */
  function UploadRange(n: nat): string {
    "Portfolio!A1:H" + NatToString(n + 1)
  }

  /** The range written ends at the row the body's last row lands on. */
  lemma UploadRangeFitsBody(assets: seq<Asset>)
    ensures UploadRange(|assets|) == "Portfolio!A1:H" + NatToString(|UploadBody(assets)|)
  {
  }

  /** The PUT request `updatePortfolio` sends. */
  datatype Put = Put(spreadsheetId: string, range: string, values: seq<seq<Cell>>)

  /** `updatePortfolio` writes to the chosen spreadsheet the header followed by one
      row per asset, in order, over a range that ends at the last row written. */
  function UploadRequest(spreadsheetId: string, assets: seq<Asset>): (p: Put)
    ensures p.spreadsheetId == spreadsheetId
    ensures |p.values| == |assets| + 1 && p.values[0] == Header
    ensures forall i :: 0 <= i < |assets| ==> p.values[i + 1] == AssetRow(assets[i])
    ensures p.range == "Portfolio!A1:H" + NatToString(|p.values|)
  {
    UploadRangeFitsBody(assets);
    Put(spreadsheetId, UploadRange(|assets|), UploadBody(assets))
  }

  /** `updatePortfolio`'s outcome once the PUT is answered. */
  function UpdateOutcome(reply: Http<()>): (r: Result<()>)
    ensures reply.Answered? && reply.status == 401 ==> r == Err(Unauthorized)
    ensures reply.Threw? ==> r == Err(reply.message)
    ensures reply.Answered? && reply.status != 401 ==> r == reply.body
  {
    Checked(reply)
  }

  /** `clearSheet`'s outcome: the body is not read. */
  function ClearOutcome(reply: Http<()>): (r: Result<()>)
    ensures reply.Answered? && reply.status == 401 ==> r == Err(Unauthorized)
    ensures reply.Answered? && reply.status != 401 ==> r == Ok(())
  {
    match reply
    case Threw(m) => Err(m)
    case Answered(status, _) => if status == 401 then Err(Unauthorized) else Ok(())
  }

  // -------------------------------------------------------- finding the sheet

  /** A Drive search match; `modifiedTime` is the parsed time in milliseconds. */
  datatype DriveFile = DriveFile(id: string, modifiedTime: int)

  /** The index of the file a stable newest-first sort puts first: the earliest of
      the files with the latest modification time. */
  function NewestOf(files: seq<DriveFile>): (k: nat)
    requires |files| > 0
    ensures k < |files|
    ensures forall j :: 0 <= j < |files| ==> files[j].modifiedTime <= files[k].modifiedTime
    ensures forall j :: 0 <= j < k ==> files[j].modifiedTime < files[k].modifiedTime
  {
    if |files| == 1 then 0
    else
      var k := NewestOf(files[..|files| - 1]);
      if files[|files| - 1].modifiedTime > files[k].modifiedTime then |files| - 1 else k
  }

  /** The scan that finds the newest match. */
  method Newest(files: seq<DriveFile>) returns (k: nat)
    requires |files| > 0
    ensures k == NewestOf(files)
  {
    k := 0;
    var i := 1;
    while i < |files|
      invariant 1 <= i <= |files|
      invariant k == NewestOf(files[..i])
    {
      assert files[..i + 1][..i] == files[..i];
      if files[i].modifiedTime > files[k].modifiedTime {
        k := i;
      }
      i := i + 1;
    }
    assert files[..i] == files;
  }

  /** What resolving the spreadsheet gives, and the id stored afterwards ("" for none). */
  datatype Resolution = Resolution(outcome: Result<string>, stored: string)

  /** The Drive search matches: None when the search or its decoding threw (the
      error is swallowed), otherwise `files` ([] when absent). */
  function Matches(search: Option<seq<DriveFile>>): seq<DriveFile> {
    if search.Some? then search.value else []
  }

  /** `findOrCreateSpreadsheet`: a stored id is used as it is; otherwise the newest
      Drive match is stored and used; otherwise a spreadsheet is created and its
      id stored when the answer has one. `create` carries `spreadsheetId` ("" when absent). */
  function Resolve(stored: string, search: Option<seq<DriveFile>>, create: Http<string>): Resolution {
    if stored != "" then Resolution(Ok(stored), stored)
    else
      var files := Matches(search);
      if |files| > 0 then
        var id := files[NewestOf(files)].id;
        Resolution(Ok(id), id)
      else
        var created := Checked(create);
        Resolution(created, if created.Ok? && created.value != "" then created.value else stored)
  }

  /** A stored id is returned at once, whatever Drive and the create call would answer. */
  lemma StoredIdShortCircuits(stored: string, search: Option<seq<DriveFile>>, create: Http<string>,
                              search': Option<seq<DriveFile>>, create': Http<string>)
    requires stored != ""
    ensures Resolve(stored, search, create) == Resolve(stored, search', create') == Resolution(Ok(stored), stored)
  {
  }

  /** Without a stored id, any Drive match wins over creation: the most recently
      modified match (the earliest of equally recent ones) is used and stored. */
  lemma NewestMatchWins(search: Option<seq<DriveFile>>, create: Http<string>, create': Http<string>)
    requires |Matches(search)| > 0
    ensures var files := Matches(search);
      var r := Resolve("", search, create);
      && r == Resolve("", search, create')
      && r.outcome.Ok? && r.stored == r.outcome.value
      && exists k :: 0 <= k < |files| && files[k].id == r.outcome.value
           && (forall j :: 0 <= j < |files| ==> files[j].modifiedTime <= files[k].modifiedTime)
           && (forall j :: 0 <= j < k ==> files[j].modifiedTime < files[k].modifiedTime)
  {
    var files := Matches(search);
    var k := NewestOf(files);
    assert files[k].id == Resolve("", search, create).outcome.value;
  }

  /** A failed or empty search falls through to creation: a 401 is "UNAUTHORIZED",
      and a created id is stored only when the answer has one. */
  lemma CreateFallback(search: Option<seq<DriveFile>>, create: Http<string>)
    requires |Matches(search)| == 0
    ensures Resolve("", search, create).outcome == Checked(create)
    ensures create.Answered? && create.status == 401 ==>
      Resolve("", search, create).outcome == Err(Unauthorized) && Resolve("", search, create).stored == ""
    ensures Resolve("", search, create).stored != "" <==>
      Checked(create).Ok? && Checked(create).value != ""
  {
  }

  /** The browser's local storage slot `google_spreadsheet_id` ("" when empty). */
  class SpreadsheetLocator {
    var stored: string

    constructor (stored: string)
      ensures this.stored == stored
    {
      this.stored := stored;
    }

    /** `findOrCreateSpreadsheet(accessToken)` with the Drive search and the create
        call answered by `search` and `create`. */
    method FindOrCreate(search: Option<seq<DriveFile>>, create: Http<string>) returns (r: Result<string>)
      modifies this
      ensures r == Resolve(old(stored), search, create).outcome
      ensures stored == Resolve(old(stored), search, create).stored
    {
      if stored != "" {
        return Ok(stored);
      }
      if search.Some? && |search.value| > 0 {
        var k := Newest(search.value);
        stored := search.value[k].id;
        return Ok(search.value[k].id);
      }
      r := Checked(create);
      if r.Ok? && r.value != "" {
        stored := r.value;
      }
    }
  }
}
