/** The records the add-asset and edit-asset forms write: a new manual asset
    built from the form's text fields, and the patch an edit applies, which
    leaves the quantity of an exchange-synced asset alone. */
module AssetForms {
  import opened Base
  import opened Tables
  import opened Database

  // --------------------------------------------------------------- adding

  /** The add form's fields as typed. */
  datatype AddForm = AddForm(symbol: string, name: string, market: Market, quantity: string, cost: string)

  /** The symbol stored: trimmed and upper-cased, with ".TW" appended for the TW
      market when it has no dot. */
  function FinalSymbol(symbol: string, market: Market): string {
    var s := Upper(Trim(symbol));
    if market == TW && !Contains(s, '.') then s + ".TW" else s
  }

  /** The record `handleSubmit` adds; `parseFloat` and `Date.now()` are parameters.
      It carries no record id and no source. */
  function NewAsset(form: AddForm, parseFloat: string -> Number, now: int): Asset {
    var symbol := FinalSymbol(form.symbol, form.market);
    var cost := Num(OrZero(parseFloat(form.cost)));
    Asset("", symbol,
          if Trim(form.name) != "" then Trim(form.name) else symbol,
          if form.market == Crypto then "crypto" else "stock",
          MarketName(form.market),
          Num(OrZero(parseFloat(form.quantity))), cost, Some(cost), now, "")
  }

  /** Upper-casing a trimmed string leaves it trimmed and upper case. */
  lemma UpperTrimmed(s: string)
    requires Trimmed(s)
    ensures Trimmed(Upper(s)) && Upper(Upper(s)) == Upper(s)
  {
    UpperIdempotent(s);
  }

  /** Appending ".TW" to a trimmed upper-case string keeps it trimmed and upper
      case, and gives it a dot. */
  lemma AppendSuffix(s: string)
    requires Trimmed(s) && Upper(s) == s
    ensures var t := s + ".TW";
      Trimmed(t) && Upper(t) == t && Contains(t, '.') && t != s
  {
    var t := s + ".TW";
    assert t[|s|] == '.' && t[|t| - 1] == 'W';
    if s != [] { assert t[0] == s[0]; }
    assert forall i :: 0 <= i < |s| ==> t[i] == s[i];
    assert forall i :: |s| <= i < |t| ==> t[i] in ".TW";
  }

  /** The stored symbol is upper case with no white space at either end; for TW
      it always has a dot: ".TW" is appended exactly when the trimmed,
      upper-cased symbol has none; other markets keep that symbol as it is. */
  lemma FinalSymbolShape(symbol: string, market: Market)
    ensures var r := FinalSymbol(symbol, market);
      var s := Upper(Trim(symbol));
      && Upper(r) == r && Trimmed(r)
      && (market == TW ==> Contains(r, '.') && (r == s + ".TW" <==> !Contains(s, '.')))
      && (market == TW && Contains(s, '.') ==> r == s)
      && (market != TW ==> r == s)
  {
    var s := Upper(Trim(symbol));
    UpperTrimmed(Trim(symbol));
    AppendSuffix(s);
  }

  /** Submitting the stored symbol again stores the same symbol. */
  lemma {:induction false} FinalSymbolIdempotent(symbol: string, market: Market)
    ensures FinalSymbol(FinalSymbol(symbol, market), market) == FinalSymbol(symbol, market)
  {
    var r := FinalSymbol(symbol, market);
    FinalSymbolShape(symbol, market);
    TrimOfTrimmed(r);
    assert Upper(Trim(r)) == r;
  }

  /** The record added: the type is crypto exactly for the Crypto market; the
      name is the trimmed name, or the symbol when that is blank; quantity and
      cost are the parsed numbers, 0 when they do not parse; the price starts at
      the cost; no record id and no source are set. */
  lemma NewAssetFields(form: AddForm, parseFloat: string -> Number, now: int)
    ensures var a := NewAsset(form, parseFloat, now);
      && a.symbol == FinalSymbol(form.symbol, form.market)
      && (a.assetType == "crypto" <==> form.market == Crypto)
      && (a.assetType != "crypto" ==> a.assetType == "stock")
      && a.market == MarketName(form.market)
      && (Trim(form.name) != "" ==> a.name == Trim(form.name))
      && (Trim(form.name) == "" ==> a.name == a.symbol)
      && a.quantity.Num? && a.cost.Num?
      && (parseFloat(form.quantity).Num? ==> a.quantity == parseFloat(form.quantity))
      && (parseFloat(form.quantity).NaN? ==> a.quantity == Num(0.0))
      && (parseFloat(form.cost).Num? ==> a.cost == parseFloat(form.cost))
      && (parseFloat(form.cost).NaN? ==> a.cost == Num(0.0))
      && a.currentPrice == Some(a.cost)
      && a.lastUpdated == now && a.recordId == "" && a.source == ""
  {
  }

  /** `handleSubmit` of the add form: exactly one record is added. */
  method SubmitAdd(assets: Table<Asset>, form: AddForm, parseFloat: string -> Number, now: int) returns (id: nat)
    requires assets.Valid()
    modifies assets
    ensures assets.Valid()
    ensures id == old(assets.nextId) && assets.nextId == id + 1
    ensures assets.rows == old(assets.rows) + [Row(id, NewAsset(form, parseFloat, now))]
  {
    id := assets.Add(NewAsset(form, parseFloat, now));
  }

  // -------------------------------------------------------------- editing

  /** An asset kept in step with an exchange account. */
  predicate IsSynced(a: Asset) {
    a.source == "pionex" || a.source == "bitopro"
  }

  /** The edit form's fields as typed. */
  datatype EditForm = EditForm(quantity: string, cost: string, name: string)

  /** The changes `handleSubmit` writes to the stored record, computed from the
      asset the form shows (`shown`). */
  function EditPatch(shown: Asset, form: EditForm, parseFloat: string -> Number, now: int): Asset -> Asset {
    (stored: Asset) => stored.(
      quantity := if IsSynced(shown) then shown.quantity else Num(OrZero(parseFloat(form.quantity))),
      cost := Num(OrZero(parseFloat(form.cost))),
      name := if Trim(form.name) != "" then Trim(form.name) else shown.symbol,
      lastUpdated := now)
  }

  /** An edit changes only quantity, cost, name and time: symbol, type, market,
      price, source and record id stay. A synced asset keeps its quantity
      whatever was typed; any other takes the parsed quantity, 0 when it does
      not parse. The cost is the parsed cost, 0 when it does not parse; the name
      is the trimmed name, or the symbol when that is blank. */
  lemma EditPatchFields(shown: Asset, stored: Asset, form: EditForm, parseFloat: string -> Number, now: int)
    ensures var r := EditPatch(shown, form, parseFloat, now)(stored);
      && r.symbol == stored.symbol && r.assetType == stored.assetType && r.market == stored.market
      && r.currentPrice == stored.currentPrice && r.source == stored.source && r.recordId == stored.recordId
      && (IsSynced(shown) <==> shown.source in {"pionex", "bitopro"})
      && (IsSynced(shown) ==> r.quantity == shown.quantity)
      && (!IsSynced(shown) && parseFloat(form.quantity).Num? ==> r.quantity == parseFloat(form.quantity))
      && (!IsSynced(shown) && parseFloat(form.quantity).NaN? ==> r.quantity == Num(0.0))
      && r.cost.Num?
      && (parseFloat(form.cost).Num? ==> r.cost == parseFloat(form.cost))
      && (parseFloat(form.cost).NaN? ==> r.cost == Num(0.0))
      && (Trim(form.name) != "" ==> r.name == Trim(form.name))
      && (Trim(form.name) == "" ==> r.name == shown.symbol)
      && r.lastUpdated == now
  {
  }

  /** For a synced asset the quantity typed makes no difference. */
  lemma SyncedQuantityFixed(shown: Asset, form: EditForm, quantity': string, parseFloat: string -> Number, now: int)
    requires IsSynced(shown)
    ensures EditPatch(shown, form, parseFloat, now)(shown)
         == EditPatch(shown, form.(quantity := quantity'), parseFloat, now)(shown)
    ensures EditPatch(shown, form, parseFloat, now)(shown).quantity == shown.quantity
  {
  }

  /** `handleSubmit` of the edit form for the asset shown, whose key is `id`
      (None when it has none): without a key, or with key 0, nothing is written;
      otherwise the record keyed `id` is patched. */
  method SubmitEdit(assets: Table<Asset>, id: Option<nat>, shown: Asset, form: EditForm,
                    parseFloat: string -> Number, now: int)
    requires assets.Valid()
    modifies assets
    ensures assets.Valid() && assets.nextId == old(assets.nextId)
    ensures id.None? || id.value == 0 ==> assets.rows == old(assets.rows)
    ensures id.Some? && id.value != 0 ==>
      assets.rows == Patched(old(assets.rows), id.value, EditPatch(shown, form, parseFloat, now))
  {
    if id.None? || id.value == 0 {
      return;
    }
    var _ := assets.Update(id.value, EditPatch(shown, form, parseFloat, now));
  }
}
