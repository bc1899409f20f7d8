/** The live-quote adapter of `src/tools/cotizaciones_tool.py`: currency
    alias normalisation, the JSON API's payload shapes and per-item field
    fallbacks, the lookup of one currency, the PDF table rows, and the
    HTML-then-PDF fallback. The network answers are inputs (`Upstream`);
    `float()` and `str()` come from `Builtins`; the clock is `today`. */
module Quotes {
  import opened Wrappers
  import opened Text
  import opened Dates
  import opened Json

  // ---------------------------------------------------------------------
  // _normalize_moneda

  datatype AliasEntry = AliasEntry(iso: string, aliases: seq<string>)

  /** The alias table, in its listed order. */
  const CurrencyAliases: seq<AliasEntry> := [
    AliasEntry("USD", ["dólar", "dolar", "usd", "dollar", "dólar usa", "dolar usa"]),
    AliasEntry("JPY", ["yen", "jpy", "yen japonés", "yen japones"]),
    AliasEntry("GBP", ["libra", "gbp", "libra esterlina"]),
    AliasEntry("CHF", ["franco suizo", "chf"]),
    AliasEntry("SEK", ["corona sueca", "sek"]),
    AliasEntry("DKK", ["corona danesa", "dkk"]),
    AliasEntry("NOK", ["corona noruega", "nok"]),
    AliasEntry("BRL", ["real", "brl", "real brasileño"]),
    AliasEntry("ARS", ["peso argentino", "ars"]),
    AliasEntry("CAD", ["dólar canadiense", "cad"]),
    AliasEntry("ZAR", ["rand", "zar"]),
    AliasEntry("XDR", ["derechos especiales de giro", "deg", "xdr"]),
    AliasEntry("XAU", ["onza de oro", "oro", "xau"]),
    AliasEntry("CLP", ["peso chileno", "clp"]),
    AliasEntry("EUR", ["euro", "eur"]),
    AliasEntry("UYU", ["peso uruguayo", "uyu"]),
    AliasEntry("AUD", ["dólar australiano", "aud"]),
    AliasEntry("CNY", ["yuan", "renminbi", "cny", "yuan chino"]),
    AliasEntry("SGD", ["dólar de singapur", "sgd"]),
    AliasEntry("BOB", ["boliviano", "bob"]),
    AliasEntry("PEN", ["sol peruano", "pen"]),
    AliasEntry("NZD", ["dólar neozelandés", "nzd"]),
    AliasEntry("MXN", ["peso mexicano", "mxn"]),
    AliasEntry("COP", ["peso colombiano", "cop"]),
    AliasEntry("TWD", ["dólar taiwanés", "twd"]),
    AliasEntry("AED", ["dirham", "emiratos", "aed"]),
    AliasEntry("PYG", ["guaraní", "guarani", "gs", "pyg"])
  ]

  /** Some alias of the list occurs in `m`. */
  predicate SomeAliasIn(m: string, aliases: seq<string>) {
    exists i | 0 <= i < |aliases| :: Contains(m, aliases[i])
  }

  /** `m in aliases or any(alias in m for alias in aliases)`. */
  predicate AliasHit(m: string, e: AliasEntry) {
    m in e.aliases || SomeAliasIn(m, e.aliases)
  }

  /** The first test adds nothing: an alias equal to `m` also occurs in `m`. */
  lemma AliasHitIsSubstringHit(m: string, e: AliasEntry)
    ensures AliasHit(m, e) <==> SomeAliasIn(m, e.aliases)
  {
    if m in e.aliases {
      var i :| 0 <= i < |e.aliases| && e.aliases[i] == m;
      assert StartsWith(m, m);
      assert Contains(m, e.aliases[i]);
    }
  }

  /** The position of the first entry from `k` on that `m` hits. */
  function FirstAliasHitFrom(m: string, table: seq<AliasEntry>, k: nat): (r: Option<nat>)
    requires k <= |table|
    ensures r.Some? ==> k <= r.value < |table| && AliasHit(m, table[r.value])
    ensures r.Some? ==> forall j | k <= j < r.value :: !AliasHit(m, table[j])
    ensures r.None? ==> forall j | k <= j < |table| :: !AliasHit(m, table[j])
    decreases |table| - k
  {
    if k == |table| then None
    else if AliasHit(m, table[k]) then Some(k)
    else FirstAliasHitFrom(m, table, k + 1)
  }

  /** The position of the first table entry that `m` hits. */
  function FirstAliasHit(m: string, table: seq<AliasEntry>): (r: Option<nat>)
    ensures r.Some? ==> r.value < |table| && AliasHit(m, table[r.value])
    ensures r.Some? ==> forall k | 0 <= k < r.value :: !AliasHit(m, table[k])
    ensures r.None? ==> forall k | 0 <= k < |table| :: !AliasHit(m, table[k])
  {
    FirstAliasHitFrom(m, table, 0)
  }

  /** `_normalize_moneda`: the ISO code of the first table entry hit by the
      stripped, lower-cased input, or that input upper-cased. */
  function NormalizeCurrency(moneda: string): string {
    var m := Lower(Strip(moneda));
    match FirstAliasHit(m, CurrencyAliases)
    case Some(j) => CurrencyAliases[j].iso
    case None => Upper(m)
  }

  /** The normalised code is that of the first entry an alias of which occurs
      in the cleaned input; with no such entry it is the input upper-cased. */
  lemma NormalizeCurrencyPicksFirstHit(moneda: string)
    ensures var m := Lower(Strip(moneda));
      var r := NormalizeCurrency(moneda);
      || (exists j | 0 <= j < |CurrencyAliases| ::
            && SomeAliasIn(m, CurrencyAliases[j].aliases)
            && (forall k | 0 <= k < j :: !SomeAliasIn(m, CurrencyAliases[k].aliases))
            && r == CurrencyAliases[j].iso)
      || ((forall k | 0 <= k < |CurrencyAliases| :: !SomeAliasIn(m, CurrencyAliases[k].aliases)) && r == Upper(m))
  {
    var m := Lower(Strip(moneda));
    forall k | 0 <= k < |CurrencyAliases| ensures AliasHit(m, CurrencyAliases[k]) <==> SomeAliasIn(m, CurrencyAliases[k].aliases) {
      AliasHitIsSubstringHit(m, CurrencyAliases[k]);
    }
  }

  // ---------------------------------------------------------------------
  // get_cotizaciones_chaco: payload shapes

  /** The items of a `{"EUR": {...}, ...}` payload: each dict value, given
      its key as `isoCode` unless it already has one; other values dropped. */
  function DictItems(fields: seq<Field>): seq<Json>
    decreases |fields|
  {
    if fields == [] then []
    else
      var f := fields[|fields| - 1];
      DictItems(fields[..|fields| - 1])
      + (if f.value.Obj? then [Obj(SetDefault(f.value.fields, "isoCode", Str(f.key)))] else [])
  }

  /** The list of items each payload shape holds. */
  function ItemsOf(data: Json): seq<Json> {
    if data.Obj? && Has(data, "items") && Get(data, "items").Arr? then Get(data, "items").items
    else if data.Arr? then data.items
    else if data.Obj? then DictItems(data.fields)
    else []
  }

  /** Every item of a dict-of-dicts payload is a dict holding `isoCode`, and
      one whose source dict had `isoCode` keeps it. */
  lemma {:induction false} DictItemsHaveIsoCode(fields: seq<Field>)
    ensures forall x | x in DictItems(fields) :: Has(x, "isoCode")
    ensures |DictItems(fields)| <= |fields|
    decreases |fields|
  {
    if fields != [] {
      DictItemsHaveIsoCode(fields[..|fields| - 1]);
    }
  }

  lemma {:induction false} DictItemsKeepOwnIsoCode(fields: seq<Field>, i: nat)
    requires i < |fields| && fields[i].value.Obj? && Has(fields[i].value, "isoCode")
    ensures fields[i].value in DictItems(fields)
    decreases |fields|
  {
    var last := fields[|fields| - 1];
    if i < |fields| - 1 {
      DictItemsKeepOwnIsoCode(fields[..|fields| - 1], i);
    } else {
      assert SetDefault(last.value.fields, "isoCode", Str(last.key)) == last.value.fields;
    }
  }

  /** The loop at cotizaciones_tool.py:74-89 that flattens a payload into items. */
  method CollectItems(data: Json) returns (items: seq<Json>)
    ensures items == ItemsOf(data)
  {
    if data.Obj? && Has(data, "items") && Get(data, "items").Arr? {
      items := Get(data, "items").items;
    } else if data.Arr? {
      items := data.items;
    } else if data.Obj? {
      items := [];
      var i := 0;
      while i < |data.fields|
        invariant 0 <= i <= |data.fields|
        invariant items == DictItems(data.fields[..i])
      {
        var f := data.fields[i];
        if f.value.Obj? {
          var copy := SetDefault(f.value.fields, "isoCode", Str(f.key));
          items := items + [Obj(copy)];
        }
        assert data.fields[..i + 1][..i] == data.fields[..i];
        i := i + 1;
      }
      assert data.fields[..i] == data.fields;
    } else {
      items := [];
    }
  }

  // ---------------------------------------------------------------------
  // get_cotizaciones_chaco: one row per usable item

  const IsoKeys: seq<string> := ["isoCode", "iso", "currencyCode", "code"]
  const BuyKeys: seq<string> := ["purchasePrice", "purchase_price", "purchase", "buy"]
  const SellKeys: seq<string> := ["salePrice", "sale_price", "sale", "sell"]
  const RawKeys: seq<string> := ["purchasePrice", "salePrice", "purchaseArbitrage"]

  datatype RowMeta = RowMeta(fecha: string, fuente: string, raw: seq<Field>)

  /** A normalised quote row; both prices are always present. */
  datatype Row = Row(moneda: string, compra: real, venta: real, meta: RowMeta)

  /** The first-truthy facts of an `or` chain over `keys`, with result `r`. */
  predicate ChainResult(it: Json, keys: seq<string>, r: Json)
    requires it.Obj? && |keys| > 0
  {
    && (Truthy(r) <==> exists i | 0 <= i < |keys| :: Truthy(Get(it, keys[i])))
    && (Truthy(r) ==> exists i | 0 <= i < |keys| ::
          r == Get(it, keys[i]) && forall j | 0 <= j < i :: !Truthy(Get(it, keys[j])))
    && (!Truthy(r) ==> r == Get(it, keys[|keys| - 1]))
  }

  /** A falsy first value hands the chain on to the remaining keys. */
  lemma ChainTail(it: Json, keys: seq<string>, r: Json)
    requires it.Obj? && |keys| > 1 && !Truthy(Get(it, keys[0]))
    requires ChainResult(it, keys[1..], r)
    ensures ChainResult(it, keys, r)
  {
    var tail := keys[1..];
    assert forall i | 1 <= i < |keys| :: tail[i - 1] == keys[i];
    if Truthy(r) {
      var i :| 0 <= i < |tail| && r == Get(it, tail[i]) && forall j | 0 <= j < i :: !Truthy(Get(it, tail[j]));
      forall j | 0 <= j < i + 1 ensures !Truthy(Get(it, keys[j])) {
        if j > 0 { assert keys[j] == tail[j - 1]; }
      }
      assert r == Get(it, keys[i + 1]);
    } else {
      forall i | 0 <= i < |keys| ensures !Truthy(Get(it, keys[i])) {
        if i > 0 { assert keys[i] == tail[i - 1]; }
      }
    }
  }

  /** `it.get(k1) or it.get(k2) or ...`: the first truthy value, and when
      there is none, the (falsy) value of the last key. */
  function OrChain(it: Json, keys: seq<string>): (r: Json)
    requires it.Obj? && |keys| > 0
    ensures Truthy(r) <==> exists i | 0 <= i < |keys| :: Truthy(Get(it, keys[i]))
    ensures Truthy(r) ==> exists i | 0 <= i < |keys| ::
      r == Get(it, keys[i]) && forall j | 0 <= j < i :: !Truthy(Get(it, keys[j]))
    ensures !Truthy(r) ==> r == Get(it, keys[|keys| - 1])
  {
    var v := Get(it, keys[0]);
    if Truthy(v) || |keys| == 1 then v
    else
      var r := OrChain(it, keys[1..]);
      ChainTail(it, keys, r);
      r
  }

  function IsoOf(it: Json): Json
    requires it.Obj?
  {
    OrChain(it, IsoKeys)
  }

  /** `_safe_get_number` of the buy-price chain. */
  function BuyPrice(b: Builtins, it: Json): Option<real>
    requires it.Obj?
  {
    ToFloat(b, OrChain(it, BuyKeys))
  }

  function SellPrice(b: Builtins, it: Json): Option<real>
    requires it.Obj?
  {
    ToFloat(b, OrChain(it, SellKeys))
  }

  function RawFields(it: Json, keys: seq<string>): seq<Field>
    requires it.Obj?
  {
    if keys == [] then []
    else (if Has(it, keys[0]) then [Field(keys[0], Get(it, keys[0]))] else []) + RawFields(it, keys[1..])
  }

  /** The row an item yields: skipped when it is not a dict, has no truthy
      ISO code, or has neither price; a missing price is copied from the
      other one. */
  function RowOf(b: Builtins, today: Date, it: Json): Option<Row>
    requires IsValid(today)
  {
    if !it.Obj? then None
    else
      var iso := IsoOf(it);
      if !Truthy(iso) then None
      else
        var compra := BuyPrice(b, it);
        var venta := SellPrice(b, it);
        var compra' := if compra.None? && venta.Some? then venta else compra;
        var venta' := if venta.None? && compra'.Some? then compra' else venta;
        if compra'.None? && venta'.None? then None
        else Some(Row(Upper(PyStr(b, iso)), compra'.value, venta'.value,
                      RowMeta(FormatIso(today), "Cambios Chaco", RawFields(it, RawKeys))))
  }

  /** An item yields a row exactly when it is a dict with a truthy code and at
      least one readable price; each price falls back on the other. */
  lemma RowOfFillRule(b: Builtins, today: Date, it: Json)
    requires IsValid(today)
    ensures var r := RowOf(b, today, it);
      && (r.Some? <==> it.Obj? && Truthy(IsoOf(it)) && (BuyPrice(b, it).Some? || SellPrice(b, it).Some?))
      && (r.Some? ==>
        && r.value.moneda == Upper(PyStr(b, IsoOf(it)))
        && r.value.compra == (if BuyPrice(b, it).Some? then BuyPrice(b, it).value else SellPrice(b, it).value)
        && r.value.venta == (if SellPrice(b, it).Some? then SellPrice(b, it).value else BuyPrice(b, it).value)
        && r.value.meta == RowMeta(FormatIso(today), "Cambios Chaco", RawFields(it, RawKeys)))
  {
  }

  /** The rows of a list of items, in item order. */
  function RowsOf(b: Builtins, today: Date, items: seq<Json>): seq<Row>
    requires IsValid(today)
    decreases |items|
  {
    if items == [] then []
    else
      RowsOf(b, today, items[..|items| - 1])
      + match RowOf(b, today, items[|items| - 1]) case Some(r) => [r] case None => []
  }

  /** Rows of consecutive item lists are the rows of each, one after the other. */
  lemma {:induction false} RowsOfAppend(b: Builtins, today: Date, xs: seq<Json>, ys: seq<Json>)
    requires IsValid(today)
    ensures RowsOf(b, today, xs + ys) == RowsOf(b, today, xs) + RowsOf(b, today, ys)
    decreases |ys|
  {
    if ys != [] {
      assert (xs + ys)[..|xs + ys| - 1] == xs + ys[..|ys| - 1];
      RowsOfAppend(b, today, xs, ys[..|ys| - 1]);
    } else {
      assert xs + ys == xs;
    }
  }

  /** Every emitted row comes from some item. */
  lemma {:induction false} RowsOfFromItem(b: Builtins, today: Date, items: seq<Json>, r: Row)
    requires IsValid(today) && r in RowsOf(b, today, items)
    ensures exists i | 0 <= i < |items| :: RowOf(b, today, items[i]) == Some(r)
    decreases |items|
  {
    var init := items[..|items| - 1];
    var last := items[|items| - 1];
    if RowOf(b, today, last) == Some(r) {
      assert RowOf(b, today, items[|items| - 1]) == Some(r);
    } else {
      assert r in RowsOf(b, today, init);
      RowsOfFromItem(b, today, init, r);
      var i :| 0 <= i < |init| && RowOf(b, today, init[i]) == Some(r);
      assert items[i] == init[i];
    }
  }

  /** Every row an item yields is emitted. */
  lemma {:induction false} RowsOfHasItem(b: Builtins, today: Date, items: seq<Json>, i: nat, r: Row)
    requires IsValid(today) && i < |items| && RowOf(b, today, items[i]) == Some(r)
    ensures r in RowsOf(b, today, items)
    decreases |items|
  {
    var init := items[..|items| - 1];
    if i < |items| - 1 {
      assert init[i] == items[i];
      RowsOfHasItem(b, today, init, i, r);
      assert RowsOf(b, today, init) <= RowsOf(b, today, items);
    }
  }

  /** A row is emitted exactly when some item yields it. */
  lemma RowsOfMembers(b: Builtins, today: Date, items: seq<Json>, r: Row)
    requires IsValid(today)
    ensures r in RowsOf(b, today, items) <==> exists i | 0 <= i < |items| :: RowOf(b, today, items[i]) == Some(r)
  {
    if r in RowsOf(b, today, items) {
      RowsOfFromItem(b, today, items, r);
    }
    if exists i | 0 <= i < |items| :: RowOf(b, today, items[i]) == Some(r) {
      var i :| 0 <= i < |items| && RowOf(b, today, items[i]) == Some(r);
      RowsOfHasItem(b, today, items, i, r);
    }
  }

  /** The loop at cotizaciones_tool.py:91-141. */
  method NormalizeRows(b: Builtins, today: Date, items: seq<Json>) returns (rows: seq<Row>)
    requires IsValid(today)
    ensures rows == RowsOf(b, today, items)
  {
    rows := [];
    var i := 0;
    while i < |items|
      invariant 0 <= i <= |items|
      invariant rows == RowsOf(b, today, items[..i])
    {
      var it := items[i];
      assert items[..i + 1][..i] == items[..i];
      if it.Obj? {
        var iso := IsoOf(it);
        if Truthy(iso) {
          var compra := BuyPrice(b, it);
          var venta := SellPrice(b, it);
          if compra.None? && venta.Some? {
            compra := venta;
          }
          if venta.None? && compra.Some? {
            venta := compra;
          }
          if !(compra.None? && venta.None?) {
            rows := rows + [Row(Upper(PyStr(b, iso)), compra.value, venta.value,
                                RowMeta(FormatIso(today), "Cambios Chaco", RawFields(it, RawKeys)))];
          }
        }
      }
      i := i + 1;
    }
    assert items[..i] == items;
  }

  /** All rows of the API answer; a failed request or a body that is not
      JSON yields no rows. */
  function ChacoRows(b: Builtins, today: Date, api: Option<Json>): seq<Row>
    requires IsValid(today)
  {
    match api
    case None => []
    case Some(data) => RowsOf(b, today, ItemsOf(data))
  }

  /** `get_cotizaciones_chaco`, with the request's outcome as `api`. */
  method GetCotizacionesChaco(b: Builtins, today: Date, api: Option<Json>) returns (rows: seq<Row>)
    requires IsValid(today)
    ensures rows == ChacoRows(b, today, api)
    ensures forall r | r in rows :: r.meta.fuente == "Cambios Chaco" && r.meta.fecha == FormatIso(today)
  {
    match api {
      case None =>
        rows := [];
      case Some(data) =>
        var items := CollectItems(data);
        rows := NormalizeRows(b, today, items);
        forall r | r in rows ensures r.meta.fuente == "Cambios Chaco" && r.meta.fecha == FormatIso(today) {
          RowsOfMembers(b, today, items, r);
        }
    }
  }

  // ---------------------------------------------------------------------
  // get_cotizacion_html / find_cotizacion_html

  /** Where the first row for `iso` sits. */
  function FirstRowFor(rows: seq<Row>, iso: string): (r: Option<nat>)
    ensures r.Some? ==> r.value < |rows| && rows[r.value].moneda == iso
    ensures r.Some? ==> forall k | 0 <= k < r.value :: rows[k].moneda != iso
    ensures r.None? ==> forall k | 0 <= k < |rows| :: rows[k].moneda != iso
  {
    if rows == [] then None
    else if rows[0].moneda == iso then Some(0)
    else match FirstRowFor(rows[1..], iso)
      case Some(j) => Some(j + 1)
      case None => None
  }

  /** The dict `get_cotizacion_html` returns for a row it found. */
  function FoundJson(r: Row): Json {
    Obj([Field("result", Obj([Field("moneda", Str(r.moneda)), Field("compra", Num(r.compra)),
                               Field("venta", Num(r.venta))])),
         Field("source", Str(r.meta.fuente)),
         Field("date", Str(r.meta.fecha))])
  }

  /** The dict it returns when no row matches. */
  function NotFoundJson(today: Date): Json
    requires IsValid(today)
  {
    Obj([Field("result", Null), Field("source", Str("Cambios Chaco - no encontrado")),
         Field("date", Str(FormatIso(today)))])
  }

  /** The answer of `get_cotizacion_html` for an already cleaned code: the
      first row carrying `iso`, or the not-found answer. */
  function QuoteFor(rows: seq<Row>, today: Date, iso: string): (r: Json)
    requires IsValid(today)
    ensures r.Obj?
    ensures Truthy(Get(r, "result")) <==> exists k | 0 <= k < |rows| :: rows[k].moneda == iso
    ensures forall k | 0 <= k < |rows| && rows[k].moneda == iso && (forall j | 0 <= j < k :: rows[j].moneda != iso)
              :: r == FoundJson(rows[k])
    ensures !Truthy(Get(r, "result")) ==> r == NotFoundJson(today)
  {
    match FirstRowFor(rows, iso)
    case Some(i) =>
      assert forall k | 0 <= k < |rows| && rows[k].moneda == iso && (forall j | 0 <= j < k :: rows[j].moneda != iso)
        :: k == i;
      FoundJson(rows[i])
    case None => NotFoundJson(today)
  }

  /** `get_cotizacion_html`: the API's rows searched for the stripped,
      upper-cased request. */
  function HtmlLookup(b: Builtins, today: Date, api: Option<Json>, monedaIso: string): Json
    requires IsValid(today)
  {
    QuoteFor(ChacoRows(b, today, api), today, Upper(Strip(monedaIso)))
  }

  /** The `if res and res.get('result')` test of `find_cotizacion_html`. */
  function Found(r: Json): Option<Json> {
    if r.Obj? && Truthy(r) && Truthy(Get(r, "result")) then Some(r) else None
  }

  /** A lookup passes that test exactly when some row carries the code, and
      what passes is the first such row's quote. */
  lemma FoundQuoteFor(rows: seq<Row>, today: Date, iso: string)
    requires IsValid(today)
    ensures Found(QuoteFor(rows, today, iso)).Some? <==> exists k | 0 <= k < |rows| :: rows[k].moneda == iso
    ensures Found(QuoteFor(rows, today, iso)).Some? ==> exists k | 0 <= k < |rows| ::
      && rows[k].moneda == iso
      && (forall j | 0 <= j < k :: rows[j].moneda != iso)
      && Found(QuoteFor(rows, today, iso)).value == FoundJson(rows[k])
  {
    var r := QuoteFor(rows, today, iso);
    var first := FirstRowFor(rows, iso);
    assert first.Some? ==> r == FoundJson(rows[first.value]);
  }

  /** `find_cotizacion_html` as written: it computes the normalised code but
      looks up the raw request. */
  function FindHtmlAsWritten(b: Builtins, today: Date, api: Option<Json>, moneda: string): Option<Json>
    requires IsValid(today)
  {
    Found(HtmlLookup(b, today, api, moneda))
  }

  /** `find_cotizacion_html` as evidently intended: it looks up the
      normalised code it computes. */
  function FindHtml(b: Builtins, today: Date, api: Option<Json>, moneda: string): Option<Json>
    requires IsValid(today)
  {
    Found(HtmlLookup(b, today, api, NormalizeCurrency(moneda)))
  }

  /** What `find_cotizacion_html` passes on is always an HTML answer for
      some row. */
  lemma FindHtmlIsRowAnswer(b: Builtins, today: Date, api: Option<Json>, moneda: string)
    requires IsValid(today)
    ensures FindHtml(b, today, api, moneda).Some? ==>
      exists row :: FindHtml(b, today, api, moneda).value == FoundJson(row)
  {
    var rows := ChacoRows(b, today, api);
    FoundQuoteFor(rows, today, Upper(Strip(NormalizeCurrency(moneda))));
  }

  /** As written, `find_cotizacion_html` finds a quote exactly when some API
      row carries the stripped, upper-cased request itself, and what it
      passes on is the answer for the first such row. */
  lemma FindHtmlAsWrittenLooksUpRequest(b: Builtins, today: Date, api: Option<Json>, moneda: string)
    requires IsValid(today)
    ensures var rows := ChacoRows(b, today, api);
      var iso := Upper(Strip(moneda));
      var r := FindHtmlAsWritten(b, today, api, moneda);
      && (r.Some? <==> exists k | 0 <= k < |rows| :: rows[k].moneda == iso)
      && (r.Some? ==> exists k | 0 <= k < |rows| ::
            rows[k].moneda == iso && (forall j | 0 <= j < k :: rows[j].moneda != iso) && r.value == FoundJson(rows[k]))
  {
    FoundQuoteFor(ChacoRows(b, today, api), today, Upper(Strip(moneda)));
  }

  // ---------------------------------------------------------------------
  // parse_pdf_bytes_for_table

  /** A cell as the PDF table extractor gives it: text, or None. */
  type Cell = Option<string>
  type PdfTable = seq<seq<Cell>>
  type PdfPage = seq<PdfTable>

  datatype PdfRow = PdfRow(moneda: string, compra: Option<real>, venta: Option<real>)

  /** `x.replace('.', '')`. */
  function RemoveDots(s: string): (r: string)
    ensures forall i | 0 <= i < |r| :: r[i] != '.'
    ensures |r| <= |s|
  {
    if s == [] then []
    else (if s[0] == '.' then [] else [s[0]]) + RemoveDots(s[1..])
  }

  /** `x.replace(',', '.')`. */
  function CommasToDots(s: string): (r: string)
    ensures |r| == |s|
    ensures forall i | 0 <= i < |s| :: r[i] == (if s[i] == ',' then '.' else s[i])
  {
    seq(|s|, i requires 0 <= i < |s| => if s[i] == ',' then '.' else s[i])
  }

  /** `to_float`: first read '.' as a thousands separator and ',' as the
      decimal mark; if that does not parse, read only ',' as the decimal mark. */
  function PdfNumber(b: Builtins, x: string): Option<real> {
    match b.parseFloat(CommasToDots(RemoveDots(x)))
    case Some(v) => Some(v)
    case None => b.parseFloat(CommasToDots(x))
  }

  /** `(cell or '').strip()`. */
  function CellText(c: Cell): string {
    Strip(match c case Some(s) => s case None => "")
  }

  /** A table row yields a quote row when it has at least three cells, even
      when neither price parses. */
  function PdfRowOf(b: Builtins, row: seq<Cell>): (r: Option<PdfRow>)
    ensures r.Some? <==> |row| >= 3
  {
    if |row| < 3 then None
    else Some(PdfRow(CellText(row[0]), PdfNumber(b, CellText(row[1])), PdfNumber(b, CellText(row[2]))))
  }

  function TableRows(b: Builtins, t: PdfTable): seq<PdfRow>
    decreases |t|
  {
    if t == [] then []
    else TableRows(b, t[..|t| - 1])
         + match PdfRowOf(b, t[|t| - 1]) case Some(r) => [r] case None => []
  }

  function PageRows(b: Builtins, p: PdfPage): seq<PdfRow>
    decreases |p|
  {
    if p == [] then [] else PageRows(b, p[..|p| - 1]) + TableRows(b, p[|p| - 1])
  }

  /** All quote rows of a document, page by page, table by table, row by row. */
  function PdfRows(b: Builtins, pages: seq<PdfPage>): seq<PdfRow>
    decreases |pages|
  {
    if pages == [] then [] else PdfRows(b, pages[..|pages| - 1]) + PageRows(b, pages[|pages| - 1])
  }

  /** How many rows of a table have three or more cells. */
  function LongRows(t: PdfTable): nat
    decreases |t|
  {
    if t == [] then 0 else LongRows(t[..|t| - 1]) + (if |t[|t| - 1]| >= 3 then 1 else 0)
  }

  /** A table yields one quote row per row with three or more cells. */
  lemma {:induction false} TableRowsCount(b: Builtins, t: PdfTable)
    ensures |TableRows(b, t)| == LongRows(t)
    decreases |t|
  {
    if t != [] {
      TableRowsCount(b, t[..|t| - 1]);
    }
  }

  /** The innermost loop: the rows of one table. */
  method ReadTable(b: Builtins, table: PdfTable) returns (rows: seq<PdfRow>)
    ensures rows == TableRows(b, table)
  {
    rows := [];
    var r := 0;
    while r < |table|
      invariant 0 <= r <= |table|
      invariant rows == TableRows(b, table[..r])
    {
      var row := table[r];
      assert table[..r + 1][..r] == table[..r];
      if |row| >= 3 {
        var moneda := CellText(row[0]);
        var compra := PdfNumber(b, CellText(row[1]));
        var venta := PdfNumber(b, CellText(row[2]));
        rows := rows + [PdfRow(moneda, compra, venta)];
      }
      r := r + 1;
    }
    assert table[..r] == table;
  }

  /** The middle loop: the rows of one page's tables. */
  method ReadPage(b: Builtins, page: PdfPage) returns (rows: seq<PdfRow>)
    ensures rows == PageRows(b, page)
  {
    rows := [];
    var t := 0;
    while t < |page|
      invariant 0 <= t <= |page|
      invariant rows == PageRows(b, page[..t])
    {
      var tableRows := ReadTable(b, page[t]);
      assert page[..t + 1][..t] == page[..t];
      rows := rows + tableRows;
      t := t + 1;
    }
    assert page[..t] == page;
  }

  /** The nested loops of `parse_pdf_bytes_for_table`, over the tables the
      extractor found on each page. */
  method ParsePdfTables(b: Builtins, pages: seq<PdfPage>) returns (rows: seq<PdfRow>)
    ensures rows == PdfRows(b, pages)
  {
    rows := [];
    var p := 0;
    while p < |pages|
      invariant 0 <= p <= |pages|
      invariant rows == PdfRows(b, pages[..p])
    {
      var pageRows := ReadPage(b, pages[p]);
      assert pages[..p + 1][..p] == pages[..p];
      rows := rows + pageRows;
      p := p + 1;
    }
    assert pages[..p] == pages;
  }

  // ---------------------------------------------------------------------
  // find_cotizacion_pdf / get_cotizacion

  /** The row test of `find_cotizacion_pdf` as written: the upper-case key
      against the lower-cased cell. */
  predicate PdfMatchAsWritten(key: string, cell: string) {
    Contains(Lower(cell), key) || Contains(key, Lower(cell))
  }

  /** The row test as evidently intended: both sides lower-cased. */
  predicate PdfMatch(key: string, cell: string) {
    Contains(Lower(cell), Lower(key)) || Contains(Lower(key), Lower(cell))
  }

  function FirstPdfRowAsWritten(key: string, rows: seq<PdfRow>): (r: Option<PdfRow>)
    ensures r.Some? ==> exists i | 0 <= i < |rows| ::
      rows[i] == r.value && PdfMatchAsWritten(key, rows[i].moneda) && forall j | 0 <= j < i :: !PdfMatchAsWritten(key, rows[j].moneda)
    ensures r.None? ==> forall i | 0 <= i < |rows| :: !PdfMatchAsWritten(key, rows[i].moneda)
  {
    if rows == [] then None
    else if PdfMatchAsWritten(key, rows[0].moneda) then Some(rows[0])
    else
      var r := FirstPdfRowAsWritten(key, rows[1..]);
      assert forall i | 1 <= i < |rows| :: rows[i] == rows[1..][i - 1];
      r
  }

  /** The first row whose cell and key contain one another, ignoring case. */
  function FirstPdfRow(key: string, rows: seq<PdfRow>): (r: Option<PdfRow>)
    ensures r.Some? ==> exists i | 0 <= i < |rows| ::
      rows[i] == r.value && PdfMatch(key, rows[i].moneda) && forall j | 0 <= j < i :: !PdfMatch(key, rows[j].moneda)
    ensures r.None? ==> forall i | 0 <= i < |rows| :: !PdfMatch(key, rows[i].moneda)
  {
    if rows == [] then None
    else if PdfMatch(key, rows[0].moneda) then Some(rows[0])
    else
      var r := FirstPdfRow(key, rows[1..]);
      assert forall i | 1 <= i < |rows| :: rows[i] == rows[1..][i - 1];
      r
  }

  /** `find_cotizacion_pdf` (with the intended case-insensitive test); a failed
      download or an unreadable document raises, here `Err`. */
  function FindPdf(b: Builtins, pdf: Result<seq<PdfPage>, string>, moneda: string): Result<Option<PdfRow>, string> {
    match pdf
    case Err(e) => Err(e)
    case Ok(pages) => Ok(FirstPdfRow(NormalizeCurrency(moneda), PdfRows(b, pages)))
  }

  /** `find_cotizacion_pdf` as written: the upper-case code against the
      lower-cased cells. */
  function FindPdfAsWritten(b: Builtins, pdf: Result<seq<PdfPage>, string>, moneda: string): Result<Option<PdfRow>, string> {
    match pdf
    case Err(e) => Err(e)
    case Ok(pages) => Ok(FirstPdfRowAsWritten(NormalizeCurrency(moneda), PdfRows(b, pages)))
  }

  /** The dict a PDF row is: `{'moneda', 'compra', 'venta'}`. */
  function PdfRowJson(r: PdfRow): Json {
    Obj([Field("moneda", Str(r.moneda)),
         Field("compra", match r.compra case Some(v) => Num(v) case None => Null),
         Field("venta", match r.venta case Some(v) => Num(v) case None => Null)])
  }

  /** What the network gives the adapter: the API's decoded answer (None
      when the request or the decoding failed) and the PDF's tables (or the
      exception that downloading or reading it raised). */
  datatype Upstream = Upstream(api: Option<Json>, pdf: Result<seq<PdfPage>, string>)

  /** The answer `get_cotizacion` builds from the two lookups: the HTML
      quote when there is one, else the PDF row, else `{'source': None,
      'result': None}` (a PDF exception is swallowed). */
  function QuoteOf(html: Option<Json>, pdf: Result<Option<PdfRow>, string>): (q: Json)
    ensures q.Obj? && Has(q, "result") && Has(q, "source")
    ensures html.Some? ==> Get(q, "source") == Str("html") && Get(q, "result") == html.value
    ensures html.None? && pdf.Ok? && pdf.value.Some? ==>
      Get(q, "source") == Str("pdf") && Get(q, "result") == PdfRowJson(pdf.value.value)
    ensures html.None? && (pdf.Err? || pdf.value.None?) ==>
      Get(q, "source") == Null && Get(q, "result") == Null
  {
    var (source, result) := match html
      case Some(r) => (Str("html"), r)
      case None =>
        match pdf
        case Ok(Some(row)) => (Str("pdf"), PdfRowJson(row))
        case _ => (Null, Null);
    var q := Obj([Field("source", source), Field("result", result)]);
    assert q.fields[0].key == "source" && q.fields[1].key == "result";
    q
  }

  /** `get_cotizacion`, over the two lookups as written. */
  function GetQuoteAsWritten(b: Builtins, today: Date, up: Upstream, moneda: string): Json
    requires IsValid(today)
  {
    QuoteOf(FindHtmlAsWritten(b, today, up.api, moneda), FindPdfAsWritten(b, up.pdf, moneda))
  }

  /** The adapter as written answers with a dict holding source and
      result, and it is an HTML quote exactly when the API lists the
      stripped, upper-cased request itself. */
  lemma GetQuoteAsWrittenSource(b: Builtins, today: Date, up: Upstream, moneda: string)
    requires IsValid(today)
    ensures var q := GetQuoteAsWritten(b, today, up, moneda);
      && q.Obj? && Has(q, "result") && Has(q, "source")
      && var rows := ChacoRows(b, today, up.api);
         Get(q, "source") == Str("html") <==> exists k | 0 <= k < |rows| :: rows[k].moneda == Upper(Strip(moneda))
  {
    FindHtmlAsWrittenLooksUpRequest(b, today, up.api, moneda);
  }

  /** When the API has a row for the stripped, upper-cased request, the
      adapter answers with the HTML quote of the first such row. */
  lemma GetQuoteAsWrittenHtml(b: Builtins, today: Date, up: Upstream, moneda: string, k: nat)
    requires IsValid(today)
    requires var rows := ChacoRows(b, today, up.api);
      && k < |rows| && rows[k].moneda == Upper(Strip(moneda))
      && forall j | 0 <= j < k :: rows[j].moneda != Upper(Strip(moneda))
    ensures var q := GetQuoteAsWritten(b, today, up, moneda);
      Get(q, "source") == Str("html") && Get(q, "result") == FoundJson(ChacoRows(b, today, up.api)[k])
  {
    FindHtmlAsWrittenLooksUpRequest(b, today, up.api, moneda);
  }

  /** A non-empty string of capital letters, such as an ISO currency code. */
  predicate UpperWord(s: string) {
    s != [] && forall i | 0 <= i < |s| :: IsUpperLetter(s[i])
  }

  /** Every code of the alias table is a word of capitals. */
  lemma AliasCodesAreUpper()
    ensures forall j | 0 <= j < |CurrencyAliases| :: UpperWord(CurrencyAliases[j].iso)
  {
  }

  /** As written, the PDF test of a code of capitals passes exactly the
      blank cells: a lower-cased cell holds no capital, so it neither
      contains the code nor, unless empty, lies inside it. */
  lemma PdfAsWrittenMatchesOnlyBlank(key: string, cell: string)
    requires UpperWord(key)
    ensures PdfMatchAsWritten(key, cell) <==> cell == ""
  {
    var low := Lower(cell);
    if Contains(low, key) {
      ContainsHasChar(low, key, 0);
      assert false;
    }
    if low != [] && Contains(key, low) {
      ContainsHasChar(key, low, 0);
      assert false;
    }
    if cell == "" {
      assert StartsWith(key, low);
    }
  }

  /** As written, `find_cotizacion_pdf` for a request that normalises to a
      code of capitals answers with the first row whose currency cell is
      blank, and with None when there is no such row. */
  lemma FindPdfAsWrittenBlankOnly(b: Builtins, pages: seq<PdfPage>, moneda: string)
    requires UpperWord(NormalizeCurrency(moneda))
    ensures var rows := PdfRows(b, pages);
      var r := FindPdfAsWritten(b, Ok(pages), moneda);
      && r.Ok?
      && (r.value.Some? <==> exists i | 0 <= i < |rows| :: rows[i].moneda == "")
      && (r.value.Some? ==> exists i | 0 <= i < |rows| ::
            rows[i] == r.value.value && rows[i].moneda == "" && forall j | 0 <= j < i :: rows[j].moneda != "")
  {
    var rows := PdfRows(b, pages);
    forall i | 0 <= i < |rows|
      ensures PdfMatchAsWritten(NormalizeCurrency(moneda), rows[i].moneda) <==> rows[i].moneda == ""
    {
      PdfAsWrittenMatchesOnlyBlank(NormalizeCurrency(moneda), rows[i].moneda);
    }
  }

  /** The adapter as written, asked for a currency of the alias table that
      the API does not list under the request itself (say "dólar"), falls
      back to the PDF, where it can only answer with a row whose currency
      cell is blank; with no blank row the answer is source and result None. */
  lemma GetQuoteAsWrittenFallsToBlankRow(b: Builtins, today: Date, up: Upstream, moneda: string)
    requires IsValid(today) && up.pdf.Ok?
    requires FirstAliasHit(Lower(Strip(moneda)), CurrencyAliases).Some?
    requires forall k | 0 <= k < |ChacoRows(b, today, up.api)| :: ChacoRows(b, today, up.api)[k].moneda != Upper(Strip(moneda))
    ensures var q := GetQuoteAsWritten(b, today, up, moneda);
      var rows := PdfRows(b, up.pdf.value);
      && ((exists i | 0 <= i < |rows| :: rows[i].moneda == "") ==>
            Get(q, "source") == Str("pdf") &&
            exists i | 0 <= i < |rows| :: rows[i].moneda == "" && Get(q, "result") == PdfRowJson(rows[i]))
      && ((forall i | 0 <= i < |rows| :: rows[i].moneda != "") ==> Get(q, "source") == Null && Get(q, "result") == Null)
  {
    FindHtmlAsWrittenLooksUpRequest(b, today, up.api, moneda);
    AliasCodesAreUpper();
    FindPdfAsWrittenBlankOnly(b, up.pdf.value, moneda);
  }

  // ---------------------------------------------------------------------
  // What the lookups do with the codes and aliases

  /** The alias "dólar" normalises to USD, while cleaning it alone gives
      "DÓLAR". */
  lemma DolarIsUsd(m: string)
    requires m == "dólar"
    ensures NormalizeCurrency(m) == "USD"
    ensures Upper(Strip(m)) == "DÓLAR"
  {
    StripUnspaced(m);
    assert Lower(m) == m;
    assert StartsWith(m, m);
    assert AliasHit(m, CurrencyAliases[0]);
  }

  lemma UsdIsClean(c: string)
    requires c == "USD"
    ensures Upper(Strip(c)) == c
  {
    StripUnspaced(c);
  }

  /** `find_cotizacion_html` as written misses the quote for an alias: with a
      USD row and no row coded "DÓLAR", asking for "dólar" finds nothing,
      while looking up the normalised code finds the USD row. */
  lemma FindHtmlAsWrittenMissesAlias(b: Builtins, today: Date, api: Option<Json>, m: string)
    requires IsValid(today) && m == "dólar"
    requires exists k | 0 <= k < |ChacoRows(b, today, api)| :: ChacoRows(b, today, api)[k].moneda == "USD"
    requires forall k | 0 <= k < |ChacoRows(b, today, api)| :: ChacoRows(b, today, api)[k].moneda != "DÓLAR"
    ensures FindHtmlAsWritten(b, today, api, m) == None
    ensures FindHtml(b, today, api, m).Some?
  {
    var rows := ChacoRows(b, today, api);
    DolarIsUsd(m);
    FoundQuoteFor(rows, today, "DÓLAR");
    UsdIsClean(NormalizeCurrency(m));
    FoundQuoteFor(rows, today, "USD");
  }

  /** `find_cotizacion_pdf` as written never finds an upper-case code in a
      cell that spells it, while the case-insensitive test does. */
  lemma FindPdfAsWrittenMissesCode(compra: Option<real>, venta: Option<real>)
    ensures FirstPdfRowAsWritten("USD", [PdfRow("USD", compra, venta)]) == None
    ensures FirstPdfRow("USD", [PdfRow("USD", compra, venta)]) == Some(PdfRow("USD", compra, venta))
  {
    assert Lower("USD") == "usd";
    assert StartsWith("usd", "usd");
    assert !Contains("usd", "USD");
    assert !Contains("USD", "usd");
  }

  /** The intended test finds every cell that spells the key in any case. */
  lemma PdfMatchIgnoresCase(key: string, cell: string)
    requires Lower(key) == Lower(cell)
    ensures PdfMatch(key, cell)
  {
    assert StartsWith(Lower(cell), Lower(key));
  }
}
