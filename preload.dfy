/** `scripts/preload_vectorstore.py`: the Banco Central del Paraguay
    quotes of three August 2025 sheets turned into one document per
    (sheet, currency), added to a fresh store in one batch and saved. */
module Preload {
  import opened Wrappers
  import opened Text
  import opened Dates
  import opened Json
  import opened VectorStore
  import Agent

  /** One sheet: its date and its (code, guaraníes per unit) pairs. */
  datatype Planilla = Planilla(fecha: string, monedas: seq<(string, real)>)

  const CotizacionesReales: seq<Planilla> := [
    Planilla("2025-08-11", [
      ("USD", 7263.48), ("JPY", 49.07), ("GBP", 9738.15), ("CHF", 8940.77), ("SEK", 752.79),
      ("DKK", 1129.10), ("NOK", 709.16), ("BRL", 1332.72), ("ARS", 5.44), ("CAD", 5267.97),
      ("ZAR", 408.80), ("XDR", 9923.37), ("XAU", 24308906.42), ("CLP", 7.49), ("EUR", 8425.64),
      ("UYU", 181.77), ("AUD", 4726.35), ("CNY", 1010.53), ("SGD", 5643.29), ("BOB", 1059.34),
      ("PEN", 2057.64), ("NZD", 4307.97), ("MXN", 389.06), ("COP", 1.79), ("TWD", 242.89),
      ("AED", 1977.53)]),
    Planilla("2025-08-08", [
      ("USD", 7271.55), ("JPY", 49.24), ("GBP", 9783.14), ("CHF", 9012.83), ("SEK", 760.19),
      ("DKK", 1136.75), ("NOK", 708.00), ("BRL", 1341.44), ("ARS", 5.49), ("CAD", 5289.17),
      ("ZAR", 410.66), ("XDR", 9930.76), ("XAU", 24681240.44), ("CLP", 7.55), ("EUR", 8483.72),
      ("UYU", 182.34), ("AUD", 4749.05), ("CNY", 1012.16), ("SGD", 5661.00), ("BOB", 1060.77),
      ("PEN", 2062.85), ("NZD", 4332.39), ("MXN", 392.45), ("COP", 1.80), ("TWD", 243.72),
      ("AED", 1980.00)]),
    Planilla("2025-08-07", [
      ("USD", 7299.41), ("JPY", 49.53), ("GBP", 9794.35), ("CHF", 9038.40), ("SEK", 760.68),
      ("DKK", 1138.03), ("NOK", 712.30), ("BRL", 1334.27), ("ARS", 5.49), ("CAD", 5305.96),
      ("ZAR", 410.45), ("XDR", 9979.75), ("XAU", 24729744.13), ("CLP", 7.52), ("EUR", 8492.86),
      ("UYU", 182.58), ("AUD", 4743.16), ("CNY", 1016.52), ("SGD", 5680.03), ("BOB", 1064.05),
      ("PEN", 2061.40), ("NZD", 4335.85), ("MXN", 390.47), ("COP", 1.80), ("TWD", 245.19),
      ("AED", 1987.37)])
  ]

  /** The document of one (date, code, value) triple. The value is printed
      as Python prints a float. */
  function DocOf(b: Builtins, fecha: string, moneda: string, valor: real): Document {
    Document(fecha + "_" + moneda,
             "El " + fecha + " la cotización de " + moneda + " fue " + PyStr(b, Num(valor))
             + " guaraníes por unidad, según el Banco Central del Paraguay.",
             Obj([Field("fecha", Str(fecha)), Field("moneda", Str(moneda)), Field("valor_guaranies", Num(valor))]))
  }

  /** The documents of one sheet, in its currency order. */
  function SheetDocs(b: Builtins, p: Planilla): (ds: seq<Document>)
    ensures |ds| == |p.monedas|
    ensures forall j | 0 <= j < |p.monedas| :: ds[j] == DocOf(b, p.fecha, p.monedas[j].0, p.monedas[j].1)
  {
    seq(|p.monedas|, j requires 0 <= j < |p.monedas| => DocOf(b, p.fecha, p.monedas[j].0, p.monedas[j].1))
  }

  /** The documents of the sheets, sheet after sheet. */
  function DocumentsOf(b: Builtins, ps: seq<Planilla>): seq<Document> {
    if ps == [] then [] else DocumentsOf(b, ps[..|ps| - 1]) + SheetDocs(b, ps[|ps| - 1])
  }

  /** How many currencies the sheets list together. */
  function TotalMonedas(ps: seq<Planilla>): nat {
    if ps == [] then 0 else TotalMonedas(ps[..|ps| - 1]) + |ps[|ps| - 1].monedas|
  }

  /** The nested loop of `main`: every sheet, every currency, appended in
      turn. */
  method BuildDocuments(b: Builtins, ps: seq<Planilla>) returns (docs: seq<Document>)
    ensures docs == DocumentsOf(b, ps)
  {
    docs := [];
    for i := 0 to |ps|
      invariant docs == DocumentsOf(b, ps[..i])
    {
      var p := ps[i];
      for j := 0 to |p.monedas|
        invariant docs == DocumentsOf(b, ps[..i]) + SheetDocs(b, p)[..j]
      {
        var (moneda, valor) := p.monedas[j];
        docs := docs + [DocOf(b, p.fecha, moneda, valor)];
        assert SheetDocs(b, p)[..j + 1] == SheetDocs(b, p)[..j] + [SheetDocs(b, p)[j]];
      }
      assert SheetDocs(b, p)[..|p.monedas|] == SheetDocs(b, p);
      assert ps[..i + 1][..i] == ps[..i];
    }
    assert ps[..|ps|] == ps;
  }

  /** One document per (sheet, currency) pair. */
  lemma {:induction false} DocumentsCount(b: Builtins, ps: seq<Planilla>)
    ensures |DocumentsOf(b, ps)| == TotalMonedas(ps)
    decreases |ps|
  {
    if ps != [] {
      DocumentsCount(b, ps[..|ps| - 1]);
    }
  }

  /** The documents come sheet by sheet, each sheet's in its currency
      order: currency `j` of sheet `i` sits after all the currencies of the
      earlier sheets. */
  lemma {:induction false} DocumentsOrder(b: Builtins, ps: seq<Planilla>, i: nat, j: nat)
    requires i < |ps| && j < |ps[i].monedas|
    ensures TotalMonedas(ps[..i]) + j < |DocumentsOf(b, ps)|
    ensures DocumentsOf(b, ps)[TotalMonedas(ps[..i]) + j] == DocOf(b, ps[i].fecha, ps[i].monedas[j].0, ps[i].monedas[j].1)
    decreases |ps|
  {
    var init := ps[..|ps| - 1];
    DocumentsCount(b, init);
    DocumentsCount(b, ps);
    if i == |ps| - 1 {
      assert ps[..i] == init;
    } else {
      assert init[..i] == ps[..i];
      DocumentsOrder(b, init, i, j);
    }
  }

  /** Every document is the one of some listed (sheet, currency) pair. */
  lemma {:induction false} DocumentsMembers(b: Builtins, ps: seq<Planilla>, k: nat)
    requires k < |DocumentsOf(b, ps)|
    ensures exists i, j | 0 <= i < |ps| && 0 <= j < |ps[i].monedas| ::
      DocumentsOf(b, ps)[k] == DocOf(b, ps[i].fecha, ps[i].monedas[j].0, ps[i].monedas[j].1)
    decreases |ps|
  {
    var init := ps[..|ps| - 1];
    var last := ps[|ps| - 1];
    if k < |DocumentsOf(b, init)| {
      DocumentsMembers(b, init, k);
      var i, j :| 0 <= i < |init| && 0 <= j < |init[i].monedas|
        && DocumentsOf(b, init)[k] == DocOf(b, init[i].fecha, init[i].monedas[j].0, init[i].monedas[j].1);
      assert init[i] == ps[i];
    } else {
      var j := k - |DocumentsOf(b, init)|;
      assert DocumentsOf(b, ps)[k] == SheetDocs(b, last)[j];
    }
  }

  /** An id splits back into its date and code when dates have ten
      characters. */
  lemma IdInjective(f1: string, m1: string, f2: string, m2: string)
    requires |f1| == 10 && |f2| == 10
    requires f1 + "_" + m1 == f2 + "_" + m2
    ensures f1 == f2 && m1 == m2
  {
    var s := f1 + "_" + m1;
    assert f1 == s[..10] == f2;
    assert m1 == s[11..] == m2;
  }

  /** Sheets with distinct ten-character dates, each listing a code once. */
  predicate PairsOnce(ps: seq<Planilla>) {
    && (forall i | 0 <= i < |ps| :: |ps[i].fecha| == 10)
    && (forall i, i2 | 0 <= i < i2 < |ps| :: ps[i].fecha != ps[i2].fecha)
    && (forall i, j, j2 | 0 <= i < |ps| && 0 <= j < j2 < |ps[i].monedas| ::
          ps[i].monedas[j].0 != ps[i].monedas[j2].0)
  }

  /** Within one sheet, distinct codes give distinct ids. */
  lemma SheetIdsDistinct(b: Builtins, p: Planilla, jx: nat, jy: nat)
    requires |p.fecha| == 10 && jx < jy < |p.monedas|
    requires p.monedas[jx].0 != p.monedas[jy].0
    ensures SheetDocs(b, p)[jx].id != SheetDocs(b, p)[jy].id
  {
    if SheetDocs(b, p)[jx].id == SheetDocs(b, p)[jy].id {
      IdInjective(p.fecha, p.monedas[jx].0, p.fecha, p.monedas[jy].0);
    }
  }

  /** A document of an earlier sheet never shares an id with one of the last
      sheet, whose date differs. */
  lemma EarlierIdDiffers(b: Builtins, ps: seq<Planilla>, x: nat, jy: nat)
    requires PairsOnce(ps) && ps != []
    requires x < |DocumentsOf(b, ps[..|ps| - 1])| && jy < |ps[|ps| - 1].monedas|
    ensures DocumentsOf(b, ps[..|ps| - 1])[x].id != SheetDocs(b, ps[|ps| - 1])[jy].id
  {
    var init := ps[..|ps| - 1];
    var last := ps[|ps| - 1];
    DocumentsMembers(b, init, x);
    var i, j :| 0 <= i < |init| && 0 <= j < |init[i].monedas|
      && DocumentsOf(b, init)[x] == DocOf(b, init[i].fecha, init[i].monedas[j].0, init[i].monedas[j].1);
    assert init[i] == ps[i];
    if DocumentsOf(b, init)[x].id == SheetDocs(b, last)[jy].id {
      IdInjective(init[i].fecha, init[i].monedas[j].0, last.fecha, last.monedas[jy].0);
    }
  }

  /** No two documents of a list share an id. */
  predicate IdsDistinct(docs: seq<Document>) {
    forall x, y | 0 <= x < y < |docs| :: docs[x].id != docs[y].id
  }

  /** Two id-distinct lists with no id in common concatenate to one. */
  lemma ConcatIdsDistinct(front: seq<Document>, back: seq<Document>)
    requires IdsDistinct(front) && IdsDistinct(back)
    requires forall x, j | 0 <= x < |front| && 0 <= j < |back| :: front[x].id != back[j].id
    ensures IdsDistinct(front + back)
  {
    var all := front + back;
    forall x, y | 0 <= x < y < |all| ensures all[x].id != all[y].id {
      if y < |front| {
        assert all[x] == front[x] && all[y] == front[y];
      } else if x < |front| {
        assert all[x] == front[x] && all[y] == back[y - |front|];
      } else {
        assert all[x] == back[x - |front|] && all[y] == back[y - |front|];
      }
    }
  }

  /** Then no two documents share an id. */
  lemma {:induction false} IdsUnique(b: Builtins, ps: seq<Planilla>)
    requires PairsOnce(ps)
    ensures forall x, y | 0 <= x < y < |DocumentsOf(b, ps)| :: DocumentsOf(b, ps)[x].id != DocumentsOf(b, ps)[y].id
    decreases |ps|
  {
    if ps != [] {
      var init := ps[..|ps| - 1];
      var last := ps[|ps| - 1];
      assert PairsOnce(init);
      IdsUnique(b, init);
      var front := DocumentsOf(b, init);
      var back := SheetDocs(b, last);
      forall jx, jy | 0 <= jx < jy < |back| ensures back[jx].id != back[jy].id {
        SheetIdsDistinct(b, last, jx, jy);
      }
      forall x, j | 0 <= x < |front| && 0 <= j < |back| ensures front[x].id != back[j].id {
        EarlierIdDiffers(b, ps, x, j);
      }
      ConcatIdsDistinct(front, back);
      assert DocumentsOf(b, ps) == front + back;
    }
  }

  /** The first `YYYY-MM-DD` of a document's text is its sheet's date. */
  lemma TextDate(b: Builtins, d: Date, moneda: string, valor: real)
    requires IsValid(d)
    ensures Agent.ExtractDate(DocOf(b, FormatIso(d), moneda, valor).text) == Some(d)
  {
    var fecha := FormatIso(d);
    var post := " la cotización de " + moneda + " fue " + PyStr(b, Num(valor))
                + " guaraníes por unidad, según el Banco Central del Paraguay.";
    assert DocOf(b, fecha, moneda, valor).text == "El " + fecha + post;
    Agent.ExtractDateAfter("El ", d, post);
  }

  /** The meta field holds the triple as given. */
  lemma MetaFields(b: Builtins, fecha: string, moneda: string, valor: real)
    ensures var m := DocOf(b, fecha, moneda, valor).meta;
      && Get(m, "fecha") == Str(fecha) && Get(m, "moneda") == Str(moneda)
      && Get(m, "valor_guaranies") == Num(valor)
  {
    var fs := DocOf(b, fecha, moneda, valor).meta.fields;
    assert fs[0].key == "fecha" && fs[1].key == "moneda" && fs[2].key == "valor_guaranies";
    assert Lookup(fs[1..], "moneda") == Some(fs[1].value);
    assert Lookup(fs[2..], "valor_guaranies") == Some(fs[2].value);
  }

  /** The shipped sheets hold 78 currencies. */
  lemma ShippedCount(b: Builtins, ps: seq<Planilla>)
    requires ps == CotizacionesReales
    ensures |DocumentsOf(b, ps)| == 78
  {
    DocumentsCount(b, ps);
    assert ps[..1][..0] == [];
    assert ps[..2][..1] == ps[..1];
    assert TotalMonedas(ps[..1]) == 26;
    assert TotalMonedas(ps[..2]) == 52;
  }

  /** Every shipped sheet is dated by a valid ISO date, which its
      documents' texts give back. */
  lemma ShippedDates(ps: seq<Planilla>)
    requires ps == CotizacionesReales
    ensures forall i | 0 <= i < |ps| :: exists d :: IsValid(d) && FormatIso(d) == ps[i].fecha
  {
    assert ps[0].fecha == FormatIso(Date(2025, 8, 11));
    assert ps[1].fecha == FormatIso(Date(2025, 8, 8));
    assert ps[2].fecha == FormatIso(Date(2025, 8, 7));
  }

  /** A sheet lists each code once. */
  predicate CodesOnce(ms: seq<(string, real)>) {
    forall j, j2 | 0 <= j < j2 < |ms| :: ms[j].0 != ms[j2].0
  }

  /** The codes every shipped sheet lists, in order. */
  const ShippedCodes: seq<string> := ["USD", "JPY", "GBP", "CHF", "SEK", "DKK", "NOK", "BRL", "ARS", "CAD",
    "ZAR", "XDR", "XAU", "CLP", "EUR", "UYU", "AUD", "CNY", "SGD", "BOB", "PEN", "NZD", "MXN", "COP", "TWD", "AED"]

  lemma ShippedCodesOnce(codes: seq<string>)
    requires codes == ShippedCodes
    ensures forall j, j2 | 0 <= j < j2 < |codes| :: codes[j] != codes[j2]
  {
  }

  /** Each shipped sheet lists the shipped codes, in order. */
  lemma ShippedSheetCodes(ps: seq<Planilla>, i: nat)
    requires ps == CotizacionesReales && i < |ps|
    ensures |ps[i].monedas| == |ShippedCodes|
    ensures forall j | 0 <= j < |ShippedCodes| :: ps[i].monedas[j].0 == ShippedCodes[j]
  {
  }

  /** The shipped sheets have distinct ten-character dates and list each
      code once. */
  lemma ShippedPairsOnce(ps: seq<Planilla>)
    requires ps == CotizacionesReales
    ensures PairsOnce(ps)
  {
    ShippedCodesOnce(ShippedCodes);
    forall i | 0 <= i < |ps| ensures CodesOnce(ps[i].monedas) {
      ShippedSheetCodes(ps, i);
    }
    assert |ps| == 3;
  }

  /** No two shipped documents share an id. */
  lemma ShippedIdsUnique(b: Builtins, ps: seq<Planilla>)
    requires ps == CotizacionesReales
    ensures forall x, y | 0 <= x < y < |DocumentsOf(b, ps)| :: DocumentsOf(b, ps)[x].id != DocumentsOf(b, ps)[y].id
  {
    ShippedPairsOnce(ps);
    IdsUnique(b, ps);
  }

  const StorePath := "data/vectorstore.pkl"

  /** `main`: a fresh store gets all the documents in one batch and is
      saved; the saved file holds exactly those documents and one
      embedding row for each. */
  method PreloadMain(b: Builtins, encode: string -> Embedding, disk: Disk) returns (store: SimpleVectorStore, r: Result<(), string>)
    modifies disk
    ensures fresh(store)
    ensures r.Ok?
    ensures disk.files == old(disk.files)[StorePath := Payload(DocumentsOf(b, CotizacionesReales),
                                              Some(Encoded(DocumentsOf(b, CotizacionesReales), encode)))]
    ensures store.docs == DocumentsOf(b, CotizacionesReales) && store.Aligned()
  {
    store := new SimpleVectorStore();
    var docs := BuildDocuments(b, CotizacionesReales);
    ghost var before := store.Rows();
    assert before == [];
    var added := store.AddDocuments(docs, encode);
    assert before + Encoded(docs, encode) == Encoded(docs, encode);
    assert store.docs == docs;
    assert StorePath[4] == '/';
    r := store.Save(disk, StorePath);
  }
}
