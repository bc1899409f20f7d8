/** The answer pipeline of `src/agent.py`: the shared state the four graph
    nodes update in their fixed order (fetch, process, rag, analyze), the
    unwrapping of the quote envelope, the retrieval query, and the ordered
    report policy of `analizar_con_llm` with its nearest-date and
    recent-date selections. The clock is `today`, the quote adapter's
    network answers are `Upstream`, the store's encoder and similarity and
    the language model (`generate`, which may raise) are parameters. */
module Agent {
  import opened Wrappers
  import opened Text
  import opened Dates
  import opened Json
  import Quotes
  import Detectors
  import opened VectorStore

  // ---------------------------------------------------------------------
  // extraer_fecha

  /** The pattern `\d{4}-\d{2}-\d{2}` tried at position `i`. */
  function IsoTextAt(s: string, i: nat): Option<string> {
    if i + 10 <= |s| && IsoShaped(s[i..i + 10]) then Some(s[i..i + 10]) else None
  }

  /** `extraer_fecha`: the first `YYYY-MM-DD` substring of the text, as a
      date; None when there is none or when that first one is not a
      calendar date (later ones are not looked at). */
  function ExtractDate(text: string): (r: Option<Date>)
    ensures r.Some? ==> IsValid(r.value)
  {
    match Detectors.Search(text, IsoTextAt, 0)
    case None => None
    case Some(m) => ParseIso(m.groups)
  }

  /** A text that starts with digit-free words and then a rendered date
      yields that date. */
  lemma ExtractDateAfter(pre: string, d: Date, post: string)
    requires IsValid(d)
    requires forall i | 0 <= i < |pre| :: !IsDigit(pre[i])
    ensures ExtractDate(pre + FormatIso(d) + post) == Some(d)
  {
    var s := pre + FormatIso(d) + post;
    assert s[|pre|..|pre| + 10] == FormatIso(d);
    ParseFormat(d);
    forall k | 0 <= k < |pre| ensures IsoTextAt(s, k).None? {
      if k + 10 <= |s| {
        assert s[k..k + 10][..4][0] == pre[k];
      }
    }
    var m := Detectors.Search(s, IsoTextAt, 0);
    assert IsoTextAt(s, |pre|) == Some(FormatIso(d));
    assert m.Some? && m.value.start == |pre|;
  }

  /** Only the first date-shaped substring counts: a text opening with an
      impossible date yields None even when a valid date follows, which on
      its own would be read. */
  lemma FirstDateOnly(w: string, d: Date)
    requires IsoShaped(w) && ParseIso(w).None? && IsValid(d)
    ensures ExtractDate(w + " " + FormatIso(d)) == None
    ensures ExtractDate(FormatIso(d)) == Some(d)
  {
    var s := w + " " + FormatIso(d);
    assert s[0..10] == w;
    assert IsoTextAt(s, 0) == Some(w);
    ExtractDateAfter([], d, []);
    assert [] + FormatIso(d) + [] == FormatIso(d);
  }

  /** "2025-13-01" is date-shaped but names no date. */
  lemma MonthThirteen(w: string)
    requires w == "2025-13-01"
    ensures IsoShaped(w) && ParseIso(w).None?
  {
    assert w[5..7] == Pad2(13);
  }

  /** The date of a retrieved document. */
  function DateOf(h: Hit): Option<Date> {
    ExtractDate(h.doc.text)
  }

  // ---------------------------------------------------------------------
  // The nearest-date rule (lines 190-196)

  /** The dates `extraer_fecha` reads off the hits, in retrieval order. */
  function DatesOf(hits: seq<Hit>): (ds: seq<Option<Date>>)
    ensures |ds| == |hits|
    ensures forall i | 0 <= i < |hits| :: ds[i] == DateOf(hits[i])
    ensures ValidDates(ds)
  {
    seq(|hits|, i requires 0 <= i < |hits| => DateOf(hits[i]))
  }

  predicate ValidDates(ds: seq<Option<Date>>) {
    forall i | 0 <= i < |ds| && ds[i].Some? :: IsValid(ds[i].value)
  }

  /** How far each dated entry is from `target` in days; None for an
      undated entry. */
  function Gaps(ds: seq<Option<Date>>, target: Date): (gs: seq<Option<nat>>)
    requires IsValid(target) && ValidDates(ds)
    ensures |gs| == |ds|
    ensures forall i | 0 <= i < |ds| :: gs[i].Some? == ds[i].Some?
    ensures forall i | 0 <= i < |ds| && ds[i].Some? :: gs[i].value == Distance(ds[i].value, target)
  {
    seq(|ds|, i requires 0 <= i < |ds| => if ds[i].Some? then Some(Distance(ds[i].value, target)) else None)
  }

  /** The position the loop keeps, read off the gaps: the smallest gap, the
      first one among equal gaps (only a strictly smaller one replaces it). */
  function Closest(gs: seq<Option<nat>>): (r: Option<nat>)
    ensures r.Some? ==> r.value < |gs| && gs[r.value].Some?
    decreases |gs|
  {
    if gs == [] then None
    else
      var last := |gs| - 1;
      var prev := Closest(gs[..last]);
      assert prev.Some? ==> gs[..last][prev.value] == gs[prev.value];
      if gs[last].None? then prev
      else if prev.None? || gs[last].value < gs[prev.value].value then Some(last)
      else prev
  }

  /** The position the loop keeps: the dated entry closest to `target`, the
      first one among equally close entries. */
  function Nearest(ds: seq<Option<Date>>, target: Date): (r: Option<nat>)
    requires IsValid(target) && ValidDates(ds)
    ensures r.Some? ==> r.value < |ds| && ds[r.value].Some?
  {
    Closest(Gaps(ds, target))
  }

  /** `i` is the dated entry closest to `target`, and no earlier entry is
      as close. */
  predicate IsNearest(ds: seq<Option<Date>>, target: Date, i: nat)
    requires IsValid(target) && ValidDates(ds)
  {
    && i < |ds| && ds[i].Some?
    && (forall j | 0 <= j < |ds| && ds[j].Some? :: Distance(ds[i].value, target) <= Distance(ds[j].value, target))
    && (forall j | 0 <= j < i && ds[j].Some? :: Distance(ds[i].value, target) < Distance(ds[j].value, target))
  }

  predicate SomeDated(ds: seq<Option<Date>>) {
    exists j | 0 <= j < |ds| :: ds[j].Some?
  }

  /** At most one entry is the nearest. */
  lemma IsNearestUnique(ds: seq<Option<Date>>, target: Date, i: nat, j: nat)
    requires IsValid(target) && ValidDates(ds) && IsNearest(ds, target, i) && IsNearest(ds, target, j)
    ensures i == j
  {
  }

  /** `IsNearest` on the gaps. */
  predicate IsClosest(gs: seq<Option<nat>>, i: nat) {
    && i < |gs| && gs[i].Some?
    && (forall j | 0 <= j < |gs| && gs[j].Some? :: gs[i].value <= gs[j].value)
    && (forall j | 0 <= j < i && gs[j].Some? :: gs[i].value < gs[j].value)
  }

  predicate SomeGap(gs: seq<Option<nat>>) {
    exists j | 0 <= j < |gs| :: gs[j].Some?
  }

  /** The closest-so-far facts about a prefix of the gaps. */
  predicate ClosestSoFar(gs: seq<Option<nat>>) {
    && (Closest(gs).None? <==> !SomeGap(gs))
    && (Closest(gs).Some? ==> IsClosest(gs, Closest(gs).value))
  }

  /** An undated last entry keeps the previous choice. */
  lemma ClosestStepUndated(gs: seq<Option<nat>>)
    requires gs != [] && gs[|gs| - 1].None?
    requires ClosestSoFar(gs[..|gs| - 1])
    ensures ClosestSoFar(gs)
  {
    var pre := gs[..|gs| - 1];
    assert forall j | 0 <= j < |pre| :: pre[j] == gs[j];
  }

  /** The first dated entry is chosen. */
  lemma ClosestStepFirst(gs: seq<Option<nat>>)
    requires gs != [] && gs[|gs| - 1].Some?
    requires ClosestSoFar(gs[..|gs| - 1]) && Closest(gs[..|gs| - 1]).None?
    ensures ClosestSoFar(gs)
  {
    var pre := gs[..|gs| - 1];
    assert forall j | 0 <= j < |pre| :: pre[j] == gs[j];
    assert IsClosest(gs, |gs| - 1);
  }

  /** A later dated entry replaces the choice only when strictly closer. */
  lemma ClosestStepCompare(gs: seq<Option<nat>>)
    requires gs != [] && gs[|gs| - 1].Some?
    requires ClosestSoFar(gs[..|gs| - 1]) && Closest(gs[..|gs| - 1]).Some?
    ensures ClosestSoFar(gs)
  {
    var pre := gs[..|gs| - 1];
    assert forall j | 0 <= j < |pre| :: pre[j] == gs[j];
  }

  /** One step of the loop keeps its choice the closest entry seen so far. */
  lemma ClosestStep(gs: seq<Option<nat>>)
    requires gs != []
    requires ClosestSoFar(gs[..|gs| - 1])
    ensures ClosestSoFar(gs)
  {
    if gs[|gs| - 1].None? {
      ClosestStepUndated(gs);
    } else if Closest(gs[..|gs| - 1]).None? {
      ClosestStepFirst(gs);
    } else {
      ClosestStepCompare(gs);
    }
  }

  /** By induction over the loop: the choice is the closest entry, and none
      is chosen exactly when no entry has a gap. */
  lemma {:induction false} ClosestIsClosest(gs: seq<Option<nat>>)
    ensures ClosestSoFar(gs)
    decreases |gs|
  {
    if gs != [] {
      ClosestIsClosest(gs[..|gs| - 1]);
      ClosestStep(gs);
    }
  }

  /** The loop's choice is exactly the nearest entry, and it chooses
      nothing exactly when no entry is dated. */
  lemma NearestIsNearest(ds: seq<Option<Date>>, target: Date)
    requires IsValid(target) && ValidDates(ds)
    ensures Nearest(ds, target).None? <==> !SomeDated(ds)
    ensures forall i: nat :: Nearest(ds, target) == Some(i) <==> IsNearest(ds, target, i)
  {
    var gs := Gaps(ds, target);
    ClosestIsClosest(gs);
    assert SomeDated(ds) <==> SomeGap(gs) by {
      if SomeDated(ds) {
        var j :| 0 <= j < |ds| && ds[j].Some?;
        assert gs[j].Some?;
      }
      if SomeGap(gs) {
        var j :| 0 <= j < |gs| && gs[j].Some?;
        assert ds[j].Some?;
      }
    }
    var r := Nearest(ds, target);
    forall i: nat ensures r == Some(i) <==> IsNearest(ds, target, i) {
      if i < |ds| && ds[i].Some? {
        assert IsNearest(ds, target, i) <==> IsClosest(gs, i);
      }
      if IsNearest(ds, target, i) {
        IsNearestUnique(ds, target, i, r.value);
      }
    }
  }

  /** One more entry of the loop, read on a prefix of the gaps. */
  lemma ClosestSnoc(gs: seq<Option<nat>>, i: nat)
    requires i < |gs|
    ensures var prev := Closest(gs[..i]);
      Closest(gs[..i + 1])
      == if gs[i].None? then prev
         else if prev.None? || gs[i].value < gs[prev.value].value then Some(i)
         else prev
  {
    assert gs[..i + 1][..i] == gs[..i];
    var prev := Closest(gs[..i]);
    if prev.Some? {
      assert gs[..i + 1][prev.value] == gs[prev.value];
    }
  }

  /** The loop at lines 190-196. */
  method FindNearest(hits: seq<Hit>, target: Date) returns (mejor: Option<nat>)
    requires IsValid(target)
    ensures mejor == Nearest(DatesOf(hits), target)
  {
    ghost var gs := Gaps(DatesOf(hits), target);
    mejor := None;
    var mejorDiff: Option<nat> := None;
    for i := 0 to |hits|
      invariant mejor == Closest(gs[..i])
      invariant mejor.Some? <==> mejorDiff.Some?
      invariant mejor.Some? ==> mejor.value < i && gs[mejor.value] == mejorDiff
    {
      ClosestSnoc(gs, i);
      var fDoc := ExtractDate(hits[i].doc.text);
      assert fDoc == DatesOf(hits)[i];
      assert gs[i] == if fDoc.Some? then Some(Distance(fDoc.value, target)) else None;
      if fDoc.Some? {
        var diff := Distance(fDoc.value, target);
        if mejorDiff.None? || diff < mejorDiff.value {
          mejor := Some(i);
          mejorDiff := Some(diff);
        }
      }
    }
    assert gs[..|hits|] == gs;
  }

  // ---------------------------------------------------------------------
  // The recent-date rule (lines 209-213)

  predicate IsRecent(h: Hit, today: Date)
    requires IsValid(today) && today != MinDate
  {
    DateOf(h) == Some(today) || DateOf(h) == Some(Prev(today))
  }

  /** The texts of the hits dated today or yesterday, in retrieval order. */
  function RecentTexts(hits: seq<Hit>, today: Date): seq<string>
    requires IsValid(today) && today != MinDate
    decreases |hits|
  {
    if hits == [] then []
    else
      var last := hits[|hits| - 1];
      RecentTexts(hits[..|hits| - 1], today) + (if IsRecent(last, today) then [last.doc.text] else [])
  }

  /** A text is listed exactly when some hit dated today or yesterday
      carries it. */
  lemma {:induction false} RecentTextsMembers(hits: seq<Hit>, today: Date)
    requires IsValid(today) && today != MinDate
    ensures forall t :: t in RecentTexts(hits, today) <==>
      exists i | 0 <= i < |hits| :: IsRecent(hits[i], today) && hits[i].doc.text == t
    decreases |hits|
  {
    if hits != [] {
      var pre := hits[..|hits| - 1];
      RecentTextsMembers(pre, today);
      assert forall i | 0 <= i < |pre| :: pre[i] == hits[i];
    }
  }

  /** Nothing is listed exactly when no hit is dated today or yesterday. */
  lemma RecentTextsEmpty(hits: seq<Hit>, today: Date)
    requires IsValid(today) && today != MinDate
    ensures RecentTexts(hits, today) == [] <==> forall i | 0 <= i < |hits| :: !IsRecent(hits[i], today)
  {
    RecentTextsMembers(hits, today);
    var texts := RecentTexts(hits, today);
    if exists i | 0 <= i < |hits| :: IsRecent(hits[i], today) {
      var i :| 0 <= i < |hits| && IsRecent(hits[i], today);
      assert hits[i].doc.text in texts;
    } else if texts != [] {
      assert texts[0] in texts;
    }
  }

  /** The selection keeps retrieval order: it commutes with concatenation. */
  lemma {:induction false} RecentTextsAppend(a: seq<Hit>, b: seq<Hit>, today: Date)
    requires IsValid(today) && today != MinDate
    ensures RecentTexts(a + b, today) == RecentTexts(a, today) + RecentTexts(b, today)
    decreases |b|
  {
    if b == [] {
      assert a + b == a;
    } else {
      var b' := b[..|b| - 1];
      assert (a + b)[..|a + b| - 1] == a + b';
      RecentTextsAppend(a, b', today);
    }
  }

  /** The loop at lines 209-213. */
  method FilterRecent(hits: seq<Hit>, today: Date) returns (filtrados: seq<string>)
    requires IsValid(today) && today != MinDate
    ensures filtrados == RecentTexts(hits, today)
  {
    var ayer := Prev(today);
    filtrados := [];
    for i := 0 to |hits|
      invariant filtrados == RecentTexts(hits[..i], today)
    {
      assert hits[..i + 1][..i] == hits[..i];
      var fDoc := ExtractDate(hits[i].doc.text);
      if fDoc == Some(today) || fDoc == Some(ayer) {
        filtrados := filtrados + [hits[i].doc.text];
      }
    }
    assert hits[..|hits|] == hits;
  }

  // ---------------------------------------------------------------------
  // analizar_con_llm

  /** The snapshot report of a quote requested for today. */
  function SnapshotReport(b: Builtins, datos: Json): string
    requires datos.Obj?
  {
    "Cotización actual de " + PyStr(b, Get(datos, "moneda"))
    + " (fuente " + PyStr(b, Get(datos, "source")) + "): "
    + "Compra " + PyStr(b, Get(datos, "compra")) + " | Venta " + PyStr(b, Get(datos, "venta"))
  }

  /** The report on the nearest document, exact or approximate. */
  function NearestReport(moneda: string, fecha: string, target: Date, best: Hit): string
    requires DateOf(best).Some?
  {
    var f := DateOf(best).value;
    if f == target then "Datos históricos para " + moneda + " el " + fecha + ":\n" + best.doc.text
    else "No hay datos exactos para " + fecha + ", mostrando el más cercano (" + FormatIso(f) + "):\n"
         + best.doc.text
  }

  /** The report calls its document exact exactly when it is zero days away. */
  lemma NearestReportExact(moneda: string, fecha: string, target: Date, best: Hit)
    requires IsValid(target) && DateOf(best).Some?
    ensures StartsWith(NearestReport(moneda, fecha, target, best), "Datos históricos")
            <==> Distance(DateOf(best).value, target) == 0
  {
    DistanceZeroIffSame(DateOf(best).value, target);
    var r := NearestReport(moneda, fecha, target, best);
    if DateOf(best).value != target {
      assert r[0] == 'N';
    }
  }

  /** The report listing the recent documents. */
  function RecentReport(moneda: string, texts: seq<string>): string {
    "Cotizaciones recientes de " + moneda + ":\n" + Join("\n\n", texts)
  }

  /** The prompt of the language-model fallback. */
  function LlmPrompt(b: Builtins, datos: Json, hits: seq<Hit>): string
    requires datos.Obj?
  {
    "Eres un analista financiero.\n    Analiza la cotización de " + PyStr(b, Get(datos, "moneda"))
    + ".\n    Compra: " + PyStr(b, Get(datos, "compra")) + " | Venta: " + PyStr(b, Get(datos, "venta"))
    + "\n    Fuente: " + PyStr(b, Get(datos, "source"))
    + "\n    Contexto histórico de datos que se tienen de fechas pasadas:\n    " + Join("\n\n", Texts(hits))
    + "\n    Y " + PyStr(b, datos)
    + " son los datos actuales a dia de hoy obtenidos por scraping de la pagina\n    de Cambios Chaco"
    + "\n    Responde en español, breve y con fuentes."
  }

  /** A date was asked for (the string is truthy). */
  predicate Asked(fecha: Option<string>) {
    fecha.Some? && fecha.value != ""
  }

  /** `analizar_con_llm`'s report, in its order: today's snapshot; the
      nearest document to an asked date (strptime raising ValueError on a
      date it cannot read); the documents from today and yesterday when no
      date was asked; else the language model, whose exception propagates. */
  function AnalyzeReport(today: Date, fecha: Option<string>, moneda: string, hits: seq<Hit>, datos: Json,
                         b: Builtins, generate: string -> Result<string, string>): Result<string, string>
    requires IsValid(today) && today != MinDate && datos.Obj?
  {
    if fecha == Some(FormatIso(today)) then Ok(SnapshotReport(b, datos))
    else if Asked(fecha) && hits != [] && ParseIso(fecha.value).None? then Err("ValueError")
    else if Asked(fecha) && hits != [] && Nearest(DatesOf(hits), ParseIso(fecha.value).value).Some? then
      var target := ParseIso(fecha.value).value;
      Ok(NearestReport(moneda, fecha.value, target, hits[Nearest(DatesOf(hits), target).value]))
    else if !Asked(fecha) && RecentTexts(hits, today) != [] then Ok(RecentReport(moneda, RecentTexts(hits, today)))
    else generate(LlmPrompt(b, datos, hits))
  }

  /** Today's date gives the snapshot, whatever was retrieved, and the
      language model is never asked. */
  lemma TodayIsSnapshot(today: Date, moneda: string, hits: seq<Hit>, datos: Json, b: Builtins,
                        generate: string -> Result<string, string>, fecha: Option<string>)
    requires IsValid(today) && today != MinDate && datos.Obj?
    requires fecha == Some(FormatIso(today))
    ensures AnalyzeReport(today, fecha, moneda, hits, datos, b, generate) == Ok(SnapshotReport(b, datos))
    ensures forall g: string -> Result<string, string> ::
      AnalyzeReport(today, fecha, moneda, [], datos, b, g) == AnalyzeReport(today, fecha, moneda, hits, datos, b, generate)
  {
  }

  /** Another asked date, with some dated document, reports on the nearest
      one. */
  lemma AskedDateReportsNearest(today: Date, d: Date, moneda: string, hits: seq<Hit>, datos: Json,
                                b: Builtins, generate: string -> Result<string, string>)
    requires IsValid(today) && today != MinDate && datos.Obj?
    requires IsValid(d) && d != today && SomeDated(DatesOf(hits))
    ensures exists i: nat ::
      && IsNearest(DatesOf(hits), d, i)
      && AnalyzeReport(today, Some(FormatIso(d)), moneda, hits, datos, b, generate)
         == Ok(NearestReport(moneda, FormatIso(d), d, hits[i]))
  {
    ParseFormat(d);
    if FormatIso(d) == FormatIso(today) {
      FormatInjective(d, today);
    }
    NearestIsNearest(DatesOf(hits), d);
    assert hits != [];
    AskedReport(today, Some(FormatIso(d)), moneda, hits, datos, b, generate);
    var i := Nearest(DatesOf(hits), d).value;
    assert IsNearest(DatesOf(hits), d, i);
  }

  /** When no earlier branch applies, the language model writes the report. */
  lemma FallsToModel(today: Date, fecha: Option<string>, moneda: string, hits: seq<Hit>, datos: Json,
                     b: Builtins, generate: string -> Result<string, string>)
    requires IsValid(today) && today != MinDate && datos.Obj?
    requires fecha != Some(FormatIso(today))
    requires Asked(fecha) && hits != [] ==> ParseIso(fecha.value).Some?
    requires Asked(fecha) && hits != [] ==> Nearest(DatesOf(hits), ParseIso(fecha.value).value).None?
    requires !Asked(fecha) ==> RecentTexts(hits, today) == []
    ensures AnalyzeReport(today, fecha, moneda, hits, datos, b, generate) == generate(LlmPrompt(b, datos, hits))
  {
    assert !(Asked(fecha) && hits != [] && ParseIso(fecha.value).None?);
    assert !(Asked(fecha) && hits != [] && Nearest(DatesOf(hits), ParseIso(fecha.value).value).Some?);
    assert !(!Asked(fecha) && RecentTexts(hits, today) != []);
  }

  /** Another asked date with no dated document goes to the language model. */
  lemma AskedDateUndatedAsksModel(today: Date, d: Date, moneda: string, hits: seq<Hit>, datos: Json,
                                  b: Builtins, generate: string -> Result<string, string>)
    requires IsValid(today) && today != MinDate && datos.Obj?
    requires IsValid(d) && d != today && !SomeDated(DatesOf(hits))
    ensures AnalyzeReport(today, Some(FormatIso(d)), moneda, hits, datos, b, generate)
            == generate(LlmPrompt(b, datos, hits))
  {
    ParseFormat(d);
    if FormatIso(d) == FormatIso(today) {
      FormatInjective(d, today);
    }
    NearestIsNearest(DatesOf(hits), d);
    FallsToModel(today, Some(FormatIso(d)), moneda, hits, datos, b, generate);
  }

  /** With an asked date other than today that does not parse, and some
      retrieved documents, the report is the ValueError. */
  lemma AskedUnreadableReport(today: Date, fecha: Option<string>, moneda: string, hits: seq<Hit>, datos: Json,
                              b: Builtins, generate: string -> Result<string, string>)
    requires IsValid(today) && today != MinDate && datos.Obj?
    requires Asked(fecha) && hits != [] && fecha != Some(FormatIso(today)) && ParseIso(fecha.value).None?
    ensures AnalyzeReport(today, fecha, moneda, hits, datos, b, generate) == Err("ValueError")
  {
  }

  /** With a readable asked date other than today and some retrieved
      documents, the report is the nearest document's, or the language
      model's when none is dated. */
  lemma AskedReport(today: Date, fecha: Option<string>, moneda: string, hits: seq<Hit>, datos: Json,
                    b: Builtins, generate: string -> Result<string, string>)
    requires IsValid(today) && today != MinDate && datos.Obj?
    requires Asked(fecha) && hits != [] && fecha != Some(FormatIso(today)) && ParseIso(fecha.value).Some?
    ensures var target := ParseIso(fecha.value).value;
      AnalyzeReport(today, fecha, moneda, hits, datos, b, generate)
      == if Nearest(DatesOf(hits), target).Some?
         then Ok(NearestReport(moneda, fecha.value, target, hits[Nearest(DatesOf(hits), target).value]))
         else generate(LlmPrompt(b, datos, hits))
  {
    var target := ParseIso(fecha.value).value;
    if Nearest(DatesOf(hits), target).None? {
      FallsToModel(today, fecha, moneda, hits, datos, b, generate);
    } else {
      assert !(Asked(fecha) && hits != [] && ParseIso(fecha.value).None?);
    }
  }

  /** Without an asked date the report is the recent documents, when there
      are any, and otherwise the language model's. */
  lemma UnaskedReport(today: Date, fecha: Option<string>, moneda: string, hits: seq<Hit>, datos: Json,
                      b: Builtins, generate: string -> Result<string, string>)
    requires IsValid(today) && today != MinDate && datos.Obj? && !Asked(fecha)
    ensures AnalyzeReport(today, fecha, moneda, hits, datos, b, generate)
      == if RecentTexts(hits, today) != [] then Ok(RecentReport(moneda, RecentTexts(hits, today)))
         else generate(LlmPrompt(b, datos, hits))
  {
    assert fecha != Some(FormatIso(today));
  }

  /** No asked date (None or ""): when some retrieved document is dated
      today or yesterday, the report lists exactly the texts of those
      documents; when none is, the language model writes the report. */
  lemma UnaskedDateReportsRecent(today: Date, fecha: Option<string>, moneda: string, hits: seq<Hit>, datos: Json,
                                 b: Builtins, generate: string -> Result<string, string>)
    requires IsValid(today) && today != MinDate && datos.Obj? && !Asked(fecha)
    ensures (exists i | 0 <= i < |hits| :: IsRecent(hits[i], today)) ==>
      exists texts: seq<string> ::
        && AnalyzeReport(today, fecha, moneda, hits, datos, b, generate) == Ok(RecentReport(moneda, texts))
        && forall t :: t in texts <==> exists i | 0 <= i < |hits| :: IsRecent(hits[i], today) && hits[i].doc.text == t
    ensures (forall i | 0 <= i < |hits| :: !IsRecent(hits[i], today)) ==>
      AnalyzeReport(today, fecha, moneda, hits, datos, b, generate) == generate(LlmPrompt(b, datos, hits))
  {
    UnaskedReport(today, fecha, moneda, hits, datos, b, generate);
    RecentTextsMembers(hits, today);
    RecentTextsEmpty(hits, today);
  }

  // ---------------------------------------------------------------------
  // procesar_datos

  /** `procesar_datos` on the stored quote: a dict under "result" that
      itself holds "result" yields moneda (defaulting to the state's),
      compra, venta and source (inner source, else outer, else
      "desconocida"); anything else yields {}. A quote or an inner result
      that is not a dict raises AttributeError at its `.get`. */
  function ProcessedOf(raw: Json, moneda: string): Result<Json, string> {
    if !raw.Obj? then Err("AttributeError")
    else
      var inner := GetOr(raw, "result", Obj([]));
      if inner.Obj? && Has(inner, "result") then
        var datos := Get(inner, "result");
        if !datos.Obj? then Err("AttributeError")
        else Ok(Obj([Field("moneda", GetOr(datos, "moneda", Str(moneda))),
                     Field("compra", Get(datos, "compra")),
                     Field("venta", Get(datos, "venta")),
                     Field("source", GetOr(inner, "source", GetOr(raw, "source", Str("desconocida"))))]))
      else Ok(Obj([]))
  }

  /** The dict an HTML quote of `row` processes to. */
  function HtmlDatos(row: Quotes.Row): Json {
    Obj([Field("moneda", Str(row.moneda)), Field("compra", Num(row.compra)), Field("venta", Num(row.venta)),
         Field("source", Str(row.meta.fuente))])
  }

  /** A quote whose "result" is an HTML answer for `row` processes to that
      row's fields and source. */
  lemma ProcessFound(raw: Json, row: Quotes.Row, moneda: string)
    requires raw.Obj? && Lookup(raw.fields, "result") == Some(Quotes.FoundJson(row))
    ensures ProcessedOf(raw, moneda) == Ok(HtmlDatos(row))
  {
    var inner := Quotes.FoundJson(row);
    assert GetOr(raw, "result", Obj([])) == inner;
    assert inner.fields[0].key == "result";
    var datos := Get(inner, "result");
    assert datos == Obj([Field("moneda", Str(row.moneda)), Field("compra", Num(row.compra)),
                         Field("venta", Num(row.venta))]);
    assert GetOr(datos, "moneda", Str(moneda)) == Str(row.moneda);
    assert datos.fields[1..][0].key == "compra";
    assert Get(datos, "compra") == Num(row.compra);
    assert datos.fields[1..][1..][0].key == "venta";
    assert Lookup(datos.fields[1..], "venta") == Lookup(datos.fields[1..][1..], "venta");
    assert Get(datos, "venta") == Num(row.venta);
    assert inner.fields[1..][0].key == "source";
    assert GetOr(inner, "source", GetOr(raw, "source", Str("desconocida"))) == Str(row.meta.fuente);
  }

  /** A quote whose "result" is a PDF row, or None, processes to {}. */
  lemma ProcessUnnested(raw: Json, moneda: string)
    requires raw.Obj?
    requires Lookup(raw.fields, "result") == Some(Null)
      || exists p :: Lookup(raw.fields, "result") == Some(Quotes.PdfRowJson(p))
    ensures ProcessedOf(raw, moneda) == Ok(Obj([]))
  {
  }

  /** Every quote the adapter stores is processed without raising: an HTML
      quote yields its row's fields and source, while a PDF row (which has
      no inner "result") and the empty answer yield {}. */
  lemma QuotesProcess(b: Builtins, today: Date, up: Quotes.Upstream, moneda: string)
    requires IsValid(today)
    ensures var q := Quotes.GetQuoteAsWritten(b, today, up, moneda);
      && ProcessedOf(q, moneda).Ok?
      && (Get(q, "source") == Str("html") ==>
            exists row: Quotes.Row :: ProcessedOf(q, moneda) == Ok(HtmlDatos(row)))
      && (Get(q, "source") != Str("html") ==> ProcessedOf(q, moneda) == Ok(Obj([])))
  {
    var html := Quotes.FindHtmlAsWritten(b, today, up.api, moneda);
    var pdf := Quotes.FindPdfAsWritten(b, up.pdf, moneda);
    Quotes.FindHtmlAsWrittenLooksUpRequest(b, today, up.api, moneda);
    QuoteOfProcesses(html, pdf, moneda);
  }

  /** The same, for the fallback's answer built from any two lookups. */
  lemma QuoteOfProcesses(html: Option<Json>, pdf: Result<Option<Quotes.PdfRow>, string>, moneda: string)
    requires html.Some? ==> exists row :: html.value == Quotes.FoundJson(row)
    ensures var q := Quotes.QuoteOf(html, pdf);
      && ProcessedOf(q, moneda).Ok?
      && (Get(q, "source") == Str("html") ==>
            exists row: Quotes.Row :: ProcessedOf(q, moneda) == Ok(HtmlDatos(row)))
      && (Get(q, "source") != Str("html") ==> ProcessedOf(q, moneda) == Ok(Obj([])))
  {
    var q := Quotes.QuoteOf(html, pdf);
    if html.Some? {
      var row :| html.value == Quotes.FoundJson(row);
      ProcessFound(q, row, moneda);
    } else if pdf.Ok? && pdf.value.Some? {
      ProcessUnnested(q, moneda);
    } else {
      ProcessUnnested(q, moneda);
    }
  }

  // ---------------------------------------------------------------------
  // rag_lookup

  /** The retrieval query: date-specific when a date was asked, historical
      otherwise. */
  function RagQuery(moneda: string, fecha: Option<string>): string {
    if Asked(fecha) then "Cotización de " + moneda + " el " + fecha.value + " en guaraníes."
    else "Cotizaciones históricas de " + moneda + " en guaraníes."
  }

  /** The query names the currency, and the date when one was asked. */
  lemma RagQueryMentions(moneda: string, fecha: Option<string>)
    ensures Contains(RagQuery(moneda, fecha), moneda)
    ensures Asked(fecha) ==> Contains(RagQuery(moneda, fecha), fecha.value)
  {
    if Asked(fecha) {
      var q := RagQuery(moneda, fecha);
      ContainsInside("Cotización de ", moneda, " el " + fecha.value + " en guaraníes.");
      assert q == "Cotización de " + moneda + (" el " + fecha.value + " en guaraníes.");
      ContainsInside("Cotización de " + moneda + " el ", fecha.value, " en guaraníes.");
      assert q == "Cotización de " + moneda + " el " + fecha.value + " en guaraníes.";
    } else {
      ContainsInside("Cotizaciones históricas de ", moneda, " en guaraníes.");
      assert RagQuery(moneda, fecha) == "Cotizaciones históricas de " + moneda + " en guaraníes.";
    }
  }

  /** How many documents the agent retrieves. */
  const RagK := 5

  // ---------------------------------------------------------------------
  // The state and its nodes

  class AgentState {
    var question: string
    var moneda: string
    var fecha: Option<string>
    var rawCotizacion: Option<Json>
    var datosProcesados: Option<Json>
    var ragDocs: Option<seq<Hit>>
    var reporte: Option<string>

    /** The graph's initial state: question, currency and date only. */
    constructor (question0: string, moneda0: string, fecha0: Option<string>)
      ensures question == question0 && moneda == moneda0 && fecha == fecha0
      ensures rawCotizacion == None && datosProcesados == None && ragDocs == None && reporte == None
    {
      question := question0;
      moneda := moneda0;
      fecha := fecha0;
      rawCotizacion := None;
      datosProcesados := None;
      ragDocs := None;
      reporte := None;
    }

    /** `state.get("rag_docs", [])`. */
    function Hits(): seq<Hit>
      reads this
    {
      if ragDocs.Some? then ragDocs.value else []
    }

    /** `state.get("datos_procesados", {})`. */
    function Datos(): Json
      reads this
    {
      if datosProcesados.Some? then datosProcesados.value else Obj([])
    }

    /** The report is the policy's report on this state. */
    predicate Reported(today: Date, b: Builtins, generate: string -> Result<string, string>)
      requires IsValid(today) && today != MinDate && Datos().Obj?
      reads this
    {
      reporte.Some? && AnalyzeReport(today, fecha, moneda, Hits(), Datos(), b, generate) == Ok(reporte.value)
    }

    /** The policy raises `e` on this state. */
    predicate Raised(today: Date, b: Builtins, generate: string -> Result<string, string>, e: string)
      requires IsValid(today) && today != MinDate && Datos().Obj?
      reads this
    {
      AnalyzeReport(today, fecha, moneda, Hits(), Datos(), b, generate) == Err(e)
    }

    /** `fetch_cotizaciones`: the adapter's answer for the state's currency
        is stored. */
    method Fetch(b: Builtins, today: Date, up: Quotes.Upstream)
      requires IsValid(today)
      modifies this
      ensures rawCotizacion == Some(Quotes.GetQuoteAsWritten(b, today, up, moneda))
      ensures question == old(question) && moneda == old(moneda) && fecha == old(fecha)
      ensures datosProcesados == old(datosProcesados) && ragDocs == old(ragDocs) && reporte == old(reporte)
    {
      var m := moneda;
      var quote := Quotes.GetQuoteAsWritten(b, today, up, m);
      rawCotizacion := Some(quote);
      assert moneda == m;
    }

    /** `procesar_datos`: the unwrapped quote is stored, or the raised
        error is returned and nothing changes. */
    method Process() returns (raised: Option<string>)
      modifies this
      ensures var p := ProcessedOf(if old(rawCotizacion).Some? then old(rawCotizacion).value else Obj([]), moneda);
        && (p.Ok? ==> raised == None && datosProcesados == Some(p.value))
        && (p.Err? ==> raised == Some(p.error) && datosProcesados == old(datosProcesados))
      ensures question == old(question) && moneda == old(moneda) && fecha == old(fecha)
      ensures rawCotizacion == old(rawCotizacion) && ragDocs == old(ragDocs) && reporte == old(reporte)
    {
      var raw := if rawCotizacion.Some? then rawCotizacion.value else Obj([]);
      match ProcessedOf(raw, moneda) {
        case Ok(d) =>
          datosProcesados := Some(d);
          raised := None;
        case Err(e) =>
          raised := Some(e);
      }
    }

    /** `rag_lookup`: without a store nothing changes; otherwise the
        store's answer to the query for the state's currency and date is
        stored (its IndexError is returned instead). */
    method RagLookup(store: SimpleVectorStore?, encode: string -> Embedding,
                     similarity: (Embedding, Embedding) -> real)
      returns (raised: Option<string>, ghost idxs: seq<nat>)
      modifies this
      ensures question == old(question) && moneda == old(moneda) && fecha == old(fecha)
      ensures rawCotizacion == old(rawCotizacion) && datosProcesados == old(datosProcesados) && reporte == old(reporte)
      ensures store == null ==> raised == None && ragDocs == old(ragDocs)
      ensures store != null && raised.None? ==> ragDocs.Some?
      ensures store != null && raised.Some? ==> ragDocs == old(ragDocs)
      ensures store != null ==>
        var r := if raised.None? then Ok(ragDocs.value) else Err(raised.value);
        Answers(store.docs, store.embeddings, RagQuery(moneda, fecha), RagK, encode, similarity, r, idxs)
    {
      if store == null {
        return None, [];
      }
      var r;
      r, idxs := store.Query(RagQuery(moneda, fecha), RagK, encode, similarity);
      match r {
        case Ok(hits) =>
          ragDocs := Some(hits);
          raised := None;
        case Err(e) =>
          raised := Some(e);
      }
    }

    /** `analizar_con_llm`: the report of the policy is stored, or the
        raised error is returned and the report stays as it was. */
    method Analyze(today: Date, b: Builtins, generate: string -> Result<string, string>)
      returns (raised: Option<string>)
      requires IsValid(today) && today != MinDate && Datos().Obj?
      modifies this
      ensures question == old(question) && moneda == old(moneda) && fecha == old(fecha)
      ensures rawCotizacion == old(rawCotizacion) && datosProcesados == old(datosProcesados) && ragDocs == old(ragDocs)
      ensures raised.None? ==> Reported(today, b, generate)
      ensures raised.Some? ==> Raised(today, b, generate, raised.value) && reporte == old(reporte)
    {
      var r := Decide(today, fecha, moneda, Hits(), Datos(), b, generate);
      match r {
        case Ok(text) =>
          reporte := Some(text);
          raised := None;
        case Err(e) =>
          raised := Some(e);
      }
    }

    /** The rag node then the analyze node, stopping when rag raises: with
        a store, what was retrieved (or the error raised retrieving it) is
        the store's k=5 answer to this state's query; the report, or the
        exception out of analyze, is the policy's on those hits. */
    method RagThenAnalyze(today: Date, store: SimpleVectorStore?, b: Builtins, encode: string -> Embedding,
                          similarity: (Embedding, Embedding) -> real, generate: string -> Result<string, string>)
      returns (raised: Option<string>, ghost idxs: seq<nat>)
      requires IsValid(today) && today != MinDate && Datos().Obj? && ragDocs.None?
      modifies this
      ensures question == old(question) && moneda == old(moneda) && fecha == old(fecha)
      ensures rawCotizacion == old(rawCotizacion) && datosProcesados == old(datosProcesados)
      ensures store == null ==> ragDocs == None
      ensures raised.None? && store != null ==> ragDocs.Some?
      ensures store != null ==>
        var r := if raised.Some? && ragDocs.None? then Err(raised.value)
                 else if ragDocs.Some? then Ok(ragDocs.value) else Ok([]);
        Answers(store.docs, store.embeddings, RagQuery(moneda, fecha), RagK, encode, similarity, r, idxs)
      ensures raised.None? ==> Reported(today, b, generate)
      ensures raised.Some? && (store == null || ragDocs.Some?) ==> Raised(today, b, generate, raised.value)
    {
      raised, idxs := RagLookup(store, encode, similarity);
      if raised.Some? {
        return;
      }
      raised := Analyze(today, b, generate);
    }
  }

  /** The asked-date branch of `analizar_con_llm` (lines 184-204). */
  method DecideAsked(fecha: string, moneda: string, hits: seq<Hit>, datos: Json,
                     b: Builtins, generate: string -> Result<string, string>)
    returns (r: Result<string, string>)
    requires datos.Obj?
    ensures ParseIso(fecha).None? ==> r == Err("ValueError")
    ensures ParseIso(fecha).Some? ==>
      var target := ParseIso(fecha).value;
      r == if Nearest(DatesOf(hits), target).Some?
           then Ok(NearestReport(moneda, fecha, target, hits[Nearest(DatesOf(hits), target).value]))
           else generate(LlmPrompt(b, datos, hits))
  {
    var fechaPedida := ParseIso(fecha);
    if fechaPedida.None? {
      return Err("ValueError");
    }
    var mejor := FindNearest(hits, fechaPedida.value);
    if mejor.Some? {
      return Ok(NearestReport(moneda, fecha, fechaPedida.value, hits[mejor.value]));
    }
    return generate(LlmPrompt(b, datos, hits));
  }

  /** The branches after it (lines 206-232). */
  method DecideUnasked(today: Date, moneda: string, hits: seq<Hit>, datos: Json,
                       b: Builtins, generate: string -> Result<string, string>)
    returns (r: Result<string, string>)
    requires IsValid(today) && today != MinDate && datos.Obj?
    ensures r == if RecentTexts(hits, today) != [] then Ok(RecentReport(moneda, RecentTexts(hits, today)))
                 else generate(LlmPrompt(b, datos, hits))
  {
    var filtrados: seq<string> := [];
    if hits != [] {
      filtrados := FilterRecent(hits, today);
    }
    assert filtrados == RecentTexts(hits, today);
    if filtrados != [] {
      r := Ok(RecentReport(moneda, filtrados));
    } else {
      r := generate(LlmPrompt(b, datos, hits));
    }
  }

  /** The body of `analizar_con_llm`, branch by branch. */
  method Decide(today: Date, fecha: Option<string>, moneda: string, hits: seq<Hit>, datos: Json,
                b: Builtins, generate: string -> Result<string, string>)
    returns (r: Result<string, string>)
    requires IsValid(today) && today != MinDate && datos.Obj?
    ensures r == AnalyzeReport(today, fecha, moneda, hits, datos, b, generate)
  {
    var hoyStr := FormatIso(today);
    if fecha == Some(hoyStr) {
      TodayIsSnapshot(today, moneda, hits, datos, b, generate, fecha);
      r := Ok(SnapshotReport(b, datos));
    } else if Asked(fecha) && hits != [] {
      if ParseIso(fecha.value).None? {
        AskedUnreadableReport(today, fecha, moneda, hits, datos, b, generate);
      } else {
        AskedReport(today, fecha, moneda, hits, datos, b, generate);
      }
      r := DecideAsked(fecha.value, moneda, hits, datos, b, generate);
    } else if Asked(fecha) {
      FallsToModel(today, fecha, moneda, hits, datos, b, generate);
      r := generate(LlmPrompt(b, datos, hits));
    } else {
      UnaskedReport(today, fecha, moneda, hits, datos, b, generate);
      r := DecideUnasked(today, moneda, hits, datos, b, generate);
    }
  }

  // ---------------------------------------------------------------------
  // The graph

  /** The quote a state is left with after fetch and process: the
      adapter's answer for its currency, unwrapped. */
  predicate Fetched(state: AgentState, b: Builtins, today: Date, up: Quotes.Upstream)
    requires IsValid(today)
    reads state
  {
    && state.rawCotizacion == Some(Quotes.GetQuoteAsWritten(b, today, up, state.moneda))
    && ProcessedOf(state.rawCotizacion.value, state.moneda).Ok?
    && state.datosProcesados == Some(ProcessedOf(state.rawCotizacion.value, state.moneda).value)
  }

  /** The graph's initial state built from the question, then the fetch
      and process nodes; process never raises on a fetched quote. */
  method StartAndFetch(question: string, today: Date, up: Quotes.Upstream, b: Builtins)
    returns (state: AgentState)
    requires IsValid(today) && today != MinDate
    ensures fresh(state)
    ensures state.question == question
    ensures state.moneda == Detectors.DetectCurrency(question)
    ensures state.fecha == Detectors.DetectDate(question, today)
    ensures Fetched(state, b, today, up)
    ensures state.ragDocs == None && state.reporte == None
  {
    var moneda := Detectors.DetectCurrency(question);
    var fecha := Detectors.DetectDate(question, today);
    state := new AgentState(question, moneda, fecha);
    state.Fetch(b, today, up);
    QuotesProcess(b, today, up, moneda);
    var raised := state.Process();
  }

  /** `build_currency_agent_graph` and one run of it: the currency and the
      date are read from the question, then fetch, process, rag and
      analyze run in that order on one state. The run stops at the first
      node that raises. With a store, what was retrieved (or the error
      raised retrieving it) is the store's k=5 answer to the state's query,
      and the report, or the exception out of analyze, is the policy's on
      those hits. */
  method RunAgent(question: string, today: Date, store: SimpleVectorStore?, up: Quotes.Upstream, b: Builtins,
                  encode: string -> Embedding, similarity: (Embedding, Embedding) -> real,
                  generate: string -> Result<string, string>)
    returns (state: AgentState, raised: Option<string>, ghost idxs: seq<nat>)
    requires IsValid(today) && today != MinDate
    ensures fresh(state)
    ensures state.question == question
    ensures state.moneda == Detectors.DetectCurrency(question)
    ensures state.fecha == Detectors.DetectDate(question, today)
    ensures Fetched(state, b, today, up)
    ensures store == null ==> state.ragDocs == None
    ensures raised.None? && store != null ==> state.ragDocs.Some?
    ensures store != null ==>
      var r := if raised.Some? && state.ragDocs.None? then Err(raised.value)
               else if state.ragDocs.Some? then Ok(state.ragDocs.value) else Ok([]);
      Answers(store.docs, store.embeddings, RagQuery(state.moneda, state.fecha), RagK, encode, similarity, r, idxs)
    ensures raised.None? ==> state.Reported(today, b, generate)
    ensures raised.Some? && (store == null || state.ragDocs.Some?) && state.Datos().Obj? ==> state.Raised(today, b, generate, raised.value)
  {
    state := StartAndFetch(question, today, up, b);
    raised, idxs := state.RagThenAnalyze(today, store, b, encode, similarity, generate);
  }
}
