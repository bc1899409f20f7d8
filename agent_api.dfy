/** `CurrencyAgent` of `src/agent_api.py`: the currency read off a
    question, and the branch order of `answer` (live quote tools, then
    retrieval with the language model, then the language model alone),
    over the outcomes of its collaborators: the tool registry's calls, the
    store's retrieval, and `call_llm`, each of which may raise. The tools
    are the two quote lookups that `src/api.py` registers. */
module AgentApi {
  import opened Wrappers
  import opened Text
  import opened Dates
  import opened Json
  import Quotes
  import Detectors
  import opened VectorStore
  import opened Mcp

  // ---------------------------------------------------------------------
  // _detect_moneda

  /** The candidate words, in the order they are tried. */
  const Candidates: seq<string> := ["dólar", "dolar", "usd", "real", "euro", "guaraní", "guarani", "pyg", "gs"]

  /** The first candidate (by position) that occurs in `q`. */
  function FirstCandidateIn(q: string, cands: seq<string>): (r: Option<nat>)
    ensures r.Some? ==> r.value < |cands| && Contains(q, cands[r.value])
    ensures r.Some? ==> forall k | 0 <= k < r.value :: !Contains(q, cands[k])
    ensures r.None? ==> forall k | 0 <= k < |cands| :: !Contains(q, cands[k])
  {
    if cands == [] then None
    else if Contains(q, cands[0]) then Some(0)
    else match FirstCandidateIn(q, cands[1..])
      case Some(j) => Some(j + 1)
      case None => None
  }

  /** A character `\w` matches: letters, digits and '_' (the Latin-1 ones). */
  predicate IsWordChar(c: char) {
    || ('0' <= c <= '9') || ('A' <= c <= 'Z') || ('a' <= c <= 'z') || c == '_'
    || c == 'ª' || c == '²' || c == '³' || c == 'µ' || c == '¹' || c == 'º' || ('¼' <= c <= '¾')
    || ('À' <= c <= 'Ö') || ('Ø' <= c <= 'ö') || ('ø' <= c <= 'ÿ')
  }

  predicate UpperRun(s: string, i: nat, n: nat) {
    i + n <= |s| && forall k | i <= k < i + n :: 'A' <= s[k] <= 'Z'
  }

  /** The pattern `\b[A-Z]{3,4}\b` tried at position `i`: four capitals
      first, then three, each closed by a word boundary. */
  function TokenAt(s: string, i: nat): (r: Option<string>)
    ensures r.Some? ==> var n := |r.value|;
      && (n == 3 || n == 4) && UpperRun(s, i, n) && r.value == s[i..i + n]
      && (i == 0 || !IsWordChar(s[i - 1]))
      && (i + n == |s| || !IsWordChar(s[i + n]))
  {
    if i < |s| && (i == 0 || !IsWordChar(s[i - 1])) then
      if UpperRun(s, i, 4) && (i + 4 == |s| || !IsWordChar(s[i + 4])) then Some(s[i..i + 4])
      else if UpperRun(s, i, 3) && (i + 3 == |s| || !IsWordChar(s[i + 3])) then Some(s[i..i + 3])
      else None
    else None
  }

  /** `_detect_moneda`: the first candidate in the lower-cased question,
      else the first stand-alone three- or four-capital token, lower-cased,
      else None. */
  function DetectMoneda(question: string): Option<string> {
    match FirstCandidateIn(Lower(question), Candidates)
    case Some(k) => Some(Candidates[k])
    case None =>
      match Detectors.Search(question, TokenAt, 0)
      case Some(m) => Some(Lower(m.groups))
      case None => None
  }

  /** A candidate in the question wins, and it is the first one listed. */
  lemma DetectMonedaPrefersCandidates(question: string, k: nat)
    requires k < |Candidates| && Contains(Lower(question), Candidates[k])
    ensures DetectMoneda(question).Some?
    ensures exists j | 0 <= j <= k :: DetectMoneda(question) == Some(Candidates[j])
              && forall i | 0 <= i < j :: !Contains(Lower(question), Candidates[i])
  {
    var r := FirstCandidateIn(Lower(question), Candidates);
    assert r.Some?;
    assert r.value <= k;
  }

  /** Without a candidate, the leftmost token decides; without either,
      nothing is detected. What is detected is never empty. */
  lemma DetectMonedaToken(question: string)
    requires forall k | 0 <= k < |Candidates| :: !Contains(Lower(question), Candidates[k])
    ensures DetectMoneda(question).Some? <==> exists i | 0 <= i <= |question| :: TokenAt(question, i).Some?
    ensures DetectMoneda(question).Some? ==> exists i | 0 <= i <= |question| ::
      && TokenAt(question, i).Some?
      && DetectMoneda(question) == Some(Lower(TokenAt(question, i).value))
      && (forall j | 0 <= j < i :: TokenAt(question, j).None?)
    ensures DetectMoneda(question).Some? ==> 3 <= |DetectMoneda(question).value| <= 4
  {
    var m := Detectors.Search(question, TokenAt, 0);
    if m.Some? {
      assert TokenAt(question, m.value.start) == Some(m.value.groups);
    }
  }

  // ---------------------------------------------------------------------
  // answer

  const HtmlToolName := "cotizaciones.get_cotizacion_html"
  const PdfToolName := "cotizaciones.get_cotizacion_pdf"

  /** The dicts `answer` returns, by their 'type'. */
  datatype Reply =
    | ToolReply(tool: string, answer: string, raw: Json)
    | RagReply(answer: string, sources: seq<Hit>)
    | LlmReply(answer: string)
    | ErrorReply(message: string)

  /** The outside parties of `answer`: the registry's `call`, whether a
      store is attached, what loading and querying it gives for a question,
      and `call_llm`. */
  datatype Services = Services(call: (string, Kwargs) -> Result<Json, string>, hasStore: bool,
                               retrieve: string -> Result<seq<Hit>, string>,
                               llm: string -> Result<string, string>)

  predicate ToolKeyword(q: string) {
    Contains(q, "hoy") || Contains(q, "cotizacion") || Contains(q, "cotización") || Contains(q, "precio")
  }

  predicate RagKeyword(q: string) {
    Contains(q, "ayer") || Contains(q, "cotizacion") || Contains(q, "cotización") || Contains(q, "precio")
  }

  /** The keyword arguments the tools are called with. */
  function MonedaArgs(moneda: string): Kwargs {
    map["moneda" := Str(moneda)]
  }

  /** `v[key]`: KeyError on a dict without the key, TypeError on anything
      but a dict. */
  function Subscript(v: Json, key: string): (r: Result<Json, string>)
    ensures r.Ok? <==> Has(v, key)
    ensures r.Ok? ==> r.value == Get(v, key)
  {
    if !v.Obj? then Err("TypeError")
    else if Has(v, key) then Ok(Get(v, key))
    else Err("KeyError")
  }

  /** The "Fuente X — moneda: compra=…, venta=…" text, read field by field
      from `v` in the order the f-string reads them. */
  function SourceText(b: Builtins, origin: string, v: Json): Result<string, string> {
    match Subscript(v, "moneda")
    case Err(e) => Err(e)
    case Ok(moneda) =>
      match Subscript(v, "compra")
      case Err(e) => Err(e)
      case Ok(compra) =>
        match Subscript(v, "venta")
        case Err(e) => Err(e)
        case Ok(venta) =>
          Ok("Fuente " + origin + " — " + PyStr(b, moneda) + ": compra=" + PyStr(b, compra)
             + ", venta=" + PyStr(b, venta))
  }

  /** Line 51 as written: the fields are read off the HTML answer itself,
      where they are not (they sit under its "result"). */
  function HtmlTextAsWritten(b: Builtins, resHtml: Json): Result<string, string> {
    SourceText(b, "HTML", resHtml)
  }

  /** Line 51 as evidently intended: the fields are read off the answer's
      "result". */
  function HtmlText(b: Builtins, resHtml: Json): Result<string, string> {
    match Subscript(resHtml, "result")
    case Err(e) => Err(e)
    case Ok(inner) => SourceText(b, "HTML", inner)
  }

  /** The tool branch (lines 45-57) on the two calls' outcomes: a reply, an
      exception escaping `answer` (the HTML text is built outside any
      `try`), or None to go on. An HTML call that raises counts as no
      answer; a PDF call that raises, or a PDF text that cannot be built,
      becomes an error reply. */
  function ToolBranch(b: Builtins, htmlText: Json -> Result<string, string>,
                      html: Result<Json, string>, pdf: Result<Json, string>): Option<Result<Reply, string>> {
    var resHtml := if html.Ok? then html.value else Null;
    if Truthy(resHtml) then
      Some(match htmlText(resHtml)
           case Ok(text) => Ok(ToolReply(HtmlToolName, text, resHtml))
           case Err(e) => Err(e))
    else
      match pdf
      case Err(e) => Some(Ok(ErrorReply(e)))
      case Ok(resPdf) =>
        if !Truthy(resPdf) then None
        else
          Some(Ok(match SourceText(b, "PDF", resPdf)
                  case Ok(text) => ToolReply(PdfToolName, text, resPdf)
                  case Err(e) => ErrorReply(e)))
  }

  /** A failing HTML call is swallowed: it acts as an empty answer. */
  lemma HtmlFailureIsSwallowed(b: Builtins, htmlText: Json -> Result<string, string>, e: string,
                               pdf: Result<Json, string>)
    ensures ToolBranch(b, htmlText, Err(e), pdf) == ToolBranch(b, htmlText, Ok(Null), pdf)
  {
  }

  /** The tool branch answers from HTML exactly when the HTML answer is
      truthy; otherwise a raising PDF call is an error reply and a falsy
      PDF answer lets `answer` go on. */
  lemma ToolBranchOrder(b: Builtins, htmlText: Json -> Result<string, string>,
                        html: Result<Json, string>, pdf: Result<Json, string>)
    ensures var t := ToolBranch(b, htmlText, html, pdf);
      && (html.Ok? && Truthy(html.value) ==> t.Some? && (t.value.Ok? ==> t.value.value.ToolReply? && t.value.value.tool == HtmlToolName))
      && (!(html.Ok? && Truthy(html.value)) && pdf.Err? ==> t == Some(Ok(ErrorReply(pdf.error))))
      && (t.None? <==> !(html.Ok? && Truthy(html.value)) && pdf.Ok? && !Truthy(pdf.value))
      && (t.Some? && t.value.Err? ==> html.Ok? && Truthy(html.value) && htmlText(html.value).Err?)
  {
  }

  /** The retrieval prompt. */
  function RagPrompt(docs: seq<Hit>, question: string): string {
    "Usando el siguiente contexto:\n" + Join("\n\n", Texts(docs)) + "\n\nPregunta: " + question
    + "\nRespuesta concisa en español:"
  }

  function LlmOutcome(r: Result<string, string>): Reply {
    match r
    case Ok(text) => LlmReply(text)
    case Err(e) => ErrorReply(e)
  }

  /** The retrieval branch (lines 59-68): loading or querying the store
      raises out of `answer`; no documents lets `answer` go on; otherwise
      the model answers from them, its failure an error reply. */
  function RagBranch(question: string, docs: Result<seq<Hit>, string>,
                     llm: string -> Result<string, string>): Option<Result<Reply, string>> {
    match docs
    case Err(e) => Some(Err(e))
    case Ok(ds) =>
      if ds == [] then None
      else
        Some(Ok(match llm(RagPrompt(ds, question))
                case Ok(text) => RagReply(text, ds)
                case Err(e) => ErrorReply(e)))
  }

  /** The retrieval branch raises what loading or querying raised, lets
      `answer` go on on no documents, and otherwise answers from the
      model's reply to the prompt built from those documents. */
  lemma RagBranchOrder(question: string, docs: Result<seq<Hit>, string>, llm: string -> Result<string, string>)
    ensures docs.Err? ==> RagBranch(question, docs, llm) == Some(Err(docs.error))
    ensures RagBranch(question, docs, llm).None? <==> docs == Ok([])
    ensures docs.Ok? && docs.value != [] ==>
      var reply := llm(RagPrompt(docs.value, question));
      && (reply.Ok? ==> RagBranch(question, docs, llm) == Some(Ok(RagReply(reply.value, docs.value))))
      && (reply.Err? ==> RagBranch(question, docs, llm) == Some(Ok(ErrorReply(reply.error))))
  {
  }

  /** `answer`, given how the HTML text is built: tools when a currency is
      detected and the question asks for a quote, then retrieval when a
      store is attached, a currency is detected and the question asks for
      one, then the model on the bare question. */
  function AnswerWith(b: Builtins, htmlText: Json -> Result<string, string>, question: string,
                      svc: Services): Result<Reply, string> {
    var moneda := DetectMoneda(question);
    var q := Lower(question);
    var tool :=
      if moneda.Some? && moneda.value != "" && ToolKeyword(q) then
        ToolBranch(b, htmlText, svc.call(HtmlToolName, MonedaArgs(moneda.value)),
                   svc.call(PdfToolName, MonedaArgs(moneda.value)))
      else None;
    if tool.Some? then tool.value
    else
      var rag :=
        if svc.hasStore && moneda.Some? && moneda.value != "" && RagKeyword(q) then
          RagBranch(question, svc.retrieve(question), svc.llm)
        else None;
      if rag.Some? then rag.value
      else Ok(LlmOutcome(svc.llm(question)))
  }

  function AnswerAsWritten(b: Builtins, question: string, svc: Services): Result<Reply, string> {
    AnswerWith(b, (v: Json) => HtmlTextAsWritten(b, v), question, svc)
  }

  function Answer(b: Builtins, question: string, svc: Services): Result<Reply, string> {
    AnswerWith(b, (v: Json) => HtmlText(b, v), question, svc)
  }

  /** With no currency detected, the bare question goes to the model. */
  lemma NoCurrencyAsksModel(b: Builtins, htmlText: Json -> Result<string, string>, question: string, svc: Services)
    requires DetectMoneda(question).None?
    ensures AnswerWith(b, htmlText, question, svc) == Ok(LlmOutcome(svc.llm(question)))
  {
  }

  /** A tool reply needs a detected currency and a quote word; a retrieval
      reply needs a store as well. */
  lemma RepliesNeedTheirTriggers(b: Builtins, htmlText: Json -> Result<string, string>, question: string, svc: Services)
    ensures var r := AnswerWith(b, htmlText, question, svc);
      && (r.Ok? && r.value.ToolReply? ==> DetectMoneda(question).Some? && ToolKeyword(Lower(question)))
      && (r.Ok? && r.value.RagReply? ==> svc.hasStore && DetectMoneda(question).Some? && RagKeyword(Lower(question)))
  {
  }

  // ---------------------------------------------------------------------
  // The tools registered in src/api.py

  /** `find_cotizacion_html`, as written, as a registered callable: one
      string keyword `moneda`; its None is a falsy result. */
  function HtmlTool(b: Builtins, today: Date, api: Option<Json>): Kwargs -> Result<Json, string>
    requires IsValid(today)
  {
    (kw: Kwargs) =>
      if kw.Keys == {"moneda"} && kw["moneda"].Str? then
        Ok(match Quotes.FindHtmlAsWritten(b, today, api, kw["moneda"].s) case Some(r) => r case None => Null)
      else Err("TypeError")
  }

  /** `find_cotizacion_pdf`, as written, as a registered callable; a failed
      download or read propagates. */
  function PdfTool(b: Builtins, pdf: Result<seq<Quotes.PdfPage>, string>): Kwargs -> Result<Json, string> {
    (kw: Kwargs) =>
      if kw.Keys == {"moneda"} && kw["moneda"].Str? then
        match Quotes.FindPdfAsWritten(b, pdf, kw["moneda"].s)
        case Ok(Some(row)) => Ok(Quotes.PdfRowJson(row))
        case Ok(None) => Ok(Null)
        case Err(e) => Err(e)
      else Err("TypeError")
  }

  /** The table `src/api.py` builds. */
  function ApiTools(b: Builtins, today: Date, up: Quotes.Upstream): map<string, ToolEntry>
    requires IsValid(today)
  {
    map[HtmlToolName := ToolEntry(HtmlTool(b, today, up.api), "Obtiene cotizacion desde una página HTML", None),
        PdfToolName := ToolEntry(PdfTool(b, up.pdf), "Obtiene cotizacion desde PDF", None)]
  }

  /** The registrations of `src/api.py`: both succeed. */
  method RegisterQuoteTools(b: Builtins, today: Date, up: Quotes.Upstream) returns (reg: McpRegistry)
    requires IsValid(today)
    ensures fresh(reg)
    ensures reg.tools == ApiTools(b, today, up)
  {
    reg := new McpRegistry();
    var r1 := reg.Register(HtmlToolName, HtmlTool(b, today, up.api), "Obtiene cotizacion desde una página HTML", None);
    var r2 := reg.Register(PdfToolName, PdfTool(b, up.pdf), "Obtiene cotizacion desde PDF", None);
  }

  /** Services whose calls go to those tools. */
  ghost predicate CallsApiTools(svc: Services, b: Builtins, today: Date, up: Quotes.Upstream)
    requires IsValid(today)
  {
    forall name, kw :: svc.call(name, kw) == Dispatch(ApiTools(b, today, up), name, kw)
  }

  /** What the HTML tool hands `answer` for a detected currency. */
  lemma HtmlToolAnswer(b: Builtins, today: Date, up: Quotes.Upstream, moneda: string)
    requires IsValid(today)
    ensures Dispatch(ApiTools(b, today, up), HtmlToolName, MonedaArgs(moneda))
      == Ok(match Quotes.FindHtmlAsWritten(b, today, up.api, moneda) case Some(r) => r case None => Null)
  {
    assert MonedaArgs(moneda).Keys == {"moneda"};
  }

  /** Where an exception out of `answer` can come from: building the
      text of a truthy HTML answer, or loading and querying the store. */
  lemma AnswerWithRaises(b: Builtins, htmlText: Json -> Result<string, string>, question: string, svc: Services)
    ensures AnswerWith(b, htmlText, question, svc).Err? ==>
      || (&& DetectMoneda(question).Some? && ToolKeyword(Lower(question))
          && var html := svc.call(HtmlToolName, MonedaArgs(DetectMoneda(question).value));
             html.Ok? && Truthy(html.value) && htmlText(html.value).Err?)
      || (svc.hasStore && svc.retrieve(question).Err?)
  {
    var moneda := DetectMoneda(question);
    if moneda.Some? && moneda.value != "" && ToolKeyword(Lower(question)) {
      ToolBranchOrder(b, htmlText, svc.call(HtmlToolName, MonedaArgs(moneda.value)),
                      svc.call(PdfToolName, MonedaArgs(moneda.value)));
    }
  }

  /** A truthy HTML answer settles `answer`: its text, or the exception
      building that text raises. */
  lemma HtmlAnswerDecides(b: Builtins, htmlText: Json -> Result<string, string>, question: string, svc: Services, v: Json)
    requires DetectMoneda(question).Some? && ToolKeyword(Lower(question))
    requires svc.call(HtmlToolName, MonedaArgs(DetectMoneda(question).value)) == Ok(v) && Truthy(v)
    ensures AnswerWith(b, htmlText, question, svc) ==
      match htmlText(v)
      case Ok(text) => Ok(ToolReply(HtmlToolName, text, v))
      case Err(e) => Err(e)
  {
  }

  /** The HTML tool answers nothing, or the found answer for some row. */
  lemma HtmlCallAnswers(b: Builtins, today: Date, up: Quotes.Upstream, svc: Services, m: string)
    requires IsValid(today) && CallsApiTools(svc, b, today, up)
    ensures var v := svc.call(HtmlToolName, MonedaArgs(m));
      v == Ok(Null) || exists row :: v == Ok(Quotes.FoundJson(row))
  {
    HtmlToolAnswer(b, today, up, m);
    Quotes.FindHtmlAsWrittenLooksUpRequest(b, today, up.api, m);
  }

  /** On a found answer the fields sit under "result": line 51 as written
      misses them, the intended reading finds them. */
  lemma FoundAnswerFields(b: Builtins, row: Quotes.Row)
    ensures Truthy(Quotes.FoundJson(row))
    ensures HtmlTextAsWritten(b, Quotes.FoundJson(row)) == Err("KeyError")
    ensures HtmlText(b, Quotes.FoundJson(row)).Ok?
  {
    var found := Quotes.FoundJson(row);
    var inner := Get(found, "result");
    assert found.fields[0].key == "result";
    assert !HasKey(found.fields, "moneda") by {
      forall i | 0 <= i < |found.fields| ensures found.fields[i].key != "moneda" {
        assert found.fields[i].key in {"result", "source", "date"};
      }
    }
    assert inner.fields[0].key == "moneda";
    assert inner.fields[1].key == "compra";
    assert inner.fields[2].key == "venta";
    assert Lookup(inner.fields[1..], "compra") == Some(inner.fields[1].value);
    assert Lookup(inner.fields[2..], "venta") == Some(inner.fields[2].value);
  }

  /** A found HTML quote makes `answer` as written raise KeyError, out of
      `answer`, while the intended reading gives the tool reply. */
  lemma {:induction false} HtmlHitRaises(b: Builtins, today: Date, up: Quotes.Upstream, question: string, svc: Services)
    requires IsValid(today) && CallsApiTools(svc, b, today, up)
    requires DetectMoneda(question).Some? && ToolKeyword(Lower(question))
    requires Quotes.FindHtmlAsWritten(b, today, up.api, DetectMoneda(question).value).Some?
    ensures AnswerAsWritten(b, question, svc) == Err("KeyError")
    ensures Answer(b, question, svc).Ok? && Answer(b, question, svc).value.ToolReply?
    ensures Answer(b, question, svc).value.tool == HtmlToolName
  {
    var m := DetectMoneda(question).value;
    HtmlToolAnswer(b, today, up, m);
    Quotes.FindHtmlAsWrittenLooksUpRequest(b, today, up.api, m);
    var row :| Quotes.FindHtmlAsWritten(b, today, up.api, m).value == Quotes.FoundJson(row);
    var found := Quotes.FoundJson(row);
    FoundAnswerFields(b, row);
    HtmlAnswerDecides(b, (v: Json) => HtmlTextAsWritten(b, v), question, svc, found);
    HtmlAnswerDecides(b, (v: Json) => HtmlText(b, v), question, svc, found);
  }

  /** "precio usd hoy" has no capitals. */
  lemma PrecioUsdHoyLower(q: string)
    requires q == "precio usd hoy"
    ensures Lower(q) == q
  {
    forall i | 0 <= i < |q| ensures LowerChar(q[i]) == q[i] {
    }
  }

  /** Neither spelling of "dólar" occurs in "precio usd hoy": it has no 'ó'
      and no 'l'. */
  lemma PrecioUsdHoyNoDolar(q: string)
    requires q == "precio usd hoy"
    ensures !Contains(q, "dólar") && !Contains(q, "dolar")
  {
    if Contains(q, "dólar") {
      ContainsHasChar(q, "dólar", 1);
      assert false;
    }
    if Contains(q, "dolar") {
      ContainsHasChar(q, "dolar", 2);
      assert false;
    }
  }

  /** "usd" and "hoy" do occur in it. */
  lemma PrecioUsdHoyWords(q: string)
    requires q == "precio usd hoy"
    ensures Contains(q, "usd") && Contains(q, "hoy")
  {
    assert "precio " + "usd" + " hoy" == q;
    ContainsInside("precio ", "usd", " hoy");
    assert "precio usd " + "hoy" + "" == q;
    ContainsInside("precio usd ", "hoy", "");
  }

  /** "precio usd hoy" asks a tool question about "usd". */
  lemma PrecioUsdHoyDetected(q: string)
    requires q == "precio usd hoy"
    ensures DetectMoneda(q) == Some("usd")
    ensures ToolKeyword(Lower(q))
  {
    PrecioUsdHoyLower(q);
    PrecioUsdHoyNoDolar(q);
    PrecioUsdHoyWords(q);
    var r := FirstCandidateIn(q, Candidates);
    assert Candidates[0] == "dólar" && Candidates[1] == "dolar" && Candidates[2] == "usd";
    assert r.Some?;
    assert r.value == 2;
  }

  /** "usd" is looked up in the API table as "USD". */
  lemma UsdRequest(m: string)
    requires m == "usd"
    ensures Upper(Strip(m)) == "USD"
  {
    StripUnspaced(m);
  }

  /** So with a "USD" row in today's API table, `answer` as written raises
      KeyError on "precio usd hoy". */
  lemma PrecioUsdHoyRaises(b: Builtins, today: Date, up: Quotes.Upstream, svc: Services, q: string, k: nat)
    requires q == "precio usd hoy"
    requires IsValid(today) && CallsApiTools(svc, b, today, up)
    requires k < |Quotes.ChacoRows(b, today, up.api)| && Quotes.ChacoRows(b, today, up.api)[k].moneda == "USD"
    ensures AnswerAsWritten(b, q, svc) == Err("KeyError")
  {
    PrecioUsdHoyDetected(q);
    UsdRequest("usd");
    Quotes.FindHtmlAsWrittenLooksUpRequest(b, today, up.api, "usd");
    HtmlHitRaises(b, today, up, q, svc);
  }

  /** With the registered tools, the intended `answer` raises only when
      loading or querying the store does. */
  lemma {:induction false} AnswerRaisesOnlyFromStore(b: Builtins, today: Date, up: Quotes.Upstream, question: string,
                                                     svc: Services)
    requires IsValid(today) && CallsApiTools(svc, b, today, up)
    ensures Answer(b, question, svc).Err? ==> svc.hasStore && svc.retrieve(question).Err?
  {
    var htmlText := (v: Json) => HtmlText(b, v);
    AnswerWithRaises(b, htmlText, question, svc);
    var moneda := DetectMoneda(question);
    if moneda.Some? {
      HtmlCallAnswers(b, today, up, svc, moneda.value);
      var v := svc.call(HtmlToolName, MonedaArgs(moneda.value));
      if v != Ok(Null) {
        var row :| v == Ok(Quotes.FoundJson(row));
        FoundAnswerFields(b, row);
      }
    }
  }

  // ---------------------------------------------------------------------
  // The store behind the retrieval branch

  const StorePath := "data/vectorstore.pkl"

  /** How many documents `answer` retrieves. */
  const AnswerK := 3

  /** Lines 59-60: the saved store is loaded over the attached one, then
      queried with the question. A missing file raises. */
  method LoadAndQuery(store: SimpleVectorStore, disk: Disk, question: string, encode: string -> Embedding,
                      similarity: (Embedding, Embedding) -> real)
    returns (r: Result<seq<Hit>, string>, ghost idxs: seq<nat>)
    modifies store
    ensures StorePath !in disk.files ==> r.Err? && store.docs == old(store.docs) && store.embeddings == old(store.embeddings)
    ensures StorePath in disk.files ==>
      && store.docs == disk.files[StorePath].docs && store.embeddings == disk.files[StorePath].embeddings
      && Answers(store.docs, store.embeddings, question, AnswerK, encode, similarity, r, idxs)
  {
    var loaded := store.Load(disk, StorePath);
    if loaded.Err? {
      return Err(loaded.error), [];
    }
    r, idxs := store.Query(question, AnswerK, encode, similarity);
  }
}
