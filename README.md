# cotizaciones-agent, modelled in Dafny

This project models a currency-quote assistant for Paraguay. A question in Spanish ("¿cotización del dólar hoy?") is answered by one of two front ends.

The first front end is a four-step graph (`src/agent.py`):
- It reads a currency and a date off the question.
- It fetches a live quote through the quote adapter (`src/tools/cotizaciones_tool.py`). The adapter reads the Cambios Chaco JSON API first and falls back to its PDF.
- It unwraps the quote envelope.
- It retrieves historical documents from a small vector store (`src/rag/vectorstore.py`).
- It writes a report with a fixed policy: today's snapshot; the nearest-dated document for an asked date; the documents from today and yesterday when no date was asked; a language model otherwise.

The second front end is `CurrencyAgent.answer` (`src/agent_api.py`). It routes a question to the quote tools registered in a tool registry (`src/mcp.py`, wired in `src/api.py`), then to retrieval plus a language model, then to the language model alone. A preload script (`scripts/preload_vectorstore.py`) fills the store with Banco Central del Paraguay quotes for three August 2025 days.

Modules:
- `Text`, `Dates`, `Json` and `Wrappers` give the Python semantics the source relies on:
  - `str.lower`/`upper`/`strip`, `in` on strings and `join`;
  - `datetime.date`: validity, `toordinal`, `strftime`, `strptime`;
  - dicts in insertion order, `get`, `setdefault` and truthiness.
- `Detectors` models `detectar_moneda` and `detectar_fecha`. `re.search` is the leftmost position where a per-position matcher succeeds. Each matcher tries its alternatives in the backtracking order of the pattern's greedy quantifiers.
- `Quotes` models the adapter: alias normalisation, the payload shapes, the per-item field fallbacks, the first-match lookups, the PDF row rules and the HTML-then-PDF fallback.
- `VectorStore` models `SimpleVectorStore` as a class whose fields `docs` and `embeddings` the methods update. The disk is a `Disk` class, a map from path to saved payload.
- `Agent` models the shared state as a class updated by the four node methods, the policy as a function, and its two loops as methods proved against that function.
- `Mcp` models the registry as a class over a map from tool names to entries.
- `AgentApi` models `answer` as a function over the outcomes of its collaborators, plus the registrations of `src/api.py`.
- `Preload` models the preload script: its data, the nested document-building loop and its `main`.

Collaborators that are not modelled become parameters: `today`, the API's decoded answer and the PDF's tables (`Quotes.Upstream`), `float()` of a string and `str()` of a number (`Json.Builtins`), the sentence encoder and the cosine similarity (`encode`, `similarity`), and the language model (`generate`, `llm`), which may fail. Exceptions are `Err` values carrying the exception's name, except the registry's ValueErrors, which carry their message (what `str(e)` shows).

The adapter's two lookups are modelled as written (`Quotes.FindHtmlAsWritten`, `Quotes.FindPdfAsWritten`), and so is everything built on them: `Quotes.GetQuoteAsWritten`, the graph's fetch node and the two registered tools. The HTML lookup searches for the raw request rather than its normalised code. The PDF lookup, asked for a code of capitals, can match only a blank currency cell. The corrected lookups (`Quotes.FindHtml`, `Quotes.FindPdf`) appear only as the intended halves of the findings below. A PDF-sourced quote has no inner `"result"`, so `procesar_datos` turns it into `{}` (`Agent.QuotesProcess`).

## Model

| member | source | states |
|---|---|---|
| Dates.MakeDate | src/agent.py:77-81 | `datetime.date(y, m, d)` succeeds exactly on a real calendar date (years 1-9999), and then holds those fields |
| Dates.Prev | src/agent.py:72 | the day before a date is a valid date whose day number is one lower |
| Dates.OrdinalMonotone | src/agent.py:193 | day numbers follow calendar order, so day differences are calendar distances |
| Dates.DistanceZeroIffSame | src/agent.py:193-200 | two dates are 0 days apart exactly when they are the same date |
| Dates.ParseIso | src/agent.py:170 | on the zero-padded ASCII `YYYY-MM-DD` strings this program hands it, `strptime(s, "%Y-%m-%d")` succeeds only when they name a valid date |
| Dates.ParseFormat | src/agent.py:186 | parsing gives back every date rendered as `YYYY-MM-DD` |
| Dates.FormatInjective | src/agent.py:176 | two different dates never render to the same string |
| Text.StripSpec | src/tools/cotizaciones_tool.py:15 | `strip()` returns a piece of the input with no whitespace at either end, and only whitespace is cut off |
| Json.SetDefault | src/tools/cotizaciones_tool.py:86 | `setdefault` keeps an existing key's value and otherwise adds the key with the default |
| Detectors.DetectCurrency | src/agent.py:29-62 | the code of the first keyword group, in dict order, with a keyword in the lower-cased text; USD when no keyword occurs |
| Detectors.DollarShadowsCompounds | src/agent.py:31-47 | any text naming a "dólar …" compound (Canadian, Australian, …) is detected as USD, because "dólar" is listed first |
| Detectors.Search | src/agent.py:75 | `re.search` finds the leftmost position where the pattern matches, and there is no match before it |
| Detectors.Render | src/agent.py:78-81 | a valid date renders as `YYYY-MM-DD`; an invalid one gives None in place of the ValueError |
| Detectors.DetectDate | src/agent.py:64-123 | the result is None or the rendering of a real date; "hoy" gives today, and otherwise "ayer" gives yesterday |
| Detectors.NoDmyInIso | src/agent.py:75 | the day/month/year pattern matches nowhere inside `YYYY-MM-DD` |
| Detectors.DetectRenderedIso | src/agent.py:83-90 | a question holding only a rendered date is detected as that date |
| Detectors.DetectDayMonthYear | src/agent.py:74-81 | "DD/MM/YYYY" gives that date, or None when it is not a real date; later patterns are not tried |
| Detectors.DetectDayOfMonthName | src/agent.py:101-110 | "DD de <mes>" gives that day of that month in the current year, or None |
| Quotes.AliasHitIsSubstringHit | src/tools/cotizaciones_tool.py:47 | the `m in aliases` test adds nothing to the substring test |
| Quotes.FirstAliasHit | src/tools/cotizaciones_tool.py:46-48 | finds the first table entry the input hits, and no earlier entry is hit |
| Quotes.NormalizeCurrencyPicksFirstHit | src/tools/cotizaciones_tool.py:14-49 | the code of the first entry, in table order, with an alias inside the stripped, lower-cased input; otherwise that input upper-cased |
| Quotes.DolarIsUsd | src/tools/cotizaciones_tool.py:17 | "dólar" normalises to USD, while merely cleaning it gives "DÓLAR" |
| Quotes.DictItemsHaveIsoCode | src/tools/cotizaciones_tool.py:79-87 | every item of a dict-of-dicts payload is a dict holding `isoCode`; only dict values become items |
| Quotes.DictItemsKeepOwnIsoCode | src/tools/cotizaciones_tool.py:84-87 | a value that already has `isoCode` becomes an item unchanged |
| Quotes.CollectItems | src/tools/cotizaciones_tool.py:74-89 | the items are the `items` list, or the bare list, or the dict values with their key as default `isoCode`, or none |
| Quotes.OrChain | src/tools/cotizaciones_tool.py:96-117 | an `or` chain gives the first truthy value, else the last (falsy) one, so 0 falls through |
| Quotes.RowOfFillRule | src/tools/cotizaciones_tool.py:91-141 | an item yields a row iff it is a dict with a truthy code and a readable price; each missing price copies the other |
| Quotes.RowsOfAppend | src/tools/cotizaciones_tool.py:91-143 | rows keep item order: the rows of two item lists are the rows of each, one after the other |
| Quotes.RowsOfMembers | src/tools/cotizaciones_tool.py:91-143 | a row is emitted exactly when some item yields it |
| Quotes.NormalizeRows | src/tools/cotizaciones_tool.py:91-143 | the loop emits exactly the row specification's rows |
| Quotes.GetCotizacionesChaco | src/tools/cotizaciones_tool.py:57-143 | rows of the fetched payload, each from "Cambios Chaco" dated today; a failed request gives no rows |
| Quotes.FirstRowFor | src/tools/cotizaciones_tool.py:159-160 | finds the first row with the code; no earlier row has it |
| Quotes.QuoteFor | src/tools/cotizaciones_tool.py:146-172 | the result is truthy iff some row has the code, and then it is the first such row's answer; otherwise the not-found answer |
| Quotes.FoundQuoteFor | src/tools/cotizaciones_tool.py:174-179 | a lookup passes `find_cotizacion_html`'s test iff some row has the code, and it passes that row's answer |
| Quotes.FindHtmlIsRowAnswer | src/tools/cotizaciones_tool.py:161-178 | what the corrected HTML lookup returns is always the answer built from some row |
| Quotes.FindHtmlAsWrittenLooksUpRequest | src/tools/cotizaciones_tool.py:174-179 | as written, the HTML lookup finds a quote iff some API row carries the stripped, upper-cased request itself, and returns the first such row's answer |
| Quotes.RemoveDots | src/tools/cotizaciones_tool.py:202 | `replace('.', '')` leaves no dot and never lengthens the string |
| Quotes.CommasToDots | src/tools/cotizaciones_tool.py:202-205 | `replace(',', '.')` changes commas to dots and nothing else |
| Quotes.PdfRowOf | src/tools/cotizaciones_tool.py:195-210 | a table row yields a quote row iff it has at least three cells, even when no price parses |
| Quotes.TableRowsCount | src/tools/cotizaciones_tool.py:194-210 | a table yields one quote row per row with three or more cells |
| Quotes.ReadTable | src/tools/cotizaciones_tool.py:194-210 | the innermost loop emits that table's rows in order |
| Quotes.ReadPage | src/tools/cotizaciones_tool.py:192-210 | the middle loop emits the page's tables' rows in order |
| Quotes.ParsePdfTables | src/tools/cotizaciones_tool.py:187-211 | the outer loop emits all rows, page by page and table by table |
| Quotes.FirstPdfRowAsWritten | src/tools/cotizaciones_tool.py:217-220 | the loop as written: the first row passing the upper-case-key test, no earlier row passes it; no row passes when none is found |
| Quotes.PdfAsWrittenMatchesOnlyBlank | src/tools/cotizaciones_tool.py:218 | as written, a key of capitals matches a cell iff the cell is blank |
| Quotes.FindPdfAsWrittenBlankOnly | src/tools/cotizaciones_tool.py:213-220 | as written, for a request that normalises to a code of capitals, the PDF lookup finds a row iff some currency cell is blank, and then the first such row |
| Quotes.FirstPdfRow | src/tools/cotizaciones_tool.py:217-220 | the first row whose cell and key contain one another, ignoring case; no earlier row matches |
| Quotes.PdfMatchIgnoresCase | src/tools/cotizaciones_tool.py:218 | the corrected test matches every cell that spells the key in any case |
| Quotes.FindPdfAsWrittenMissesCode | src/tools/cotizaciones_tool.py:218 | as written, a cell "USD" is never matched by key USD; the corrected test finds it |
| Quotes.FindHtmlAsWrittenMissesAlias | src/tools/cotizaciones_tool.py:174-176 | as written, "dólar" misses an existing USD row; the corrected lookup finds it |
| Quotes.QuoteOf | src/tools/cotizaciones_tool.py:222-233 | the HTML quote when there is one, else the PDF row, else source and result None; a PDF exception is swallowed |
| Quotes.GetQuoteAsWrittenSource | src/tools/cotizaciones_tool.py:223-233 | `get_cotizacion` as written gives a dict with source and result, and its source is "html" iff the API lists the stripped, upper-cased request itself |
| Quotes.GetQuoteAsWrittenHtml | src/tools/cotizaciones_tool.py:223-226 | when the API lists the request itself, the answer is the HTML quote of the first such row |
| Quotes.GetQuoteAsWrittenFallsToBlankRow | src/tools/cotizaciones_tool.py:223-233 | an alias request (such as "dólar") the API does not list verbatim falls to the PDF and gets a blank-cell row if there is one, else source and result None |
| VectorStore.Encoded | src/rag/vectorstore.py:13-14 | one embedding row per document, the encoding of its text |
| VectorStore.SliceCount | src/rag/vectorstore.py:26 | how many items `[:k]` keeps: at most k and at most n for k >= 0, counting from the end for k < 0 |
| VectorStore.Scores | src/rag/vectorstore.py:24-25 | one similarity per stored row |
| VectorStore.SelectTop | src/rag/vectorstore.py:26 | `count` distinct positions, scores non-increasing, no position left out scoring above a chosen one |
| VectorStore.DistinctBelow | src/rag/vectorstore.py:26-29 | distinct row positions below n are at most n, so a query never returns more results than documents |
| VectorStore.SimpleVectorStore.constructor | src/rag/vectorstore.py:7-10 | a new store has no documents and no embedding matrix |
| VectorStore.SimpleVectorStore.AddDocuments | src/rag/vectorstore.py:12-19 | `np.vstack` raises ValueError, changing nothing, exactly when a matrix exists and the batch is empty while the matrix has rows, or non-empty while it has none; otherwise documents and rows are appended in order, one row per document, alignment kept |
| VectorStore.SimpleVectorStore.Query | src/rag/vectorstore.py:21-30 | empty store gives []; otherwise the ranked documents with their own scores, at most k and at most the stored count; a row with no document gives IndexError, so an aligned store never raises |
| VectorStore.SimpleVectorStore.Save | src/rag/vectorstore.py:32-36 | the file at the path holds the docs and embeddings; a path with no directory raises and writes nothing |
| VectorStore.SimpleVectorStore.Load | src/rag/vectorstore.py:38-42 | both fields are replaced by the saved ones, unchecked; a missing file raises and changes nothing |
| VectorStore.SaveThenLoad | src/rag/vectorstore.py:32-42 | save followed by load of the same path gives back the store's contents |
| Agent.ExtractDate | src/agent.py:166-173 | `extraer_fecha` gives None or a valid date |
| Agent.ExtractDateAfter | src/agent.py:166-173 | a text whose digit-free prefix is followed by a rendered date gives that date |
| Agent.MonthThirteen | src/agent.py:167-172 | "2025-13-01" has the searched shape but is not a date |
| Agent.FirstDateOnly | src/agent.py:167-172 | only the first `YYYY-MM-DD` substring counts: if it is invalid, a later valid one is not used |
| Agent.DatesOf | src/agent.py:190-191 | the dates read off the hits, in retrieval order, all valid |
| Agent.Nearest | src/agent.py:190-196 | the kept position, if any, is a dated document |
| Agent.Closest | src/agent.py:190-196 | on the documents' day gaps, the kept position, if any, has a gap |
| Agent.ClosestIsClosest | src/agent.py:190-196 | on the day gaps, the loop keeps nothing iff no document has a gap; else the smallest gap, the first among equal ones |
| Agent.IsNearestUnique | src/agent.py:194 | with strict improvement, the nearest document is unique |
| Agent.NearestIsNearest | src/agent.py:190-196 | the loop keeps nothing iff no document is dated; else the closest document, the earliest among ties |
| Agent.ClosestSnoc | src/agent.py:191-196 | one more document replaces the kept one only when it has a strictly smaller gap |
| Agent.FindNearest | src/agent.py:187-196 | the loop over `mejor_doc`/`mejor_diff` keeps exactly the nearest position |
| Agent.RecentTextsMembers | src/agent.py:209-213 | a text is listed iff a hit dated today or yesterday carries it |
| Agent.RecentTextsAppend | src/agent.py:209-213 | the selection keeps retrieval order: it commutes with concatenation |
| Agent.FilterRecent | src/agent.py:208-213 | the loop collects exactly the texts of the hits dated today or yesterday |
| Agent.NearestReportExact | src/agent.py:198-203 | the report says "Datos históricos" iff the chosen document is 0 days away |
| Agent.TodayIsSnapshot | src/agent.py:175-182 | today's date gives the snapshot report (even for `{}`), whatever was retrieved and whatever the model would say |
| Agent.AskedDateReportsNearest | src/agent.py:184-204 | another asked date with a dated document reports on the nearest document |
| Agent.AskedDateUndatedAsksModel | src/agent.py:184-232 | another asked date with no dated document falls through to the language model |
| Agent.UnaskedDateReportsRecent | src/agent.py:206-232 | no asked date (None or ""): if some hit is dated today or yesterday, a recent-documents report listing exactly those hits' texts; if none is, the language model's report |
| Agent.RecentTextsEmpty | src/agent.py:209-215 | nothing is listed exactly when no hit is dated today or yesterday |
| Agent.ProcessFound | src/agent.py:132-142 | an HTML quote processes to its row's moneda, compra, venta and source |
| Agent.ProcessUnnested | src/agent.py:133-144 | a quote whose result is a PDF row or None processes to `{}` |
| Agent.QuoteOfProcesses | src/agent.py:132-145 | any fallback answer processes without raising: HTML gives the row's fields, anything else `{}` |
| Agent.QuotesProcess | src/agent.py:126-145 | every quote the adapter as written returns processes without raising, and only an HTML quote gives fields |
| Agent.RagQueryMentions | src/agent.py:150-154 | the retrieval query names the currency, and the date when one was asked |
| Agent.AgentState.constructor | src/agent.py:253-257 | the initial state holds question, currency and date only |
| Agent.AgentState.Fetch | src/agent.py:126-130 | the as-written adapter's answer for the state's currency is stored; nothing else changes |
| Agent.AgentState.Process | src/agent.py:132-145 | the processed quote is stored, or the error is returned with the state unchanged |
| Agent.AgentState.RagLookup | src/agent.py:147-157 | no store leaves the state untouched; otherwise the store's answer (k=5) to the state's query is stored |
| Agent.AgentState.Analyze | src/agent.py:159-233 | the stored report is the policy's report, or the error is returned and the report is unchanged |
| Agent.Decide | src/agent.py:159-233 | the branch-by-branch body computes exactly the policy's report |
| Agent.DecideAsked | src/agent.py:184-204 | for an asked date with retrieved documents: ValueError when unreadable, the nearest document's report, or the model's |
| Agent.DecideUnasked | src/agent.py:206-232 | without an asked date: the recent documents' report when any, else the model's |
| Agent.StartAndFetch | src/agent.py:236-258 | the initial state from the detectors, then fetch and process, which never raises on a fetched quote |
| Agent.AgentState.RagThenAnalyze | src/agent.py:147-233 | with a store, the hits stored (or the error raised) are the store's k=5 answer to the state's query; the report, or analyze's exception, is the policy's on those hits |
| Agent.RunAgent | src/agent.py:236-258 | fetch, process, rag, analyze in order on one state: the detectors' currency and date, the fetched and processed quote, the store's k=5 answer to the state's query (or its error, which stops the run), and the policy's report or exception on those hits |
| Mcp.UnknownToolRaises | src/mcp.py:19-20 | calling an unregistered name raises ValueError "Tool '<name>' not registered", whatever the arguments |
| Mcp.FailedValidationSkipsTool | src/mcp.py:22-28 | a failed validation is the outcome, and the callable is never invoked |
| Mcp.DispatchLocal | src/mcp.py:18-30 | a call depends only on its own name's entry |
| Mcp.McpRegistry.constructor | src/mcp.py:10-11 | a new registry has no tools |
| Mcp.McpRegistry.Register | src/mcp.py:13-16 | a fresh name gets its entry; a taken name raises and leaves the table unchanged; nothing is removed |
| Mcp.McpRegistry.Call | src/mcp.py:18-30 | the outcome is the dispatch over the table; an unknown name raises |
| AgentApi.FirstCandidateIn | src/agent_api.py:34-36 | finds the first candidate, in list order, contained in the question |
| AgentApi.TokenAt | src/agent_api.py:37 | a match of `\b[A-Z]{3,4}\b`: 3 or 4 capitals with a word boundary on both sides, 4 tried first |
| AgentApi.DetectMonedaPrefersCandidates | src/agent_api.py:31-36 | a candidate in the question wins, and it is the first one listed |
| AgentApi.DetectMonedaToken | src/agent_api.py:37-40 | with no candidate, the leftmost token lower-cased, else None; a detected token has 3 or 4 letters |
| AgentApi.Subscript | src/agent_api.py:51 | `v[key]` succeeds exactly when `v` is a dict holding the key |
| AgentApi.HtmlFailureIsSwallowed | src/agent_api.py:46-49 | a raising HTML call acts like an empty answer |
| AgentApi.ToolBranchOrder | src/agent_api.py:44-57 | a truthy HTML answer decides; otherwise a raising PDF call gives an error reply; a falsy PDF answer falls through |
| AgentApi.RagBranchOrder | src/agent_api.py:58-68 | store errors escape; no documents fall through; otherwise a rag reply from the model, or an error reply |
| AgentApi.NoCurrencyAsksModel | src/agent_api.py:69-73 | with no currency detected, the bare question goes to the model |
| AgentApi.RepliesNeedTheirTriggers | src/agent_api.py:44-58 | a tool reply needs a currency and a quote word; a rag reply also needs a store |
| AgentApi.AnswerWithRaises | src/agent_api.py:42-73 | `answer` raises only while building the HTML text or while loading or querying the store |
| AgentApi.HtmlAnswerDecides | src/agent_api.py:50-51 | a truthy HTML answer gives the HTML tool reply, or the exception raised while building its text |
| AgentApi.RegisterQuoteTools | src/api.py:11-13 | both registrations succeed, and the table holds the two quote tools with their descriptions |
| AgentApi.HtmlToolAnswer | src/api.py:12 | calling the HTML tool gives the as-written `find_cotizacion_html`'s answer, or None |
| AgentApi.HtmlCallAnswers | src/agent_api.py:47 | the HTML tool answers None or the found answer for some row |
| AgentApi.FoundAnswerFields | src/agent_api.py:51 | a found answer has its fields under "result": read as written that raises KeyError, read under "result" it succeeds |
| AgentApi.HtmlHitRaises | src/agent_api.py:47-51 | as written, a quote found by the registered HTML tool makes `answer` raise KeyError; with line 51 corrected, it gives the HTML tool reply |
| AgentApi.PrecioUsdHoyDetected | src/agent_api.py:31-44 | "precio usd hoy" is a tool question about "usd" (no spelling of "dólar" occurs in it) |
| AgentApi.PrecioUsdHoyRaises | src/agent_api.py:42-51 | with a USD row in today's API table, `answer` as written raises KeyError on "precio usd hoy" |
| AgentApi.AnswerRaisesOnlyFromStore | src/agent_api.py:42-73 | with the registered tools, the corrected `answer` raises only when loading or querying the store does |
| AgentApi.LoadAndQuery | src/agent_api.py:59-60 | the saved store replaces the attached one and is queried with k=3; a missing file raises and leaves the attached store unchanged |
| Preload.SheetDocs | scripts/preload_vectorstore.py:112-115 | one document per currency of a sheet, in listed order |
| Preload.BuildDocuments | scripts/preload_vectorstore.py:109-115 | the nested loop builds exactly the documents of the sheets, in order |
| Preload.DocumentsCount | scripts/preload_vectorstore.py:110-116 | the document count is the sum of the currency-list lengths |
| Preload.DocumentsOrder | scripts/preload_vectorstore.py:110-112 | currency j of sheet i sits right after all the earlier sheets' currencies |
| Preload.DocumentsMembers | scripts/preload_vectorstore.py:110-115 | every document is the one of a listed (sheet, currency) pair |
| Preload.IdInjective | scripts/preload_vectorstore.py:113 | `"{fecha}_{moneda}"` splits back into date and code when dates have ten characters |
| Preload.IdsUnique | scripts/preload_vectorstore.py:113 | ids are unique when each (date, code) pair occurs once |
| Preload.TextDate | scripts/preload_vectorstore.py:114 | the first `YYYY-MM-DD` in a document's text is its sheet's date |
| Preload.MetaFields | scripts/preload_vectorstore.py:115 | meta holds fecha, moneda and valor_guaranies as given |
| Preload.ShippedCount | scripts/preload_vectorstore.py:11-105 | the shipped data gives 78 documents |
| Preload.ShippedDates | scripts/preload_vectorstore.py:11-105 | every shipped sheet date is a valid ISO date |
| Preload.ShippedIdsUnique | scripts/preload_vectorstore.py:11-105 | no two shipped documents share an id |
| Preload.PreloadMain | scripts/preload_vectorstore.py:107-117 | all documents are added in one batch, one row each, and saved; the save succeeds |

## Left out

- The HTTP layer and startup wiring of `src/api.py`: the FastAPI routes, and the module-level store load whose exceptions are swallowed. Only the two registrations are modelled.
- Network and file I/O. The API request and its JSON decoding become `Upstream.api`; the PDF download and pdfplumber's tables become `Upstream.pdf`; pickle files become the `Disk` map. A failing request is `None`, and a failing download or read is `Err`.
- Calls to the language model (`call_llm`, `generate_content`, `analyze_with_llm`) are parameters that may fail. `analyze_with_llm` and `LLMAnalysisInput` in `src/mcp.py` are registered nowhere and are not modelled.
- The sentence encoder and cosine similarity are parameters, and embedding rows are `seq<real>`; numpy's arrays and floating point are not modelled.
- VectorStore.SelectTop: the order among equal scores is left unspecified, since `np.argsort` is not stable; the contract gives only the ranking.
- `float()` of a string and `str()` of a number, list or dict come from `Json.Builtins`. Only the string rewriting around them is modelled.
- The wall clock is the parameter `today`, which also stands for `datetime.now()` in rows' meta.
- The langgraph machinery is not modelled. `Agent.RunAgent` runs the four nodes in order on one state and stops at the first exception.
- pydantic validation is a function from arguments to validated fields or an error.
- `print` output is not modelled.
- Character classes: `Lower`/`Upper` cover ASCII and Latin-1 letters, with 'µ' and 'ÿ' upper-cased to U+039C and U+0178 as Python does.
- Text.Upper: keeps 'ß' as it is, where Python's `str.upper()` gives the two letters "SS"; the model's `Upper` keeps the length of its input.
- `\w` in `_detect_moneda` covers ASCII and Latin-1 word characters only.
- Exception messages are not modelled, except the registry's two ValueErrors: any other `Err` carries the exception's name, so the `str(e)` of an error reply is that name.
- Detectors.DetectDate: requires that today is not 0001-01-01, where the source's `hoy - timedelta(days=1)` raises OverflowError. The same holds for `Agent.AnalyzeReport` and the methods built on it.
- AgentApi.HtmlTool: accepts exactly one string keyword `moneda` and raises TypeError otherwise. It does not model the exceptions `find_cotizacion_html` would raise on other argument types.
- `answer`'s `self.vectorstore` truthiness is `Services.hasStore`, and its load-then-query is `Services.retrieve`, which `AgentApi.LoadAndQuery` ties to the store.
- VectorStore.SimpleVectorStore.Save: a path with no directory part raises; other file-system failures are not modelled.
- VectorStore.SimpleVectorStore.AddDocuments: assumes every embedding has a non-zero dimension. Under that assumption it covers the empty batch on a store with rows and the first batch on a loaded matrix with no rows, both ValueError.
- Dates.ParseIso: accepts only two-digit month and day fields; CPython's `strptime` also reads one digit or a space-padded day. Every string this program parses comes from `FormatIso` or the `\d{4}-\d{2}-\d{2}` search, so the difference is never reached.
- Text.IsDigit: `\d` is ASCII digits only, while Python's `\d` also matches other Unicode decimal digits.
- Dates.FormatIso: always pads the year to four digits. glibc's `strftime("%Y")` does not pad years below 1000, so "01/01/0999" renders as "999-01-01" in the source, and once documents were retrieved `strptime` at src/agent.py:186 raises ValueError on it, where the model reports the nearest document.

## Findings

| source | as written | input that shows it | evidently intended | confidence | as-written member | corrected member |
|---|---|---|---|---|---|---|
| src/tools/cotizaciones_tool.py:174-176 | `find_cotizacion_html` computes the normalised code `key` but looks up the raw request | "dólar" when the API has a USD row and no "DÓLAR" row: nothing is found | look up `key` | not executed | Quotes.FindHtmlAsWrittenMissesAlias | Quotes.FindHtmlIsRowAnswer |
| src/tools/cotizaciones_tool.py:218 | the upper-case `key` is compared with the lower-cased cell | a PDF cell "USD" with key "USD": never matched; only a blank cell ever is | compare both sides in the same case | not executed | Quotes.FindPdfAsWrittenMissesCode | Quotes.PdfMatchIgnoresCase |
| src/agent_api.py:51 | the HTML reply reads `res_html['moneda']`, but the fields sit under `res_html['result']`, outside any `try` | "precio usd hoy" when today's API table has a USD row: KeyError escapes `answer` | read `res_html['result']['moneda']` and likewise for compra and venta | not executed | AgentApi.PrecioUsdHoyRaises | AgentApi.AnswerRaisesOnlyFromStore |
