/** The detectors of `src/agent.py`: which currency a question names
    (`detectar_moneda`) and which date it names (`detectar_fecha`). The
    date detector runs five regular expressions with `re.search`; each is
    modelled as a matcher at one position, tried in the backtracking order
    of its quantifiers, and `Search` takes the leftmost position where the
    matcher succeeds. The clock's date is the parameter `today`. */
module Detectors {
  import opened Wrappers
  import opened Text
  import opened Dates

  // ---------------------------------------------------------------------
  // detectar_moneda

  /** A currency's keywords, in the order the dict lists them. */
  datatype CurrencyKeys = CurrencyKeys(iso: string, keys: seq<string>)

  /** The keyword dict; it lists each currency's keywords together, so the
      first keyword found in a text belongs to the first group that has a
      keyword found in it. */
  const KeywordTable: seq<CurrencyKeys> := [
    CurrencyKeys("USD", ["dólar", "usd"]),
    CurrencyKeys("JPY", ["yen", "jpy"]),
    CurrencyKeys("GBP", ["libra", "gbp"]),
    CurrencyKeys("CHF", ["franco suizo", "chf"]),
    CurrencyKeys("SEK", ["corona sueca", "sek"]),
    CurrencyKeys("DKK", ["corona danesa", "dkk"]),
    CurrencyKeys("NOK", ["corona noruega", "nok"]),
    CurrencyKeys("BRL", ["real", "brl"]),
    CurrencyKeys("ARS", ["peso argentino", "ars"]),
    CurrencyKeys("CAD", ["dólar canadiense", "cad"]),
    CurrencyKeys("ZAR", ["rand", "zar"]),
    CurrencyKeys("XDR", ["derechos especiales de giro", "deg", "xdr"]),
    CurrencyKeys("XAU", ["onza de oro", "oro", "xau"]),
    CurrencyKeys("CLP", ["peso chileno", "clp"]),
    CurrencyKeys("EUR", ["euro", "eur"]),
    CurrencyKeys("UYU", ["peso uruguayo", "uyu"]),
    CurrencyKeys("AUD", ["dólar australiano", "aud"]),
    CurrencyKeys("CNY", ["yuan", "renminbi", "cny"]),
    CurrencyKeys("SGD", ["dólar de singapur", "sgd"]),
    CurrencyKeys("BOB", ["boliviano", "bob"]),
    CurrencyKeys("PEN", ["sol peruano", "pen"]),
    CurrencyKeys("NZD", ["dólar neozelandés", "nzd"]),
    CurrencyKeys("MXN", ["peso mexicano", "mxn"]),
    CurrencyKeys("COP", ["peso colombiano", "cop"]),
    CurrencyKeys("TWD", ["dólar taiwanés", "twd"]),
    CurrencyKeys("AED", ["dirham", "emiratos", "aed"])
  ]

  /** Some keyword of the group occurs in `t`. */
  predicate Mentions(t: string, g: CurrencyKeys) {
    exists i | 0 <= i < |g.keys| :: Contains(t, g.keys[i])
  }

  /** Where the first group with a keyword in `t` sits in the table. */
  function FirstGroupIn(t: string, table: seq<CurrencyKeys>): (r: Option<nat>)
    ensures r.Some? ==> r.value < |table| && Mentions(t, table[r.value])
    ensures r.Some? ==> forall k | 0 <= k < r.value :: !Mentions(t, table[k])
    ensures r.None? ==> forall k | 0 <= k < |table| :: !Mentions(t, table[k])
  {
    if table == [] then None
    else if Mentions(t, table[0]) then Some(0)
    else match FirstGroupIn(t, table[1..])
      case Some(j) => Some(j + 1)
      case None => None
  }

  /** `detectar_moneda`: the code of the first keyword the lower-cased text
      contains, USD when it contains none. */
  function DetectCurrency(texto: string): (r: string)
    ensures || (exists j | 0 <= j < |KeywordTable| ::
                 && Mentions(Lower(texto), KeywordTable[j])
                 && (forall k | 0 <= k < j :: !Mentions(Lower(texto), KeywordTable[k]))
                 && r == KeywordTable[j].iso)
            || ((forall k | 0 <= k < |KeywordTable| :: !Mentions(Lower(texto), KeywordTable[k])) && r == "USD")
  {
    match FirstGroupIn(Lower(texto), KeywordTable)
    case Some(j) => KeywordTable[j].iso
    case None => "USD"
  }

  /** "dólar" is the first key, so every text naming a dollar, including
      "dólar canadiense" or "dólar australiano", is detected as USD. */
  lemma DollarShadowsCompounds(texto: string, phrase: string)
    requires StartsWith(phrase, "dólar") && Contains(Lower(texto), phrase)
    ensures DetectCurrency(texto) == "USD"
  {
    ContainsPrefix(Lower(texto), phrase, "dólar");
    assert KeywordTable[0].keys[0] == "dólar";
  }

  // ---------------------------------------------------------------------
  // Regular-expression search

  /** A successful match: where it starts and what its groups hold. */
  datatype Match<T> = Match(start: nat, groups: T)

  /** `re.search`: the leftmost position from `i` on where `at` matches. */
  function Search<T>(s: string, at: (string, nat) -> Option<T>, i: nat): (r: Option<Match<T>>)
    requires i <= |s|
    ensures r.Some? ==> i <= r.value.start <= |s| && at(s, r.value.start) == Some(r.value.groups)
    ensures r.Some? ==> forall k | i <= k < r.value.start :: at(s, k).None?
    ensures r.None? ==> forall k | i <= k <= |s| :: at(s, k).None?
    decreases |s| - i
  {
    match at(s, i)
    case Some(g) => Some(Match(i, g))
    case None => if i == |s| then None else Search(s, at, i + 1)
  }

  /** The first alternative that matches, in backtracking order. */
  function FirstOf<T>(tries: seq<Option<T>>): (r: Option<T>)
    ensures r.Some? ==> exists k | 0 <= k < |tries| :: tries[k] == r && forall j | 0 <= j < k :: tries[j].None?
    ensures r.None? ==> forall k | 0 <= k < |tries| :: tries[k].None?
  {
    if tries == [] then None
    else if tries[0].Some? then tries[0]
    else
      var r := FirstOf(tries[1..]);
      assert forall k | 1 <= k < |tries| :: tries[k] == tries[1..][k - 1];
      r
  }

  /** `[/-]`. */
  predicate IsSep(c: char) {
    c == '/' || c == '-'
  }

  /** `[a-záéíóú]`. */
  predicate IsWordLetter(c: char) {
    'a' <= c <= 'z' || c == 'á' || c == 'é' || c == 'í' || c == 'ó' || c == 'ú'
  }

  predicate LetterAt(s: string, i: nat) {
    i < |s| && IsWordLetter(s[i])
  }

  /** `\d{n}` at `i`. */
  predicate DigitsAt(s: string, i: nat, n: nat) {
    i + n <= |s| && AllDigits(s[i..i + n])
  }

  /** `int()` of the `n` digits at `i`. */
  function NumAt(s: string, i: nat, n: nat): nat
    requires DigitsAt(s, i, n)
  {
    DigitsValue(s[i..i + n])
  }

  /** The end of the run of `[a-záéíóú]` letters that starts at `i`. */
  function LetterRunEnd(s: string, i: nat): (j: nat)
    requires i <= |s|
    ensures i <= j <= |s|
    ensures forall k | i <= k < j :: IsWordLetter(s[k])
    ensures j == |s| || !IsWordLetter(s[j])
    decreases |s| - i
  {
    if LetterAt(s, i) then LetterRunEnd(s, i + 1) else i
  }

  datatype Triple = Triple(a: nat, b: nat, c: nat)
  datatype Pair = Pair(a: nat, b: nat)
  datatype DayWord = DayWord(day: nat, word: string)

  /** `(\d{1,2})[/-](\d{1,2})[/-](\d{4})` at `i` with `a` and `b` digits in
      the first two groups. */
  function DmyWith(s: string, i: nat, a: nat, b: nat): Option<Triple> {
    if && DigitsAt(s, i, a) && i + a < |s| && IsSep(s[i + a])
       && DigitsAt(s, i + a + 1, b) && i + a + 1 + b < |s| && IsSep(s[i + a + 1 + b])
       && DigitsAt(s, i + a + b + 2, 4)
    then Some(Triple(NumAt(s, i, a), NumAt(s, i + a + 1, b), NumAt(s, i + a + b + 2, 4)))
    else None
  }

  /** The day/month/year pattern at `i`: greedy groups give back one digit
      at a time, the inner group first. */
  function DmyAt(s: string, i: nat): Option<Triple> {
    FirstOf([DmyWith(s, i, 2, 2), DmyWith(s, i, 2, 1), DmyWith(s, i, 1, 2), DmyWith(s, i, 1, 1)])
  }

  /** `(\d{4})-(\d{1,2})-(\d{1,2})` at `i` with `b` and `c` digits in the
      last two groups. */
  function IsoWith(s: string, i: nat, b: nat, c: nat): Option<Triple> {
    if && DigitsAt(s, i, 4) && i + 4 < |s| && s[i + 4] == '-'
       && DigitsAt(s, i + 5, b) && i + 5 + b < |s| && s[i + 5 + b] == '-'
       && DigitsAt(s, i + 6 + b, c)
    then Some(Triple(NumAt(s, i, 4), NumAt(s, i + 5, b), NumAt(s, i + 6 + b, c)))
    else None
  }

  function IsoAt(s: string, i: nat): Option<Triple> {
    FirstOf([IsoWith(s, i, 2, 2), IsoWith(s, i, 2, 1), IsoWith(s, i, 1, 2), IsoWith(s, i, 1, 1)])
  }

  /** `(\d{1,2})[/-](\d{1,2})` at `i`. */
  function DmWith(s: string, i: nat, a: nat, b: nat): Option<Pair> {
    if DigitsAt(s, i, a) && i + a < |s| && IsSep(s[i + a]) && DigitsAt(s, i + a + 1, b)
    then Some(Pair(NumAt(s, i, a), NumAt(s, i + a + 1, b)))
    else None
  }

  function DmAt(s: string, i: nat): Option<Pair> {
    FirstOf([DmWith(s, i, 2, 2), DmWith(s, i, 2, 1), DmWith(s, i, 1, 2), DmWith(s, i, 1, 1)])
  }

  /** `(\d{1,2})\s*(de\s*)?([a-záéíóú]+)` at `i` with `a` day digits. Each
      `\s*` ends where no whitespace follows; giving back whitespace would
      leave the next item facing a space, where neither "de" nor a letter
      starts, so only the longest run can lead to a match. The optional
      group is tried first; without it, the word starts at the "de". */
  function DayMonthWith(s: string, i: nat, a: nat): Option<DayWord> {
    if !DigitsAt(s, i, a) then None
    else
      var q := SkipSpaces(s, i + a);
      var afterDe := if q + 2 <= |s| && s[q..q + 2] == "de" then SkipSpaces(s, q + 2) else q;
      if q + 2 <= |s| && s[q..q + 2] == "de" && LetterAt(s, afterDe) then
        Some(DayWord(NumAt(s, i, a), s[afterDe..LetterRunEnd(s, afterDe)]))
      else if LetterAt(s, q) then
        Some(DayWord(NumAt(s, i, a), s[q..LetterRunEnd(s, q)]))
      else None
  }

  function DayMonthAt(s: string, i: nat): Option<DayWord> {
    FirstOf([DayMonthWith(s, i, 2), DayMonthWith(s, i, 1)])
  }

  /** `([a-záéíóú]+)\s*(\d{1,2})` at `i`. A shorter word would leave a letter
      where a space or digit must follow, so only the whole letter run can
      match. */
  function MonthDayAt(s: string, i: nat): Option<DayWord> {
    if !LetterAt(s, i) then None
    else
      var e := LetterRunEnd(s, i);
      var q := SkipSpaces(s, e);
      if DigitsAt(s, q, 2) then Some(DayWord(NumAt(s, q, 2), s[i..e]))
      else if DigitsAt(s, q, 1) then Some(DayWord(NumAt(s, q, 1), s[i..e]))
      else None
  }

  // ---------------------------------------------------------------------
  // detectar_fecha

  /** `MESES`. */
  const Months: map<string, int> := map[
    "enero" := 1, "febrero" := 2, "marzo" := 3, "abril" := 4, "mayo" := 5, "junio" := 6,
    "julio" := 7, "agosto" := 8, "septiembre" := 9, "setiembre" := 9, "octubre" := 10,
    "noviembre" := 11, "diciembre" := 12
  ]

  /** `date(...).strftime("%Y-%m-%d")`, with the ValueError of an invalid
      date as None. */
  function Render(d: Option<Date>): (r: Option<string>)
    requires d.Some? ==> IsValid(d.value)
    ensures r.Some? <==> d.Some?
    ensures r.Some? ==> r.value == FormatIso(d.value)
  {
    match d
    case Some(x) => Some(FormatIso(x))
    case None => None
  }

  /** What a day-and-month-name match decides: nothing when there is no
      match or the word is not a month name (the detector goes on), and
      otherwise the date in `year` or None. The letter run holds no
      whitespace, so the source's `.strip()` of it changes nothing. */
  function ByMonthName(year: int, m: Option<Match<DayWord>>): Option<Option<string>> {
    match m
    case Some(Match(_, DayWord(day, word))) =>
      if word in Months then Some(Render(MakeDate(year, Months[word], day))) else None
    case None => None
  }

  /** `detectar_fecha`: the date a question names, as `YYYY-MM-DD`. "hoy"
      and "ayer" win; then the first of the five patterns that matches
      decides, an invalid date giving None, except that a month-name
      pattern whose word is not a month lets the search go on. */
  function DetectDate(texto: string, today: Date): (r: Option<string>)
    requires IsValid(today) && today != MinDate
    ensures r.Some? ==> exists d :: IsValid(d) && r.value == FormatIso(d)
    ensures Contains(Strip(Lower(texto)), "hoy") ==> r == Some(FormatIso(today))
    ensures !Contains(Strip(Lower(texto)), "hoy") && Contains(Strip(Lower(texto)), "ayer") ==>
      r == Some(FormatIso(Prev(today)))
  {
    var t := Strip(Lower(texto));
    if Contains(t, "hoy") then Some(FormatIso(today))
    else if Contains(t, "ayer") then Some(FormatIso(Prev(today)))
    else match Search(t, DmyAt, 0)
      case Some(m) => Render(MakeDate(m.groups.c, m.groups.b, m.groups.a))
      case None =>
        match Search(t, IsoAt, 0)
        case Some(m) => Render(MakeDate(m.groups.a, m.groups.b, m.groups.c))
        case None =>
          match Search(t, DmAt, 0)
          case Some(m) => Render(MakeDate(today.year, m.groups.b, m.groups.a))
          case None =>
            match ByMonthName(today.year, Search(t, DayMonthAt, 0))
            case Some(r) => r
            case None =>
              match ByMonthName(today.year, Search(t, MonthDayAt, 0))
              case Some(r) => r
              case None => None
  }

  // ---------------------------------------------------------------------
  // What the date detector gives back

  /** Text made of digits and separators only. */
  predicate NumericText(s: string) {
    forall i | 0 <= i < |s| :: IsDigit(s[i]) || IsSep(s[i])
  }

  /** Such text survives `lower().strip()` and holds neither keyword. */
  lemma NumericTextIsPlain(s: string)
    requires NumericText(s) && |s| > 0
    ensures Strip(Lower(s)) == s
    ensures !Contains(s, "hoy") && !Contains(s, "ayer")
  {
    forall i | 0 <= i < |s| ensures LowerChar(s[i]) == s[i] && s[i] != 'h' && s[i] != 'a' {
      assert IsDigit(s[i]) || IsSep(s[i]);
    }
    assert Lower(s) == s;
    assert IsDigit(s[0]) || IsSep(s[0]);
    assert IsDigit(s[|s| - 1]) || IsSep(s[|s| - 1]);
    StripUnspaced(s);
    if Contains(s, "hoy") { ContainsHasChar(s, "hoy", 0); }
    if Contains(s, "ayer") { ContainsHasChar(s, "ayer", 0); }
  }

  /** In `YYYY-MM-DD` no day/month/year pattern starts anywhere: four digits
      would have to follow the second separator. */
  lemma NoDmyInIso(s: string)
    requires IsoShaped(s)
    ensures forall k | 0 <= k <= |s| :: DmyAt(s, k).None?
  {
    assert forall i | 0 <= i < 4 :: IsDigit(s[i]) by {
      forall i | 0 <= i < 4 ensures IsDigit(s[i]) { assert s[..4][i] == s[i]; }
    }
    assert forall k, a: nat, b: nat | 0 <= k <= |s| && 1 <= a <= 2 && 1 <= b <= 2
      :: DmyWith(s, k, a, b).None?;
  }

  /** The ISO pattern reads the three numbers of `YYYY-MM-DD` at its start. */
  lemma IsoAtStart(s: string)
    requires IsoShaped(s)
    ensures IsoAt(s, 0) == Some(Triple(DigitsValue(s[..4]), DigitsValue(s[5..7]), DigitsValue(s[8..])))
  {
    assert s[0..4] == s[..4] && s[5..7] == s[5..7] && s[8..10] == s[8..];
  }

  /** When the cleaned question holds no keyword and no day/month/year
      pattern, the first ISO-pattern match decides. */
  lemma DetectByIso(t: string, today: Date)
    requires IsValid(today) && today != MinDate
    requires Strip(Lower(t)) == t && !Contains(t, "hoy") && !Contains(t, "ayer")
    requires Search(t, DmyAt, 0).None? && Search(t, IsoAt, 0).Some?
    ensures var g := Search(t, IsoAt, 0).value.groups;
      DetectDate(t, today) == Render(MakeDate(g.a, g.b, g.c))
  {
  }

  /** A question holding just a rendered date is detected as that date. */
  lemma DetectRenderedIso(d: Date, today: Date)
    requires IsValid(d) && IsValid(today) && today != MinDate
    ensures DetectDate(FormatIso(d), today) == Some(FormatIso(d))
  {
    var s := FormatIso(d);
    ParseFormat(d);
    assert IsoShaped(s);
    assert NumericText(s) by {
      forall i | 0 <= i < |s| ensures IsDigit(s[i]) || IsSep(s[i]) {
        if i < 4 { assert s[..4][i] == s[i]; }
        else if 5 <= i < 7 { assert s[5..7][i - 5] == s[i]; }
        else if 8 <= i { assert s[8..][i - 8] == s[i]; }
      }
    }
    NumericTextIsPlain(s);
    NoDmyInIso(s);
    IsoAtStart(s);
    assert Search(s, IsoAt, 0) == Some(Match(0, Triple(d.year, d.month, d.day)));
    DetectByIso(s, today);
  }

  /** "DD/MM/YYYY" holds only digits and separators, and the day/month/year
      pattern reads its three numbers at its start. */
  lemma DmyTextShape(day: nat, month: nat, year: nat)
    requires day < 100 && month < 100 && year < 10000
    ensures var s := Pad2(day) + "/" + Pad2(month) + "/" + Pad4(year);
      NumericText(s) && |s| == 10 && DmyWith(s, 0, 2, 2) == Some(Triple(day, month, year))
  {
    var s := Pad2(day) + "/" + Pad2(month) + "/" + Pad4(year);
    assert s[0..2] == Pad2(day) && s[3..5] == Pad2(month) && s[6..10] == Pad4(year);
    forall i | 0 <= i < |s| ensures IsDigit(s[i]) || IsSep(s[i]) {
      if i < 2 { assert s[0..2][i] == s[i]; }
      else if 3 <= i < 5 { assert s[3..5][i - 3] == s[i]; }
      else if 6 <= i { assert s[6..10][i - 6] == s[i]; }
    }
  }

  /** Numbers written day/month/year with two-digit day and month: the
      detector gives that date, or None when it is not a real date (the
      later patterns are not tried). */
  lemma DetectDayMonthYear(day: nat, month: nat, year: nat, today: Date)
    requires day < 100 && month < 100 && year < 10000
    requires IsValid(today) && today != MinDate
    ensures DetectDate(Pad2(day) + "/" + Pad2(month) + "/" + Pad4(year), today)
      == Render(MakeDate(year, month, day))
  {
    var s := Pad2(day) + "/" + Pad2(month) + "/" + Pad4(year);
    DmyTextShape(day, month, year);
    NumericTextIsPlain(s);
    assert DmyAt(s, 0) == Some(Triple(day, month, year));
    assert Search(s, DmyAt, 0) == Some(Match(0, Triple(day, month, year)));
  }

  /** The month names are lower-case ASCII words without 'h', and only
      "mayo" holds a 'y', which holds no 'r'. */
  lemma MonthNameLetters(w: string)
    requires w in Months
    ensures |w| > 0
    ensures forall i | 0 <= i < |w| :: 'a' <= w[i] <= 'z' && w[i] != 'h'
    ensures (exists i | 0 <= i < |w| :: w[i] == 'y') ==> forall i | 0 <= i < |w| :: w[i] != 'r'
  {
  }

  /** Text without separators matches none of the numeric patterns. */
  lemma NoDmyWithoutSep(s: string)
    requires forall i | 0 <= i < |s| :: !IsSep(s[i])
    ensures Search(s, DmyAt, 0).None?
  {
    forall k | 0 <= k <= |s| ensures DmyAt(s, k).None? {
      DmyAtNone(s, k);
    }
  }

  lemma DmyWithNone(s: string, k: nat, a: nat, b: nat)
    requires forall i | 0 <= i < |s| :: !IsSep(s[i])
    ensures DmyWith(s, k, a, b).None?
  {
    if k + a < |s| {
      assert !IsSep(s[k + a]);
    }
  }

  lemma DmyAtNone(s: string, k: nat)
    requires forall i | 0 <= i < |s| :: !IsSep(s[i])
    ensures DmyAt(s, k).None?
  {
    DmyWithNone(s, k, 2, 2);
    DmyWithNone(s, k, 2, 1);
    DmyWithNone(s, k, 1, 2);
    DmyWithNone(s, k, 1, 1);
  }

  lemma IsoWithNone(s: string, k: nat, b: nat, c: nat)
    requires forall i | 0 <= i < |s| :: !IsSep(s[i])
    ensures IsoWith(s, k, b, c).None?
  {
    if k + 4 < |s| {
      assert !IsSep(s[k + 4]);
    }
  }

  lemma IsoAtNone(s: string, k: nat)
    requires forall i | 0 <= i < |s| :: !IsSep(s[i])
    ensures IsoAt(s, k).None?
  {
    IsoWithNone(s, k, 2, 2);
    IsoWithNone(s, k, 2, 1);
    IsoWithNone(s, k, 1, 2);
    IsoWithNone(s, k, 1, 1);
  }

  lemma NoIsoWithoutSep(s: string)
    requires forall i | 0 <= i < |s| :: !IsSep(s[i])
    ensures Search(s, IsoAt, 0).None?
  {
    forall k | 0 <= k <= |s| ensures IsoAt(s, k).None? {
      IsoAtNone(s, k);
    }
  }

  lemma DmWithNone(s: string, k: nat, a: nat, b: nat)
    requires forall i | 0 <= i < |s| :: !IsSep(s[i])
    ensures DmWith(s, k, a, b).None?
  {
    if k + a < |s| {
      assert !IsSep(s[k + a]);
    }
  }

  lemma DmAtNone(s: string, k: nat)
    requires forall i | 0 <= i < |s| :: !IsSep(s[i])
    ensures DmAt(s, k).None?
  {
    DmWithNone(s, k, 2, 2);
    DmWithNone(s, k, 2, 1);
    DmWithNone(s, k, 1, 2);
    DmWithNone(s, k, 1, 1);
  }

  lemma NoDmWithoutSep(s: string)
    requires forall i | 0 <= i < |s| :: !IsSep(s[i])
    ensures Search(s, DmAt, 0).None?
  {
    forall k | 0 <= k <= |s| ensures DmAt(s, k).None? {
      DmAtNone(s, k);
    }
  }

  /** When the cleaned question holds no keyword and no numeric pattern, the
      first day-and-month-name match with a month name decides. */
  lemma DetectByMonthName(t: string, today: Date)
    requires IsValid(today) && today != MinDate
    requires Strip(Lower(t)) == t && !Contains(t, "hoy") && !Contains(t, "ayer")
    requires Search(t, DmyAt, 0).None? && Search(t, IsoAt, 0).None? && Search(t, DmAt, 0).None?
    requires Search(t, DayMonthAt, 0).Some? && Search(t, DayMonthAt, 0).value.groups.word in Months
    ensures var g := Search(t, DayMonthAt, 0).value.groups;
      DetectDate(t, today) == Render(MakeDate(today.year, Months[g.word], g.day))
  {
  }

  /** "DD de <mes>" is plain text: cleaning keeps it, it holds neither
      keyword nor separator. */
  lemma DayOfMonthNameChars(day: nat, w: string)
    requires day < 100 && w in Months
    ensures var s := Pad2(day) + " de " + w;
      && |s| == |w| + 6 && IsDigit(s[0]) && IsDigit(s[1])
      && s[2] == ' ' && s[3] == 'd' && s[4] == 'e' && s[5] == ' '
      && forall i | 6 <= i < |s| :: s[i] == w[i - 6]
  {
    var p := Pad2(day);
    assert IsDigit(p[0]) && IsDigit(p[1]);
  }

  /** Every character of "DD de <mes>" is a digit, a space or a lower-case
      letter other than 'h', and no 'r' shares it with a 'y'. */
  lemma DayOfMonthNameClass(day: nat, w: string)
    requires day < 100 && w in Months
    ensures var s := Pad2(day) + " de " + w;
      && (forall i | 0 <= i < |s| :: s[i] != 'h' && !IsSep(s[i]) && LowerChar(s[i]) == s[i] && !IsSpace(s[|s| - 1]))
      && ((exists i | 0 <= i < |s| :: s[i] == 'y') ==> forall i | 0 <= i < |s| :: s[i] != 'r')
  {
    var s := Pad2(day) + " de " + w;
    DayOfMonthNameChars(day, w);
    MonthNameLetters(w);
    if exists i | 0 <= i < |s| :: s[i] == 'y' {
      var i :| 0 <= i < |s| && s[i] == 'y';
      assert w[i - 6] == 'y';
    }
  }

  lemma DayOfMonthNamePlain(day: nat, w: string)
    requires day < 100 && w in Months
    ensures var s := Pad2(day) + " de " + w;
      && Strip(Lower(s)) == s && !Contains(s, "hoy") && !Contains(s, "ayer")
      && forall i | 0 <= i < |s| :: !IsSep(s[i])
  {
    var s := Pad2(day) + " de " + w;
    DayOfMonthNameChars(day, w);
    DayOfMonthNameClass(day, w);
    assert Lower(s) == s;
    StripUnspaced(s);
    if Contains(s, "hoy") { ContainsHasChar(s, "hoy", 0); }
    if Contains(s, "ayer") { ContainsHasChar(s, "ayer", 1); ContainsHasChar(s, "ayer", 3); }
  }

  /** The day-and-month-name pattern reads "DD de <mes>" from its start. */
  lemma DayOfMonthNameMatch(day: nat, w: string)
    requires day < 100 && w in Months
    ensures DayMonthAt(Pad2(day) + " de " + w, 0) == Some(DayWord(day, w))
  {
    var s := Pad2(day) + " de " + w;
    MonthNameLetters(w);
    assert s[0..2] == Pad2(day);
    assert DigitsAt(s, 0, 2) && NumAt(s, 0, 2) == day;
    assert forall i | 6 <= i < |s| :: s[i] == w[i - 6];
    assert SkipSpaces(s, 2) == 3;
    assert s[3..5] == "de";
    assert SkipSpaces(s, 5) == 6;
    assert LetterRunEnd(s, 6) == |s|;
    assert s[6..|s|] == w;
    assert DayMonthWith(s, 0, 2) == Some(DayWord(day, w));
  }

  /** A day and a month name, "DD de <mes>": the detector gives that day of
      that month in the current year, or None when there is no such day. */
  lemma DetectDayOfMonthName(day: nat, w: string, today: Date)
    requires day < 100 && w in Months
    requires IsValid(today) && today != MinDate
    ensures DetectDate(Pad2(day) + " de " + w, today) == Render(MakeDate(today.year, Months[w], day))
  {
    var s := Pad2(day) + " de " + w;
    DayOfMonthNamePlain(day, w);
    NoDmyWithoutSep(s);
    NoIsoWithoutSep(s);
    NoDmWithoutSep(s);
    DayOfMonthNameMatch(day, w);
    assert Search(s, DayMonthAt, 0) == Some(Match(0, DayWord(day, w)));
    DetectByMonthName(s, today);
  }
}
