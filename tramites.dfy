// The trámites agent's search logic: turning a user message into search
// terms, recognising a trámite code, scoring what the catalogue returns,
// listing the other hits as alternatives, and falling back to a search by
// category when nothing matches.  The catalogue (an SQL database), the
// language model and the similarity wording are parameters.
module Tramites {
  import opened Wrappers
  import opened Text
  import opened Json

  // ---------------------------------------------------------------------
  // _extract_search_terms
  // ---------------------------------------------------------------------

  /** Python's \w on a lower-cased message: str.isalnum() or '_', exact up to
    * U+00FF; wide tells for the characters beyond. */
  predicate IsWordChar(c: char, wide: char -> bool)
  {
    if c <= '\U{FF}' then
      || '0' <= c <= '9' || 'a' <= c <= 'z' || 'A' <= c <= 'Z' || c == '_'
      || c == '\U{AA}' || c == '\U{B2}' || c == '\U{B3}' || c == '\U{B5}'
      || c == '\U{B9}' || c == '\U{BA}' || ('\U{BC}' <= c <= '\U{BE}')
      || ('\U{C0}' <= c <= '\U{FF}' && c != '\U{D7}' && c != '\U{F7}')
    else wide(c)
  }

  /** re.sub(r'[^\w\s]', '', s): every character that is neither a word
    * character nor whitespace is deleted. */
  function Cleaned(s: string, wide: char -> bool): (r: string)
    ensures forall i | 0 <= i < |r| :: IsWordChar(r[i], wide) || IsSpace(r[i])
    ensures forall c | c in r :: c in s
    decreases |s|
  {
    if s == [] then []
    else (if IsWordChar(s[0], wide) || IsSpace(s[0]) then [s[0]] else []) + Cleaned(s[1..], wide)
  }

  const StopWords: set<string> :=
    {"el", "la", "los", "las", "de", "del", "en", "y", "o", "a", "para", "por", "con", "un", "una", "es", "son"}

  /** A word worth searching for: not a stop word and longer than two characters. */
  predicate KeepTerm(w: string)
  {
    w !in StopWords && |w| > 2
  }

  /** The words worth searching for, in order. */
  function KeptTerms(words: seq<string>): (terms: seq<string>)
    ensures forall w | w in terms :: w in words && KeepTerm(w)
    ensures forall w | w in words && KeepTerm(w) :: w in terms
  {
    if words == [] then []
    else (if KeepTerm(words[0]) then [words[0]] else []) + KeptTerms(words[1..])
  }

  /** Repetitions are kept: a kept word occurs as often as in the input, any
    * other word not at all. */
  lemma {:induction false} KeptTermsCounts(words: seq<string>, w: string)
    ensures multiset(KeptTerms(words))[w] == if KeepTerm(w) then multiset(words)[w] else 0
  {
    if words != [] {
      assert words == [words[0]] + words[1..];
      KeptTermsCounts(words[1..], w);
    }
  }

  /** A single word is kept alone or dropped. */
  lemma KeptTermsSingle(w: string)
    ensures KeptTerms([w]) == if KeepTerm(w) then [w] else []
  {
  }

  /** Filtering distributes over concatenation, so the kept words keep the
    * order they have in the message. */
  lemma {:induction false} KeptTermsAppend(a: seq<string>, b: seq<string>)
    ensures KeptTerms(a + b) == KeptTerms(a) + KeptTerms(b)
  {
    if a == [] {
      assert a + b == b;
    } else {
      assert (a + b)[1..] == a[1..] + b;
      KeptTermsAppend(a[1..], b);
    }
  }

  /** _extract_search_terms: lower-case, delete punctuation, split on
    * whitespace and keep the words worth searching for, in message order. */
  function ExtractSearchTerms(message: string, wide: char -> bool): seq<string>
  {
    KeptTerms(Words(Cleaned(Lower(message), wide)))
  }

  /** Every character of a word of s is a character of s. */
  lemma {:induction false} WordsFromText(s: string)
    ensures forall w, c | w in Words(s) && c in w :: c in s
    decreases |s|
  {
    if s != [] {
      WordsFromText(s[1..]);
      if !IsSpace(s[0]) {
        var n := WordLen(s);
        WordsFromText(s[n..]);
        forall w, c | w in Words(s) && c in w ensures c in s {
          if w == s[..n] {
            assert c in s[..n];
          } else {
            assert w in Words(s[n..]);
            assert c in s[n..];
          }
        }
      }
    }
  }

  /** Each search term is a whole word of the cleaned, lower-cased message,
    * longer than two characters, not a stop word, and made of word
    * characters only; every such word of the message is a search term. */
  lemma ExtractSearchTermsSpec(message: string, wide: char -> bool)
    ensures ExtractSearchTerms(message, wide) == KeptTerms(Words(Cleaned(Lower(message), wide)))
    ensures forall t | t in ExtractSearchTerms(message, wide) ::
              t in Words(Cleaned(Lower(message), wide)) && |t| > 2 && t !in StopWords
    ensures forall w | w in Words(Cleaned(Lower(message), wide)) && KeepTerm(w) ::
              w in ExtractSearchTerms(message, wide)
    ensures forall t, c | t in ExtractSearchTerms(message, wide) && c in t :: IsWordChar(c, wide) && !IsSpace(c)
  {
    var cleaned := Cleaned(Lower(message), wide);
    WordsFromText(cleaned);
    forall t, c | t in ExtractSearchTerms(message, wide) && c in t
      ensures IsWordChar(c, wide) && !IsSpace(c)
    {
      assert t in Words(cleaned);
      var i :| 0 <= i < |t| && t[i] == c;
      assert NoSpace(t);
      assert c in cleaned;
    }
  }

  // ---------------------------------------------------------------------
  // _is_codigo_format
  // ---------------------------------------------------------------------

  predicate IsCapital(c: char)
  {
    'A' <= c <= 'Z'
  }

  predicate AllDigits(s: string)
  {
    forall i | 0 <= i < |s| :: IsDigit(s[i])
  }

  /** Length of the run of capitals A-Z that starts u. */
  function LeadingCapitals(u: string): (n: nat)
    ensures n <= |u|
    ensures forall i | 0 <= i < n :: IsCapital(u[i])
    ensures n < |u| ==> !IsCapital(u[n])
    decreases |u|
  {
    if u != [] && IsCapital(u[0]) then 1 + LeadingCapitals(u[1..]) else 0
  }

  /** u is letters, a hyphen and digits, read left to right as the regular
    * expression engine does. */
  predicate CodeBody(u: string)
  {
    var n := LeadingCapitals(u);
    1 <= n && n + 1 < |u| && u[n] == '-' && AllDigits(u[n + 1..])
  }

  /** re.match(r'^[A-Z]+-\d+$', u): `$` also matches before one final newline. */
  predicate CodeShape(u: string)
  {
    CodeBody(u) || (|u| > 0 && u[|u| - 1] == '\n' && CodeBody(u[..|u| - 1]))
  }

  /** _is_codigo_format */
  predicate IsCodigoFormat(term: string)
  {
    CodeShape(Upper(term))
  }

  /** The scan agrees with the pattern's reading: one or more capitals A-Z,
    * one hyphen, then one or more digits and nothing else. */
  lemma CodeBodySpec(u: string)
    ensures CodeBody(u) <==>
      exists k | 1 <= k < |u| - 1 ::
        (forall i | 0 <= i < k :: IsCapital(u[i])) && u[k] == '-' && AllDigits(u[k + 1..])
  {
    var n := LeadingCapitals(u);
    if exists k | 1 <= k < |u| - 1 ::
         (forall i | 0 <= i < k :: IsCapital(u[i])) && u[k] == '-' && AllDigits(u[k + 1..])
    {
      var k :| 1 <= k < |u| - 1 &&
               (forall i | 0 <= i < k :: IsCapital(u[i])) && u[k] == '-' && AllDigits(u[k + 1..]);
      assert !IsCapital(u[k]);
      assert n <= k;
      assert n < |u| ==> !IsCapital(u[n]);
      assert n == k;
    }
  }

  /** Upper-casing never produces a hyphen from anything but a hyphen. */
  lemma {:induction false} HyphenFromHyphen(t: string)
    requires '-' !in t
    ensures '-' !in Upper(t)
    decreases |t|
  {
    if t != [] {
      assert t[1..] == t[1..];
      assert forall c | c in t[1..] :: c in t;
      HyphenFromHyphen(t[1..]);
      assert '-' !in UpperOf(t[0]);
    }
  }

  /** Text without a hyphen has no code shape. */
  lemma NoHyphenNoBody(u: string)
    requires '-' !in u
    ensures !CodeBody(u)
  {
    var n := LeadingCapitals(u);
    if n < |u| {
      assert u[n] in u;
    }
  }

  /** A string without a hyphen is never a trámite code. */
  lemma NoHyphenNoCode(t: string)
    requires '-' !in t
    ensures !IsCodigoFormat(t)
  {
    HyphenFromHyphen(t);
    var u := Upper(t);
    NoHyphenNoBody(u);
    if |u| > 0 {
      var v := u[..|u| - 1];
      assert forall c | c in v :: c in u;
      NoHyphenNoBody(v);
    }
  }

  /** Search terms never contain a hyphen, so none of them is a trámite code. */
  lemma NoSearchTermIsCode(message: string, wide: char -> bool)
    ensures forall t | t in ExtractSearchTerms(message, wide) :: !IsCodigoFormat(t)
  {
    ExtractSearchTermsSpec(message, wide);
    forall t | t in ExtractSearchTerms(message, wide) ensures !IsCodigoFormat(t) {
      assert !IsWordChar('-', wide) && !IsSpace('-');
      NoHyphenNoCode(t);
    }
  }

  /** A code as the catalogue writes them is recognised. */
  lemma CatalogueCodeRecognised()
    ensures IsCodigoFormat("RUT-1")
  {
    assert Upper("1") == "1";
    assert Upper("-1") == "-1";
    assert Upper("T-1") == "T-1";
    assert Upper("UT-1") == "UT-1";
    assert Upper("RUT-1") == "RUT-1";
    assert LeadingCapitals("RUT-1") == 3;
  }

  // ---------------------------------------------------------------------
  // process_request: search and scoring
  // ---------------------------------------------------------------------

  /** A catalogue row, with the columns the search logic reads. */
  datatype Tramite = Tramite(codigo: string, titulo: string, descripcion: Option<string>)

  /** The catalogue queries: by code, by keywords (at most five rows), and by
    * category (at most three rows). */
  datatype Catalogue = Catalogue(
    byCodigo: string -> Option<Tramite>,
    byKeywords: seq<string> -> seq<Tramite>,
    byCategory: string -> seq<Tramite>)

  /** The search step of process_request: the hits and their match score. */
  function Search(terms: seq<string>, catalogue: Catalogue): (seq<Tramite>, real)
  {
    if |terms| == 1 && IsCodigoFormat(terms[0]) then
      match catalogue.byCodigo(terms[0])
      case Some(t) => ([t], 0.95)
      case None => ([], 0.0)
    else
      var results := catalogue.byKeywords(terms);
      (results, if results != [] then 0.8 else 0.0)
  }

  /** The score is 0.95 for a code hit, 0.8 for keyword hits and 0.0 when
    * nothing was found. */
  lemma SearchScore(terms: seq<string>, catalogue: Catalogue)
    ensures var (results, score) := Search(terms, catalogue);
      && (score == 0.0 <==> results == [])
      && (score == 0.95 <==> |terms| == 1 && IsCodigoFormat(terms[0]) && results != [])
      && (score == 0.8 <==> !(|terms| == 1 && IsCodigoFormat(terms[0])) && results != [])
      && (score == 0.95 ==> results == [catalogue.byCodigo(terms[0]).value])
  {
  }

  /** From a user message the search is always the keyword search: the code
    * lookup is never consulted and the score is never 0.95. */
  lemma MessageSearchIsKeywordSearch(message: string, wide: char -> bool, catalogue: Catalogue)
    ensures var terms := ExtractSearchTerms(message, wide);
      Search(terms, catalogue)
      == (catalogue.byKeywords(terms), if catalogue.byKeywords(terms) != [] then 0.8 else 0.0)
  {
    NoSearchTermIsCode(message, wide);
    var terms := ExtractSearchTerms(message, wide);
    if |terms| == 1 {
      assert terms[0] in terms;
    }
  }

  // ---------------------------------------------------------------------
  // process_request: alternatives
  // ---------------------------------------------------------------------

  /** One entry of "alternativas". */
  function Alternative(t: Tramite, reason: string): Value
  {
    Object([("codigo", Str(t.codigo)), ("titulo", Str(t.titulo)), ("razon_similitud", Str(reason))])
  }

  /** The alternatives offered next to the best hit: every later hit, in
    * order, with the reason it is similar. */
  function AlternativesOf(results: seq<Tramite>, reason: Tramite -> string): (alts: seq<Value>)
    ensures |results| <= 1 ==> alts == []
    ensures |results| > 1 ==> |alts| == |results| - 1
    ensures forall i | 0 <= i < |alts| :: alts[i] == Alternative(results[i + 1], reason(results[i + 1]))
  {
    if |results| <= 1 then []
    else seq(|results| - 1, i requires 0 <= i < |results| - 1 => Alternative(results[i + 1], reason(results[i + 1])))
  }

  /** The alternatives loop of process_request. */
  method Alternatives(results: seq<Tramite>, reason: Tramite -> string) returns (alts: seq<Value>)
    ensures alts == AlternativesOf(results, reason)
  {
    alts := [];
    if |results| > 1 {
      var i := 1;
      while i < |results|
        invariant 1 <= i <= |results|
        invariant |alts| == i - 1
        invariant forall k | 0 <= k < i - 1 :: alts[k] == Alternative(results[k + 1], reason(results[k + 1]))
      {
        alts := alts + [Alternative(results[i], reason(results[i]))];
        i := i + 1;
      }
    }
  }

  // ---------------------------------------------------------------------
  // _get_relevant_categories
  // ---------------------------------------------------------------------

  /** The category table, in its declared order. */
  const CategoryTable: seq<(string, seq<string>)> := [
    ("impuestos", ["impuesto", "predial", "industria", "comercio", "renta"]),
    ("construcción", ["construcción", "licencia", "obra", "edificio", "permiso"]),
    ("servicios públicos", ["agua", "energía", "gas", "servicio", "factura"]),
    ("documentos", ["documento", "cedula", "pasaporte", "registro", "certificado"]),
    ("vehículos", ["carro", "moto", "placa", "vehículo", "transito"])
  ]

  /** Some keyword of the list occurs in the text. */
  predicate Mentions(text: string, keywords: seq<string>)
  {
    exists i | 0 <= i < |keywords| :: Contains(text, keywords[i])
  }

  /** The names of the rows of table whose keywords the text mentions, in table order. */
  function MentionedCategories(text: string, table: seq<(string, seq<string>)>): (cats: seq<string>)
    ensures |cats| <= |table|
    decreases |table|
  {
    if table == [] then []
    else (if Mentions(text, table[0].1) then [table[0].0] else []) + MentionedCategories(text, table[1..])
  }

  /** Keeping the rows of a table in order: each name is a later row's than the one before. */
  predicate InTableOrder(cats: seq<string>, table: seq<(string, seq<string>)>)
    decreases |table|
  {
    if cats == [] then true
    else if table == [] then false
    else (cats[0] == table[0].0 && InTableOrder(cats[1..], table[1..])) || InTableOrder(cats, table[1..])
  }

  /** The mentioned categories are exactly the rows with a mentioned
    * keyword, listed in table order. */
  lemma {:induction false} MentionedCategoriesSpec(text: string, table: seq<(string, seq<string>)>)
    ensures InTableOrder(MentionedCategories(text, table), table)
    ensures forall i | 0 <= i < |table| && Mentions(text, table[i].1) :: table[i].0 in MentionedCategories(text, table)
    ensures forall c | c in MentionedCategories(text, table) ::
              exists i | 0 <= i < |table| :: table[i].0 == c && Mentions(text, table[i].1)
    decreases |table|
  {
    if table != [] {
      MentionedCategoriesSpec(text, table[1..]);
      var rest := MentionedCategories(text, table[1..]);
      forall i | 0 <= i < |table| && Mentions(text, table[i].1)
        ensures table[i].0 in MentionedCategories(text, table)
      {
        if i > 0 {
          assert table[i] == table[1..][i - 1];
        }
      }
      forall c | c in MentionedCategories(text, table)
        ensures exists i | 0 <= i < |table| :: table[i].0 == c && Mentions(text, table[i].1)
      {
        if c in rest {
          var j :| 0 <= j < |table[1..]| && table[1..][j].0 == c && Mentions(text, table[1..][j].1);
          assert table[j + 1] == table[1..][j];
        } else {
          assert table[0].0 == c && Mentions(text, table[0].1);
        }
      }
      var cats := MentionedCategories(text, table);
      if Mentions(text, table[0].1) {
        assert cats == [table[0].0] + rest;
        assert cats[1..] == rest;
      } else {
        assert cats == rest;
        if rest != [] {
          assert InTableOrder(cats, table[1..]);
        }
      }
    }
  }

  /** any(keyword in text for keyword in keywords) */
  method MentionsAny(text: string, keywords: seq<string>) returns (mentioned: bool)
    ensures mentioned == Mentions(text, keywords)
  {
    mentioned := false;
    var j := 0;
    while j < |keywords|
      invariant 0 <= j <= |keywords|
      invariant mentioned <==> exists k | 0 <= k < j :: Contains(text, keywords[k])
    {
      if Contains(text, keywords[j]) {
        mentioned := true;
      }
      j := j + 1;
    }
  }

  /** The loop of _get_relevant_categories over a category table. */
  method CategoriesMentioned(text: string, table: seq<(string, seq<string>)>) returns (cats: seq<string>)
    ensures cats == MentionedCategories(text, table)
  {
    cats := [];
    var i := 0;
    while i < |table|
      invariant 0 <= i <= |table|
      invariant cats + MentionedCategories(text, table[i..]) == MentionedCategories(text, table)
    {
      var mentioned := MentionsAny(text, table[i].1);
      assert table[i..][1..] == table[i + 1..];
      if mentioned {
        cats := cats + [table[i].0];
      }
      i := i + 1;
    }
  }

  /** _get_relevant_categories */
  method GetRelevantCategories(message: string) returns (cats: seq<string>)
    ensures cats == MentionedCategories(Lower(message), CategoryTable)
  {
    cats := CategoriesMentioned(Lower(message), CategoryTable);
  }

  // ---------------------------------------------------------------------
  // _generate_fallback_category_response and _handle_no_results
  // ---------------------------------------------------------------------

  const CategoryQuestions: seq<Value> := [
    Str("¿Desea información sobre alguno de estos trámites?"),
    Str("¿Tiene el código de un trámite específico?"),
    Str("¿Necesita ayuda para elegir el trámite adecuado?")
  ]

  /** The reason given for every trámite found through a category. */
  function CategoryReason(category: string): string
  {
    "Tramite relacionado con la categoría " + category
  }

  /** The reply built from a category's trámites without the language model. */
  function CategoryReply(category: string, alts: seq<Value>): Record
  {
    [("match_score", Float(0.6)),
     ("tramite", Null),
     ("texto_usuario", Str("Encontré varios trámites relacionados con " + category + ". ¿Le interesa alguno de estos?")),
     ("preguntas_recomendadas", List(CategoryQuestions)),
     ("alternativas", List(alts))]
  }

  /** The category alternatives: every trámite found, in order, with the category as reason. */
  function CategoryAlternatives(category: string, results: seq<Tramite>): (alts: seq<Value>)
    ensures |alts| == |results|
    ensures forall i | 0 <= i < |alts| :: alts[i] == Alternative(results[i], CategoryReason(category))
  {
    seq(|results|, i requires 0 <= i < |results| => Alternative(results[i], CategoryReason(category)))
  }

  /** _generate_fallback_category_response */
  method FallbackCategoryResponse(category: string, results: seq<Tramite>) returns (r: Record)
    ensures r == CategoryReply(category, CategoryAlternatives(category, results))
  {
    var alts: seq<Value> := [];
    var i := 0;
    while i < |results|
      invariant 0 <= i <= |results|
      invariant alts == CategoryAlternatives(category, results[..i])
    {
      alts := alts + [Alternative(results[i], CategoryReason(category))];
      i := i + 1;
    }
    assert results[..i] == results;
    r := CategoryReply(category, alts);
  }

  /** The fallback category reply scores 0.6, names no single trámite and
    * offers exactly one alternative per trámite found, in order. */
  lemma CategoryReplySpec(category: string, results: seq<Tramite>)
    ensures var r := CategoryReply(category, CategoryAlternatives(category, results));
      && Get(r, "match_score") == Some(Float(0.6))
      && Get(r, "tramite") == Some(Null)
      && Get(r, "alternativas") == Some(List(CategoryAlternatives(category, results)))
      && |CategoryAlternatives(category, results)| == |results|
  {
    var r := CategoryReply(category, CategoryAlternatives(category, results));
    assert "alternativas"[1] != "match_score"[1] && "alternativas"[0] != "tramite"[0];
    assert "alternativas"[0] != "texto_usuario"[0] && "alternativas"[0] != "preguntas_recomendadas"[0];
    assert "tramite"[1] != "match_score"[1];
    assert Get(r[4..], "alternativas") == Some(List(CategoryAlternatives(category, results)));
    assert Get(r[3..], "alternativas") == Get(r[4..], "alternativas");
    assert Get(r[2..], "alternativas") == Get(r[3..], "alternativas");
    assert Get(r[1..], "alternativas") == Get(r[2..], "alternativas");
    assert Get(r[1..], "tramite") == Some(Null);
  }

  /** The fixed reply when neither the keywords nor any category found anything. */
  const NoResultsReply: Record := [
    ("match_score", Float(0.0)),
    ("tramite", Null),
    ("texto_usuario", Str("No encontré un trámite específico que coincida con su búsqueda. Sin embargo, puedo ayudarle a encontrar información sobre trámites municipales en general. ¿Podría ser más específico sobre el tipo de trámite que necesita?")),
    ("preguntas_recomendadas", List([
      Str("¿Qué tipo de trámite está buscando?"),
      Str("¿Tiene el código del trámite?"),
      Str("¿Necesita ayuda para encontrar el trámite adecuado?")])),
    ("alternativas", List([]))
  ]

  /** The reply for one category's trámites: the language model's reply when
    * it gives one (categoryReply), otherwise the fallback. */
  function CategoryResponse(category: string, results: seq<Tramite>,
                            categoryReply: (string, seq<Tramite>) -> Option<Value>): Value
  {
    match categoryReply(category, results)
    case Some(v) => v
    case None => Object(CategoryReply(category, CategoryAlternatives(category, results)))
  }

  /** What _handle_no_results answers for the given categories: the reply for
    * the first category with trámites, or the fixed no-results reply. */
  function NoResultsOf(categories: seq<string>, catalogue: Catalogue,
                       categoryReply: (string, seq<Tramite>) -> Option<Value>): (r: Value)
    ensures (forall i | 0 <= i < |categories| :: catalogue.byCategory(categories[i]) == [])
            ==> r == Object(NoResultsReply)
    decreases |categories|
  {
    if categories == [] then Object(NoResultsReply)
    else if catalogue.byCategory(categories[0]) != [] then
      CategoryResponse(categories[0], catalogue.byCategory(categories[0]), categoryReply)
    else
      assert forall i | 0 <= i < |categories[1..]| :: categories[1..][i] == categories[i + 1];
      NoResultsOf(categories[1..], catalogue, categoryReply)
  }

  /** When some category has trámites, the reply is the one for the first such
    * category in the given order. */
  lemma {:induction false} NoResultsPicksFirst(categories: seq<string>, catalogue: Catalogue,
                                              categoryReply: (string, seq<Tramite>) -> Option<Value>, j: nat)
    requires j < |categories| && catalogue.byCategory(categories[j]) != []
    requires forall i | 0 <= i < j :: catalogue.byCategory(categories[i]) == []
    ensures NoResultsOf(categories, catalogue, categoryReply)
            == CategoryResponse(categories[j], catalogue.byCategory(categories[j]), categoryReply)
    decreases j
  {
    if j > 0 {
      NoResultsPicksFirst(categories[1..], catalogue, categoryReply, j - 1);
    }
  }

  /** _handle_no_results */
  method HandleNoResults(message: string, catalogue: Catalogue,
                         categoryReply: (string, seq<Tramite>) -> Option<Value>) returns (r: Value)
    ensures r == NoResultsOf(MentionedCategories(Lower(message), CategoryTable), catalogue, categoryReply)
  {
    var categories := GetRelevantCategories(message);
    r := FirstCategoryReply(categories, catalogue, categoryReply);
  }

  /** The loop of _handle_no_results over the mentioned categories. */
  method FirstCategoryReply(categories: seq<string>, catalogue: Catalogue,
                            categoryReply: (string, seq<Tramite>) -> Option<Value>) returns (r: Value)
    ensures r == NoResultsOf(categories, catalogue, categoryReply)
  {
    var i := 0;
    while i < |categories|
      invariant 0 <= i <= |categories|
      invariant NoResultsOf(categories[i..], catalogue, categoryReply) == NoResultsOf(categories, catalogue, categoryReply)
    {
      var results := catalogue.byCategory(categories[i]);
      if results != [] {
        match categoryReply(categories[i], results)
        case Some(v) => return v;
        case None =>
          var fallback := FallbackCategoryResponse(categories[i], results);
          return Object(fallback);
      }
      assert categories[i..][1..] == categories[i + 1..];
      i := i + 1;
    }
    r := Object(NoResultsReply);
  }

  // ---------------------------------------------------------------------
  // process_request
  // ---------------------------------------------------------------------

  /** The reply when something in process_request raised. */
  function InternalError(processingTime: real, timestamp: string): Value
  {
    Object([("error", Str("Internal processing error")),
            ("metadata", Object([("processing_time", Float(processingTime)), ("timestamp", Str(timestamp))]))])
  }

  function Metadata(processingTime: real, terms: seq<string>, timestamp: string): Value
  {
    Object([("processing_time", Float(processingTime)),
            ("search_terms", List(seq(|terms|, i requires 0 <= i < |terms| => Str(terms[i])))),
            ("timestamp", Str(timestamp))])
  }

  /** process_request.  tramiteReply is the reply _generate_tramite_response
    * builds for the best hit and its score (from the language model or its
    * fallback), categoryReply the language model's reply for a category,
    * reason the similarity wording for a hit, wide the word-character test
    * beyond U+00FF; the processing time and timestamp come from the clock. */
  function ProcessRequestOf(message: string, wide: char -> bool, catalogue: Catalogue,
                            tramiteReply: (Tramite, real) -> Value,
                            categoryReply: (string, seq<Tramite>) -> Option<Value>,
                            reason: Tramite -> string, processingTime: real, timestamp: string): Value
  {
    match SearchReply(message, wide, catalogue, tramiteReply, categoryReply, reason)
    case Some(Object(fields)) =>
      Object(SetKey(fields, "metadata", Metadata(processingTime, ExtractSearchTerms(message, wide), timestamp)))
    case _ => InternalError(processingTime, timestamp)
  }

  /** The reply of process_request before its metadata is added: for a hit,
    * the reply for the best trámite with the other hits as alternatives;
    * otherwise the no-results reply. None when the reply for the best hit
    * is not a dict, where the source raises on the item assignment. */
  function SearchReply(message: string, wide: char -> bool, catalogue: Catalogue,
                       tramiteReply: (Tramite, real) -> Value,
                       categoryReply: (string, seq<Tramite>) -> Option<Value>,
                       reason: Tramite -> string): Option<Value>
  {
    var (results, score) := Search(ExtractSearchTerms(message, wide), catalogue);
    if results != [] then
      match tramiteReply(results[0], score)
      case Object(fields) => Some(Object(SetKey(fields, "alternativas", List(AlternativesOf(results, reason)))))
      case _ => None
    else Some(NoResultsOf(MentionedCategories(Lower(message), CategoryTable), catalogue, categoryReply))
  }

  method ProcessRequest(message: string, wide: char -> bool, catalogue: Catalogue,
                        tramiteReply: (Tramite, real) -> Value,
                        categoryReply: (string, seq<Tramite>) -> Option<Value>,
                        reason: Tramite -> string, processingTime: real, timestamp: string)
    returns (response: Value)
    ensures response == ProcessRequestOf(message, wide, catalogue, tramiteReply, categoryReply,
                                         reason, processingTime, timestamp)
  {
    var reply := SearchAndReply(message, wide, catalogue, tramiteReply, categoryReply, reason);
    match reply
    case Some(Object(fields)) =>
      var terms := ExtractSearchTerms(message, wide);
      response := Object(SetKey(fields, "metadata", Metadata(processingTime, terms, timestamp)));
    case _ =>
      response := InternalError(processingTime, timestamp);
  }

  /** The search and reply steps of process_request, before the metadata. */
  method SearchAndReply(message: string, wide: char -> bool, catalogue: Catalogue,
                        tramiteReply: (Tramite, real) -> Value,
                        categoryReply: (string, seq<Tramite>) -> Option<Value>,
                        reason: Tramite -> string)
    returns (reply: Option<Value>)
    ensures reply == SearchReply(message, wide, catalogue, tramiteReply, categoryReply, reason)
  {
    var terms := ExtractSearchTerms(message, wide);
    var (results, score) := Search(terms, catalogue);
    if results != [] {
      var best := tramiteReply(results[0], score);
      if !best.Object? {
        return None;
      }
      var alts := Alternatives(results, reason);
      reply := Some(Object(SetKey(best.fields, "alternativas", List(alts))));
    } else {
      var r := HandleNoResults(message, catalogue, categoryReply);
      reply := Some(r);
    }
  }

  /** When the keyword search finds trámites and the reply for the best one is
    * a dict, the answer lists every other hit as an alternative, in order,
    * and carries the search terms in its metadata. */
  lemma FoundAnswerListsAlternatives(message: string, wide: char -> bool, catalogue: Catalogue,
                                     tramiteReply: (Tramite, real) -> Value,
                                     categoryReply: (string, seq<Tramite>) -> Option<Value>,
                                     reason: Tramite -> string, processingTime: real, timestamp: string)
    requires catalogue.byKeywords(ExtractSearchTerms(message, wide)) != []
    requires tramiteReply(catalogue.byKeywords(ExtractSearchTerms(message, wide))[0], 0.8).Object?
    ensures var r := ProcessRequestOf(message, wide, catalogue, tramiteReply, categoryReply,
                                      reason, processingTime, timestamp);
      && r.Object?
      && Get(r.fields, "alternativas")
         == Some(List(AlternativesOf(catalogue.byKeywords(ExtractSearchTerms(message, wide)), reason)))
      && Get(r.fields, "metadata")
         == Some(Metadata(processingTime, ExtractSearchTerms(message, wide), timestamp))
  {
    MessageSearchIsKeywordSearch(message, wide, catalogue);
    var terms := ExtractSearchTerms(message, wide);
    var results := catalogue.byKeywords(terms);
    var fields := tramiteReply(results[0], 0.8).fields;
    var withAlts := SetKey(fields, "alternativas", List(AlternativesOf(results, reason)));
    assert SearchReply(message, wide, catalogue, tramiteReply, categoryReply, reason) == Some(Object(withAlts));
    assert "metadata"[0] != "alternativas"[0];
  }

  /** When the keyword search finds nothing and no mentioned category has
    * trámites, the answer is the fixed no-results reply with metadata. */
  lemma NothingFoundAnswer(message: string, wide: char -> bool, catalogue: Catalogue,
                           tramiteReply: (Tramite, real) -> Value,
                           categoryReply: (string, seq<Tramite>) -> Option<Value>,
                           reason: Tramite -> string, processingTime: real, timestamp: string)
    requires catalogue.byKeywords(ExtractSearchTerms(message, wide)) == []
    requires forall c | c in MentionedCategories(Lower(message), CategoryTable) :: catalogue.byCategory(c) == []
    ensures ProcessRequestOf(message, wide, catalogue, tramiteReply, categoryReply, reason, processingTime, timestamp)
            == Object(SetKey(NoResultsReply, "metadata",
                             Metadata(processingTime, ExtractSearchTerms(message, wide), timestamp)))
  {
    MessageSearchIsKeywordSearch(message, wide, catalogue);
    var cats := MentionedCategories(Lower(message), CategoryTable);
    assert forall i | 0 <= i < |cats| :: catalogue.byCategory(cats[i]) == [] by {
      forall i | 0 <= i < |cats| ensures catalogue.byCategory(cats[i]) == [] {
        assert cats[i] in cats;
      }
    }
    assert SearchReply(message, wide, catalogue, tramiteReply, categoryReply, reason) == Some(Object(NoResultsReply));
  }
}
