/**
 * ai_engine/lib/tool_helpers.py: the calculator's sanitiser and result strings,
 * and the web-search answer with its fallbacks. numexpr, the DuckDuckGo search
 * and the language model are parameters.
 */
module ToolHelpers {
  import opened Wrappers
  import opened Strings
  import opened Json

  // ---------------------------------------------------------------------
  // Oracles
  // ---------------------------------------------------------------------

  /** What call_ollama gives back: the reply text, or an exception escaping it. */
  datatype OllamaReply = Answer(text: string) | Failure(message: string)

  /**
   * The prompts the core sends to the language model, by the template they fill
   * and the values they fill it with; the fixed wording of the templates is not
   * part of this model.
   */
  datatype Prompt =
    | ToolRequest(question: string, entities: seq<(string, string)>, areas: Value, memories: string)
    | DirectRequest(question: string)
    | CalculatorRequest(question: string, result: string)
    | WebSearchRequest(question: string, searchResults: string)

  /** What the search gives back: its results, or an exception. */
  datatype Search = SearchFailed(message: string) | Results(items: seq<Value>)

  // ---------------------------------------------------------------------
  // perform_calculation
  // ---------------------------------------------------------------------

  /** The only characters the sanitiser lets through. */
  const Allowed := "0123456789.+-*/() "

  /** Membership in Allowed, spelled out. */
  predicate AllowedChar(c: char) {
    ('0' <= c <= '9') || c == '.' || c == '+' || c == '-' || c == '*' || c == '/' || c == '(' || c == ')' || c == ' '
  }

  lemma AllowedCharIsAllowed(c: char)
    ensures AllowedChar(c) <==> c in Allowed
  {
    if AllowedChar(c) {
      if '0' <= c <= '9' {
        assert Allowed[c as int - '0' as int] == c;
      } else if c == '.' { assert Allowed[10] == c; }
      else if c == '+' { assert Allowed[11] == c; }
      else if c == '-' { assert Allowed[12] == c; }
      else if c == '*' { assert Allowed[13] == c; }
      else if c == '/' { assert Allowed[14] == c; }
      else if c == '(' { assert Allowed[15] == c; }
      else if c == ')' { assert Allowed[16] == c; }
      else { assert Allowed[17] == c; }
    }
  }

  /** The characters of s that are allowed, in their order. */
  function Sanitize(s: string): (r: string)
    ensures |r| <= |s|
    ensures forall i :: 0 <= i < |r| ==> AllowedChar(r[i])
  {
    if s == [] then ""
    else (if AllowedChar(s[0]) then [s[0]] else "") + Sanitize(s[1..])
  }

  /** a is a subsequence of b: each character of b is either matched by the next one of a or skipped. */
  predicate IsSubsequence(a: string, b: string)
    decreases |b|
  {
    if b == [] then a == []
    else (a != [] && a[0] == b[0] && IsSubsequence(a[1..], b[1..])) || IsSubsequence(a, b[1..])
  }

  /** Sanitising distributes over concatenation. */
  lemma {:induction false} SanitizeAppend(a: string, b: string)
    ensures Sanitize(a + b) == Sanitize(a) + Sanitize(b)
    decreases |a|
  {
    if a == [] {
      assert a + b == b;
    } else {
      SanitizeAppend(a[1..], b);
      assert (a + b)[1..] == a[1..] + b;
    }
  }

  /** The order is kept: the result is a subsequence of the input. */
  lemma {:induction false} SanitizeSubsequence(s: string)
    ensures IsSubsequence(Sanitize(s), s)
    decreases |s|
  {
    if s != [] {
      SanitizeSubsequence(s[1..]);
      if AllowedChar(s[0]) {
        assert Sanitize(s)[1..] == Sanitize(s[1..]);
      } else {
        assert Sanitize(s) == Sanitize(s[1..]);
      }
    }
  }

  /** Nothing allowed is lost and nothing else survives. */
  lemma {:induction false} SanitizeCounts(s: string)
    ensures forall c :: AllowedChar(c) ==> multiset(Sanitize(s))[c] == multiset(s)[c]
    ensures forall c :: !AllowedChar(c) ==> multiset(Sanitize(s))[c] == 0
    decreases |s|
  {
    if s != [] {
      SanitizeCounts(s[1..]);
      assert s == [s[0]] + s[1..];
      assert multiset(s) == multiset([s[0]]) + multiset(s[1..]);
    }
  }

  /** A string of allowed characters is left as it is. */
  lemma {:induction false} SanitizeAllowed(s: string)
    requires forall i :: 0 <= i < |s| ==> AllowedChar(s[i])
    ensures Sanitize(s) == s
    decreases |s|
  {
    if s != [] {
      SanitizeAllowed(s[1..]);
      assert s == [s[0]] + s[1..];
    }
  }

  /** Sanitising twice is sanitising once. */
  lemma SanitizeIdempotent(s: string)
    ensures Sanitize(Sanitize(s)) == Sanitize(s)
  {
    SanitizeAllowed(Sanitize(s));
  }

  /** The injected text splits off from the arithmetic. */
  lemma SanitizeDropTableSplit()
    ensures Sanitize("2 + 2; DROP TABLE") == Sanitize("2 + 2") + Sanitize("; DROP TABLE")
  {
    assert "2 + 2; DROP TABLE" == "2 + 2" + "; DROP TABLE";
    SanitizeAppend("2 + 2", "; DROP TABLE");
  }

  /** Of the injected text only its two spaces survive. */
  lemma SanitizeDropTableTail()
    ensures Sanitize("; DROP TABLE") == "  "
  {
    assert "; DROP TABLE" == "; DROP" + " TABLE";
    SanitizeAppend("; DROP", " TABLE");
    SanitizeDropOnly();
    SanitizeTableOnly();
  }

  lemma SanitizeDropOnly()
    ensures Sanitize("; DROP") == " "
  {
  }

  lemma SanitizeTableOnly()
    ensures Sanitize(" TABLE") == " "
  {
  }

  /** The arithmetic itself is allowed throughout. */
  lemma SanitizeDropTableHead()
    ensures Sanitize("2 + 2") == "2 + 2"
  {
  }

  /** Spaces survive: "2 + 2; DROP TABLE" becomes "2 + 2" followed by two spaces. */
  lemma SanitizeDropTable()
    ensures Sanitize("2 + 2; DROP TABLE") == "2 + 2  "
  {
    SanitizeDropTableSplit();
    SanitizeDropTableHead();
    SanitizeDropTableTail();
    assert "2 + 2" + "  " == "2 + 2  ";
  }

  /** The items `for c in expression` visits: a string's characters, a list's items, a dict's keys. */
  function Elements(v: Value): (r: Result<seq<Value>>)
    ensures v.Str? ==> r == Ok(CharItems(v.s))
    ensures r.Err? <==> v.Null? || v.Bool? || v.Num?
  {
    match v
    case Str(s) => Ok(CharItems(s))
    case Arr(items) => Ok(items)
    case Obj(fields) => Ok(seq(|fields|, i requires 0 <= i < |fields| => Str(fields[i].0)))
    case _ => Err("'" + TypeName(v) + "' object is not iterable")
  }

  /** `''.join([c for c in items if c in allowed_chars])`: each item must be a string, and
      one is kept when it occurs in the allowed characters. */
  function KeepAllowed(items: seq<Value>): Result<string>
    decreases |items|
  {
    if items == [] then Ok("")
    else
      match KeepAllowed(items[..|items| - 1])
      case Err(e) => Err(e)
      case Ok(done) =>
        var c := items[|items| - 1];
        if !c.Str? then Err("'in <string>' requires string as left operand, not " + TypeName(c))
        else Ok(if ContainsText(Allowed, c.s) then done + c.s else done)
  }

  function SanitizeExpression(expression: Value): Result<string> {
    match Elements(expression)
    case Err(e) => Err(e)
    case Ok(items) => KeepAllowed(items)
  }

  /** For a string the item-wise filter is the character filter. */
  lemma SanitizeExpressionOfStr(s: string)
    ensures SanitizeExpression(Str(s)) == Ok(Sanitize(s))
  {
    KeepAllowedChars(s);
  }

  /** The items of a string: its characters, each as a one-character string. */
  function CharItems(s: string): (r: seq<Value>)
    ensures |r| == |s| && forall i :: 0 <= i < |s| ==> r[i] == Str([s[i]])
  {
    seq(|s|, i requires 0 <= i < |s| => Str([s[i]]))
  }

  /** A one-character string is kept exactly when the character is allowed. */
  lemma KeepOneChar(c: char)
    ensures ContainsText(Allowed, [c]) <==> AllowedChar(c)
  {
    ContainsChar(Allowed, c);
    AllowedCharIsAllowed(c);
  }

  /** One more one-character item is kept exactly when the character is allowed. */
  lemma KeepAllowedSnoc(pre: seq<Value>, c: char, done: string)
    requires KeepAllowed(pre) == Ok(done)
    ensures KeepAllowed(pre + [Str([c])]) == Ok(if AllowedChar(c) then done + [c] else done)
  {
    assert (pre + [Str([c])])[..|pre|] == pre;
    KeepOneChar(c);
  }

  lemma {:induction false} KeepAllowedChars(s: string)
    ensures KeepAllowed(CharItems(s)) == Ok(Sanitize(s))
    decreases |s|
  {
    if s != [] {
      var n := |s| - 1;
      var pre := s[..n];
      var c := s[n];
      assert CharItems(s) == CharItems(pre) + [Str([c])];
      KeepAllowedChars(pre);
      KeepAllowedSnoc(CharItems(pre), c, Sanitize(pre));
      assert Sanitize(s) == Sanitize(pre) + (if AllowedChar(c) then [c] else "") by {
        assert s == pre + [c];
        SanitizeAppend(pre, [c]);
        assert [c][1..] == [];
      }
      assert Sanitize(s) == (if AllowedChar(c) then Sanitize(pre) + [c] else Sanitize(pre));
    } else {
      assert CharItems(s) == [];
    }
  }

  const CalculationProblem := "I had a problem calculating that. The error was: "

  const EmptyAfterSanitization := "Expression is empty after sanitization."

  /**
   * perform_calculation: every exception becomes the problem string with its message.
   * evaluate stands for numexpr.evaluate(...).item() followed by str().
   */
  function PerformCalculation(expression: Value, evaluate: string -> Result<string>): (r: string)
    ensures SanitizeExpression(expression).Err? ==> r == CalculationProblem + SanitizeExpression(expression).error
    ensures SanitizeExpression(expression) == Ok("") ==> r == CalculationProblem + EmptyAfterSanitization
  {
    match SanitizeExpression(expression)
    case Err(e) => CalculationProblem + e
    case Ok(sanitized) =>
      if sanitized == "" then CalculationProblem + EmptyAfterSanitization
      else match evaluate(sanitized)
        case Ok(result) => result
        case Err(e) => CalculationProblem + e
  }

  /** Only the sanitised text reaches numexpr: its value, or the problem string with its error. */
  lemma CalculationOfString(s: string, evaluate: string -> Result<string>)
    ensures Sanitize(s) == "" ==> PerformCalculation(Str(s), evaluate) == CalculationProblem + EmptyAfterSanitization
    ensures Sanitize(s) != "" ==>
              PerformCalculation(Str(s), evaluate) ==
                (match evaluate(Sanitize(s))
                 case Ok(result) => result
                 case Err(e) => CalculationProblem + e)
  {
    SanitizeExpressionOfStr(s);
  }

  /** An expression that sanitises to nothing is never evaluated: any evaluator gives the same answer. */
  lemma EmptyExpressionNotEvaluated(expression: Value, ev1: string -> Result<string>, ev2: string -> Result<string>)
    requires SanitizeExpression(expression) == Ok("")
    ensures PerformCalculation(expression, ev1) == PerformCalculation(expression, ev2)
  {
  }

  // ---------------------------------------------------------------------
  // handle_web_search
  // ---------------------------------------------------------------------

  const NoResults := "I couldn't find any information on that topic."

  const SearchProblem := "I had a problem searching the web."

  /** One result as the model sees it; None where r['title'] or r['body'] raises. */
  function ResultEntry(r: Value): Option<string> {
    if !r.Obj? then None
    else
      match (Lookup(r.fields, "title"), Lookup(r.fields, "body"))
      case (Some(title), Some(body)) => Some("Title: " + PyStr(title) + "\nSnippet: " + PyStr(body))
      case _ => None
  }

  /** The entries of all results, or None when one of them raises. */
  function ResultEntries(items: seq<Value>): (r: Option<seq<string>>)
    ensures r.Some? ==> (|r.value| == |items| &&
                         forall k :: 0 <= k < |items| ==> ResultEntry(items[k]) == Some(r.value[k]))
    ensures r.None? ==> exists k :: 0 <= k < |items| && ResultEntry(items[k]).None?
    decreases |items|
  {
    if items == [] then Some([])
    else match (ResultEntry(items[0]), ResultEntries(items[1..]))
      case (Some(e), Some(es)) => Some([e] + es)
      case (None, _) => None
      case (_, None) =>
        ghost var k :| 0 <= k < |items[1..]| && ResultEntry(items[1..][k]).None?;
        assert ResultEntry(items[k + 1]).None?;
        None
  }

  /**
   * handle_web_search: no results give a fixed answer without asking the model;
   * otherwise the model is asked about the formatted results and its reply is
   * stripped; any exception on the way gives the apology.
   */
  function HandleWebSearch(query: Value, model: string, search: Value -> Search,
                           ollama: (Prompt, string) -> OllamaReply): (r: string)
    ensures search(query).SearchFailed? ==> r == SearchProblem
    ensures search(query) == Results([]) ==> r == NoResults
    ensures search(query).Results? && search(query).items != [] && ResultEntries(search(query).items).None? ==>
              r == SearchProblem
    ensures search(query).Results? && search(query).items != [] && ResultEntries(search(query).items).Some? ==>
              r == SearchAnswer(ollama(WebSearchRequest(PyStr(query), Join("\n\n", ResultEntries(search(query).items).value)), model))
  {
    match search(query)
    case SearchFailed(_) => SearchProblem
    case Results(items) =>
      if items == [] then NoResults
      else match ResultEntries(items)
        case None => SearchProblem
        case Some(entries) => SearchAnswer(ollama(WebSearchRequest(PyStr(query), Join("\n\n", entries)), model))
  }

  /** The model's reply stripped, or the apology when the call raised. */
  function SearchAnswer(reply: OllamaReply): (r: string)
    ensures reply.Failure? ==> r == SearchProblem
    ensures reply.Answer? ==> r == Strip(reply.text)
  {
    match reply
    case Failure(_) => SearchProblem
    case Answer(text) => Strip(text)
  }

  /** With results that all have a title and a body, the model sees them as entries joined by
      blank lines, and its reply is what comes back, stripped. */
  lemma WebSearchAnswer(query: Value, model: string, search: Value -> Search,
                        ollama: (Prompt, string) -> OllamaReply, titles: seq<string>, bodies: seq<string>)
    requires |titles| == |bodies| > 0
    requires search(query) == Results(TitledResults(titles, bodies))
    ensures HandleWebSearch(query, model, search, ollama) ==
              SearchAnswer(ollama(WebSearchRequest(PyStr(query), Join("\n\n", Entries(titles, bodies))), model))
  {
    var items := TitledResults(titles, bodies);
    assert items != [];
    EntriesOfTitledResults(titles, bodies);
  }

  /** Search results carrying the given titles and bodies. */
  function TitledResults(titles: seq<string>, bodies: seq<string>): (r: seq<Value>)
    requires |titles| == |bodies|
    ensures |r| == |titles|
  {
    seq(|titles|, k requires 0 <= k < |titles| => Obj([("title", Str(titles[k])), ("body", Str(bodies[k]))]))
  }

  /** The entries the model is shown for those results. */
  function Entries(titles: seq<string>, bodies: seq<string>): (r: seq<string>)
    requires |titles| == |bodies|
    ensures |r| == |titles|
  {
    seq(|titles|, k requires 0 <= k < |titles| => "Title: " + titles[k] + "\nSnippet: " + bodies[k])
  }

  lemma EntriesOfTitledResults(titles: seq<string>, bodies: seq<string>)
    requires |titles| == |bodies|
    ensures ResultEntries(TitledResults(titles, bodies)) == Some(Entries(titles, bodies))
  {
    var items := TitledResults(titles, bodies);
    var entries := Entries(titles, bodies);
    forall k | 0 <= k < |items| ensures ResultEntry(items[k]) == Some(entries[k]) {
      EntryOfPair(titles[k], bodies[k]);
    }
    var found := ResultEntries(items);
    assert found.Some?;
    assert found.value == entries;
  }

  lemma EntryOfPair(title: string, body: string)
    ensures ResultEntry(Obj([("title", Str(title)), ("body", Str(body))])) ==
              Some("Title: " + title + "\nSnippet: " + body)
  {
    var fields := [("title", Str(title)), ("body", Str(body))];
    assert "title" != "body" by { assert "title"[0] != "body"[0]; }
    assert Lookup(fields, "body") == Lookup(fields[1..], "body");
  }

  /** Without results the model is never asked: any model gives the same answer. */
  lemma NoResultsNotAsked(query: Value, model: string, search: Value -> Search,
                          o1: (Prompt, string) -> OllamaReply, o2: (Prompt, string) -> OllamaReply)
    requires search(query) == Results([])
    ensures HandleWebSearch(query, model, search, o1) == HandleWebSearch(query, model, search, o2) == NoResults
  {
  }
}
