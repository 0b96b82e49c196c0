/**
 * ai_engine/lib/utils.py: turning the language model's text into command
 * objects, and matching a prompt against the known entities and areas.
 */
module Utils {
  import opened Wrappers
  import opened Strings
  import opened Json

  // ---------------------------------------------------------------------
  // Command extraction
  // ---------------------------------------------------------------------

  const Fence := "```"

  /** Two fences, the second starting at least three characters after the first. */
  ghost predicate FencePair(text: string) {
    exists a, b :: OccursAt(text, Fence, a) && OccursAt(text, Fence, b) && a + 3 <= b
  }

  ghost predicate HasFence(s: string) {
    exists i :: OccursAt(s, Fence, i)
  }

  /** The first index at or after i that is not whitespace (the regex's \s*). */
  function SkipSpaces(s: string, i: nat): (j: nat)
    requires i <= |s|
    ensures i <= j <= |s|
    ensures forall k :: i <= k < j ==> IsSpace(s[k])
    ensures j == |s| || !IsSpace(s[j])
    decreases |s| - i
  {
    if i < |s| && IsSpace(s[i]) then SkipSpaces(s, i + 1) else i
  }

  /** The start of the run of whitespace that ends at hi, not going below lo. */
  function TrimEndBefore(s: string, lo: nat, hi: nat): (k: nat)
    requires lo <= hi <= |s|
    ensures lo <= k <= hi
    ensures forall m :: k <= m < hi ==> IsSpace(s[m])
    ensures k == lo || !IsSpace(s[k - 1])
    decreases hi - lo
  {
    if lo < hi && IsSpace(s[hi - 1]) then TrimEndBefore(s, lo, hi - 1) else hi
  }

  /**
   * The second group of the first match of ```(json)?\s*([\s\S]*?)\s*``` in text.
   * The match begins at the first fence; an optional "json" tag and the
   * whitespace after it are skipped; the lazy group ends where the whitespace
   * before the next fence begins. When the first fence has no closing fence,
   * no later fence has one either, so there is no match.
   */
  function FencedBlock(text: string): (r: Option<string>)
    ensures r.Some? ==> !HasFence(r.value)
    ensures r.Some? && r.value != [] ==> !IsSpace(r.value[0]) && !IsSpace(r.value[|r.value| - 1])
  {
    var p := FindFrom(text, Fence, 0);
    if p < 0 then None
    else
      var j := if OccursAt(text, "json", p + 3) then p + 7 else p + 3;
      var start := SkipSpaces(text, j);
      var q := FindFrom(text, Fence, start);
      if q < 0 then None
      else
        var k := TrimEndBefore(text, start, q);
        NoFenceBefore(text, start, k, q);
        var block := text[start..k];
        Some(block)
  }

  /** A fence is three backquotes. */
  lemma FenceAt(s: string, i: int)
    ensures OccursAt(s, Fence, i) <==> 0 <= i && i + 3 <= |s| && s[i] == '`' && s[i + 1] == '`' && s[i + 2] == '`'
  {
    OccursAtChars(s, Fence, i);
  }

  /** A slice that ends before the first fence at or after its start holds no fence. */
  lemma NoFenceBefore(text: string, start: nat, k: nat, q: int)
    requires start <= k <= q <= |text|
    requires forall i :: start <= i < q ==> !OccursAt(text, Fence, i)
    ensures !HasFence(text[start..k])
  {
    var block := text[start..k];
    forall i | OccursAt(block, Fence, i) ensures false {
      FenceAt(block, i);
      FenceAt(text, start + i);
    }
  }

  /** There is a fenced block exactly when the text holds two fences that do not overlap. */
  lemma FencedBlockExists(text: string)
    ensures FencedBlock(text).Some? <==> FencePair(text)
  {
    var p := FindFrom(text, Fence, 0);
    if FencePair(text) {
      var a, b :| OccursAt(text, Fence, a) && OccursAt(text, Fence, b) && a + 3 <= b;
      assert p >= 0 && p <= a;
      var tagged := OccursAt(text, "json", p + 3);
      var j := if tagged then p + 7 else p + 3;
      var start := SkipSpaces(text, j);
      FenceAt(text, b);
      OccursAtChars(text, "json", p + 3);
      forall k | p + 3 <= k < start ensures text[k] != '`' {
        if k < j { assert text[k] == "json"[k - (p + 3)]; }
      }
      assert b >= start;
      assert FindFrom(text, Fence, start) >= 0;
    }
    if FencedBlock(text).Some? {
      var j := if OccursAt(text, "json", p + 3) then p + 7 else p + 3;
      var q := FindFrom(text, Fence, SkipSpaces(text, j));
      assert OccursAt(text, Fence, p) && OccursAt(text, Fence, q) && p + 3 <= q;
    }
  }

  /** A block written as ```json (or ```), a newline, the JSON text, a newline and ```
      is found and handed over without the surrounding newlines. */
  lemma FencedBlockOfWrapped(pre: string, tag: string, body: string, post: string)
    requires tag == "json" || tag == ""
    requires '`' !in pre && '`' !in body
    requires body != [] ==> !IsSpace(body[0]) && !IsSpace(body[|body| - 1])
    ensures FencedBlock(pre + Fence + tag + "\n" + body + "\n" + Fence + post) == Some(body)
  {
    var text := pre + Fence + tag + "\n" + body + "\n" + Fence + post;
    WrappedSlices(text, pre, tag, body, post);
    FencedBlockOfLayout(text, pre, tag, body);
  }

  /** The same, from where the parts sit in the text. */
  lemma FencedBlockOfLayout(text: string, pre: string, tag: string, body: string)
    requires tag == "json" || tag == ""
    requires '`' !in pre && '`' !in body
    requires body != [] ==> !IsSpace(body[0]) && !IsSpace(body[|body| - 1])
    requires |text| >= |pre| + |tag| + |body| + 8
    requires text[..|pre| + 3] == pre + Fence
    requires text[|pre| + 3..|pre| + 4 + |tag|] == tag + "\n"
    requires text[|pre| + 3 + |tag|] == '\n'
    requires text[|pre| + 4 + |tag|..|pre| + 8 + |tag| + |body|] == body + "\n" + Fence
    ensures FencedBlock(text) == Some(body)
  {
    var p0 := |pre|;
    var j := p0 + 3 + |tag|;
    FirstFenceAfter(pre, text);
    TagAfterFence(tag, text, p0 + 3);
    assert j == if OccursAt(text, "json", p0 + 3) then p0 + 7 else p0 + 3;
    assert SkipSpaces(text, j) == SkipSpaces(text, j + 1);
    BlockBeforeFence(text, j + 1, body);
  }

  /** Where the parts of a wrapped block sit in its text. */
  lemma WrappedSlices(text: string, pre: string, tag: string, body: string, post: string)
    requires text == pre + Fence + tag + "\n" + body + "\n" + Fence + post
    ensures |text| >= |pre| + |tag| + |body| + 8
    ensures text[..|pre| + 3] == pre + Fence
    ensures text[|pre| + 3..|pre| + 4 + |tag|] == tag + "\n"
    ensures text[|pre| + 3 + |tag|] == '\n'
    ensures text[|pre| + 4 + |tag|..|pre| + 8 + |tag| + |body|] == body + "\n" + Fence
  {
    var a := pre + Fence;
    var b := a + tag + "\n";
    var c := b + body + "\n" + Fence;
    assert text == c + post;
    assert text[..|a|] == a;
    assert text[|a|..|b|] == tag + "\n";
    assert text[|b|..|c|] == body + "\n" + Fence;
  }

  /** A block followed by a newline and a fence is read back exactly, whitespace trimmed. */
  lemma BlockBeforeFence(text: string, start: nat, body: string)
    requires '`' !in body
    requires body != [] ==> !IsSpace(body[0]) && !IsSpace(body[|body| - 1])
    requires |text| >= start + |body| + 4 && text[start..start + |body| + 4] == body + "\n" + Fence
    ensures var st := SkipSpaces(text, start);
            var q := FindFrom(text, Fence, st);
            q == start + |body| + 1 && text[st..TrimEndBefore(text, st, q)] == body
  {
    BlockStart(text, start, body);
    BlockFence(text, start, body);
    BlockTrimmed(text, start, body);
  }

  /** Skipping whitespace from the block's start lands on its first character, or on the fence when it is empty. */
  lemma BlockStart(text: string, start: nat, body: string)
    requires body != [] ==> !IsSpace(body[0])
    requires |text| >= start + |body| + 4 && text[start..start + |body| + 4] == body + "\n" + Fence
    ensures SkipSpaces(text, start) == if body == [] then start + 1 else start
  {
    var w := text[start..start + |body| + 4];
    if body == [] {
      assert text[start] == w[0] == '\n';
      assert text[start + 1] == w[1] == '`';
    } else {
      assert text[start] == w[0] == body[0];
    }
  }

  /** The first fence from the block's start is the one after it. */
  lemma BlockFence(text: string, start: nat, body: string)
    requires '`' !in body
    requires body != [] ==> !IsSpace(body[0])
    requires |text| >= start + |body| + 4 && text[start..start + |body| + 4] == body + "\n" + Fence
    ensures FindFrom(text, Fence, SkipSpaces(text, start)) == start + |body| + 1
  {
    var q := start + |body| + 1;
    var w := text[start..start + |body| + 4];
    assert text[q - 1] == w[|body|] == '\n';
    assert text[q..q + 3] == w[|body| + 1..] == Fence;
    BlockStart(text, start, body);
    var st := SkipSpaces(text, start);
    forall i | st <= i < q ensures !OccursAt(text, Fence, i) {
      FenceAt(text, i);
      if i < start + |body| {
        assert text[i] == w[i - start] == body[i - start];
      }
    }
    FindFromAt(text, Fence, st, q);
  }

  /** Trimming the whitespace before the fence leaves exactly the block. */
  lemma BlockTrimmed(text: string, start: nat, body: string)
    requires body != [] ==> !IsSpace(body[0]) && !IsSpace(body[|body| - 1])
    requires |text| >= start + |body| + 4 && text[start..start + |body| + 4] == body + "\n" + Fence
    ensures var st := SkipSpaces(text, start);
            st <= start + |body| + 1 && text[st..TrimEndBefore(text, st, start + |body| + 1)] == body
  {
    var q := start + |body| + 1;
    var w := text[start..start + |body| + 4];
    assert text[q - 1] == w[|body|] == '\n';
    assert IsSpace('\n');
    BlockStart(text, start, body);
    var st := SkipSpaces(text, start);
    if body == [] {
      assert st == q;
      assert TrimEndBefore(text, st, q) == q;
    } else {
      assert st == start < q - 1;
      assert text[start..q - 1] == w[..|body|] == body;
      var last := text[q - 2];
      assert last == w[|body| - 1] == body[|body| - 1];
      assert !IsSpace(last);
      assert TrimEndBefore(text, st, q - 1) == q - 1;
      assert TrimEndBefore(text, st, q) == TrimEndBefore(text, st, q - 1);
    }
  }

  /** After a prefix without backquotes, the first fence is the one that ends the prefix. */
  lemma FirstFenceAfter(pre: string, text: string)
    requires '`' !in pre
    requires |text| >= |pre| + 3 && text[..|pre| + 3] == pre + Fence
    ensures FindFrom(text, Fence, 0) == |pre|
  {
    var p0 := |pre|;
    assert forall i :: 0 <= i < p0 + 3 ==> text[i] == text[..p0 + 3][i];
    forall i | 0 <= i < p0 ensures !OccursAt(text, Fence, i) {
      FenceAt(text, i);
      assert text[i] == pre[i];
    }
    assert text[p0..p0 + 3] == text[..p0 + 3][p0..];
    FindFromAt(text, Fence, 0, p0);
  }

  /** The optional tag right after the opening fence is recognised exactly when it was written. */
  lemma TagAfterFence(tag: string, text: string, i: nat)
    requires tag == "json" || tag == ""
    requires |text| >= i + |tag| + 1 && text[i..i + |tag| + 1] == tag + "\n"
    ensures OccursAt(text, "json", i) <==> tag == "json"
  {
    OccursAtChars(text, "json", i);
    assert text[i] == text[i..i + |tag| + 1][0];
    if tag == "json" {
      assert text[i..i + 4] == text[i..i + 5][..4];
    }
  }

  predicate IsContainer(v: Value) {
    v.Arr? || v.Obj?
  }

  /** The command list a container stands for: an array as it is, an object as a one-element list. */
  function Commands(v: Value): (r: seq<Value>)
    requires IsContainer(v)
    ensures v.Arr? ==> r == v.items
    ensures v.Obj? ==> r == [v]
  {
    if v.Arr? then v.items else [v]
  }

  function Min(a: int, b: int): int {
    if a <= b then a else b
  }

  /** Where the last-resort tier starts parsing: the first '{' or '[', or -1 when there is neither. */
  function StartIndex(text: string): (i: int)
    ensures i == -1 <==> '{' !in text && '[' !in text
    ensures i >= 0 ==> i < |text| && (text[i] == '{' || text[i] == '[')
    ensures i >= 0 ==> forall k :: 0 <= k < i ==> text[k] != '{' && text[k] != '['
  {
    var brace := FindChar(text, '{');
    var bracket := FindChar(text, '[');
    if brace != -1 && bracket != -1 then Min(brace, bracket)
    else if brace != -1 then brace
    else bracket
  }

  /** Third tier: parse from the first bracket to the end of the text. */
  function LastResort(text: string, parse: string -> Option<Value>): (r: seq<Value>)
    ensures '{' !in text && '[' !in text ==> r == []
    ensures r != [] ==> exists v :: parse(text[StartIndex(text)..]) == Some(v) && IsContainer(v) && r == Commands(v)
  {
    var start := StartIndex(text);
    if start == -1 then []
    else
      match parse(text[start..])
      case Some(v) => if IsContainer(v) then Commands(v) else []
      case None => []
  }

  /** Second tier: parse the whole text; otherwise the third tier. */
  function WholeText(text: string, parse: string -> Option<Value>): seq<Value> {
    match parse(text)
    case Some(v) => if IsContainer(v) then Commands(v) else LastResort(text, parse)
    case None => LastResort(text, parse)
  }

  /**
   * extract_json_commands: a fenced block is authoritative when present,
   * except that a block decoding to a scalar falls through to the later tiers.
   */
  function ExtractJsonCommands(text: string, parse: string -> Option<Value>): (r: seq<Value>)
    ensures FencedBlock(text).Some? && parse(FencedBlock(text).value).None? ==> r == []
    ensures forall xs :: FencedBlock(text).Some? && parse(FencedBlock(text).value) == Some(Arr(xs)) ==> r == xs
    ensures forall f :: FencedBlock(text).Some? && parse(FencedBlock(text).value) == Some(Obj(f)) ==> r == [Obj(f)]
    ensures (FencedBlock(text).None? ||
             (parse(FencedBlock(text).value).Some? && !IsContainer(parse(FencedBlock(text).value).value)))
            ==> r == WholeText(text, parse)
  {
    match FencedBlock(text)
    case Some(block) =>
      (match parse(block)
       case None => []
       case Some(v) => if IsContainer(v) then Commands(v) else WholeText(text, parse))
    case None => WholeText(text, parse)
  }

  // ---------------------------------------------------------------------
  // The leader of a scoring loop
  // ---------------------------------------------------------------------

  /** The (index, score) pair a loop keeps when it starts from (none, 0) and
      takes a new leader only on a strictly higher score. */
  function Leading(scores: seq<int>): (int, int)
    decreases |scores|
  {
    if scores == [] then (-1, 0)
    else
      var prev := Leading(scores[..|scores| - 1]);
      if scores[|scores| - 1] > prev.1 then (|scores| - 1, scores[|scores| - 1]) else prev
  }

  /** The leader is the first position holding the maximum, when that maximum is positive. */
  lemma {:induction false} LeadingIsFirstMaximum(scores: seq<int>)
    ensures -1 <= Leading(scores).0 < |scores|
    ensures Leading(scores).1 >= 0
    ensures forall k :: 0 <= k < |scores| ==> scores[k] <= Leading(scores).1
    ensures Leading(scores).0 == -1 <==> forall k :: 0 <= k < |scores| ==> scores[k] <= 0
    ensures Leading(scores).0 == -1 ==> Leading(scores).1 == 0
    ensures Leading(scores).0 >= 0 ==>
              var i := Leading(scores).0;
              scores[i] == Leading(scores).1 && scores[i] > 0 &&
              forall k :: 0 <= k < i ==> scores[k] < scores[i]
    decreases |scores|
  {
    if scores != [] {
      var n := |scores| - 1;
      LeadingIsFirstMaximum(scores[..n]);
      assert forall k :: 0 <= k < n ==> scores[..n][k] == scores[k];
    }
  }

  lemma LeadingStep(scores: seq<int>, i: nat)
    requires i < |scores|
    ensures Leading(scores[..i + 1]) ==
              if scores[i] > Leading(scores[..i]).1 then (i, scores[i]) else Leading(scores[..i])
  {
    assert scores[..i + 1][..i] == scores[..i];
  }

  // ---------------------------------------------------------------------
  // Entity matching
  // ---------------------------------------------------------------------

  /** The words extraction mode ignores. */
  const StopWords: set<string> := {
    "what", "is", "the", "tell", "me", "about", "when", "was", "how", "long", "history",
    "of", "a", "an", "last", "on", "off", "open", "closed", "set", "to", "in", "were",
    "status", "current"
  }

  /** Prompt keywords that suggest a domain, in the order they are tried. */
  const DomainKeywords: seq<(string, string)> := [
    ("light", "light"), ("lights", "light"), ("switch", "switch"), ("fan", "fan"),
    ("sensor", "sensor"), ("lock", "lock"), ("cover", "cover"), ("climate", "climate")
  ]

  /** The entity map in insertion order: (entity id, friendly name). */
  type EntityMap = seq<(string, string)>

  function Ids(entities: EntityMap): seq<string> {
    seq(|entities|, i requires 0 <= i < |entities| => entities[i].0)
  }

  function Names(entities: EntityMap): seq<string> {
    seq(|entities|, i requires 0 <= i < |entities| => entities[i].1)
  }

  /** What find_best_matching_entity returns: an entity id or None, and a score. */
  datatype EntityMatch = EntityMatch(id: Option<string>, score: int)

  /** The prompt as a set of keywords: lower-cased, '?' removed, split on whitespace, stop words dropped. */
  function PromptWords(prompt: string): set<string> {
    set w | w in Words(RemoveChar(Lower(prompt), '?')) && w !in StopWords
  }

  /** The domain of the first keyword of the table that is among the words. */
  function FirstDomain(table: seq<(string, string)>, words: set<string>): Option<string> {
    if table == [] then None
    else if table[0].0 in words then Some(table[0].1)
    else FirstDomain(table[1..], words)
  }

  function NameWords(name: string): set<string> {
    set w | w in Words(Lower(name))
  }

  /** The words of an entity id, with '.' and '_' read as separators. */
  function IdWords(id: string): set<string> {
    set w | w in Words(ReplaceChar(ReplaceChar(Lower(id), '.', ' '), '_', ' '))
  }

  /** The keyword score of one entity. */
  function Score(words: set<string>, domain: Option<string>, id: string, name: string): int {
    3 * |words * NameWords(name)|
    + |words * IdWords(id)|
    + (if NameWords(name) <= words then 10 else 0)
    + (if domain.Some? && StartsWith(id, domain.value + ".") then 15 else 0)
  }

  function Scores(words: set<string>, domain: Option<string>, entities: EntityMap): seq<int> {
    seq(|entities|, k requires 0 <= k < |entities| => Score(words, domain, entities[k].0, entities[k].1))
  }

  /** Extraction mode: the first entity with the top score, when that score exceeds 5. */
  function Extraction(prompt: string, entities: EntityMap): EntityMatch {
    var words := PromptWords(prompt);
    if words == {} then EntityMatch(None, 0)
    else Ranked(words, FirstDomain(DomainKeywords, words), entities)
  }

  /** The leader among the entities for given prompt words and domain, kept only above 5. */
  function Ranked(words: set<string>, domain: Option<string>, entities: EntityMap): EntityMatch {
    var lead := Leading(Scores(words, domain, entities));
    if lead.1 > 5 && 0 <= lead.0 < |entities| then EntityMatch(Some(entities[lead.0].0), lead.1)
    else EntityMatch(None, 0)
  }

  /** The candidates handed to the fuzzy matcher: all ids, then all friendly names. */
  function Candidates(entities: EntityMap): seq<string> {
    Ids(entities) + Names(entities)
  }

  /** The id of the first entity with the given friendly name. */
  function FirstIdNamed(entities: EntityMap, name: string): (id: string)
    requires name in Names(entities)
    ensures exists i :: 0 <= i < |entities| && entities[i] == (id, name) &&
                        forall k :: 0 <= k < i ==> entities[k].1 != name
  {
    if entities[0].1 == name then entities[0].0
    else
      assert Names(entities) == [entities[0].1] + Names(entities[1..]);
      var id := FirstIdNamed(entities[1..], name);
      ghost var i :| 0 <= i < |entities[1..]| && entities[1..][i] == (id, name) &&
                     forall k :: 0 <= k < i ==> entities[1..][k].1 != name;
      assert entities[i + 1] == (id, name);
      assert forall k :: 1 <= k < i + 1 ==> entities[k] == entities[1..][k - 1];
      id
  }

  /**
   * find_best_matching_entity. A non-empty target selects correction mode:
   * the fuzzy match (difflib.get_close_matches with n=1, cutoff=0.6, given
   * here as closeMatch) is returned with score 10, a friendly name being
   * mapped back to its first id; no close match falls back to extraction mode.
   */
  function BestEntity(prompt: string, entities: EntityMap, target: string,
                      closeMatch: (string, seq<string>) -> Option<string>): EntityMatch
  {
    if target != "" then
      match closeMatch(target, Candidates(entities))
      case Some(m) =>
        if m in Names(entities) then EntityMatch(Some(FirstIdNamed(entities, m)), 10)
        else EntityMatch(Some(m), 10)
      case None => Extraction(prompt, entities)
    else Extraction(prompt, entities)
  }

  /** The matcher contract of difflib.get_close_matches: any match is one of the candidates. */
  ghost predicate PicksCandidate(closeMatch: (string, seq<string>) -> Option<string>, target: string,
                                 candidates: seq<string>) {
    closeMatch(target, candidates).Some? ==> closeMatch(target, candidates).value in candidates
  }

  /** Extraction mode returns an id that is a key, with the strict running maximum,
      first entity first, and only above the threshold 5; otherwise (None, 0). */
  lemma ExtractionIsThresholdedFirstMaximum(prompt: string, entities: EntityMap)
    ensures var m := Extraction(prompt, entities);
            var words := PromptWords(prompt);
            var s := Scores(words, FirstDomain(DomainKeywords, words), entities);
            && (m.id.None? ==> m.score == 0 && (words == {} || forall k :: 0 <= k < |s| ==> s[k] <= 5))
            && (m.id.Some? ==>
                  words != {} && m.score > 5 &&
                  exists i :: 0 <= i < |entities| && entities[i].0 == m.id.value && s[i] == m.score &&
                              (forall k :: 0 <= k < |s| ==> s[k] <= m.score) &&
                              (forall k :: 0 <= k < i ==> s[k] < m.score))
  {
    var words := PromptWords(prompt);
    if words != {} {
      var s := Scores(words, FirstDomain(DomainKeywords, words), entities);
      LeadingIsFirstMaximum(s);
      var lead := Leading(s);
      if lead.1 > 5 {
        assert lead.0 != -1;
        assert entities[lead.0].0 == Extraction(prompt, entities).id.value;
      }
    }
  }

  /** Correction mode has three outcomes: an id, the first id of a friendly name, or extraction mode. */
  lemma CorrectionOutcomes(prompt: string, entities: EntityMap, target: string,
                           closeMatch: (string, seq<string>) -> Option<string>)
    requires target != ""
    requires PicksCandidate(closeMatch, target, Candidates(entities))
    ensures var m := BestEntity(prompt, entities, target, closeMatch);
            var c := closeMatch(target, Candidates(entities));
            && (c.None? ==> m == Extraction(prompt, entities))
            && (c.Some? && c.value !in Names(entities) ==> m == EntityMatch(Some(c.value), 10) && c.value in Ids(entities))
            && (c.Some? && c.value in Names(entities) ==>
                  m.score == 10 && m.id.Some? &&
                  exists i :: 0 <= i < |entities| && entities[i] == (m.id.value, c.value) &&
                              forall k :: 0 <= k < i ==> entities[k].1 != c.value)
  {
    var c := closeMatch(target, Candidates(entities));
    if c.Some? && c.value !in Names(entities) {
      assert c.value in Ids(entities);
    }
  }

  /** Whatever the mode, a returned id is a key of the entity map. */
  lemma BestEntityIsKey(prompt: string, entities: EntityMap, target: string,
                        closeMatch: (string, seq<string>) -> Option<string>)
    requires PicksCandidate(closeMatch, target, Candidates(entities))
    ensures BestEntity(prompt, entities, target, closeMatch).id.Some? ==>
              BestEntity(prompt, entities, target, closeMatch).id.value in Ids(entities)
  {
    var m := BestEntity(prompt, entities, target, closeMatch);
    ExtractionIsThresholdedFirstMaximum(prompt, entities);
    if m == Extraction(prompt, entities) && m.id.Some? {
      var words := PromptWords(prompt);
      var s := Scores(words, FirstDomain(DomainKeywords, words), entities);
      var i :| 0 <= i < |entities| && entities[i].0 == m.id.value && s[i] == m.score &&
               (forall k :: 0 <= k < |s| ==> s[k] <= m.score) && (forall k :: 0 <= k < i ==> s[k] < m.score);
      assert Ids(entities)[i] == m.id.value;
    } else if target != "" {
      var c := closeMatch(target, Candidates(entities));
      if c.Some? && c.value in Names(entities) {
        var id := FirstIdNamed(entities, c.value);
        var i :| 0 <= i < |entities| && entities[i] == (id, c.value) &&
                 forall k :: 0 <= k < i ==> entities[k].1 != c.value;
        assert Ids(entities)[i] == id;
      } else if c.Some? {
        assert c.value in Ids(entities);
      }
    }
  }

  /** The domain-keyword loop: the first table keyword among the words, with a break. */
  method DetectDomain(words: set<string>) returns (domain: Option<string>)
    ensures domain == FirstDomain(DomainKeywords, words)
  {
    domain := None;
    var t := 0;
    while t < |DomainKeywords|
      invariant 0 <= t <= |DomainKeywords|
      invariant FirstDomain(DomainKeywords, words) == FirstDomain(DomainKeywords[t..], words)
    {
      var (keyword, d) := DomainKeywords[t];
      if keyword in words {
        domain := Some(d);
        break;
      }
      assert DomainKeywords[t..][1..] == DomainKeywords[t + 1..];
      t := t + 1;
    }
  }

  /** The score of one entity, summed term by term as the loop body does. */
  method ScoreEntity(words: set<string>, detected: Option<string>, entityId: string, friendlyName: string)
    returns (score: int)
    ensures score == Score(words, detected, entityId, friendlyName)
  {
    var fnWords := NameWords(friendlyName);
    var eidWords := IdWords(entityId);
    score := 0;
    score := score + |words * fnWords| * 3;
    score := score + |words * eidWords| * 1;
    if fnWords <= words {
      score := score + 10;
    }
    if detected.Some? && StartsWith(entityId, detected.value + ".") {
      score := score + 15;
    }
  }

  /** Extraction mode as the source runs it: one pass over the entities keeping the leader. */
  method ExtractEntity(prompt: string, entities: EntityMap) returns (m: EntityMatch)
    ensures m == Extraction(prompt, entities)
  {
    var words := PromptWords(prompt);
    if words == {} {
      return EntityMatch(None, 0);
    }
    var bestMatch: Option<string> := None;
    var highestScore := 0;
    var detected := DetectDomain(words);
    ghost var scores := Scores(words, detected, entities);
    ghost var leader := -1;
    var i := 0;
    while i < |entities|
      invariant 0 <= i <= |entities|
      invariant (leader, highestScore) == Leading(scores[..i])
      invariant -1 <= leader < i
      invariant bestMatch == if leader == -1 then None else Some(entities[leader].0)
    {
      var (entityId, friendlyName) := entities[i];
      var score := ScoreEntity(words, detected, entityId, friendlyName);
      assert score == scores[i];
      LeadingStep(scores, i);
      if score > highestScore {
        highestScore := score;
        bestMatch := Some(entityId);
        leader := i;
      }
      i := i + 1;
    }
    assert scores[..|entities|] == scores;
    LeadingIsFirstMaximum(scores);
    if highestScore > 5 {
      m := EntityMatch(bestMatch, highestScore);
    } else {
      m := EntityMatch(None, 0);
    }
    assert m == Ranked(words, detected, entities);
  }

  /** find_best_matching_entity as the source runs it. */
  method FindBestMatchingEntity(prompt: string, entities: EntityMap, target: string,
                                closeMatch: (string, seq<string>) -> Option<string>)
    returns (m: EntityMatch)
    ensures m == BestEntity(prompt, entities, target, closeMatch)
  {
    if target != "" {
      var closeMatches := closeMatch(target, Ids(entities) + Names(entities));
      if closeMatches.Some? {
        var found := closeMatches.value;
        if found in Names(entities) {
          var i := 0;
          while entities[i].1 != found
            invariant 0 <= i < |entities|
            invariant forall k :: 0 <= k < i ==> entities[k].1 != found
            invariant found in Names(entities[i..])
            decreases |entities| - i
          {
            assert entities[i..][1..] == entities[i + 1..];
            assert Names(entities[i..]) == [entities[i].1] + Names(entities[i + 1..]);
            i := i + 1;
          }
          ghost var id := FirstIdNamed(entities, found);
          ghost var j :| 0 <= j < |entities| && entities[j] == (id, found) &&
                         forall k :: 0 <= k < j ==> entities[k].1 != found;
          assert i == j;
          return EntityMatch(Some(entities[i].0), 10);
        } else {
          return EntityMatch(Some(found), 10);
        }
      }
    }
    m := ExtractEntity(prompt, entities);
  }

  // ---------------------------------------------------------------------
  // Area matching
  // ---------------------------------------------------------------------

  function WordSet(s: string): set<string> {
    set w | w in Words(Lower(s))
  }

  /** How many prompt words an area name shares. */
  function Overlaps(prompt: string, areas: seq<string>): seq<int> {
    seq(|areas|, k requires 0 <= k < |areas| => |WordSet(prompt) * WordSet(areas[k])|)
  }

  /** find_best_matching_area: the first area with the strictly highest overlap, or None. */
  function BestArea(prompt: string, areas: seq<string>): Option<string> {
    var lead := Leading(Overlaps(prompt, areas));
    if 0 <= lead.0 < |areas| then Some(areas[lead.0]) else None
  }

  lemma BestAreaIsFirstMaximum(prompt: string, areas: seq<string>)
    ensures var s := Overlaps(prompt, areas);
            && (BestArea(prompt, areas).None? <==> forall k :: 0 <= k < |areas| ==> s[k] == 0)
            && (BestArea(prompt, areas).Some? ==>
                  exists i :: 0 <= i < |areas| && areas[i] == BestArea(prompt, areas).value && s[i] > 0 &&
                              (forall k :: 0 <= k < |areas| ==> s[k] <= s[i]) &&
                              (forall k :: 0 <= k < i ==> s[k] < s[i]))
  {
    var s := Overlaps(prompt, areas);
    LeadingIsFirstMaximum(s);
    var lead := Leading(s);
    if lead.0 >= 0 {
      assert areas[lead.0] == BestArea(prompt, areas).value;
    }
  }

  /** find_best_matching_area as the source runs it. */
  method FindBestMatchingArea(prompt: string, areas: seq<string>) returns (r: Option<string>)
    ensures r == BestArea(prompt, areas)
  {
    var promptWords := WordSet(prompt);
    r := None;
    var highestScore := 0;
    ghost var scores := Overlaps(prompt, areas);
    ghost var leader := -1;
    var i := 0;
    while i < |areas|
      invariant 0 <= i <= |areas|
      invariant (leader, highestScore) == Leading(scores[..i])
      invariant -1 <= leader < i
      invariant r == if leader == -1 then None else Some(areas[leader])
    {
      var score := |promptWords * WordSet(areas[i])|;
      LeadingStep(scores, i);
      if score > highestScore {
        highestScore := score;
        r := Some(areas[i]);
        leader := i;
      }
      i := i + 1;
    }
    assert scores[..|areas|] == scores;
  }

  // ---------------------------------------------------------------------
  // Worked examples
  // ---------------------------------------------------------------------

  const KitchenAndFan: EntityMap := [("light.kitchen", "Kitchen Light"), ("switch.fan", "Hallway Fan")]

  /** A prompt written in lower case, without '?', single-spaced, is split into its words. */
  lemma PromptWordsOf(ws: seq<string>)
    requires forall k :: 0 <= k < |ws| ==> IsWord(ws[k])
    requires forall k, i :: 0 <= k < |ws| && 0 <= i < |ws[k]| ==> !('A' <= ws[k][i] <= 'Z') && ws[k][i] != '?'
    ensures PromptWords(Join(" ", ws)) == set w | w in ws && w !in StopWords
  {
    var s := Join(" ", ws);
    JoinAvoids(ws, '?');
    JoinLower(ws);
    RemoveAbsentChar(s, '?');
    WordsOfJoin(ws);
  }

  lemma {:induction false} JoinAvoids(ws: seq<string>, c: char)
    requires forall k, i :: 0 <= k < |ws| && 0 <= i < |ws[k]| ==> ws[k][i] != c
    requires c != ' '
    ensures c !in Join(" ", ws)
    decreases |ws|
  {
    if |ws| > 1 {
      JoinAvoids(ws[1..], c);
      assert forall i :: 0 <= i < |ws[0]| ==> ws[0][i] != c;
    } else if |ws| == 1 {
      assert forall i :: 0 <= i < |ws[0]| ==> ws[0][i] != c;
    }
  }

  lemma {:induction false} JoinLower(ws: seq<string>)
    requires forall k, i :: 0 <= k < |ws| && 0 <= i < |ws[k]| ==> !('A' <= ws[k][i] <= 'Z')
    ensures Lower(Join(" ", ws)) == Join(" ", ws)
    decreases |ws|
  {
    var s := Join(" ", ws);
    if |ws| > 1 {
      JoinLower(ws[1..]);
      var t := Join(" ", ws[1..]);
      assert s == ws[0] + " " + t;
      forall i | 0 <= i < |s| ensures LowerChar(s[i]) == s[i] {
        if i < |ws[0]| {
          assert s[i] == ws[0][i];
        } else if i > |ws[0]| {
          assert s[i] == t[i - |ws[0]| - 1];
          assert Lower(t)[i - |ws[0]| - 1] == t[i - |ws[0]| - 1];
        }
      }
    } else if |ws| == 1 {
      assert forall i :: 0 <= i < |s| ==> s[i] == ws[0][i];
    }
  }

  lemma {:induction false} RemoveAbsentChar(s: string, c: char)
    requires c !in s
    ensures RemoveChar(s, c) == s
    decreases |s|
  {
    if s != [] {
      RemoveAbsentChar(s[1..], c);
      assert s == [s[0]] + s[1..];
    }
  }

  /** A name that lower-cases to single-spaced words has those words. */
  lemma NameWordsOfJoin(name: string, ws: seq<string>)
    requires forall k :: 0 <= k < |ws| ==> IsWord(ws[k])
    requires Lower(name) == Join(" ", ws)
    ensures NameWords(name) == set w | w in ws
  {
    WordsOfJoin(ws);
  }

  /** An id that lower-cases, with '.' and '_' spaced out, to single-spaced words has those words. */
  lemma IdWordsOfJoin(id: string, ws: seq<string>)
    requires forall k :: 0 <= k < |ws| ==> IsWord(ws[k])
    requires ReplaceChar(ReplaceChar(Lower(id), '.', ' '), '_', ' ') == Join(" ", ws)
    ensures IdWords(id) == set w | w in ws
  {
    WordsOfJoin(ws);
  }

  /** The id and name words of the example kitchen light. */
  lemma KitchenLightWords(id: string, name: string)
    requires id == "light.kitchen" && name == "Kitchen Light"
    ensures IdWords(id) == {"light", "kitchen"}
    ensures NameWords(name) == {"kitchen", "light"}
  {
    IdWordsOfJoin(id, ["light", "kitchen"]);
    NameWordsOfJoin(name, ["kitchen", "light"]);
  }

  /** The id and name words of the example hallway fan. */
  lemma HallwayFanWords(id: string, name: string)
    requires id == "switch.fan" && name == "Hallway Fan"
    ensures IdWords(id) == {"switch", "fan"}
    ensures NameWords(name) == {"hallway", "fan"}
  {
    IdWordsOfJoin(id, ["switch", "fan"]);
    NameWordsOfJoin(name, ["hallway", "fan"]);
  }

  lemma KitchenPromptWords(prompt: string)
    requires prompt == "turn on the kitchen light"
    ensures PromptWords(prompt) == {"turn", "kitchen", "light"}
  {
    var ws := ["turn", "on", "the", "kitchen", "light"];
    assert prompt == Join(" ", ws);
    PromptWordsOf(ws);
    KeptKitchenWords(ws);
  }

  lemma KeptKitchenWords(ws: seq<string>)
    requires ws == ["turn", "on", "the", "kitchen", "light"]
    ensures (set w | w in ws && w !in StopWords) == {"turn", "kitchen", "light"}
  {
    assert ws[1] in StopWords && ws[2] in StopWords;
    assert ws[0] !in StopWords && ws[3] !in StopWords && ws[4] !in StopWords;
  }

  lemma FanPromptWords(prompt: string)
    requires prompt == "turn on the fan"
    ensures PromptWords(prompt) == {"turn", "fan"}
  {
    var ws := ["turn", "on", "the", "fan"];
    assert prompt == Join(" ", ws);
    PromptWordsOf(ws);
    KeptFanWords(ws);
  }

  lemma KeptFanWords(ws: seq<string>)
    requires ws == ["turn", "on", "the", "fan"]
    ensures (set w | w in ws && w !in StopWords) == {"turn", "fan"}
  {
    assert ws[1] in StopWords && ws[2] in StopWords;
    assert ws[0] !in StopWords && ws[3] !in StopWords;
  }

  lemma KitchenLightForKitchenPrompt(words: set<string>, id: string, name: string)
    requires words == {"turn", "kitchen", "light"}
    requires id == "light.kitchen" && name == "Kitchen Light"
    ensures Score(words, Some("light"), id, name) == 33
  {
    KitchenLightWords(id, name);
    assert words * NameWords(name) == {"kitchen", "light"};
    assert words * IdWords(id) == {"kitchen", "light"};
    assert |{"kitchen", "light"}| == 2;
    assert StartsWith(id, "light.");
  }

  lemma HallwayFanForKitchenPrompt(words: set<string>, id: string, name: string)
    requires words == {"turn", "kitchen", "light"}
    requires id == "switch.fan" && name == "Hallway Fan"
    ensures Score(words, Some("light"), id, name) == 0
  {
    HallwayFanWords(id, name);
    assert words * NameWords(name) == {};
    assert words * IdWords(id) == {};
    assert "fan" !in words;
    assert !StartsWith(id, "light.");
  }

  lemma KitchenLightForFanPrompt(words: set<string>, id: string, name: string)
    requires words == {"turn", "fan"}
    requires id == "light.kitchen" && name == "Kitchen Light"
    ensures Score(words, Some("fan"), id, name) == 0
  {
    KitchenLightWords(id, name);
    assert words * NameWords(name) == {};
    assert words * IdWords(id) == {};
    assert "light" !in words;
    assert !StartsWith(id, "fan.");
  }

  lemma HallwayFanForFanPrompt(words: set<string>, id: string, name: string)
    requires words == {"turn", "fan"}
    requires id == "switch.fan" && name == "Hallway Fan"
    ensures Score(words, Some("fan"), id, name) == 4
  {
    HallwayFanWords(id, name);
    assert words * NameWords(name) == {"fan"};
    assert words * IdWords(id) == {"fan"};
    assert "hallway" !in words;
    assert !StartsWith(id, "fan.");
  }

  /** The scores of a two-entity map, one by one. */
  lemma ScoresOfPair(words: set<string>, domain: Option<string>, entities: EntityMap)
    requires |entities| == 2
    ensures Scores(words, domain, entities) ==
              [Score(words, domain, entities[0].0, entities[0].1), Score(words, domain, entities[1].0, entities[1].1)]
  {
  }

  /** The two scores for the kitchen prompt's words. */
  lemma KitchenScores(words: set<string>, entities: EntityMap)
    requires words == {"turn", "kitchen", "light"} && entities == KitchenAndFan
    ensures Scores(words, Some("light"), entities) == [33, 0]
  {
    ScoresOfPair(words, Some("light"), entities);
    KitchenLightForKitchenPrompt(words, entities[0].0, entities[0].1);
    HallwayFanForKitchenPrompt(words, entities[1].0, entities[1].1);
  }

  /** The two scores for the fan prompt's words. */
  lemma FanScores(words: set<string>, entities: EntityMap)
    requires words == {"turn", "fan"} && entities == KitchenAndFan
    ensures Scores(words, Some("fan"), entities) == [0, 4]
  {
    ScoresOfPair(words, Some("fan"), entities);
    KitchenLightForFanPrompt(words, entities[0].0, entities[0].1);
    HallwayFanForFanPrompt(words, entities[1].0, entities[1].1);
  }

  /** The fan keyword is the fourth of the domain table, after three that are not among the words. */
  lemma FanDomain(words: set<string>)
    requires words == {"turn", "fan"}
    ensures FirstDomain(DomainKeywords, words) == Some("fan")
  {
    assert FirstDomain(DomainKeywords[3..], words) == Some("fan");
    assert FirstDomain(DomainKeywords[2..], words) == Some("fan");
    assert FirstDomain(DomainKeywords[1..], words) == Some("fan");
  }

  /** "turn on the kitchen light" finds the kitchen light: 6 for the name, 2 for the id,
      10 for the whole name and 15 for the light domain. */
  lemma KitchenLightFound(prompt: string, entities: EntityMap)
    requires prompt == "turn on the kitchen light" && entities == KitchenAndFan
    ensures Extraction(prompt, entities) == EntityMatch(Some("light.kitchen"), 33)
  {
    KitchenPromptWords(prompt);
    var words := PromptWords(prompt);
    assert FirstDomain(DomainKeywords, words) == Some("light");
    KitchenScores(words, entities);
    var s := Scores(words, Some("light"), entities);
    assert s[..1] == [33];
    assert Leading(s[..1]) == (0, 33);
  }

  /** "turn on the fan" scores the hallway fan 3 for "fan" in its name and 1 in its id; the fan
      domain does not prefix "switch.fan", so 4 stays under the threshold and nothing is found. */
  lemma HallwayFanNotFound(prompt: string, entities: EntityMap)
    requires prompt == "turn on the fan" && entities == KitchenAndFan
    ensures Extraction(prompt, entities) == EntityMatch(None, 0)
  {
    FanPromptWords(prompt);
    var words := PromptWords(prompt);
    FanDomain(words);
    FanScores(words, entities);
    var s := Scores(words, Some("fan"), entities);
    assert s[..1] == [0];
    assert Leading(s[..1]) == (-1, 0);
    assert Leading(s) == (1, 4);
  }
}
