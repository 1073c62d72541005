/** The pure parts of the Groq gateway (lib/ai.ts): code-fence extraction,
    namespaced cache keys and the analysis prompt's fields. */
module AiText {
  import opened Wrappers
  import opened Text
  import opened Types
  import opened Seqs

  const JsonOpen: string := "```json\n"
  const JsonClose: string := "\n```"
  const Fence: string := "```"

  /** The first match of `/```json\n([\s\S]*?)\n```/`: the lazy capture runs
      from just after the first opening to the first closing after it. A
      later opening cannot match when the first has no closing after it. */
  function JsonCapture(c: string): Option<string> {
    var p := IndexOf(c, JsonOpen, 0);
    if p == -1 then None
    else
      var q := IndexOf(c, JsonClose, p + |JsonOpen|);
      if q == -1 then None else Some(c[p + |JsonOpen|..q])
  }

  /** The first match of `/```([\s\S]*?)```/`. */
  function FenceCapture(c: string): Option<string> {
    var p := IndexOf(c, Fence, 0);
    if p == -1 then None
    else
      var q := IndexOf(c, Fence, p + |Fence|);
      if q == -1 then None else Some(c[p + |Fence|..q])
  }

  /** `extractJsonContent(content)`: the json-fenced capture, else the
      plain-fenced capture, else the whole content, trimmed; a capture that
      trims to nothing gives `content.trim()`. */
  function ExtractJsonContent(c: string): (r: string)
    ensures Trimmed(r)
    ensures |r| <= |c|
  {
    var capture := if JsonCapture(c).Some? then JsonCapture(c).value
                   else if FenceCapture(c).Some? then FenceCapture(c).value
                   else c;
    if Trim(capture) != "" then Trim(capture) else Trim(c)
  }

  predicate NoBacktick(s: string) {
    forall i :: 0 <= i < |s| ==> s[i] != '`'
  }

  predicate StartsWith(s: string, prefix: string) {
    |prefix| <= |s| && s[..|prefix|] == prefix
  }

  /** An opening json fence is in particular a fence. */
  lemma JsonOpenIsFence(c: string, i: int)
    ensures OccursAt(c, JsonOpen, i) ==> OccursAt(c, Fence, i)
  {
    if OccursAt(c, JsonOpen, i) {
      assert c[i..i + 3] == c[i..i + 8][..3];
    }
  }

  /** An occurrence fixes the characters it covers. */
  lemma OccursAtChar(s: string, pat: string, i: int, k: nat)
    requires 0 <= i && k < |pat|
    ensures OccursAt(s, pat, i) ==> s[i + k] == pat[k]
  {
    if OccursAt(s, pat, i) {
      assert s[i + k] == s[i..i + |pat|][k];
    }
  }

  /** Content with no fence at all is only trimmed. */
  lemma NoFenceGivesTrim(c: string)
    requires !Contains(c, Fence)
    ensures ExtractJsonContent(c) == Trim(c)
  {
    var p := IndexOf(c, JsonOpen, 0);
    if p != -1 {
      JsonOpenIsFence(c, p);
    }
    assert JsonCapture(c).None?;
  }

  /** After backtick-free `a`, the first occurrence of `pat` (which starts
      with a backtick) is the one written right after `a`. */
  lemma FirstAfterPlain(a: string, pat: string, rest: string)
    requires NoBacktick(a) && |pat| > 0 && pat[0] == '`'
    ensures IndexOf(a + pat + rest, pat, 0) == |a|
  {
    var c := a + pat + rest;
    assert c[|a|..|a| + |pat|] == pat;
    forall i | 0 <= i < |a| ensures !OccursAt(c, pat, i) {
      OccursAtChar(c, pat, i, 0);
      assert c[i] == a[i];
    }
    IndexOfAt(c, pat, 0, |a|);
  }

  /** From the start of backtick-free `b`, the first closing json fence is
      the one written right after `b`. */
  lemma FirstCloseAfter(pre: string, b: string, rest: string)
    requires NoBacktick(b)
    ensures IndexOf(pre + b + JsonClose + rest, JsonClose, |pre|) == |pre| + |b|
  {
    var c := pre + b + JsonClose + rest;
    var q := |pre| + |b|;
    assert c[q..q + |JsonClose|] == JsonClose;
    forall i | |pre| <= i < q ensures !OccursAt(c, JsonClose, i) {
      OccursAtChar(c, JsonClose, i, 1);
      if i + 1 < q {
        assert c[i + 1] == b[i + 1 - |pre|];
      } else {
        assert c[i + 1] == '\n';
      }
    }
    IndexOfAt(c, JsonClose, |pre|, q);
  }

  /** The json-fence capture of such a block is its body. */
  lemma JsonCaptureOf(a: string, b: string, d: string)
    requires NoBacktick(a) && NoBacktick(b)
    ensures JsonCapture(a + JsonOpen + b + JsonClose + d) == Some(b)
  {
    var c := a + JsonOpen + b + JsonClose + d;
    var pre := a + JsonOpen;
    assert c == a + JsonOpen + (b + JsonClose + d);
    FirstAfterPlain(a, JsonOpen, b + JsonClose + d);
    FirstCloseAfter(pre, b, d);
    var p := IndexOf(c, JsonOpen, 0);
    assert p == |a|;
    assert p + |JsonOpen| == |pre|;
    var q := IndexOf(c, JsonClose, |pre|);
    assert q == |pre| + |b|;
    assert c[|pre|..q] == b;
  }

  /** A json-fenced block is extracted: with `a` and `b` free of backticks,
      the result is `b` trimmed, and whatever follows the block is ignored. */
  lemma JsonFenceExtracted(a: string, b: string, d: string)
    requires NoBacktick(a) && NoBacktick(b)
    ensures var c := a + JsonOpen + b + JsonClose + d;
      ExtractJsonContent(c) == if Trim(b) != "" then Trim(b) else Trim(c)
  {
    JsonCaptureOf(a, b, d);
  }

  /** In `a ``` b ``` d` with `a`, `b`, `d` free of backticks, the only
      backticks are the six written ones. */
  lemma FenceChars(a: string, b: string, d: string)
    requires NoBacktick(a) && NoBacktick(b) && NoBacktick(d)
    ensures var c := a + Fence + b + Fence + d;
      var second := |a| + |Fence| + |b|;
      forall k :: 0 <= k < |c| ==> (c[k] == '`' <==> (|a| <= k < |a| + 3 || second <= k < second + 3))
  {
    var c := a + Fence + b + Fence + d;
    var second := |a| + |Fence| + |b|;
    forall k | 0 <= k < |c|
      ensures c[k] == '`' <==> (|a| <= k < |a| + 3 || second <= k < second + 3)
    {
      if k < |a| {
        assert c[k] == a[k];
      } else if k < |a| + 3 {
        assert c[k] == Fence[k - |a|];
      } else if k < second {
        assert c[k] == b[k - |a| - 3];
      } else if k < second + 3 {
        assert c[k] == Fence[k - second];
      } else {
        assert c[k] == d[k - second - 3];
      }
    }
  }

  /** With `b` non-empty as well, the fences are exactly the two written. */
  lemma FencesAt(a: string, b: string, d: string, i: int)
    requires NoBacktick(a) && NoBacktick(b) && NoBacktick(d) && b != ""
    ensures var c := a + Fence + b + Fence + d;
      OccursAt(c, Fence, i) <==> i == |a| || i == |a| + |Fence| + |b|
  {
    var c := a + Fence + b + Fence + d;
    var second := |a| + |Fence| + |b|;
    FenceChars(a, b, d);
    assert c[|a|..|a| + 3] == Fence;
    assert c[second..second + 3] == Fence;
    if OccursAt(c, Fence, i) {
      assert c[i] == c[i..i + 3][0] && c[i + 1] == c[i..i + 3][1] && c[i + 2] == c[i..i + 3][2];
    }
  }

  /** A json opening at `i` is a fence followed by "json" and a newline. */
  lemma JsonAfterFence(c: string, i: int, rest: string)
    requires 0 <= i && i + 3 <= |c| && c[i + 3..] == rest
    ensures OccursAt(c, JsonOpen, i) ==> StartsWith(rest, "json\n")
  {
    if OccursAt(c, JsonOpen, i) {
      assert c[i + 3..i + 8] == c[i..i + 8][3..];
      assert rest[..5] == c[i + 3..i + 8];
    }
  }

  /** A backtick-free prefix cannot reach into a following backtick. */
  lemma PrefixBeforeFence(b: string, rest: string, p: string)
    requires NoBacktick(p) && rest != [] && rest[0] == '`'
    ensures StartsWith(b + rest, p) ==> StartsWith(b, p)
  {
    if |b| < |p| <= |b| + |rest| {
      assert (b + rest)[..|p|][|b|] == '`';
    }
    if StartsWith(b + rest, p) && |b| >= |p| {
      assert b[..|p|] == (b + rest)[..|p|];
    }
  }

  /** No json opening occurs in `a ``` b ``` d` when neither `b` nor `d`
      starts with "json" and a newline. */
  lemma NoJsonOpen(a: string, b: string, d: string, i: int)
    requires NoBacktick(a) && NoBacktick(b) && NoBacktick(d) && b != ""
    requires !StartsWith(b, "json\n") && !StartsWith(d, "json\n")
    ensures !OccursAt(a + Fence + b + Fence + d, JsonOpen, i)
  {
    var c := a + Fence + b + Fence + d;
    var second := |a| + |Fence| + |b|;
    JsonOpenIsFence(c, i);
    FencesAt(a, b, d, i);
    if i == |a| {
      assert c[i + 3..] == b + (Fence + d);
      JsonAfterFence(c, i, b + (Fence + d));
      PrefixBeforeFence(b, Fence + d, "json\n");
    } else if i == second {
      assert c[i + 3..] == d;
      JsonAfterFence(c, i, d);
    }
  }

  /** A plain-fenced block is extracted: with `a`, `b`, `d` free of
      backticks, `b` non-empty, and neither `b` nor `d` starting with
      "json" and a newline, the result is `b` trimmed. */
  lemma FenceExtracted(a: string, b: string, d: string)
    requires NoBacktick(a) && NoBacktick(b) && NoBacktick(d) && b != ""
    requires !StartsWith(b, "json\n") && !StartsWith(d, "json\n")
    ensures var c := a + Fence + b + Fence + d;
      ExtractJsonContent(c) == if Trim(b) != "" then Trim(b) else Trim(c)
  {
    var c := a + Fence + b + Fence + d;
    var second := |a| + |Fence| + |b|;
    forall i | 0 <= i ensures !OccursAt(c, JsonOpen, i) {
      NoJsonOpen(a, b, d, i);
    }
    assert JsonCapture(c).None?;
    FencesAt(a, b, d, |a|);
    forall i | 0 <= i < |a| ensures !OccursAt(c, Fence, i) {
      FencesAt(a, b, d, i);
    }
    IndexOfAt(c, Fence, 0, |a|);
    FencesAt(a, b, d, second);
    forall i | |a| + |Fence| <= i < second ensures !OccursAt(c, Fence, i) {
      FencesAt(a, b, d, i);
    }
    IndexOfAt(c, Fence, |a| + |Fence|, second);
    assert c[|a| + |Fence|..second] == b;
  }

  const SearchPrefix: string := "search:"
  const AnalysisPrefix: string := "analysis:"

  /** `search:${query.toLowerCase().trim()}`. */
  function SearchKey(query: string): string {
    SearchPrefix + Trim(Lower(query))
  }

  /** `analysis:${recipe.idMeal}`. */
  function AnalysisKey(idMeal: string): string {
    AnalysisPrefix + idMeal
  }

  /** A key in the search namespace. */
  predicate IsSearchKey(k: string) {
    StartsWith(k, SearchPrefix)
  }

  /** The two namespaces never meet: no search key is an analysis key. */
  lemma KeysDisjoint(query: string, idMeal: string)
    ensures IsSearchKey(SearchKey(query)) && !IsSearchKey(AnalysisKey(idMeal))
    ensures SearchKey(query) != AnalysisKey(idMeal)
  {
    assert SearchKey(query)[..|SearchPrefix|] == SearchPrefix;
    assert AnalysisKey(idMeal)[0] == 'a';
  }

  /** Two queries share a cache entry exactly when they agree after
      lower-casing and trimming; two recipes exactly when their ids agree. */
  lemma KeysIdentify(q1: string, q2: string, id1: string, id2: string)
    ensures SearchKey(q1) == SearchKey(q2) <==> Trim(Lower(q1)) == Trim(Lower(q2))
    ensures AnalysisKey(id1) == AnalysisKey(id2) <==> id1 == id2
  {
    if SearchKey(q1) == SearchKey(q2) {
      assert Trim(Lower(q1)) == SearchKey(q1)[|SearchPrefix|..];
      assert Trim(Lower(q2)) == SearchKey(q2)[|SearchPrefix|..];
    }
    if AnalysisKey(id1) == AnalysisKey(id2) {
      assert id1 == AnalysisKey(id1)[|AnalysisPrefix|..];
      assert id2 == AnalysisKey(id2)[|AnalysisPrefix|..];
    }
  }

  /** The search key of a query is also the key of its normal form, so
      "  Chicken " and "chicken" share an entry. */
  lemma SearchKeyCanonical(query: string)
    ensures SearchKey(Trim(Lower(query))) == SearchKey(query)
  {
    var l := Lower(query);
    var i, j := TrimIsSlice(l);
    assert Lower(l[i..j]) == l[i..j];
    TrimIdempotent(l);
  }

  /** One prompt line for an ingredient with both a name and a measure. */
  function PromptEntry(i: Ingredient): Option<string> {
    if i.ingredient != "" && i.measure != "" then Some(i.measure + " " + i.ingredient) else None
  }

  function PromptEntries(ings: seq<Ingredient>): seq<string> {
    Survivors(seq(|ings|, k requires 0 <= k < |ings| => PromptEntry(ings[k])))
  }

  /** The prompt's ingredient list: entries with both fields, rendered as
      "measure ingredient" and joined by ", ", or "Not specified". */
  function IngredientsList(ings: Option<seq<Ingredient>>): string {
    if ings.None? then "Not specified"
    else
      var joined := Join(", ", PromptEntries(ings.value));
      if joined == "" then "Not specified" else joined
  }

  /** With no entry having both a name and a measure (or no list at all)
      the ingredient list is "Not specified". */
  lemma IngredientsListEmpty(ings: Option<seq<Ingredient>>)
    requires ings.Some? ==> forall k :: 0 <= k < |ings.value| ==>
      ings.value[k].ingredient == "" || ings.value[k].measure == ""
    ensures IngredientsList(ings) == "Not specified"
  {
    if ings.Some? {
      var l := ings.value;
      SurvivorsAbsent(seq(|l|, k requires 0 <= k < |l| => PromptEntry(l[k])));
    }
  }

  /** Otherwise it is the join of the rendered entries, and a string is one
      of those entries exactly when some ingredient with both fields renders
      to it. */
  lemma IngredientsListEntries(ings: seq<Ingredient>, x: string)
    requires exists k :: 0 <= k < |ings| && ings[k].ingredient != "" && ings[k].measure != ""
    ensures IngredientsList(Some(ings)) == Join(", ", PromptEntries(ings))
    ensures x in PromptEntries(ings) <==>
      exists k :: 0 <= k < |ings| && ings[k].ingredient != "" && ings[k].measure != "" &&
        x == ings[k].measure + " " + ings[k].ingredient
  {
    var xs := seq(|ings|, k requires 0 <= k < |ings| => PromptEntry(ings[k]));
    var k :| 0 <= k < |ings| && ings[k].ingredient != "" && ings[k].measure != "";
    var e := ings[k].measure + " " + ings[k].ingredient;
    SurvivorsMember(xs, e);
    assert xs[k] == Some(e);
    SurvivorsMember(xs, x);
    if x in PromptEntries(ings) {
      var j :| 0 <= j < |xs| && xs[j] == Some(x);
    }
    if exists j :: 0 <= j < |ings| && ings[j].ingredient != "" && ings[j].measure != "" &&
        x == ings[j].measure + " " + ings[j].ingredient {
      var j :| 0 <= j < |ings| && ings[j].ingredient != "" && ings[j].measure != "" &&
        x == ings[j].measure + " " + ings[j].ingredient;
      assert xs[j] == Some(x);
    }
    forall y | y in PromptEntries(ings) ensures y != "" {
      SurvivorsMember(xs, y);
    }
    var es := PromptEntries(ings);
    assert forall i :: 0 <= i < |es| ==> es[i] in es;
  }

  /** `instructions?.substring(0, 1000) || "Not specified"`. */
  const InstructionLimit: nat := 1000

  function InstructionsExcerpt(instructions: Option<string>): (r: string)
    ensures r == "Not specified" ||
      (instructions.Some? && r != "" && |r| <= InstructionLimit && StartsWith(instructions.value, r))
    ensures Truthy(instructions) && |instructions.value| <= InstructionLimit ==> r == instructions.value
  {
    if instructions.None? then "Not specified"
    else
      var s := instructions.value;
      var cut := if |s| <= InstructionLimit then s else s[..InstructionLimit];
      if cut == "" then "Not specified" else cut
  }

  /** An occurrence stays where it is when text is appended. */
  lemma OccursInPrefix(a: string, b: string, pat: string, i: int)
    requires OccursAt(a, pat, i)
    ensures OccursAt(a + b, pat, i)
  {
    assert (a + b)[i..i + |pat|] == a[i..i + |pat|];
  }

  /** The user message sent for an analysis. */
  function Prompt(r: Recipe): (p: string)
    ensures OccursAt(p, "Recipe: " + r.strMeal + "\n", 7)
  {
    var line := "Recipe: " + r.strMeal + "\n";
    var head := "\n      " + line;
    var tail := "      Category: " + OrDefault(r.strCategory, "Unknown") +
      "\n      Cuisine: " + OrDefault(r.strArea, "Unknown") +
      "\n      Ingredients: " + IngredientsList(r.ingredients) +
      "\n      Instructions: " + InstructionsExcerpt(r.strInstructions) +
      "\n    ";
    assert head[7..7 + |line|] == line;
    OccursInPrefix(head, tail, line, 7);
    head + tail
  }
}
