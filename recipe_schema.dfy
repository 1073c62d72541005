/** The schema.org structured data of a recipe page
    (components/recipe-schema.tsx): the instructions split into numbered
    steps, the ingredient lines and the description. The JSON text and the
    script element are left out. */
module RecipeSchema {
  import opened Wrappers
  import opened Text
  import opened Types
  import opened Seqs

  /** One `HowToStep`: its text and its 1-based position. */
  datatype HowToStep = HowToStep(text: string, position: nat)

  /** The structured data; an `Option` field that is `None` is left out of
      the JSON, as `JSON.stringify` drops `undefined`. */
  datatype Schema = Schema(
    name: string,
    image: string,
    description: string,
    recipeCategory: Option<string>,
    recipeCuisine: Option<string>,
    recipeIngredient: Option<seq<string>>,
    recipeInstructions: Option<seq<HowToStep>>)

  predicate IsBreak(c: char) {
    c == '\r' || c == '\n'
  }

  /** No line-break character. */
  predicate OneLine(s: string) {
    forall k :: 0 <= k < |s| ==> !IsBreak(s[k])
  }

  /** `s.split(/\r\n|\n|\r/)`: `\r\n` is one separator, a lone `\r` or `\n`
      another; the empty string splits into one empty piece. */
  function SplitLines(s: string): (r: seq<string>)
    ensures |r| >= 1
    ensures forall i :: 0 <= i < |r| ==> OneLine(r[i])
    decreases |s|
  {
    if s == [] then [""]
    else if |s| >= 2 && s[0] == '\r' && s[1] == '\n' then [""] + SplitLines(s[2..])
    else if IsBreak(s[0]) then [""] + SplitLines(s[1..])
    else
      var rest := SplitLines(s[1..]);
      [[s[0]] + rest[0]] + rest[1..]
  }

  /** The text with every line-break character removed. */
  function RemoveBreaks(s: string): (r: string)
    ensures OneLine(r) && |r| <= |s|
    decreases |s|
  {
    if s == [] then [] else (if IsBreak(s[0]) then [] else [s[0]]) + RemoveBreaks(s[1..])
  }

  /** `.filter(Boolean)` on the pieces: the non-empty ones, in order. */
  function NonEmptyLines(pieces: seq<string>): (r: seq<string>)
    ensures forall i :: 0 <= i < |r| ==> r[i] != "" && r[i] in pieces
    decreases |pieces|
  {
    if pieces == [] then []
    else
      var last := pieces[|pieces| - 1];
      NonEmptyLines(pieces[..|pieces| - 1]) + (if last == "" then [] else [last])
  }

  /** The numbered steps of an instruction text. */
  function Steps(instructions: string): seq<HowToStep> {
    var lines := NonEmptyLines(SplitLines(instructions));
    seq(|lines|, i requires 0 <= i < |lines| => HowToStep(lines[i], i + 1))
  }

  /** `${measure} ${ingredient}`. */
  function IngredientLine(i: Ingredient): string {
    i.measure + " " + i.ingredient
  }

  /** A template slot: a field left out (`None`) prints as `undefined`; a
      JSON `null` is not told apart from it. */
  function Slot(o: Option<string>): string {
    if o.Some? then o.value else "undefined"
  }

  /** The structured data of a recipe. */
  function SchemaOf(r: Recipe): Schema {
    Schema(
      r.strMeal,
      r.strMealThumb,
      r.strMeal + " - " + Slot(r.strArea) + " " + Slot(r.strCategory) + " recipe",
      r.strCategory,
      r.strArea,
      match r.ingredients
        case None => None
        case Some(ings) => Some(seq(|ings|, i requires 0 <= i < |ings| => IngredientLine(ings[i]))),
      match r.strInstructions
        case None => None
        case Some(text) => Some(Steps(text)))
  }

  /** A leading `\r\n` adds nothing to the text without breaks. */
  lemma RemoveBreaksCrLf(s: string)
    requires |s| >= 2 && s[0] == '\r' && s[1] == '\n'
    ensures RemoveBreaks(s) == RemoveBreaks(s[2..])
  {
    assert s[1..][1..] == s[2..];
  }

  /** An empty first piece adds nothing to the joined text. */
  lemma {:induction false} JoinEmptyPiece(rest: seq<string>)
    ensures Flatten([""] + rest) == Flatten(rest)
  {
    FlattenCons("", rest);
  }

  /** A character put in front of the first piece comes first in the joined text. */
  lemma {:induction false} JoinConsPiece(c: char, rest: seq<string>)
    requires |rest| >= 1
    ensures Flatten([[c] + rest[0]] + rest[1..]) == [c] + Flatten(rest)
  {
    var first, tail := rest[0], rest[1..];
    var f := Flatten(tail);
    assert rest == [first] + tail;
    FlattenCons(first, tail);
    assert Flatten(rest) == first + f;
    FlattenCons([c] + first, tail);
    assert Flatten([[c] + first] + tail) == ([c] + first) + f;
  }

  /** Splitting loses only the separators: the pieces put back together
      are the text without its line breaks. */
  lemma {:induction false} SplitLinesJoin(s: string)
    ensures Flatten(SplitLines(s)) == RemoveBreaks(s)
    decreases |s|
  {
    if s == [] {
      assert Flatten([""]) == Flatten([""][..0]) + "";
    } else if |s| >= 2 && s[0] == '\r' && s[1] == '\n' {
      SplitLinesJoin(s[2..]);
      JoinEmptyPiece(SplitLines(s[2..]));
      RemoveBreaksCrLf(s);
    } else if IsBreak(s[0]) {
      SplitLinesJoin(s[1..]);
      JoinEmptyPiece(SplitLines(s[1..]));
    } else {
      SplitLinesJoin(s[1..]);
      JoinConsPiece(s[0], SplitLines(s[1..]));
    }
  }

  /** A text without line breaks is one piece. */
  lemma {:induction false} OneLineSplit(s: string)
    requires OneLine(s)
    ensures SplitLines(s) == [s]
    decreases |s|
  {
    if s != [] {
      assert forall k :: 0 <= k < |s[1..]| ==> s[1..][k] == s[k + 1];
      OneLineSplit(s[1..]);
      assert [s[0]] + s[1..] == s;
    }
  }

  /** A line-break-free start joins the first piece of what follows. */
  lemma {:induction false} SplitLinesAfter(a: string, rest: string)
    requires OneLine(a)
    ensures SplitLines(a + rest) == [a + SplitLines(rest)[0]] + SplitLines(rest)[1..]
    decreases |a|
  {
    if a != [] {
      assert forall k :: 0 <= k < |a[1..]| ==> a[1..][k] == a[k + 1];
      assert (a + rest)[1..] == a[1..] + rest;
      SplitLinesAfter(a[1..], rest);
      assert [a[0]] + (a[1..] + SplitLines(rest)[0]) == a + SplitLines(rest)[0];
    } else {
      var r := SplitLines(rest);
      assert a + rest == rest && a + r[0] == r[0];
      assert r == [r[0]] + r[1..];
    }
  }

  /** `\r\n` is one separator. */
  lemma CrLfSplit(t: string)
    ensures SplitLines("\r\n" + t) == [""] + SplitLines(t)
  {
    assert ("\r\n" + t)[2..] == t;
  }

  /** Dropping empty pieces does not change what they spell. */
  lemma {:induction false} NonEmptyLinesJoin(pieces: seq<string>)
    ensures Flatten(NonEmptyLines(pieces)) == Flatten(pieces)
    decreases |pieces|
  {
    if pieces != [] {
      var init := pieces[..|pieces| - 1];
      var last := pieces[|pieces| - 1];
      NonEmptyLinesJoin(init);
      if last != "" {
        FlattenSnoc(NonEmptyLines(init), last);
      } else {
        assert NonEmptyLines(pieces) == NonEmptyLines(init);
      }
    }
  }

  /** The steps are numbered 1, 2, … without gaps; each is a non-empty line
      without line breaks; and read in order they spell the instructions
      with the line breaks removed. */
  lemma StepsSpec(instructions: string)
    ensures var steps := Steps(instructions);
      forall i :: 0 <= i < |steps| ==>
        steps[i].position == i + 1 && steps[i].text != "" && OneLine(steps[i].text)
    ensures Flatten(NonEmptyLines(SplitLines(instructions))) == RemoveBreaks(instructions)
    ensures |Steps(instructions)| == |NonEmptyLines(SplitLines(instructions))|
  {
    SplitLinesJoin(instructions);
    NonEmptyLinesJoin(SplitLines(instructions));
  }

  /** The texts of a list of steps. */
  function Texts(steps: seq<HowToStep>): seq<string> {
    seq(|steps|, i requires 0 <= i < |steps| => steps[i].text)
  }

  /** Read in order, the texts of the steps spell the instructions with the
      line breaks removed. */
  lemma StepsSpell(instructions: string)
    ensures Flatten(Texts(Steps(instructions))) == RemoveBreaks(instructions)
  {
    StepsSpec(instructions);
    assert Texts(Steps(instructions)) == NonEmptyLines(SplitLines(instructions));
  }

  /** Blank-free edge cases: an empty text has no steps, and a non-empty
      text without line breaks is the single step 1. */
  lemma StepsEdgeCases(instructions: string)
    ensures instructions == "" ==> Steps(instructions) == []
    ensures instructions != "" && OneLine(instructions) ==> Steps(instructions) == [HowToStep(instructions, 1)]
  {
    if OneLine(instructions) {
      OneLineSplit(instructions);
      assert NonEmptyLines([instructions]) == NonEmptyLines([]) + (if instructions == "" then [] else [instructions]);
    }
  }

  /** Two `\r\n` separators before a line give two empty pieces first. */
  lemma TwoCrLfSplit(b: string)
    requires OneLine(b)
    ensures SplitLines("\r\n\r\n" + b) == ["", "", b]
  {
    OneLineSplit(b);
    CrLfSplit(b);
    CrLfSplit("\r\n" + b);
    assert "\r\n" + ("\r\n" + b) == "\r\n\r\n" + b;
  }

  /** A line-break-free start fills an empty first piece. */
  lemma FillFirstPiece(a: string, rest: string, x: string, y: string)
    requires OneLine(a) && SplitLines(rest) == ["", x, y]
    ensures SplitLines(a + rest) == [a, x, y]
  {
    SplitLinesAfter(a, rest);
    assert a + "" == a;
    assert SplitLines(rest)[1..] == [x, y];
  }

  /** Two lines with an empty line between them split into three pieces,
      the middle one empty. */
  lemma BlankLineSplit(a: string, b: string)
    requires OneLine(a) && OneLine(b)
    ensures SplitLines(a + "\r\n\r\n" + b) == [a, "", b]
  {
    TwoCrLfSplit(b);
    FillFirstPiece(a, "\r\n\r\n" + b, "", b);
    assert a + "\r\n\r\n" + b == a + ("\r\n\r\n" + b);
  }

  /** The empty middle piece is dropped. */
  lemma DropMiddle(a: string, b: string)
    requires a != "" && b != ""
    ensures NonEmptyLines([a, "", b]) == [a, b]
  {
    var ps := [a, "", b];
    assert ps[..2] == [a, ""] && ps[..2][..1] == [a] && ps[..2][..1][..0] == [];
    assert NonEmptyLines([a]) == [a];
    assert NonEmptyLines([a, ""]) == [a];
  }

  /** Two lines with an empty line between them are two steps: the empty
      piece between the two `\r\n` separators is dropped. */
  lemma BlankLineDropped(a: string, b: string)
    requires a != "" && b != "" && OneLine(a) && OneLine(b)
    ensures Steps(a + "\r\n\r\n" + b) == [HowToStep(a, 1), HowToStep(b, 2)]
  {
    BlankLineSplit(a, b);
    DropMiddle(a, b);
  }

  /** The schema copies the recipe's name, image, category and cuisine;
      there is one ingredient line per ingredient, in order, each the measure
      and the ingredient separated by a space; instructions are present
      exactly when the recipe has them; and the description names the meal,
      the cuisine and the category. */
  lemma SchemaOfSpec(r: Recipe)
    ensures var sc := SchemaOf(r);
      sc.name == r.strMeal && sc.image == r.strMealThumb &&
      sc.recipeCategory == r.strCategory && sc.recipeCuisine == r.strArea &&
      sc.recipeIngredient.Some? == r.ingredients.Some? &&
      sc.recipeInstructions.Some? == r.strInstructions.Some?
    ensures r.ingredients.Some? ==>
      var lines := SchemaOf(r).recipeIngredient.value;
      |lines| == |r.ingredients.value| &&
      forall i :: 0 <= i < |lines| ==>
        lines[i][..|r.ingredients.value[i].measure|] == r.ingredients.value[i].measure &&
        OccursAt(lines[i], r.ingredients.value[i].ingredient, |r.ingredients.value[i].measure| + 1)
    ensures r.strInstructions.Some? ==> SchemaOf(r).recipeInstructions.value == Steps(r.strInstructions.value)
    ensures OccursAt(SchemaOf(r).description, r.strMeal + " - ", 0)
    ensures r.strArea.Some? ==> OccursAt(SchemaOf(r).description, r.strArea.value, |r.strMeal| + 3)
  {
    var d := SchemaOf(r).description;
    assert d[..|r.strMeal| + 3] == r.strMeal + " - ";
    if r.strArea.Some? {
      assert d[|r.strMeal| + 3..|r.strMeal| + 3 + |r.strArea.value|] == r.strArea.value;
    }
    if r.ingredients.Some? {
      var lines := SchemaOf(r).recipeIngredient.value;
      forall i | 0 <= i < |lines|
        ensures OccursAt(lines[i], r.ingredients.value[i].ingredient, |r.ingredients.value[i].measure| + 1)
      {
        var ing := r.ingredients.value[i];
        assert lines[i][|ing.measure| + 1..|ing.measure| + 1 + |ing.ingredient|] == ing.ingredient;
      }
    }
  }
}
