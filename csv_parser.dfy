/**
  The field parsers of the CSV ingestion: cooking times such as "1 H 30 M"
  read as minutes, pipe-separated ingredient lists, trimmed text fields,
  and the distinct vocabulary values collected from the parsed recipes.
  Reading the file itself is outside the model.
*/
module CsvParser {
  import opened Optional
  import opened Text

  /** One recipe as the loader builds it. */
  datatype Recipe = Recipe(
    id: int,
    title: string,
    url: string,
    description: string,
    cuisine: string,
    course: string,
    diet: string,
    prepTimeMins: Option<int>,
    cookTimeMins: Option<int>,
    rating: real,
    voteCount: int,
    ingredients: seq<string>,
    instructions: string,
    author: string,
    tags: string,
    category: string)

  // ---------------------------------------------------------------- times

  /** The end of the run of characters satisfying `p` that starts at `i`. */
  function RunEnd(s: string, i: nat, p: char -> bool): (j: nat)
    requires i <= |s|
    ensures i <= j <= |s|
    ensures forall t :: i <= t < j ==> p(s[t])
    ensures j < |s| ==> !p(s[j])
    decreases |s| - i
  {
    if i < |s| && p(s[i]) then RunEnd(s, i + 1, p) else i
  }

  /**
    A maximal run of digits starts at `a` and is followed by optional
    whitespace and then `unit`: a match of the pattern `(\d+)\s*<unit>`.
  */
  predicate MatchStart(s: string, unit: char, a: nat)
    requires a < |s|
  {
    var j := RunEnd(s, a, IsDigit);
    var k := RunEnd(s, j, IsSpace);
    (a == 0 || !IsDigit(s[a - 1])) && IsDigit(s[a]) && k < |s| && s[k] == unit
  }

  /** The number written by the run of digits that starts at `a`. */
  function AmountAt(s: string, a: nat): nat
    requires a < |s|
  {
    DigitsToNat(s[a..RunEnd(s, a, IsDigit)])
  }

  /** `re.search(r'(\d+)\s*<unit>', s[i:])`, read as the number it captures. */
  function UnitFrom(s: string, unit: char, i: nat): Option<nat>
    requires i <= |s|
    decreases |s| - i
  {
    if i == |s| then None
    else
      var j := RunEnd(s, i, IsDigit);
      if j == i then UnitFrom(s, unit, i + 1)
      else
        var k := RunEnd(s, j, IsSpace);
        if k < |s| && s[k] == unit then Some(DigitsToNat(s[i..j])) else UnitFrom(s, unit, j)
  }

  /** No match starts strictly inside a run of digits. */
  lemma NoMatchInsideRun(s: string, unit: char, i: nat, j: nat)
    requires i < j <= |s|
    requires forall t :: i <= t < j ==> IsDigit(s[t])
    ensures forall b :: i < b < j ==> !MatchStart(s, unit, b)
  {
    forall b | i < b < j ensures !MatchStart(s, unit, b) {
      assert IsDigit(s[b - 1]);
    }
  }

  /** `i` is not inside a run of digits: a search may resume there. */
  predicate Boundary(s: string, i: nat)
    requires i <= |s|
  {
    i == 0 || i == |s| || !IsDigit(s[i - 1]) || !IsDigit(s[i])
  }

  /** When no match starts at `i`, the search skips to a later boundary and no match starts in between. */
  lemma UnitFromSkip(s: string, unit: char, i: nat) returns (next: nat)
    requires i < |s| && Boundary(s, i)
    requires !MatchStart(s, unit, i)
    ensures i < next <= |s| && Boundary(s, next)
    ensures UnitFrom(s, unit, i) == UnitFrom(s, unit, next)
    ensures forall b :: i <= b < next ==> !MatchStart(s, unit, b)
  {
    var j := RunEnd(s, i, IsDigit);
    if j == i {
      next := i + 1;
    } else {
      NoMatchInsideRun(s, unit, i, j);
      next := j;
    }
  }

  /** When a match starts at `i`, the search reads its number. */
  lemma UnitFromHit(s: string, unit: char, i: nat)
    requires i < |s| && Boundary(s, i)
    requires MatchStart(s, unit, i)
    ensures UnitFrom(s, unit, i) == Some(AmountAt(s, i))
  {
  }

  /** When the search finds nothing from `i` on, no match starts there. */
  lemma {:induction false} UnitFromNone(s: string, unit: char, i: nat)
    requires i <= |s| && Boundary(s, i)
    requires UnitFrom(s, unit, i).None?
    ensures forall a :: i <= a < |s| ==> !MatchStart(s, unit, a)
    decreases |s| - i
  {
    if i < |s| {
      if MatchStart(s, unit, i) {
        UnitFromHit(s, unit, i);
      } else {
        var next := UnitFromSkip(s, unit, i);
        UnitFromNone(s, unit, next);
      }
    }
  }

  /** When the search finds a number, it is the number of the first match from `i` on. */
  lemma {:induction false} UnitFromSome(s: string, unit: char, i: nat) returns (a: nat)
    requires i <= |s| && Boundary(s, i)
    requires UnitFrom(s, unit, i).Some?
    ensures i <= a < |s| && MatchStart(s, unit, a)
    ensures UnitFrom(s, unit, i) == Some(AmountAt(s, a))
    ensures forall b :: i <= b < a ==> !MatchStart(s, unit, b)
    decreases |s| - i
  {
    if MatchStart(s, unit, i) {
      UnitFromHit(s, unit, i);
      a := i;
    } else {
      var next := UnitFromSkip(s, unit, i);
      a := UnitFromSome(s, unit, next);
    }
  }

  /**
    The search finds the first match at or after `i`, and reads its number;
    it finds nothing exactly when there is no match. (`i` must not fall
    inside a run of digits.)
  */
  lemma UnitFromFindsFirst(s: string, unit: char, i: nat)
    requires i <= |s| && Boundary(s, i)
    ensures UnitFrom(s, unit, i).None? <==> forall a :: i <= a < |s| ==> !MatchStart(s, unit, a)
    ensures UnitFrom(s, unit, i).Some? ==>
      exists a :: i <= a < |s| && MatchStart(s, unit, a) && UnitFrom(s, unit, i).value == AmountAt(s, a)
        && forall b :: i <= b < a ==> !MatchStart(s, unit, b)
  {
    if UnitFrom(s, unit, i).None? {
      UnitFromNone(s, unit, i);
    } else {
      var a := UnitFromSome(s, unit, i);
    }
  }

  /** `time_str.strip().upper()` */
  function Normalized(t: string): string {
    Upper(Strip(t))
  }

  /** The minutes a time string denotes: 60 per hour plus the minutes; None when that total is 0. */
  function TimeSpec(timeStr: Option<string>): Option<int> {
    if timeStr.None? || timeStr.value == "" then None
    else
      var s := Normalized(timeStr.value);
      if s == "" then None
      else
        var total := 60 * UnitFrom(s, 'H', 0).GetOr(0) + UnitFrom(s, 'M', 0).GetOr(0);
        if total > 0 then Some(total) else None
  }

  /**
    `parse_time_to_minutes`: None for a missing, empty or blank string;
    otherwise the hours and minutes found in the upper-cased string, added
    up, and None again when they add up to nothing.
  */
  method ParseTimeToMinutes(timeStr: Option<string>) returns (minutes: Option<int>)
    ensures minutes == TimeSpec(timeStr)
    ensures timeStr.None? ==> minutes.None?
    ensures timeStr.Some? && (forall i :: 0 <= i < |timeStr.value| ==> IsSpace(timeStr.value[i])) ==> minutes.None?
    ensures minutes.Some? ==> minutes.value > 0
  {
    if timeStr.None? || timeStr.value == "" {
      return None;
    }
    var s := Upper(Strip(timeStr.value));
    if s == "" {
      return None;
    }
    var totalMinutes := 0;
    var hoursMatch := UnitFrom(s, 'H', 0);
    if hoursMatch.Some? {
      totalMinutes := totalMinutes + hoursMatch.value * 60;
    }
    var minsMatch := UnitFrom(s, 'M', 0);
    if minsMatch.Some? {
      totalMinutes := totalMinutes + minsMatch.value;
    }
    minutes := if totalMinutes > 0 then Some(totalMinutes) else None;
  }

  /** The parse ignores case: strings that upper-case alike read as the same time. */
  lemma TimeSpecIgnoresCase(a: string, b: string)
    requires Upper(a) == Upper(b)
    ensures TimeSpec(Some(a)) == TimeSpec(Some(b))
  {
    StripUpper(a);
    StripUpper(b);
    assert |a| == |Upper(a)| == |Upper(b)| == |b|;
  }

  // ---------------------------------------------------------------- ingredients

  /** The stripped pieces that are not empty, in order. */
  function CleanPieces(pieces: seq<string>): (r: seq<string>)
    ensures |r| <= |pieces|
    ensures forall k :: 0 <= k < |r| ==> r[k] != "" && Stripped(r[k])
  {
    if pieces == [] then []
    else (if Strip(pieces[0]) != "" then [Strip(pieces[0])] else []) + CleanPieces(pieces[1..])
  }

  /**
    `parse_ingredients`: the pieces between the '|' separators, stripped,
    with the empty ones dropped; nothing for a missing or empty string.
  */
  function ParseIngredients(ingredientsStr: Option<string>): (r: seq<string>)
    ensures ingredientsStr.None? || ingredientsStr.value == "" ==> r == []
    ensures forall k :: 0 <= k < |r| ==> r[k] != "" && Stripped(r[k])
  {
    if ingredientsStr.None? || ingredientsStr.value == "" then []
    else CleanPieces(Split(ingredientsStr.value, '|'))
  }

  lemma {:induction false} CleanPiecesNoBar(pieces: seq<string>)
    requires forall k :: 0 <= k < |pieces| ==> '|' !in pieces[k]
    ensures forall k :: 0 <= k < |CleanPieces(pieces)| ==> '|' !in CleanPieces(pieces)[k]
  {
    if pieces != [] {
      StripChars(pieces[0]);
      CleanPiecesNoBar(pieces[1..]);
    }
  }

  /** No parsed ingredient contains the separator. */
  lemma ParseIngredientsNoBar(ingredientsStr: Option<string>)
    ensures forall k :: 0 <= k < |ParseIngredients(ingredientsStr)| ==> '|' !in ParseIngredients(ingredientsStr)[k]
  {
    if ingredientsStr.Some? && ingredientsStr.value != "" {
      CleanPiecesNoBar(Split(ingredientsStr.value, '|'));
    }
  }

  lemma {:induction false} CleanPiecesOfClean(pieces: seq<string>)
    requires forall k :: 0 <= k < |pieces| ==> pieces[k] != "" && Stripped(pieces[k])
    ensures CleanPieces(pieces) == pieces
  {
    if pieces != [] {
      CleanPiecesOfClean(pieces[1..]);
    }
  }

  /**
    Ingredients that are non-empty, carry no surrounding whitespace and no
    '|', written with '|' between them, parse back to the same list in the
    same order.
  */
  lemma ParseIngredientsRoundTrip(ings: seq<string>)
    requires forall k :: 0 <= k < |ings| ==> ings[k] != "" && Stripped(ings[k]) && '|' !in ings[k]
    ensures ParseIngredients(Some(Join("|", ings))) == ings
  {
    if ings != [] {
      assert Join("|", ings) != "" by {
        JoinNotEmpty(ings);
      }
      SplitJoin(ings, '|');
      CleanPiecesOfClean(ings);
    }
  }

  /** Cleaning keeps order: the cleaned pieces of `a` come first, then those of `b`. */
  lemma {:induction false} CleanPiecesAppend(a: seq<string>, b: seq<string>)
    ensures CleanPieces(a + b) == CleanPieces(a) + CleanPieces(b)
  {
    if a != [] {
      assert (a + b)[0] == a[0];
      assert (a + b)[1..] == a[1..] + b;
      CleanPiecesAppend(a[1..], b);
    } else {
      assert a + b == b;
    }
  }

  /** A value is kept exactly when it is the non-empty strip of some piece. */
  lemma {:induction false} CleanPiecesMembers(pieces: seq<string>)
    ensures forall x :: x in CleanPieces(pieces) <==> exists k :: 0 <= k < |pieces| && Strip(pieces[k]) == x && x != ""
  {
    if pieces != [] {
      var tail := pieces[1..];
      CleanPiecesMembers(tail);
      forall x | (exists k :: 0 <= k < |pieces| && Strip(pieces[k]) == x && x != "") ensures x in CleanPieces(pieces) {
        var k :| 0 <= k < |pieces| && Strip(pieces[k]) == x && x != "";
        if k > 0 {
          assert tail[k - 1] == pieces[k];
        }
      }
      forall x | x in CleanPieces(tail) ensures exists k :: 0 <= k < |pieces| && Strip(pieces[k]) == x && x != "" {
        var k :| 0 <= k < |tail| && Strip(tail[k]) == x && x != "";
        assert pieces[k + 1] == tail[k];
      }
    }
  }

  /** The indices of the pieces that are not blank. */
  function NonBlank(pieces: seq<string>): set<nat> {
    set k: nat | k < |pieces| && Strip(pieces[k]) != ""
  }

  /** One value is kept per piece that is not blank. */
  lemma {:induction false} CleanPiecesCount(pieces: seq<string>)
    ensures |CleanPieces(pieces)| == |NonBlank(pieces)|
  {
    if pieces != [] {
      var n := |pieces| - 1;
      CleanPiecesCount(pieces[..n]);
      LastPiece(pieces);
    }
  }

  /** The last piece adds one value and one non-blank index, or neither. */
  lemma LastPiece(pieces: seq<string>)
    requires pieces != []
    ensures var n := |pieces| - 1;
      && |CleanPieces(pieces)| == |CleanPieces(pieces[..n])| + (if Strip(pieces[n]) != "" then 1 else 0)
      && |NonBlank(pieces)| == |NonBlank(pieces[..n])| + (if Strip(pieces[n]) != "" then 1 else 0)
  {
    var n := |pieces| - 1;
    var init := pieces[..n];
    ButLast(pieces);
    CleanPiecesAppend(init, [pieces[n]]);
    CleanPiecesSingle(pieces[n]);
    NonBlankSnoc(init, pieces[n]);
  }

  lemma ButLast(pieces: seq<string>)
    requires pieces != []
    ensures pieces == pieces[..|pieces| - 1] + [pieces[|pieces| - 1]]
  {
  }

  lemma CleanPiecesSingle(p: string)
    ensures CleanPieces([p]) == if Strip(p) != "" then [Strip(p)] else []
  {
    assert [p][1..] == [];
  }

  lemma NonBlankSnoc(init: seq<string>, p: string)
    ensures |NonBlank(init + [p])| == |NonBlank(init)| + if Strip(p) != "" then 1 else 0
  {
    NonBlankSnocSet(init, p);
    assert |init| !in NonBlank(init);
  }

  lemma NonBlankSnocSet(init: seq<string>, p: string)
    ensures NonBlank(init + [p]) == NonBlank(init) + if Strip(p) != "" then {|init|} else {}
  {
    forall k: nat | k < |init| ensures (init + [p])[k] == init[k] {
    }
  }

  /**
    Any '|'-free pieces written with '|' between them parse to their
    non-blank pieces, stripped, in order: one value per non-blank piece, and
    a value exactly when it is the strip of some piece.
  */
  lemma ParseIngredientsPieces(pieces: seq<string>)
    requires pieces != []
    requires forall k :: 0 <= k < |pieces| ==> '|' !in pieces[k]
    ensures ParseIngredients(Some(Join("|", pieces))) == CleanPieces(pieces)
    ensures |ParseIngredients(Some(Join("|", pieces)))| == |NonBlank(pieces)|
    ensures forall x :: x in ParseIngredients(Some(Join("|", pieces))) <==>
      exists k :: 0 <= k < |pieces| && Strip(pieces[k]) == x && x != ""
  {
    SplitJoin(pieces, '|');
    CleanPiecesCount(pieces);
    CleanPiecesMembers(pieces);
  }

  /** `"Chicken | Butter | Tomato"` parses to the three ingredients, stripped. */
  lemma ParseIngredientsSpaced()
    ensures ParseIngredients(Some("Chicken" + " | " + "Butter" + " | " + "Tomato")) == ["Chicken", "Butter", "Tomato"]
  {
    assert Stripped("Chicken") && Stripped("Butter") && Stripped("Tomato");
    ParseIngredientsPadded("Chicken", "Butter", "Tomato");
  }

  /** Three clean ingredients written with " | " between them parse back to themselves. */
  lemma ParseIngredientsPadded(a: string, b: string, c: string)
    requires a != "" && Stripped(a) && '|' !in a
    requires b != "" && Stripped(b) && '|' !in b
    requires c != "" && Stripped(c) && '|' !in c
    ensures ParseIngredients(Some(a + " | " + b + " | " + c)) == [a, b, c]
  {
    var pieces := JoinPadded(a, b, c);
    SplitJoin(pieces, '|');
    CleanPiecesStripsPadding(a, b, c);
  }

  /** The pieces between the separators of `a | b | c`. */
  lemma JoinPadded(a: string, b: string, c: string) returns (pieces: seq<string>)
    requires '|' !in a && '|' !in b && '|' !in c
    ensures pieces == [a + " ", " " + b + " ", " " + c]
    ensures Join("|", pieces) == a + " | " + b + " | " + c
    ensures forall k :: 0 <= k < |pieces| ==> '|' !in pieces[k]
  {
    var p, q, r := a + " ", " " + b + " ", " " + c;
    pieces := [p, q, r];
    assert pieces[1..] == [q, r];
    assert Join("|", pieces) == p + "|" + Join("|", [q, r]);
    assert Join("|", [q, r]) == q + "|" + r;
    assert " | " == " " + "|" + " ";
  }

  /** Three clean pieces padded by the spaces around " | " come back unpadded. */
  lemma CleanPiecesStripsPadding(a: string, b: string, c: string)
    requires a != "" && Stripped(a) && b != "" && Stripped(b) && c != "" && Stripped(c)
    ensures CleanPieces([a + " ", " " + b + " ", " " + c]) == [a, b, c]
  {
    var p, q, r := a + " ", " " + b + " ", " " + c;
    assert AllSpace(" ");
    assert Strip(p) == a by {
      assert p == "" + a + " ";
      StripPadded("", a, " ");
    }
    assert Strip(q) == b by {
      StripPadded(" ", b, " ");
    }
    assert Strip(r) == c by {
      assert r == " " + c + "";
      StripPadded(" ", c, "");
    }
    assert [p, q, r] == [p] + ([q] + [r]);
    CleanPiecesAppend([p], [q] + [r]);
    CleanPiecesAppend([q], [r]);
  }

  /** `"Chicken||Butter"` drops the empty piece between the two separators. */
  lemma ParseIngredientsEmptyPiece()
    ensures ParseIngredients(Some("Chicken" + "||" + "Butter")) == ["Chicken", "Butter"]
  {
    assert Stripped("Chicken") && Stripped("Butter");
    ParseIngredientsBlankBetween("Chicken", "Butter");
  }

  /** Two clean ingredients with an empty piece between them parse to the two. */
  lemma ParseIngredientsBlankBetween(a: string, b: string)
    requires a != "" && Stripped(a) && '|' !in a
    requires b != "" && Stripped(b) && '|' !in b
    ensures ParseIngredients(Some(a + "||" + b)) == [a, b]
  {
    var pieces := [a, "", b];
    assert Join("|", pieces) == a + "||" + b by {
      assert pieces[1..] == ["", b];
      assert Join("|", pieces) == a + "|" + Join("|", ["", b]);
      assert Join("|", ["", b]) == "" + "|" + b;
      assert "||" == "|" + "|";
    }
    SplitJoin(pieces, '|');
    CleanPiecesDropsBlank(a, b);
  }

  /** Between two clean pieces, an empty piece is dropped. */
  lemma CleanPiecesDropsBlank(a: string, b: string)
    requires a != "" && Stripped(a) && b != "" && Stripped(b)
    ensures CleanPieces([a, "", b]) == [a, b]
  {
    assert [a, "", b] == [a] + ([""] + [b]);
    CleanPiecesAppend([a], [""] + [b]);
    CleanPiecesAppend([""], [b]);
    CleanPiecesOfClean([a]);
    CleanPiecesOfClean([b]);
  }

  lemma {:induction false} JoinNotEmpty(ings: seq<string>)
    requires ings != [] && ings[0] != ""
    ensures Join("|", ings) != ""
  {
    if |ings| > 1 {
      assert |Join("|", ings)| >= |ings[0]|;
    }
  }

  // ---------------------------------------------------------------- text

  /** `clean_text`: a missing value reads as the empty string; anything else is stripped. */
  function CleanText(text: Option<string>): (r: string)
    ensures Stripped(r) && |r| <= |text.GetOr("")|
    ensures text.None? ==> r == ""
    ensures text.Some? && Stripped(text.value) ==> r == text.value
  {
    if text.None? then "" else Strip(text.value)
  }

  /** Cleaning a cleaned text changes nothing. */
  lemma CleanTextIdempotent(text: Option<string>)
    ensures CleanText(Some(CleanText(text))) == CleanText(text)
  {
  }

  // ---------------------------------------------------------------- vocabulary

  function CuisineOf(r: Recipe): string { r.cuisine }
  function CourseOf(r: Recipe): string { r.course }
  function DietOf(r: Recipe): string { r.diet }

  /** The non-empty values that `field` takes on the recipes. */
  function FieldValues(recipes: seq<Recipe>, field: Recipe -> string): set<string> {
    set r | r in recipes && field(r) != "" :: field(r)
  }

  /** Every ingredient of every recipe. */
  function AllIngredients(recipes: seq<Recipe>): set<string> {
    set r, ing | r in recipes && ing in r.ingredients :: ing
  }

  /** The non-empty cuisines, courses and diets of the recipes, and all their ingredients. */
  function UniqueSpec(recipes: seq<Recipe>): map<string, set<string>> {
    map[
      "cuisines" := FieldValues(recipes, CuisineOf),
      "courses" := FieldValues(recipes, CourseOf),
      "diets" := FieldValues(recipes, DietOf),
      "ingredients" := AllIngredients(recipes)]
  }

  lemma FieldValuesAppend(recipes: seq<Recipe>, r: Recipe, field: Recipe -> string)
    ensures FieldValues(recipes + [r], field) ==
      FieldValues(recipes, field) + (if field(r) != "" then {field(r)} else {})
  {
    var lhs := FieldValues(recipes + [r], field);
    var rhs := FieldValues(recipes, field) + (if field(r) != "" then {field(r)} else {});
    forall v | v in lhs ensures v in rhs {
      var q :| q in recipes + [r] && field(q) != "" && field(q) == v;
      if q != r {
        assert q in recipes;
      }
    }
    forall v | v in rhs ensures v in lhs {
      if v in FieldValues(recipes, field) {
        var q :| q in recipes && field(q) != "" && field(q) == v;
        assert q in recipes + [r];
      } else {
        assert r in recipes + [r];
      }
    }
  }

  lemma AllIngredientsAppend(recipes: seq<Recipe>, r: Recipe)
    ensures AllIngredients(recipes + [r]) == AllIngredients(recipes) + set ing | ing in r.ingredients
  {
    var lhs := AllIngredients(recipes + [r]);
    var rhs := AllIngredients(recipes) + set ing | ing in r.ingredients;
    forall v | v in lhs ensures v in rhs {
      var q, ing :| q in recipes + [r] && ing in q.ingredients && ing == v;
      if q != r {
        assert q in recipes;
      }
    }
    forall v | v in rhs ensures v in lhs {
      if v in AllIngredients(recipes) {
        var q, ing :| q in recipes && ing in q.ingredients && ing == v;
        assert q in recipes + [r];
      } else {
        assert r in recipes + [r];
      }
    }
  }

  /** Adds every element of `items` to `acc`. */
  method AddAll(acc: set<string>, items: seq<string>) returns (r: set<string>)
    ensures r == acc + set ing | ing in items
  {
    r := acc;
    for j := 0 to |items|
      invariant r == acc + set ing | ing in items[..j]
    {
      assert items[..j + 1] == items[..j] + [items[j]];
      r := r + {items[j]};
    }
    assert items[..|items|] == items;
  }

  /**
    `get_unique_values`: one pass over the recipes, adding each non-empty
    cuisine, course and diet and every ingredient to its set.
  */
  method GetUniqueValues(recipes: seq<Recipe>) returns (unique: map<string, set<string>>)
    ensures unique == UniqueSpec(recipes)
    ensures unique.Keys == {"cuisines", "courses", "diets", "ingredients"}
    ensures forall r, ing :: r in recipes && ing in r.ingredients ==> ing in unique["ingredients"]
    ensures forall r :: r in recipes && r.cuisine != "" ==> r.cuisine in unique["cuisines"]
    ensures "" !in unique["cuisines"] && "" !in unique["courses"] && "" !in unique["diets"]
  {
    var cuisines: set<string> := {};
    var courses: set<string> := {};
    var diets: set<string> := {};
    var ingredients: set<string> := {};
    for i := 0 to |recipes|
      invariant cuisines == FieldValues(recipes[..i], CuisineOf)
      invariant courses == FieldValues(recipes[..i], CourseOf)
      invariant diets == FieldValues(recipes[..i], DietOf)
      invariant ingredients == AllIngredients(recipes[..i])
    {
      var recipe := recipes[i];
      assert recipes[..i + 1] == recipes[..i] + [recipe];
      FieldValuesAppend(recipes[..i], recipe, CuisineOf);
      FieldValuesAppend(recipes[..i], recipe, CourseOf);
      FieldValuesAppend(recipes[..i], recipe, DietOf);
      AllIngredientsAppend(recipes[..i], recipe);
      if recipe.cuisine != "" {
        cuisines := cuisines + {recipe.cuisine};
      }
      if recipe.course != "" {
        courses := courses + {recipe.course};
      }
      if recipe.diet != "" {
        diets := diets + {recipe.diet};
      }
      ingredients := AddAll(ingredients, recipe.ingredients);
    }
    assert recipes[..|recipes|] == recipes;
    unique := map["cuisines" := cuisines, "courses" := courses, "diets" := diets, "ingredients" := ingredients];
  }
}
