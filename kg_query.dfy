/**
  The knowledge-graph retriever: the Cypher query and parameter map it
  builds from an intent, the ingredient-combination query, and the mapping
  of returned records to results. Running a query is outside the model: the
  records a query returns are given by the function `run`.
*/
module KgQuery {
  import opened Optional
  import opened Text
  import opened Intent

  /** A recipe found in the graph; `score` is 1.0 unless the query computes one. */
  datatype KGRecipeResult = KGRecipeResult(
    id: int,
    title: string,
    rating: real,
    prepTimeMins: Option<int>,
    cookTimeMins: Option<int>,
    score: real)

  /** A value bound to a `$name` in a query. */
  datatype CypherParam = CText(text: string) | CInt(n: int)

  /** A query text with its parameter map. */
  datatype CypherQuery = CypherQuery(text: string, params: map<string, CypherParam>)

  /** A returned record: the rating may be null. */
  datatype KgRecord = KgRecord(
    id: int,
    title: string,
    rating: Option<real>,
    prepTimeMins: Option<int>,
    cookTimeMins: Option<int>)

  /** A record of the similarity query, with its count of shared ingredients. */
  datatype SimilarRecord = SimilarRecord(record: KgRecord, sharedIngredients: int)

  // ---------------------------------------------------------------- parameter names

  /** The parameter that carries ingredient `i`. */
  function IngKey(i: nat): (k: string)
    ensures |k| >= 5 && k[..4] == "ing_"
  {
    "ing_" + NatToString(i)
  }

  lemma IngKeyInjective()
    ensures forall i: nat, j: nat :: IngKey(i) == IngKey(j) ==> i == j
  {
    forall i: nat, j: nat | IngKey(i) == IngKey(j) ensures i == j {
      assert NatToString(i) == IngKey(i)[4..] == IngKey(j)[4..] == NatToString(j);
      NatToStringInjective(i, j);
    }
  }

  /** The fixed parameter names; none of them has the `ing_` form. */
  const FixedKeys: set<string> := {"limit", "cuisine", "diet", "course", "max_prep_time", "max_cook_time"}

  lemma IngKeyNotFixed(i: nat)
    ensures IngKey(i) !in FixedKeys
  {
    assert IngKey(i)[0] == 'i';
  }

  // ---------------------------------------------------------------- query lines

  /** A time ceiling of the WHERE line. */
  datatype TimePred = PrepCeiling | CookCeiling

  /** One line of the search query. */
  datatype CypherLine =
    | MatchRecipe
    | MatchCuisine
    | MatchDiet
    | MatchCourse
    | MatchIngredient(index: nat)
    | Where(preds: seq<TimePred>)
    | ReturnFields
    | OrderByRating
    | LimitLine

  function PredText(p: TimePred): string {
    match p
    case PrepCeiling => "r.prep_time_mins <= $max_prep_time"
    case CookCeiling => "r.cook_time_mins <= $max_cook_time"
  }

  function PredKey(p: TimePred): string {
    match p
    case PrepCeiling => "max_prep_time"
    case CookCeiling => "max_cook_time"
  }

  function PredTexts(ps: seq<TimePred>): seq<string> {
    seq(|ps|, k requires 0 <= k < |ps| => PredText(ps[k]))
  }

  /** The text of the MATCH line for ingredient `i`: a case-insensitive substring match on `$ing_i`. */
  function IngredientMatchText(i: nat): string {
    "MATCH (r)-[:CONTAINS]->(i" + NatToString(i) + ":Ingredient) WHERE toLower(i" + NatToString(i)
    + ".name) CONTAINS toLower($" + IngKey(i) + ")"
  }

  const ReturnText: string :=
    "RETURN DISTINCT r.id as id, r.title as title, r.rating as rating, r.prep_time_mins as prep_time_mins, r.cook_time_mins as cook_time_mins"

  function Render(l: CypherLine): string {
    match l
    case MatchRecipe => "MATCH (r:Recipe)"
    case MatchCuisine => "MATCH (r)-[:HAS_CUISINE]->(c:Cuisine {name: $cuisine})"
    case MatchDiet => "MATCH (r)-[:HAS_DIET]->(d:Diet {name: $diet})"
    case MatchCourse => "MATCH (r)-[:HAS_COURSE]->(co:Course {name: $course})"
    case MatchIngredient(i) => IngredientMatchText(i)
    case Where(ps) => "WHERE " + Join(" AND ", PredTexts(ps))
    case ReturnFields => ReturnText
    case OrderByRating => "ORDER BY r.rating DESC"
    case LimitLine => "LIMIT $limit"
  }

  /** The `$names` a line refers to. */
  function Refs(l: CypherLine): set<string> {
    match l
    case MatchCuisine => {"cuisine"}
    case MatchDiet => {"diet"}
    case MatchCourse => {"course"}
    case MatchIngredient(i) => {IngKey(i)}
    case Where(ps) => set k | 0 <= k < |ps| :: PredKey(ps[k])
    case LimitLine => {"limit"}
    case _ => {}
  }

  function RenderAll(ls: seq<CypherLine>): (r: seq<string>)
    ensures |r| == |ls|
  {
    seq(|ls|, k requires 0 <= k < |ls| => Render(ls[k]))
  }

  lemma RenderAllAppend(ls: seq<CypherLine>, more: seq<CypherLine>)
    ensures RenderAll(ls + more) == RenderAll(ls) + RenderAll(more)
  {
  }

  /**
    The position of a line in the query when there are `n` ingredients:
    the recipe match, the cuisine, diet and course matches, the ingredient
    matches by index, the WHERE line, then RETURN, ORDER BY and LIMIT.
  */
  function LineKey(l: CypherLine, n: nat): int {
    match l
    case MatchRecipe => 0
    case MatchCuisine => 1
    case MatchDiet => 2
    case MatchCourse => 3
    case MatchIngredient(i) => 4 + i
    case Where(_) => 4 + n
    case ReturnFields => 5 + n
    case OrderByRating => 6 + n
    case LimitLine => 7 + n
  }

  // ---------------------------------------------------------------- the search query

  function WherePreds(intent: ParsedIntent): seq<TimePred> {
    (if TruthyInt(intent.maxPrepTimeMins) then [PrepCeiling] else [])
    + (if TruthyInt(intent.maxCookTimeMins) then [CookCeiling] else [])
  }

  /** The WHERE line holds the prep ceiling before the cook ceiling, each exactly when it is set. */
  lemma WherePredsShape(intent: ParsedIntent)
    ensures PrepCeiling in WherePreds(intent) <==> TruthyInt(intent.maxPrepTimeMins)
    ensures CookCeiling in WherePreds(intent) <==> TruthyInt(intent.maxCookTimeMins)
    ensures |WherePreds(intent)| <= 2
    ensures |WherePreds(intent)| == 2 ==> WherePreds(intent) == [PrepCeiling, CookCeiling]
  {
  }

  function IngredientMatches(n: nat): seq<CypherLine> {
    seq(n, k requires 0 <= k < n => MatchIngredient(k))
  }

  /** The lines of the query in groups: recipe, cuisine, diet, course, ingredients, WHERE, tail. */
  function Segment(intent: ParsedIntent, g: nat): seq<CypherLine> {
    if g == 0 then [MatchRecipe]
    else if g == 1 then (if Truthy(intent.cuisine) then [MatchCuisine] else [])
    else if g == 2 then (if Truthy(intent.diet) then [MatchDiet] else [])
    else if g == 3 then (if Truthy(intent.course) then [MatchCourse] else [])
    else if g == 4 then IngredientMatches(|Items(intent.ingredientsInclude)|)
    else if g == 5 then (if WherePreds(intent) != [] then [Where(WherePreds(intent))] else [])
    else if g == 6 then [ReturnFields, OrderByRating, LimitLine]
    else []
  }

  function PlanUpTo(intent: ParsedIntent, g: nat): seq<CypherLine> {
    if g == 0 then [] else PlanUpTo(intent, g - 1) + Segment(intent, g - 1)
  }

  /** The lines of the search query, in order. */
  function SearchPlan(intent: ParsedIntent): seq<CypherLine> {
    PlanUpTo(intent, 7)
  }

  /** The group a line belongs to. */
  function GroupOf(l: CypherLine): nat {
    match l
    case MatchRecipe => 0
    case MatchCuisine => 1
    case MatchDiet => 2
    case MatchCourse => 3
    case MatchIngredient(_) => 4
    case Where(_) => 5
    case _ => 6
  }

  /** The least key of group `g` when there are `n` ingredients. */
  function GroupStart(g: nat, n: nat): int {
    if g <= 4 then g else if g == 5 then 4 + n else if g == 6 then 5 + n else 8 + n
  }

  /** Each line's key is above the one before it: the lines are in order and none repeats. */
  predicate LinesOrdered(p: seq<CypherLine>, n: nat) {
    forall a, b :: 0 <= a < b < |p| ==> LineKey(p[a], n) < LineKey(p[b], n)
  }

  lemma SegmentShape(intent: ParsedIntent, g: nat)
    requires g < 7
    ensures LinesOrdered(Segment(intent, g), |Items(intent.ingredientsInclude)|)
    ensures forall l :: l in Segment(intent, g) ==> GroupOf(l) == g
    ensures forall l :: l in Segment(intent, g) ==>
      GroupStart(g, |Items(intent.ingredientsInclude)|) <= LineKey(l, |Items(intent.ingredientsInclude)|)
      < GroupStart(g + 1, |Items(intent.ingredientsInclude)|)
  {
    var s, n := Segment(intent, g), |Items(intent.ingredientsInclude)|;
    if g == 4 {
      forall a, b | 0 <= a < b < |s| ensures LineKey(s[a], n) < LineKey(s[b], n) {
        assert s[a] == MatchIngredient(a) && s[b] == MatchIngredient(b);
      }
      forall l | l in s ensures GroupOf(l) == g && GroupStart(g, n) <= LineKey(l, n) < GroupStart(g + 1, n) {
        var k :| 0 <= k < |s| && s[k] == l;
        assert l == MatchIngredient(k);
      }
    }
  }

  lemma {:induction false} PlanUpToShape(intent: ParsedIntent, g: nat)
    requires g <= 7
    ensures LinesOrdered(PlanUpTo(intent, g), |Items(intent.ingredientsInclude)|)
    ensures forall l :: l in PlanUpTo(intent, g) ==>
      LineKey(l, |Items(intent.ingredientsInclude)|) < GroupStart(g, |Items(intent.ingredientsInclude)|)
    ensures forall l :: l in PlanUpTo(intent, g) <==> GroupOf(l) < g && l in Segment(intent, GroupOf(l))
  {
    var n := |Items(intent.ingredientsInclude)|;
    if g > 0 {
      PlanUpToShape(intent, g - 1);
      SegmentShape(intent, g - 1);
      var h, s := PlanUpTo(intent, g - 1), Segment(intent, g - 1);
      assert GroupStart(g - 1, n) <= GroupStart(g, n);
      forall a, b | 0 <= a < b < |h + s| ensures LineKey((h + s)[a], n) < LineKey((h + s)[b], n) {
        if a < |h| && b >= |h| {
          assert (h + s)[a] in h && (h + s)[b] in s;
        } else if a < |h| {
          assert (h + s)[a] == h[a] && (h + s)[b] == h[b];
        } else {
          assert (h + s)[a] == s[a - |h|] && (h + s)[b] == s[b - |h|];
        }
      }
      forall l ensures l in h + s <==> GroupOf(l) < g && l in Segment(intent, GroupOf(l)) {
        if GroupOf(l) == g - 1 && l in Segment(intent, GroupOf(l)) {
          assert l in s;
        }
      }
    }
  }

  /**
    The search query starts with the recipe match and ends with RETURN,
    ORDER BY and LIMIT; its lines come in the order of `LineKey`, each at
    most once; the cuisine, diet and course matches are there exactly when
    those fields are set, there is one ingredient match per listed
    ingredient, and the WHERE line is there exactly when a time ceiling is
    set.
  */
  lemma SearchPlanShape(intent: ParsedIntent)
    ensures |SearchPlan(intent)| >= 4 && SearchPlan(intent)[0] == MatchRecipe
    ensures SearchPlan(intent)[|SearchPlan(intent)| - 3..] == [ReturnFields, OrderByRating, LimitLine]
    ensures LinesOrdered(SearchPlan(intent), |Items(intent.ingredientsInclude)|)
    ensures MatchCuisine in SearchPlan(intent) <==> Truthy(intent.cuisine)
    ensures MatchDiet in SearchPlan(intent) <==> Truthy(intent.diet)
    ensures MatchCourse in SearchPlan(intent) <==> Truthy(intent.course)
    ensures forall i: nat :: MatchIngredient(i) in SearchPlan(intent) <==> i < |Items(intent.ingredientsInclude)|
    ensures forall ps :: Where(ps) in SearchPlan(intent) <==> ps == WherePreds(intent) && ps != []
  {
    SearchPlanEnds(intent);
    SearchPlanMembers(intent);
  }

  lemma SearchPlanEnds(intent: ParsedIntent)
    ensures |SearchPlan(intent)| >= 4 && SearchPlan(intent)[0] == MatchRecipe
    ensures SearchPlan(intent)[|SearchPlan(intent)| - 3..] == [ReturnFields, OrderByRating, LimitLine]
    ensures LinesOrdered(SearchPlan(intent), |Items(intent.ingredientsInclude)|)
  {
    var p := SearchPlan(intent);
    PlanUpToShape(intent, 7);
    var h := PlanUpTo(intent, 6);
    assert p == h + Segment(intent, 6);
    assert Segment(intent, 6) == [ReturnFields, OrderByRating, LimitLine];
    assert PlanUpTo(intent, 1) == [] + Segment(intent, 0) == [MatchRecipe];
    PlanPrefix(intent, 1, 6);
    assert h[0] == MatchRecipe;
    assert p[|p| - 3..] == Segment(intent, 6);
  }

  lemma SearchPlanMembers(intent: ParsedIntent)
    ensures MatchCuisine in SearchPlan(intent) <==> Truthy(intent.cuisine)
    ensures MatchDiet in SearchPlan(intent) <==> Truthy(intent.diet)
    ensures MatchCourse in SearchPlan(intent) <==> Truthy(intent.course)
    ensures forall i: nat :: MatchIngredient(i) in SearchPlan(intent) <==> i < |Items(intent.ingredientsInclude)|
    ensures forall ps :: Where(ps) in SearchPlan(intent) <==> ps == WherePreds(intent) && ps != []
  {
    var p, n := SearchPlan(intent), |Items(intent.ingredientsInclude)|;
    PlanUpToShape(intent, 7);
    assert MatchCuisine in p <==> MatchCuisine in Segment(intent, 1);
    assert MatchDiet in p <==> MatchDiet in Segment(intent, 2);
    assert MatchCourse in p <==> MatchCourse in Segment(intent, 3);
    forall i: nat ensures MatchIngredient(i) in p <==> i < n {
      assert MatchIngredient(i) in p <==> MatchIngredient(i) in Segment(intent, 4);
      if i < n {
        assert IngredientMatches(n)[i] == MatchIngredient(i);
      }
    }
    forall ps ensures Where(ps) in p <==> ps == WherePreds(intent) && ps != [] {
      assert Where(ps) in p <==> Where(ps) in Segment(intent, 5);
    }
  }

  lemma {:induction false} PlanPrefix(intent: ParsedIntent, g: nat, h: nat)
    requires g <= h
    ensures |PlanUpTo(intent, g)| <= |PlanUpTo(intent, h)|
    ensures PlanUpTo(intent, h)[..|PlanUpTo(intent, g)|] == PlanUpTo(intent, g)
    decreases h
  {
    if g < h {
      PlanPrefix(intent, g, h - 1);
    }
  }

  function IngParams(ings: seq<string>): map<string, CypherParam> {
    IngKeyInjective();
    map i | 0 <= i < |ings| :: IngKey(i) := CText(ings[i])
  }

  lemma IngParamsSnoc(ings: seq<string>, i: nat)
    requires i < |ings|
    ensures IngParams(ings[..i + 1]) == IngParams(ings[..i])[IngKey(i) := CText(ings[i])]
  {
    IngKeyInjective();
    var l, r := IngParams(ings[..i + 1]), IngParams(ings[..i])[IngKey(i) := CText(ings[i])];
    forall k | k in l ensures k in r && l[k] == r[k] {
      var j: nat :| j < i + 1 && k == IngKey(j);
    }
    forall k | k in r ensures k in l {
      if k != IngKey(i) {
        var j: nat :| j < i && k == IngKey(j);
        assert IngKey(j) in l;
      }
    }
    assert l.Keys == r.Keys;
  }

  lemma UnionUpdate<K, V>(a: map<K, V>, b: map<K, V>, k: K, v: V)
    ensures a + b[k := v] == (a + b)[k := v]
  {
  }

  /** The parameters bound with the recipe, cuisine, diet and course MATCH lines: the limit and the set filters. */
  function FieldParams(intent: ParsedIntent, limit: int): map<string, CypherParam> {
    var p0 := map["limit" := CInt(limit)];
    var p1 := if Truthy(intent.cuisine) then p0["cuisine" := CText(intent.cuisine.value)] else p0;
    var p2 := if Truthy(intent.diet) then p1["diet" := CText(intent.diet.value)] else p1;
    if Truthy(intent.course) then p2["course" := CText(intent.course.value)] else p2
  }

  /** The parameters bound while the MATCH lines are built: the limit, the set filters and the ingredients. */
  function MatchParams(intent: ParsedIntent, limit: int): map<string, CypherParam> {
    FieldParams(intent, limit) + IngParams(Items(intent.ingredientsInclude))
  }

  /** The parameter map of the search query. */
  function SearchParams(intent: ParsedIntent, limit: int): map<string, CypherParam> {
    var p4 := MatchParams(intent, limit);
    var p5 := if TruthyInt(intent.maxPrepTimeMins) then p4["max_prep_time" := CInt(intent.maxPrepTimeMins.value)] else p4;
    if TruthyInt(intent.maxCookTimeMins) then p5["max_cook_time" := CInt(intent.maxCookTimeMins.value)] else p5
  }


  lemma IngParamsShape(ings: seq<string>)
    ensures forall i: nat :: IngKey(i) in IngParams(ings) <==> i < |ings|
    ensures forall i: nat :: i < |ings| ==> IngParams(ings)[IngKey(i)] == CText(ings[i])
    ensures forall k :: k in IngParams(ings) ==> k !in FixedKeys && exists i: nat :: i < |ings| && k == IngKey(i)
  {
    IngKeyInjective();
    forall k | k in IngParams(ings) ensures k !in FixedKeys && exists i: nat :: i < |ings| && k == IngKey(i) {
      var i: nat :| i < |ings| && k == IngKey(i);
      IngKeyNotFixed(i);
    }
  }

  lemma MatchParamsShape(intent: ParsedIntent, limit: int)
    ensures "limit" in MatchParams(intent, limit) && MatchParams(intent, limit)["limit"] == CInt(limit)
    ensures "cuisine" in MatchParams(intent, limit) <==> Truthy(intent.cuisine)
    ensures "cuisine" in MatchParams(intent, limit) ==> MatchParams(intent, limit)["cuisine"] == CText(intent.cuisine.value)
    ensures "diet" in MatchParams(intent, limit) <==> Truthy(intent.diet)
    ensures "diet" in MatchParams(intent, limit) ==> MatchParams(intent, limit)["diet"] == CText(intent.diet.value)
    ensures "course" in MatchParams(intent, limit) <==> Truthy(intent.course)
    ensures "course" in MatchParams(intent, limit) ==> MatchParams(intent, limit)["course"] == CText(intent.course.value)
    ensures "max_prep_time" !in MatchParams(intent, limit) && "max_cook_time" !in MatchParams(intent, limit)
    ensures forall k :: k in MatchParams(intent, limit) && k !in FixedKeys ==> k in IngParams(Items(intent.ingredientsInclude))
    ensures forall k :: k in IngParams(Items(intent.ingredientsInclude)) ==>
      k in MatchParams(intent, limit) && MatchParams(intent, limit)[k] == IngParams(Items(intent.ingredientsInclude))[k]
  {
    IngParamsShape(Items(intent.ingredientsInclude));
  }

  /**
    The parameters hold the limit; the cuisine, diet, course and time
    ceilings exactly when those fields are set, with their values; and
    `ing_i` for each listed ingredient `i`, with that ingredient. Nothing else.
  */
  lemma SearchParamsShape(intent: ParsedIntent, limit: int)
    ensures "limit" in SearchParams(intent, limit) && SearchParams(intent, limit)["limit"] == CInt(limit)
    ensures "cuisine" in SearchParams(intent, limit) <==> Truthy(intent.cuisine)
    ensures "cuisine" in SearchParams(intent, limit) ==> SearchParams(intent, limit)["cuisine"] == CText(intent.cuisine.value)
    ensures "diet" in SearchParams(intent, limit) <==> Truthy(intent.diet)
    ensures "diet" in SearchParams(intent, limit) ==> SearchParams(intent, limit)["diet"] == CText(intent.diet.value)
    ensures "course" in SearchParams(intent, limit) <==> Truthy(intent.course)
    ensures "course" in SearchParams(intent, limit) ==> SearchParams(intent, limit)["course"] == CText(intent.course.value)
    ensures "max_prep_time" in SearchParams(intent, limit) <==> TruthyInt(intent.maxPrepTimeMins)
    ensures "max_prep_time" in SearchParams(intent, limit) ==>
      SearchParams(intent, limit)["max_prep_time"] == CInt(intent.maxPrepTimeMins.value)
    ensures "max_cook_time" in SearchParams(intent, limit) <==> TruthyInt(intent.maxCookTimeMins)
    ensures "max_cook_time" in SearchParams(intent, limit) ==>
      SearchParams(intent, limit)["max_cook_time"] == CInt(intent.maxCookTimeMins.value)
    ensures forall i: nat :: IngKey(i) in SearchParams(intent, limit) <==> i < |Items(intent.ingredientsInclude)|
    ensures forall i: nat :: i < |Items(intent.ingredientsInclude)| ==>
      SearchParams(intent, limit)[IngKey(i)] == CText(Items(intent.ingredientsInclude)[i])
    ensures forall k :: k in SearchParams(intent, limit) ==>
      k in FixedKeys || exists i: nat :: i < |Items(intent.ingredientsInclude)| && k == IngKey(i)
  {
    var ings := Items(intent.ingredientsInclude);
    MatchParamsShape(intent, limit);
    IngParamsShape(ings);
    forall i: nat ensures IngKey(i) !in FixedKeys {
      IngKeyNotFixed(i);
    }
  }


  /** Every `$name` the search query refers to is bound in its parameter map. */
  lemma SearchRefsBound(intent: ParsedIntent, limit: int)
    ensures forall l, name :: l in SearchPlan(intent) && name in Refs(l) ==> name in SearchParams(intent, limit)
  {
    SearchPlanShape(intent);
    SearchParamsShape(intent, limit);
    WherePredsShape(intent);
    forall l, name | l in SearchPlan(intent) && name in Refs(l) ensures name in SearchParams(intent, limit) {
      if l.Where? {
        var k :| 0 <= k < |l.preds| && name == PredKey(l.preds[k]);
        assert l.preds[k] in WherePreds(intent);
      }
    }
  }

  /** The search query as sent. */
  function SearchQuery(intent: ParsedIntent, limit: int): CypherQuery {
    CypherQuery(Join("\n", RenderAll(SearchPlan(intent))), SearchParams(intent, limit))
  }

  /**
    The statement-by-statement builder of `search`: MATCH lines and the
    parameter map grow together, then the WHERE line and the fixed tail are
    appended and the lines joined with newlines.
  */
  method BuildSearchQuery(intent: ParsedIntent, limit: int) returns (q: CypherQuery)
    ensures q == SearchQuery(intent, limit)
  {
    var matchClauses, params := BuildMatchClauses(intent, limit);
    var whereClauses;
    whereClauses, params := BuildWhereClauses(intent, limit, params);
    var queryParts := AppendWhereLine(intent, matchClauses, whereClauses);
    queryParts := queryParts + [ReturnText];
    queryParts := queryParts + ["ORDER BY r.rating DESC"];
    queryParts := queryParts + ["LIMIT $limit"];
    TailLines(intent);
    q := CypherQuery(Join("\n", queryParts), params);
  }

  /** The WHERE line, when there are conditions, joins them with AND after the MATCH lines. */
  method AppendWhereLine(intent: ParsedIntent, matchClauses: seq<string>, whereClauses: seq<string>) returns (parts: seq<string>)
    requires matchClauses == RenderAll(PlanUpTo(intent, 5))
    requires whereClauses == PredTexts(WherePreds(intent))
    ensures parts == RenderAll(PlanUpTo(intent, 6))
  {
    parts := matchClauses;
    var preds := WherePreds(intent);
    RenderAllAppend(PlanUpTo(intent, 5), Segment(intent, 5));
    if whereClauses != [] {
      parts := parts + ["WHERE " + Join(" AND ", whereClauses)];
      assert RenderAll([Where(preds)]) == ["WHERE " + Join(" AND ", whereClauses)];
    } else {
      assert RenderAll(Segment(intent, 5)) == [];
    }
  }

  /** The RETURN, ORDER BY and LIMIT lines close the query. */
  lemma TailLines(intent: ParsedIntent)
    ensures RenderAll(PlanUpTo(intent, 6)) + [ReturnText] + ["ORDER BY r.rating DESC"] + ["LIMIT $limit"]
      == RenderAll(SearchPlan(intent))
  {
    RenderAllAppend(PlanUpTo(intent, 6), Segment(intent, 6));
    assert RenderAll(Segment(intent, 6)) == [ReturnText, "ORDER BY r.rating DESC", "LIMIT $limit"];
  }

  /** The time ceilings of `search`: the WHERE conditions, prep before cook, and their parameters. */
  method BuildWhereClauses(intent: ParsedIntent, limit: int, params0: map<string, CypherParam>)
    returns (whereClauses: seq<string>, params: map<string, CypherParam>)
    requires params0 == MatchParams(intent, limit)
    ensures whereClauses == PredTexts(WherePreds(intent))
    ensures params == SearchParams(intent, limit)
  {
    whereClauses, params := [], params0;
    ghost var preds: seq<TimePred> := [];
    if TruthyInt(intent.maxPrepTimeMins) {
      whereClauses := whereClauses + ["r.prep_time_mins <= $max_prep_time"];
      params := params["max_prep_time" := CInt(intent.maxPrepTimeMins.value)];
      preds := preds + [PrepCeiling];
    }
    if TruthyInt(intent.maxCookTimeMins) {
      whereClauses := whereClauses + ["r.cook_time_mins <= $max_cook_time"];
      params := params["max_cook_time" := CInt(intent.maxCookTimeMins.value)];
      preds := preds + [CookCeiling];
    }
    assert preds == WherePreds(intent) && whereClauses == PredTexts(preds);
  }

  /** The MATCH lines of `search` and the parameters bound with them. */
  method BuildMatchClauses(intent: ParsedIntent, limit: int) returns (matchClauses: seq<string>, params: map<string, CypherParam>)
    ensures matchClauses == RenderAll(PlanUpTo(intent, 5))
    ensures params == MatchParams(intent, limit)
  {
    matchClauses, params := BuildFieldMatches(intent, limit);
    ghost var plan := PlanUpTo(intent, 4);
    ghost var p3 := params;
    if TruthyList(intent.ingredientsInclude) {
      matchClauses, params := AppendIngredientClauses(matchClauses, params, intent.ingredientsInclude.value);
      RenderAllAppend(plan, IngredientMatches(|intent.ingredientsInclude.value|));
    } else {
      assert IngParams(Items(intent.ingredientsInclude)) == map[];
      assert params == p3 + map[];
    }
    plan := plan + IngredientMatches(|Items(intent.ingredientsInclude)|);
    assert plan == PlanUpTo(intent, 5);
  }

  /** The recipe MATCH line, then one for each of cuisine, diet and course that is set, with their parameters. */
  method BuildFieldMatches(intent: ParsedIntent, limit: int) returns (matchClauses: seq<string>, params: map<string, CypherParam>)
    ensures matchClauses == RenderAll(PlanUpTo(intent, 4))
    ensures params == FieldParams(intent, limit)
  {
    matchClauses := ["MATCH (r:Recipe)"];
    params := map["limit" := CInt(limit)];
    FieldStep(intent, 0, true, MatchRecipe);
    if Truthy(intent.cuisine) {
      matchClauses := matchClauses + ["MATCH (r)-[:HAS_CUISINE]->(c:Cuisine {name: $cuisine})"];
      params := params["cuisine" := CText(intent.cuisine.value)];
    }
    FieldStep(intent, 1, Truthy(intent.cuisine), MatchCuisine);
    assert matchClauses == RenderAll(PlanUpTo(intent, 2));
    if Truthy(intent.diet) {
      matchClauses := matchClauses + ["MATCH (r)-[:HAS_DIET]->(d:Diet {name: $diet})"];
      params := params["diet" := CText(intent.diet.value)];
    }
    FieldStep(intent, 2, Truthy(intent.diet), MatchDiet);
    assert matchClauses == RenderAll(PlanUpTo(intent, 3));
    if Truthy(intent.course) {
      matchClauses := matchClauses + ["MATCH (r)-[:HAS_COURSE]->(co:Course {name: $course})"];
      params := params["course" := CText(intent.course.value)];
    }
    FieldStep(intent, 3, Truthy(intent.course), MatchCourse);
  }

  /** Group `g` (the recipe line or one set filter) adds its one line to the rendered plan when it is present. */
  lemma FieldStep(intent: ParsedIntent, g: nat, present: bool, line: CypherLine)
    requires g <= 3
    requires Segment(intent, g) == if present then [line] else []
    ensures RenderAll(PlanUpTo(intent, g + 1)) == RenderAll(PlanUpTo(intent, g)) + (if present then [Render(line)] else [])
  {
    RenderAllAppend(PlanUpTo(intent, g), Segment(intent, g));
    if present {
      assert RenderAll([line]) == [Render(line)];
    } else {
      assert RenderAll([]) == [];
    }
  }

  /** The `enumerate` loop of `search`: a MATCH line and an `ing_i` parameter per ingredient. */
  method AppendIngredientClauses(clauses0: seq<string>, params0: map<string, CypherParam>, ings: seq<string>)
    returns (clauses: seq<string>, params: map<string, CypherParam>)
    requires forall k :: k in params0 ==> k in FixedKeys
    ensures clauses == clauses0 + RenderAll(IngredientMatches(|ings|))
    ensures params == params0 + IngParams(ings)
  {
    clauses, params := clauses0, params0;
    IngKeyInjective();
    for i := 0 to |ings|
      invariant clauses == clauses0 + RenderAll(IngredientMatches(i))
      invariant params == params0 + IngParams(ings[..i])
    {
      IngParamsSnoc(ings, i);
      UnionUpdate(params0, IngParams(ings[..i]), IngKey(i), CText(ings[i]));
      assert RenderAll(IngredientMatches(i + 1)) == RenderAll(IngredientMatches(i)) + [IngredientMatchText(i)];
      clauses := clauses + [IngredientMatchText(i)];
      params := params[IngKey(i) := CText(ings[i])];
    }
    assert ings[..|ings|] == ings;
  }

  // ---------------------------------------------------------------- records

  /** A graph record as a result: a null rating reads as 0.0 and the score is `score`. */
  function RecordToResult(r: KgRecord, score: real): (res: KGRecipeResult)
    ensures res.id == r.id && res.title == r.title && res.score == score
    ensures res.rating == if r.rating.Some? then r.rating.value else 0.0
    ensures res.prepTimeMins == r.prepTimeMins && res.cookTimeMins == r.cookTimeMins
  {
    KGRecipeResult(r.id, r.title, r.rating.GetOr(0.0), r.prepTimeMins, r.cookTimeMins, score)
  }

  /** The results of a search-shaped query: one per record, in order, each with the default score 1.0. */
  method CollectResults(records: seq<KgRecord>) returns (recipes: seq<KGRecipeResult>)
    ensures |recipes| == |records|
    ensures forall k :: 0 <= k < |records| ==> recipes[k] == RecordToResult(records[k], 1.0)
  {
    recipes := [];
    for k := 0 to |records|
      invariant |recipes| == k
      invariant forall j :: 0 <= j < k ==> recipes[j] == RecordToResult(records[j], 1.0)
    {
      recipes := recipes + [RecordToResult(records[k], 1.0)];
    }
  }

  /** `search`: the records of the built query, read as results. */
  method Search(intent: ParsedIntent, limit: int, run: CypherQuery -> seq<KgRecord>) returns (results: seq<KGRecipeResult>)
    ensures |results| == |run(SearchQuery(intent, limit))|
    ensures forall k :: 0 <= k < |results| ==> results[k] == RecordToResult(run(SearchQuery(intent, limit))[k], 1.0)
  {
    var q := BuildSearchQuery(intent, limit);
    var records := run(q);
    results := CollectResults(records);
  }

  const SimilarText: string :=
    "\n        MATCH (r1:Recipe {id: $recipe_id})-[:CONTAINS]->(i:Ingredient)<-[:CONTAINS]-(r2:Recipe)"
    + "\n        WHERE r1 <> r2"
    + "\n        WITH r2, count(i) as shared_ingredients"
    + "\n        RETURN r2.id as id, r2.title as title, r2.rating as rating,"
    + "\n               r2.prep_time_mins as prep_time_mins, r2.cook_time_mins as cook_time_mins,"
    + "\n               shared_ingredients"
    + "\n        ORDER BY shared_ingredients DESC, r2.rating DESC"
    + "\n        LIMIT $limit"
    + "\n        "

  /** The query of `find_similar_by_ingredients`. */
  function SimilarQuery(recipeId: int, limit: int): CypherQuery {
    CypherQuery(SimilarText, map["recipe_id" := CInt(recipeId), "limit" := CInt(limit)])
  }

  /**
    `find_similar_by_ingredients`: one result per record, in order, scored
    by the number of ingredients it shares with the given recipe.
  */
  method FindSimilarByIngredients(recipeId: int, limit: int, run: CypherQuery -> seq<SimilarRecord>)
    returns (recipes: seq<KGRecipeResult>)
    ensures |recipes| == |run(SimilarQuery(recipeId, limit))|
    ensures forall k :: 0 <= k < |recipes| ==>
      var rec := run(SimilarQuery(recipeId, limit))[k];
      recipes[k] == RecordToResult(rec.record, rec.sharedIngredients as real)
  {
    var records := run(SimilarQuery(recipeId, limit));
    recipes := [];
    for k := 0 to |records|
      invariant |recipes| == k
      invariant forall j :: 0 <= j < k ==>
        recipes[j] == RecordToResult(records[j].record, records[j].sharedIngredients as real)
    {
      recipes := recipes + [RecordToResult(records[k].record, records[k].sharedIngredients as real)];
    }
  }

  const CombinationTail: string :=
    "\n        RETURN DISTINCT r.id as id, r.title as title, r.rating as rating,"
    + "\n               r.prep_time_mins as prep_time_mins, r.cook_time_mins as cook_time_mins"
    + "\n        ORDER BY r.rating DESC"
    + "\n        LIMIT $limit"
    + "\n        "

  /** The query of `get_recipes_by_ingredient_combination` for a non-empty list. */
  function CombinationQuery(ings: seq<string>, limit: int): CypherQuery {
    CypherQuery(Join("\n", RenderAll([MatchRecipe] + IngredientMatches(|ings|))) + CombinationTail,
                IngParams(ings)["limit" := CInt(limit)])
  }

  /** The combination query's parameters are exactly `ing_i` for each ingredient and `limit`. */
  lemma CombinationParamsShape(ings: seq<string>, limit: int)
    ensures var p := CombinationQuery(ings, limit).params;
      "limit" in p && p["limit"] == CInt(limit)
      && (forall i: nat :: IngKey(i) in p <==> i < |ings|)
      && (forall i: nat :: i < |ings| ==> p[IngKey(i)] == CText(ings[i]))
      && (forall k :: k in p ==> k == "limit" || exists i: nat :: i < |ings| && k == IngKey(i))
  {
    IngKeyInjective();
    forall i: nat ensures IngKey(i) != "limit" {
      IngKeyNotFixed(i);
    }
  }

  /**
    `get_recipes_by_ingredient_combination`: no ingredients gives no
    results whatever the graph holds; otherwise the records of the
    combination query, read as results.
  */
  method GetRecipesByIngredientCombination(ings: seq<string>, limit: int, run: CypherQuery -> seq<KgRecord>)
    returns (recipes: seq<KGRecipeResult>)
    ensures ings == [] ==> recipes == []
    ensures ings != [] ==> |recipes| == |run(CombinationQuery(ings, limit))|
    ensures ings != [] ==> forall k :: 0 <= k < |recipes| ==>
      recipes[k] == RecordToResult(run(CombinationQuery(ings, limit))[k], 1.0)
  {
    if ings == [] {
      return [];
    }
    var matchClauses := ["MATCH (r:Recipe)"];
    for i := 0 to |ings|
      invariant matchClauses == RenderAll([MatchRecipe] + IngredientMatches(i))
    {
      assert [MatchRecipe] + IngredientMatches(i + 1) == [MatchRecipe] + IngredientMatches(i) + [MatchIngredient(i)];
      RenderAllAppend([MatchRecipe] + IngredientMatches(i), [MatchIngredient(i)]);
      matchClauses := matchClauses + [IngredientMatchText(i)];
    }
    var params := IngParams(ings);
    params := params["limit" := CInt(limit)];
    var query := Join("\n", matchClauses) + CombinationTail;
    var records := run(CypherQuery(query, params));
    recipes := CollectResults(records);
  }
}
