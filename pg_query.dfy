/**
  The relational and vector retriever: the filter conditions and the
  parameter list it builds from an intent, the three query shapes
  (filters only, similarity only, filters plus similarity), the mapping of
  result rows to records, and the lookup by id. Executing SQL and computing
  embeddings are outside the model: a query's rows are given by the
  function `db`, and an embedding parameter is the symbolic
  `PEmbedding(text)`.
*/
module PgQuery {
  import opened Optional
  import opened Text
  import opened Intent

  /** A recipe record as the retriever returns it. */
  datatype PGRecipeResult = PGRecipeResult(
    id: int,
    title: string,
    description: string,
    url: string,
    cuisine: Option<string>,
    course: Option<string>,
    diet: Option<string>,
    prepTimeMins: Option<int>,
    cookTimeMins: Option<int>,
    rating: real,
    voteCount: int,
    ingredients: seq<string>,
    distance: Option<real>,
    source: string)

  /**
    A result row: the twelve recipe columns, any of which after the title
    may be NULL, and `distance`, the thirteenth column when the query
    selects one.
  */
  datatype Row = Row(
    id: int,
    title: string,
    description: Option<string>,
    url: Option<string>,
    cuisine: Option<string>,
    course: Option<string>,
    diet: Option<string>,
    prepTimeMins: Option<int>,
    cookTimeMins: Option<int>,
    rating: Option<real>,
    voteCount: Option<int>,
    ingredients: Option<seq<string>>,
    distance: Option<real>)

  /**
    `_row_to_result`: NULL description and url become "", NULL rating 0.0,
    NULL vote count 0 and NULL ingredients []; the other columns are kept
    as they are, and the distance is read only when the query selected one.
  */
  function RowToResult(row: Row, source: string, hasDistance: bool): (r: PGRecipeResult)
    ensures r.id == row.id && r.title == row.title && r.source == source
    ensures row.description.None? ==> r.description == ""
    ensures row.url.None? ==> r.url == ""
    ensures row.rating.None? ==> r.rating == 0.0
    ensures row.voteCount.None? ==> r.voteCount == 0
    ensures row.ingredients.None? ==> r.ingredients == []
    ensures row.description.Some? ==> r.description == row.description.value
    ensures row.url.Some? ==> r.url == row.url.value
    ensures row.rating.Some? ==> r.rating == row.rating.value
    ensures row.voteCount.Some? ==> r.voteCount == row.voteCount.value
    ensures row.ingredients.Some? ==> r.ingredients == row.ingredients.value
    ensures r.cuisine == row.cuisine && r.course == row.course && r.diet == row.diet
    ensures r.prepTimeMins == row.prepTimeMins && r.cookTimeMins == row.cookTimeMins
    ensures r.distance == if hasDistance then row.distance else None
  {
    PGRecipeResult(
      row.id, row.title, row.description.GetOr(""), row.url.GetOr(""),
      row.cuisine, row.course, row.diet, row.prepTimeMins, row.cookTimeMins,
      row.rating.GetOr(0.0), row.voteCount.GetOr(0), row.ingredients.GetOr([]),
      if hasDistance then row.distance else None,
      source)
  }

  /** The row a record was read from when none of its columns was NULL: mapping it back loses nothing. */
  function ResultToRow(r: PGRecipeResult): (row: Row)
    ensures RowToResult(row, r.source, r.distance.Some?) == r
  {
    Row(r.id, r.title, Some(r.description), Some(r.url), r.cuisine, r.course, r.diet,
        r.prepTimeMins, r.cookTimeMins, Some(r.rating), Some(r.voteCount), Some(r.ingredients), r.distance)
  }

  // ---------------------------------------------------------------- filters

  /** One filter condition, with the value it binds. */
  datatype Filter =
    | CuisineIs(cuisine: string)
    | DietIs(diet: string)
    | CourseIs(course: string)
    | PrepAtMost(maxPrep: int)
    | CookAtMost(maxCook: int)
    | HasIngredient(index: nat, ingredient: string)

  /** The SQL text of a condition; each holds exactly one `%s` placeholder. */
  function Condition(f: Filter): string {
    match f
    case CuisineIs(_) => "cuisine = %s"
    case DietIs(_) => "diet = %s"
    case CourseIs(_) => "course = %s"
    case PrepAtMost(_) => "prep_time_mins <= %s"
    case CookAtMost(_) => "cook_time_mins <= %s"
    case HasIngredient(i, _) =>
      "EXISTS (SELECT 1 FROM unnest(ingredients) AS ing_" + NatToString(i)
      + " WHERE ing_" + NatToString(i) + " ILIKE %s)"
  }

  /** A query parameter: text, an integer, or the embedding vector of a text. */
  datatype SqlParam = PText(text: string) | PInt(n: int) | PEmbedding(of: string)

  /** The parameter a condition binds: an ingredient is matched as `%ing%`. */
  function Param(f: Filter): SqlParam {
    match f
    case CuisineIs(v) => PText(v)
    case DietIs(v) => PText(v)
    case CourseIs(v) => PText(v)
    case PrepAtMost(n) => PInt(n)
    case CookAtMost(n) => PInt(n)
    case HasIngredient(_, ing) => PText("%" + ing + "%")
  }

  /** The position of a condition in the fixed order cuisine, diet, course, prep, cook, ingredients. */
  function Rank(f: Filter): nat {
    match f
    case CuisineIs(_) => 0
    case DietIs(_) => 1
    case CourseIs(_) => 2
    case PrepAtMost(_) => 3
    case CookAtMost(_) => 4
    case HasIngredient(i, _) => 5 + i
  }

  function IngredientFilters(ings: seq<string>): seq<Filter> {
    seq(|ings|, k requires 0 <= k < |ings| => HasIngredient(k, ings[k]))
  }

  /** The condition, if any, that scalar field `n` (in append order) contributes. */
  function Piece(intent: ParsedIntent, n: nat): seq<Filter> {
    if n == 0 then (if Truthy(intent.cuisine) then [CuisineIs(intent.cuisine.value)] else [])
    else if n == 1 then (if Truthy(intent.diet) then [DietIs(intent.diet.value)] else [])
    else if n == 2 then (if Truthy(intent.course) then [CourseIs(intent.course.value)] else [])
    else if n == 3 then (if TruthyInt(intent.maxPrepTimeMins) then [PrepAtMost(intent.maxPrepTimeMins.value)] else [])
    else if n == 4 then (if TruthyInt(intent.maxCookTimeMins) then [CookAtMost(intent.maxCookTimeMins.value)] else [])
    else []
  }

  /** The conditions of the first `n` scalar fields. */
  function HeadUpTo(intent: ParsedIntent, n: nat): seq<Filter> {
    if n == 0 then [] else HeadUpTo(intent, n - 1) + Piece(intent, n - 1)
  }

  /** The conditions on the scalar fields, in the order they are appended. */
  function HeadFilters(intent: ParsedIntent): seq<Filter> {
    HeadUpTo(intent, 5)
  }

  /** The conditions an intent gives rise to, in the order they are appended. */
  function Filters(intent: ParsedIntent): seq<Filter> {
    HeadFilters(intent) + IngredientFilters(Items(intent.ingredientsInclude))
  }

  function Conditions(fs: seq<Filter>): (cs: seq<string>)
    ensures |cs| == |fs|
  {
    seq(|fs|, k requires 0 <= k < |fs| => Condition(fs[k]))
  }

  function Params(fs: seq<Filter>): (ps: seq<SqlParam>)
    ensures |ps| == |fs|
  {
    seq(|fs|, k requires 0 <= k < |fs| => Param(fs[k]))
  }

  lemma ConditionsAppend(fs: seq<Filter>, f: Filter)
    ensures Conditions(fs + [f]) == Conditions(fs) + [Condition(f)]
    ensures Params(fs + [f]) == Params(fs) + [Param(f)]
  {
    assert Conditions(fs + [f])[|fs|] == Condition(f);
    assert Params(fs + [f])[|fs|] == Param(f);
  }

  lemma {:induction false} HeadUpToShape(intent: ParsedIntent, n: nat)
    ensures |HeadUpTo(intent, n)| <= n
    ensures forall a, b :: 0 <= a < b < |HeadUpTo(intent, n)| ==> Rank(HeadUpTo(intent, n)[a]) < Rank(HeadUpTo(intent, n)[b])
    ensures forall f :: f in HeadUpTo(intent, n) <==> Rank(f) < n && f in Piece(intent, Rank(f))
  {
    HeadUpToMembers(intent, n);
    HeadUpToOrdered(intent, n);
  }

  /** The first `n` scalar fields give at most `n` conditions, each the piece of the field its rank names. */
  lemma {:induction false} HeadUpToMembers(intent: ParsedIntent, n: nat)
    ensures |HeadUpTo(intent, n)| <= n
    ensures forall f :: f in HeadUpTo(intent, n) <==> Rank(f) < n && f in Piece(intent, Rank(f))
  {
    if n > 0 {
      HeadUpToMembers(intent, n - 1);
      var h, p := HeadUpTo(intent, n - 1), Piece(intent, n - 1);
      assert forall f :: f in p ==> Rank(f) == n - 1;
      forall f ensures f in h + p <==> Rank(f) < n && f in Piece(intent, Rank(f)) {
        if Rank(f) == n - 1 && f in Piece(intent, Rank(f)) {
          assert f in p;
        }
      }
    }
  }

  /** The conditions of the first `n` scalar fields come in increasing rank. */
  lemma {:induction false} HeadUpToOrdered(intent: ParsedIntent, n: nat)
    ensures forall a, b :: 0 <= a < b < |HeadUpTo(intent, n)| ==> Rank(HeadUpTo(intent, n)[a]) < Rank(HeadUpTo(intent, n)[b])
  {
    if n > 0 {
      HeadUpToOrdered(intent, n - 1);
      HeadUpToMembers(intent, n - 1);
      var h, p := HeadUpTo(intent, n - 1), Piece(intent, n - 1);
      assert forall f :: f in p ==> Rank(f) == n - 1;
      forall a, b | 0 <= a < b < |h + p| ensures Rank((h + p)[a]) < Rank((h + p)[b]) {
        if b >= |h| {
          assert (h + p)[b] in p;
          if a < |h| {
            assert (h + p)[a] in h;
          }
        }
      }
    }
  }

  lemma HeadFiltersShape(intent: ParsedIntent)
    ensures forall a, b :: 0 <= a < b < |HeadFilters(intent)| ==> Rank(HeadFilters(intent)[a]) < Rank(HeadFilters(intent)[b])
    ensures forall f :: f in HeadFilters(intent) ==> Rank(f) <= 4
    ensures forall v :: CuisineIs(v) in HeadFilters(intent) <==> intent.cuisine == Some(v) && v != ""
    ensures forall v :: DietIs(v) in HeadFilters(intent) <==> intent.diet == Some(v) && v != ""
    ensures forall v :: CourseIs(v) in HeadFilters(intent) <==> intent.course == Some(v) && v != ""
    ensures forall n :: PrepAtMost(n) in HeadFilters(intent) <==> intent.maxPrepTimeMins == Some(n) && n != 0
    ensures forall n :: CookAtMost(n) in HeadFilters(intent) <==> intent.maxCookTimeMins == Some(n) && n != 0
    ensures forall k: nat, x :: HasIngredient(k, x) !in HeadFilters(intent)
    ensures HeadFilters(intent) == [] <==>
      !Truthy(intent.cuisine) && !Truthy(intent.diet) && !Truthy(intent.course)
      && !TruthyInt(intent.maxPrepTimeMins) && !TruthyInt(intent.maxCookTimeMins)
  {
    HeadUpToShape(intent, 5);
    var h := HeadFilters(intent);
    forall v ensures CuisineIs(v) in h <==> intent.cuisine == Some(v) && v != "" {
      assert Rank(CuisineIs(v)) == 0;
    }
    forall v ensures DietIs(v) in h <==> intent.diet == Some(v) && v != "" {
      assert Rank(DietIs(v)) == 1;
    }
    forall v ensures CourseIs(v) in h <==> intent.course == Some(v) && v != "" {
      assert Rank(CourseIs(v)) == 2;
    }
    forall n ensures PrepAtMost(n) in h <==> intent.maxPrepTimeMins == Some(n) && n != 0 {
      assert Rank(PrepAtMost(n)) == 3;
    }
    forall n ensures CookAtMost(n) in h <==> intent.maxCookTimeMins == Some(n) && n != 0 {
      assert Rank(CookAtMost(n)) == 4;
    }
    HeadFiltersLength(intent);
  }

  /** The scalar conditions number one per truthy scalar field. */
  lemma HeadFiltersLength(intent: ParsedIntent)
    ensures |HeadFilters(intent)| == |Piece(intent, 0)| + |Piece(intent, 1)| + |Piece(intent, 2)| + |Piece(intent, 3)| + |Piece(intent, 4)|
  {
    assert HeadFilters(intent) == HeadUpTo(intent, 4) + Piece(intent, 4);
    assert HeadUpTo(intent, 4) == HeadUpTo(intent, 3) + Piece(intent, 3);
    assert HeadUpTo(intent, 3) == HeadUpTo(intent, 2) + Piece(intent, 2);
    assert HeadUpTo(intent, 2) == HeadUpTo(intent, 1) + Piece(intent, 1);
    assert HeadUpTo(intent, 1) == HeadUpTo(intent, 0) + Piece(intent, 0);
  }

  lemma IngredientFiltersShape(ings: seq<string>)
    ensures forall a, b :: 0 <= a < b < |IngredientFilters(ings)| ==> Rank(IngredientFilters(ings)[a]) < Rank(IngredientFilters(ings)[b])
    ensures forall f :: f in IngredientFilters(ings) ==> Rank(f) >= 5
    ensures forall k: nat, x :: HasIngredient(k, x) in IngredientFilters(ings) <==> k < |ings| && ings[k] == x
    ensures forall f :: f in IngredientFilters(ings) ==> f.HasIngredient?
  {
    var fs := IngredientFilters(ings);
    forall k: nat, x | k < |ings| && ings[k] == x ensures HasIngredient(k, x) in fs {
      assert fs[k] == HasIngredient(k, x);
    }
    forall a, b | 0 <= a < b < |fs| ensures Rank(fs[a]) < Rank(fs[b]) {
      assert fs[a] == HasIngredient(a, ings[a]) && fs[b] == HasIngredient(b, ings[b]);
      assert Rank(fs[a]) == 5 + a && Rank(fs[b]) == 5 + b;
    }
  }

  /**
    The conditions come in the fixed order; a condition is present exactly
    when its intent field is truthy, with that field's value; and the
    ingredient conditions come last, one per listed ingredient, in list order.
  */
  lemma FiltersShape(intent: ParsedIntent)
    ensures forall a, b :: 0 <= a < b < |Filters(intent)| ==> Rank(Filters(intent)[a]) < Rank(Filters(intent)[b])
    ensures forall v :: CuisineIs(v) in Filters(intent) <==> intent.cuisine == Some(v) && v != ""
    ensures forall v :: DietIs(v) in Filters(intent) <==> intent.diet == Some(v) && v != ""
    ensures forall v :: CourseIs(v) in Filters(intent) <==> intent.course == Some(v) && v != ""
    ensures forall n :: PrepAtMost(n) in Filters(intent) <==> intent.maxPrepTimeMins == Some(n) && n != 0
    ensures forall n :: CookAtMost(n) in Filters(intent) <==> intent.maxCookTimeMins == Some(n) && n != 0
    ensures forall k: nat, x :: HasIngredient(k, x) in Filters(intent) <==>
      k < |Items(intent.ingredientsInclude)| && Items(intent.ingredientsInclude)[k] == x
    ensures var ings := Items(intent.ingredientsInclude);
      |Filters(intent)| >= |ings| && Filters(intent)[|Filters(intent)| - |ings|..] == IngredientFilters(ings)
    ensures Filters(intent) == [] <==>
      !Truthy(intent.cuisine) && !Truthy(intent.diet) && !Truthy(intent.course)
      && !TruthyInt(intent.maxPrepTimeMins) && !TruthyInt(intent.maxCookTimeMins)
      && !TruthyList(intent.ingredientsInclude)
  {
    var head, ingFs := HeadFilters(intent), IngredientFilters(Items(intent.ingredientsInclude));
    HeadFiltersShape(intent);
    IngredientFiltersShape(Items(intent.ingredientsInclude));
    FiltersOrdered(intent);
    var fs := head + ingFs;
    assert fs == Filters(intent);
    forall f ensures f in fs <==> f in head || f in ingFs {
    }
    assert fs[|fs| - |ingFs|..] == ingFs;
  }

  /** The scalar conditions come first in rank order, then the ingredient conditions in theirs. */
  lemma FiltersOrdered(intent: ParsedIntent)
    ensures forall a, b :: 0 <= a < b < |Filters(intent)| ==> Rank(Filters(intent)[a]) < Rank(Filters(intent)[b])
  {
    var head, ingFs := HeadFilters(intent), IngredientFilters(Items(intent.ingredientsInclude));
    HeadUpToShape(intent, 5);
    IngredientFiltersShape(Items(intent.ingredientsInclude));
    var fs := head + ingFs;
    forall a, b | 0 <= a < b < |fs| ensures Rank(fs[a]) < Rank(fs[b]) {
      if b < |head| {
        assert fs[a] == head[a] && fs[b] == head[b];
      } else if a < |head| {
        assert fs[a] in head && fs[b] in ingFs;
      } else {
        assert fs[a] == ingFs[a - |head|] && fs[b] == ingFs[b - |head|];
      }
    }
  }

  /** `" AND ".join(conditions) if conditions else "TRUE"` */
  function WhereClause(conditions: seq<string>): string {
    if conditions == [] then "TRUE" else Join(" AND ", conditions)
  }

  /**
    The shared condition builder of `search_sql` and `search_hybrid`: the
    conditions and their parameters are appended side by side.
  */
  method BuildFilters(intent: ParsedIntent) returns (conditions: seq<string>, params: seq<SqlParam>)
    ensures conditions == Conditions(Filters(intent))
    ensures params == Params(Filters(intent))
  {
    conditions, params := [], [];
    ghost var fs: seq<Filter> := [];
    if Truthy(intent.cuisine) {
      ConditionsAppend(fs, CuisineIs(intent.cuisine.value));
      conditions, params := conditions + ["cuisine = %s"], params + [PText(intent.cuisine.value)];
      fs := fs + [CuisineIs(intent.cuisine.value)];
    }
    assert fs == HeadUpTo(intent, 1);
    if Truthy(intent.diet) {
      ConditionsAppend(fs, DietIs(intent.diet.value));
      conditions, params := conditions + ["diet = %s"], params + [PText(intent.diet.value)];
      fs := fs + [DietIs(intent.diet.value)];
    }
    assert fs == HeadUpTo(intent, 2);
    if Truthy(intent.course) {
      ConditionsAppend(fs, CourseIs(intent.course.value));
      conditions, params := conditions + ["course = %s"], params + [PText(intent.course.value)];
      fs := fs + [CourseIs(intent.course.value)];
    }
    assert fs == HeadUpTo(intent, 3);
    if TruthyInt(intent.maxPrepTimeMins) {
      ConditionsAppend(fs, PrepAtMost(intent.maxPrepTimeMins.value));
      conditions, params := conditions + ["prep_time_mins <= %s"], params + [PInt(intent.maxPrepTimeMins.value)];
      fs := fs + [PrepAtMost(intent.maxPrepTimeMins.value)];
    }
    assert fs == HeadUpTo(intent, 4);
    if TruthyInt(intent.maxCookTimeMins) {
      ConditionsAppend(fs, CookAtMost(intent.maxCookTimeMins.value));
      conditions, params := conditions + ["cook_time_mins <= %s"], params + [PInt(intent.maxCookTimeMins.value)];
      fs := fs + [CookAtMost(intent.maxCookTimeMins.value)];
    }
    assert fs == HeadFilters(intent);
    if TruthyList(intent.ingredientsInclude) {
      conditions, params := AppendIngredientConditions(conditions, params, fs, intent.ingredientsInclude.value);
    } else {
      assert IngredientFilters(Items(intent.ingredientsInclude)) == [];
      assert fs + [] == fs;
    }
  }

  /** The `enumerate` loop over the wanted ingredients: one `ILIKE` condition per ingredient, numbered from 0. */
  method AppendIngredientConditions(conditions0: seq<string>, params0: seq<SqlParam>, ghost head: seq<Filter>, ings: seq<string>)
    returns (conditions: seq<string>, params: seq<SqlParam>)
    requires conditions0 == Conditions(head) && params0 == Params(head)
    ensures conditions == Conditions(head + IngredientFilters(ings))
    ensures params == Params(head + IngredientFilters(ings))
  {
    conditions, params := conditions0, params0;
    ghost var fs := head;
    assert IngredientFilters(ings[..0]) == [];
    assert head + [] == head;
    for i := 0 to |ings|
      invariant fs == head + IngredientFilters(ings[..i])
      invariant conditions == Conditions(fs) && params == Params(fs)
    {
      ConditionsAppend(fs, HasIngredient(i, ings[i]));
      conditions := conditions + ["EXISTS (SELECT 1 FROM unnest(ingredients) AS ing_" + NatToString(i)
                                  + " WHERE ing_" + NatToString(i) + " ILIKE %s)"];
      params := params + [PText("%" + ings[i] + "%")];
      assert IngredientFilters(ings[..i + 1]) == IngredientFilters(ings[..i]) + [HasIngredient(i, ings[i])];
      fs := fs + [HasIngredient(i, ings[i])];
    }
    assert ings[..|ings|] == ings;
  }

  // ---------------------------------------------------------------- query shapes

  datatype SearchKind = SqlSearch | VectorSearch | HybridSearch

  /**
    A query sent to the store: its shape, its WHERE clause (none for the
    similarity-only query), its parameters in placeholder order, and whether
    it selects the vector distance and orders by it (otherwise it orders by
    rating, descending).
  */
  datatype SqlRequest = SqlRequest(kind: SearchKind, whereClause: Option<string>, params: seq<SqlParam>, byDistance: bool)

  /** The provenance tag each query shape puts on its records. */
  function SourceTag(kind: SearchKind): string {
    match kind
    case SqlSearch => "sql"
    case VectorSearch => "vector"
    case HybridSearch => "sql+vector"
  }

  /** The query `search_sql` sends: the filter parameters, then the limit. */
  function SqlRequestFor(intent: ParsedIntent, limit: int): SqlRequest {
    var fs := Filters(intent);
    SqlRequest(SqlSearch, Some(WhereClause(Conditions(fs))), Params(fs) + [PInt(limit)], false)
  }

  /** The query `search_vector` sends: the embedding of the text, then the limit. */
  function VectorRequestFor(queryText: string, limit: int): SqlRequest {
    SqlRequest(VectorSearch, None, [PEmbedding(queryText), PInt(limit)], true)
  }

  /** `intent.semantic_query or intent.cuisine or ""` */
  function SemanticText(intent: ParsedIntent): string {
    if Truthy(intent.semanticQuery) then intent.semanticQuery.value
    else if Truthy(intent.cuisine) then intent.cuisine.value
    else ""
  }

  /** The query `search_hybrid` sends. */
  function HybridRequestFor(intent: ParsedIntent, limit: int): SqlRequest {
    var fs := Filters(intent);
    var text := SemanticText(intent);
    if text != "" then
      SqlRequest(HybridSearch, Some(WhereClause(Conditions(fs))), [PEmbedding(text)] + Params(fs) + [PInt(limit)], true)
    else
      SqlRequest(HybridSearch, Some(WhereClause(Conditions(fs))), Params(fs) + [PInt(limit)], false)
  }

  /**
    For the same intent the hybrid query has the WHERE clause and the
    parameters of the filters-only query, preceded by the embedding exactly
    when there is a semantic text; that text is the semantic query, or else
    the cuisine, and without either the hybrid query orders by rating.
  */
  lemma HybridSharesSqlFilters(intent: ParsedIntent, limit: int)
    ensures HybridRequestFor(intent, limit).whereClause == SqlRequestFor(intent, limit).whereClause
    ensures HybridRequestFor(intent, limit).byDistance <==> Truthy(intent.semanticQuery) || Truthy(intent.cuisine)
    ensures Truthy(intent.semanticQuery) ==>
      HybridRequestFor(intent, limit).params == [PEmbedding(intent.semanticQuery.value)] + SqlRequestFor(intent, limit).params
    ensures !Truthy(intent.semanticQuery) && Truthy(intent.cuisine) ==>
      HybridRequestFor(intent, limit).params == [PEmbedding(intent.cuisine.value)] + SqlRequestFor(intent, limit).params
    ensures !Truthy(intent.semanticQuery) && !Truthy(intent.cuisine) ==>
      HybridRequestFor(intent, limit).params == SqlRequestFor(intent, limit).params
  {
  }

  /** The WHERE clause is `TRUE` exactly when the intent has no truthy filter field. */
  lemma WhereTrueWithoutFilters(intent: ParsedIntent, limit: int)
    requires !Truthy(intent.cuisine) && !Truthy(intent.diet) && !Truthy(intent.course)
    requires !TruthyInt(intent.maxPrepTimeMins) && !TruthyInt(intent.maxCookTimeMins)
    requires !TruthyList(intent.ingredientsInclude)
    ensures SqlRequestFor(intent, limit).whereClause == Some("TRUE")
    ensures SqlRequestFor(intent, limit).params == [PInt(limit)]
  {
    FiltersShape(intent);
  }

  /** The records a query's rows map to, tagged with the query's source and carrying its distances. */
  function ResultsOf(rows: seq<Row>, req: SqlRequest): (rs: seq<PGRecipeResult>)
    ensures |rs| == |rows|
    ensures forall k :: 0 <= k < |rs| ==> rs[k].id == rows[k].id && rs[k].source == SourceTag(req.kind)
    ensures forall k :: 0 <= k < |rs| ==> (rs[k].distance.Some? ==> req.byDistance)
  {
    seq(|rows|, k requires 0 <= k < |rows| => RowToResult(rows[k], SourceTag(req.kind), req.byDistance))
  }

  // ---------------------------------------------------------------- the searches

  /** `search_sql`: filter conditions, ordered by rating; every record is tagged "sql" and has no distance. */
  method SearchSql(intent: ParsedIntent, limit: int, db: SqlRequest -> seq<Row>) returns (results: seq<PGRecipeResult>)
    ensures results == ResultsOf(db(SqlRequestFor(intent, limit)), SqlRequestFor(intent, limit))
    ensures forall r :: r in results ==> r.source == "sql" && r.distance == None
  {
    var conditions, params := BuildFilters(intent);
    var whereClause := if conditions == [] then "TRUE" else Join(" AND ", conditions);
    params := params + [PInt(limit)];
    var req := SqlRequest(SqlSearch, Some(whereClause), params, false);
    var rows := db(req);
    results := seq(|rows|, k requires 0 <= k < |rows| => RowToResult(rows[k], "sql", false));
  }

  /** `search_vector`: ordered by distance to the text's embedding; every record is tagged "vector" with its distance. */
  method SearchVector(queryText: string, limit: int, db: SqlRequest -> seq<Row>) returns (results: seq<PGRecipeResult>)
    ensures results == ResultsOf(db(VectorRequestFor(queryText, limit)), VectorRequestFor(queryText, limit))
    ensures forall k :: 0 <= k < |results| ==>
      results[k].source == "vector" && results[k].distance == db(VectorRequestFor(queryText, limit))[k].distance
  {
    var req := SqlRequest(VectorSearch, None, [PEmbedding(queryText), PInt(limit)], true);
    var rows := db(req);
    results := seq(|rows|, k requires 0 <= k < |rows| => RowToResult(rows[k], "vector", true));
  }

  /**
    `search_hybrid`: the filter conditions of `search_sql`, ordered by
    distance when there is a semantic text. Every record is tagged
    "sql+vector" whether or not a distance was computed.
  */
  method SearchHybrid(intent: ParsedIntent, limit: int, db: SqlRequest -> seq<Row>) returns (results: seq<PGRecipeResult>)
    ensures results == ResultsOf(db(HybridRequestFor(intent, limit)), HybridRequestFor(intent, limit))
    ensures forall r :: r in results ==> r.source == "sql+vector"
    ensures SemanticText(intent) == "" ==> forall r :: r in results ==> r.distance == None
  {
    var conditions, params := BuildFilters(intent);
    var whereClause := if conditions == [] then "TRUE" else Join(" AND ", conditions);
    var whereParams := params;
    var semanticText := if Truthy(intent.semanticQuery) then intent.semanticQuery.value
                        else if Truthy(intent.cuisine) then intent.cuisine.value else "";
    var queryParams;
    if semanticText != "" {
      queryParams := [PEmbedding(semanticText)] + whereParams + [PInt(limit)];
    } else {
      queryParams := whereParams + [PInt(limit)];
    }
    var req := SqlRequest(HybridSearch, Some(whereClause), queryParams, semanticText != "");
    var rows := db(req);
    results := seq(|rows|, k requires 0 <= k < |rows| => RowToResult(rows[k], "sql+vector", semanticText != ""));
  }

  /**
    `get_recipe_by_id` over the table of rows keyed by id: None when no row
    has the id, otherwise the row read as a "sql" record.
  */
  function GetRecipeById(table: map<int, Row>, id: int): (r: Option<PGRecipeResult>)
    ensures r.None? <==> id !in table
    ensures r.Some? ==> r.value == RowToResult(table[id], "sql", false) && r.value.distance == None
  {
    if id in table then Some(RowToResult(table[id], "sql", false)) else None
  }
}
