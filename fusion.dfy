/**
  The search engine's fusion step and the routing around it: which
  retrievers run for an intent, how their results are merged by recipe id,
  scored, boosted when the graph also found them, ordered and cut to the
  limit, how many results each source contributed, and the explanation of
  the routing shown to the user.
*/
module Fusion {
  import opened Optional
  import opened Text
  import opened Intent
  import opened PgQuery
  import opened Ranking
  import KG = KgQuery

  /** A merged result: the recipe's fields, its fused score and the sources that found it. */
  datatype FusedRecipeResult = FusedRecipeResult(
    id: int,
    title: string,
    description: string,
    url: string,
    cuisine: Option<string>,
    course: Option<string>,
    diet: Option<string>,
    prepTimeMins: Option<int>,
    cookTimeMins: Option<int>,
    rating: real,
    voteCount: int,
    ingredients: seq<string>,
    finalScore: real,
    sources: seq<string>,
    imageUrl: Option<string>)

  function FinalScore(r: FusedRecipeResult): real { r.finalScore }

  function IdOf(r: FusedRecipeResult): int { r.id }

  // ---------------------------------------------------------------- scores

  /** The store result's distance can be turned into a similarity (the division is defined). */
  predicate Scorable(r: PGRecipeResult) {
    r.distance.Some? ==> 1.0 + r.distance.value != 0.0
  }

  predicate AllScorable(pg: seq<PGRecipeResult>) {
    forall k :: 0 <= k < |pg| ==> Scorable(pg[k])
  }

  /**
    The similarity read from a vector distance: its product with
    `1 + distance` is one, so a smaller distance gives a larger similarity,
    and a missing distance counts as 0.5.
  */
  function VectorScore(distance: Option<real>): (s: real)
    requires distance.Some? ==> 1.0 + distance.value != 0.0
    ensures distance.None? ==> s == 0.5
    ensures distance.Some? ==> s * (1.0 + distance.value) == 1.0
    ensures distance.Some? && distance.value >= 0.0 ==> 0.0 < s <= 1.0
  {
    if distance.Some? then 1.0 / (1.0 + distance.value) else 0.5
  }

  /** A rating out of five normalised to the unit interval; a zero rating counts as 0.5. */
  function RatingScore(rating: real): (s: real)
    ensures rating == 0.0 ==> s == 0.5
    ensures rating != 0.0 ==> 5.0 * s == rating
    ensures 0.0 <= rating <= 5.0 ==> 0.0 <= s <= 1.0
  {
    if rating != 0.0 then rating / 5.0 else 0.5
  }

  /**
    The score of a store result: 60% similarity and 40% rating. For a
    non-negative distance and a rating between 0 and 5 it lies in [0, 1].
  */
  function StoreScore(r: PGRecipeResult): (s: real)
    requires Scorable(r)
    ensures (r.distance.None? || r.distance.value >= 0.0) && 0.0 <= r.rating <= 5.0 ==> 0.0 <= s <= 1.0
  {
    0.6 * VectorScore(r.distance) + 0.4 * RatingScore(r.rating)
  }

  /** A result at distance 0.2 with rating 4.0 scores 0.6 / 1.2 + 0.4 * 0.8 = 0.82. */
  lemma StoreScoreExample(r: PGRecipeResult)
    requires r.distance == Some(0.2) && r.rating == 4.0
    ensures StoreScore(r) == 0.82
  {
    assert VectorScore(r.distance) == 1.0 / 1.2;
  }

  // ---------------------------------------------------------------- entries

  /** The merged entry for a store result: its own fields, its score, and its own tag as the only source. */
  function StoreEntry(r: PGRecipeResult): (e: FusedRecipeResult)
    requires Scorable(r)
  {
    FusedRecipeResult(r.id, r.title, r.description, r.url, r.cuisine, r.course, r.diet,
      r.prepTimeMins, r.cookTimeMins, r.rating, r.voteCount, r.ingredients,
      StoreScore(r), [r.source], None)
  }

  /**
    The merged entry for a recipe only the graph found: the fields of the
    looked-up record, the graph rating's score, and the single source "kg".
  */
  function GraphEntry(full: PGRecipeResult, graphRating: real): (e: FusedRecipeResult) {
    FusedRecipeResult(full.id, full.title, full.description, full.url, full.cuisine, full.course, full.diet,
      full.prepTimeMins, full.cookTimeMins, full.rating, full.voteCount, full.ingredients,
      RatingScore(graphRating), ["kg"], None)
  }

  /** No string occurs twice. */
  predicate NoDup(s: seq<string>) {
    forall i, j :: 0 <= i < j < |s| ==> s[i] != s[j]
  }

  /**
    An entry the graph found again: its score grows by 20% and "kg" joins
    its sources unless it is there already. The sources keep their order,
    stay free of duplicates, and nothing else changes.
  */
  function Boosted(e: FusedRecipeResult): (b: FusedRecipeResult)
    ensures b.finalScore == 1.2 * e.finalScore
    ensures |b.sources| == if "kg" in e.sources then |e.sources| else |e.sources| + 1
    ensures "kg" in b.sources && b.sources[..|e.sources|] == e.sources
    ensures NoDup(e.sources) ==> NoDup(b.sources)
    ensures b.(finalScore := e.finalScore, sources := e.sources) == e
  {
    e.(finalScore := e.finalScore * 1.2,
       sources := if "kg" in e.sources then e.sources else e.sources + ["kg"])
  }

  /** `x` multiplied by 1.2, `n` times over. */
  function Scaled(x: real, n: nat): real {
    if n == 0 then x else 1.2 * Scaled(x, n - 1)
  }

  /** `e` boosted `n` times. */
  function BoostN(e: FusedRecipeResult, n: nat): FusedRecipeResult {
    if n == 0 then e else Boosted(BoostN(e, n - 1))
  }

  /** Boosting `n` times multiplies the score by 1.2, `n` times over. */
  lemma {:induction false} BoostNScore(e: FusedRecipeResult, n: nat)
    ensures BoostN(e, n).finalScore == Scaled(e.finalScore, n)
  {
    if n > 0 {
      BoostNScore(e, n - 1);
    }
  }

  /**
    Boosting `n > 0` times adds "kg" to the sources once, if it was
    missing; nothing but the score and the sources changes.
  */
  lemma {:induction false} BoostNSources(e: FusedRecipeResult, n: nat)
    ensures BoostN(e, n).sources == if n == 0 || "kg" in e.sources then e.sources else e.sources + ["kg"]
    ensures BoostN(e, n).(finalScore := e.finalScore, sources := e.sources) == e
  {
    if n > 0 {
      BoostNSources(e, n - 1);
    }
  }

  // ---------------------------------------------------------------- the merge

  /**
    The dictionary `results_by_id`: the ids in insertion order and the entry
    of each. Writing to a key that is already present keeps its position.
  */
  datatype Merged = Merged(order: seq<int>, byId: map<int, FusedRecipeResult>)

  /** The order lists every key exactly once. */
  predicate Valid(m: Merged) {
    (forall i, j :: 0 <= i < j < |m.order| ==> m.order[i] != m.order[j])
    && (forall k :: k in m.byId ==> k in m.order)
    && (forall i :: 0 <= i < |m.order| ==> m.order[i] in m.byId)
  }

  /** Every entry is stored under its own id. */
  predicate Keyed(m: Merged) {
    forall k :: k in m.byId ==> m.byId[k].id == k
  }

  /** No entry lists a source twice. */
  predicate SourcesDistinct(m: Merged) {
    forall k :: k in m.byId ==> NoDup(m.byId[k].sources)
  }

  /** `d[k] = v` */
  function Put(m: Merged, k: int, v: FusedRecipeResult): Merged {
    Merged(if k in m.byId then m.order else m.order + [k], m.byId[k := v])
  }

  /** `d.values()`, in insertion order. */
  function Values(m: Merged): seq<FusedRecipeResult>
    requires Valid(m)
  {
    seq(|m.order|, i requires 0 <= i < |m.order| => m.byId[m.order[i]])
  }

  lemma PutValid(m: Merged, k: int, v: FusedRecipeResult)
    requires Valid(m)
    ensures Valid(Put(m, k, v))
    ensures Put(m, k, v).byId.Keys == m.byId.Keys + {k}
  {
  }

  /** The first loop: each store result in turn, a later one with the same id replacing the entry. */
  function StorePhase(pg: seq<PGRecipeResult>): Merged
    requires AllScorable(pg)
  {
    if pg == [] then Merged([], map[])
    else Put(StorePhase(pg[..|pg| - 1]), pg[|pg| - 1].id, StoreEntry(pg[|pg| - 1]))
  }

  /** One graph result: boost the entry with its id, or add the looked-up record if the lookup finds one. */
  function GraphStep(m: Merged, g: KG.KGRecipeResult, table: map<int, Row>): Merged {
    if g.id in m.byId then Merged(m.order, m.byId[g.id := Boosted(m.byId[g.id])])
    else match GetRecipeById(table, g.id)
      case None => m
      case Some(full) => Put(m, g.id, GraphEntry(full, g.rating))
  }

  /** The second loop: each graph result in turn. */
  function GraphPhase(m: Merged, kg: seq<KG.KGRecipeResult>, table: map<int, Row>): Merged {
    if kg == [] then m
    else GraphStep(GraphPhase(m, kg[..|kg| - 1], table), kg[|kg| - 1], table)
  }

  /** The dictionary after both loops. */
  function Merge(kg: seq<KG.KGRecipeResult>, pg: seq<PGRecipeResult>, table: map<int, Row>): Merged
    requires AllScorable(pg)
  {
    GraphPhase(StorePhase(pg), kg, table)
  }

  /** Every row of the lookup table is stored under its own id. */
  predicate KeyedById(table: map<int, Row>) {
    forall k :: k in table ==> table[k].id == k
  }

  lemma {:induction false} StorePhaseValid(pg: seq<PGRecipeResult>)
    requires AllScorable(pg)
    ensures Valid(StorePhase(pg)) && Keyed(StorePhase(pg)) && SourcesDistinct(StorePhase(pg))
  {
    if pg != [] {
      StorePhaseValid(pg[..|pg| - 1]);
      PutValid(StorePhase(pg[..|pg| - 1]), pg[|pg| - 1].id, StoreEntry(pg[|pg| - 1]));
    }
  }

  lemma {:induction false} GraphPhaseValid(m: Merged, kg: seq<KG.KGRecipeResult>, table: map<int, Row>)
    requires Valid(m)
    ensures Valid(GraphPhase(m, kg, table))
    ensures SourcesDistinct(m) ==> SourcesDistinct(GraphPhase(m, kg, table))
    ensures Keyed(m) && KeyedById(table) ==> Keyed(GraphPhase(m, kg, table))
  {
    if kg != [] {
      var prev := GraphPhase(m, kg[..|kg| - 1], table);
      GraphPhaseValid(m, kg[..|kg| - 1], table);
      var g := kg[|kg| - 1];
      if g.id !in prev.byId && g.id in table {
        PutValid(prev, g.id, GraphEntry(GetRecipeById(table, g.id).value, g.rating));
      }
    }
  }

  /** The dictionary the fusion loops leave behind is well formed. */
  lemma MergeValid(kg: seq<KG.KGRecipeResult>, pg: seq<PGRecipeResult>, table: map<int, Row>)
    requires AllScorable(pg)
    ensures Valid(Merge(kg, pg, table)) && SourcesDistinct(Merge(kg, pg, table))
    ensures KeyedById(table) ==> Keyed(Merge(kg, pg, table))
  {
    StorePhaseValid(pg);
    GraphPhaseValid(StorePhase(pg), kg, table);
  }

  // ---------------------------------------------------------------- what each id ends up with

  /** The ids of the store results. */
  function StoreIds(pg: seq<PGRecipeResult>): set<int> {
    if pg == [] then {} else StoreIds(pg[..|pg| - 1]) + {pg[|pg| - 1].id}
  }

  /** The last store result with id `id`: the one whose entry a later write leaves in place. */
  function LastStore(pg: seq<PGRecipeResult>, id: int): (r: PGRecipeResult)
    requires id in StoreIds(pg)
    ensures r in pg && r.id == id
  {
    if pg[|pg| - 1].id == id then pg[|pg| - 1] else LastStore(pg[..|pg| - 1], id)
  }

  /** How many graph results have id `id`. */
  function CountId(kg: seq<KG.KGRecipeResult>, id: int): nat {
    if kg == [] then 0 else CountId(kg[..|kg| - 1], id) + (if kg[|kg| - 1].id == id then 1 else 0)
  }

  /** The rating of the first graph result with id `id`. */
  function FirstGraphRating(kg: seq<KG.KGRecipeResult>, id: int): real
    requires CountId(kg, id) > 0
  {
    if CountId(kg[..|kg| - 1], id) > 0 then FirstGraphRating(kg[..|kg| - 1], id) else kg[|kg| - 1].rating
  }

  lemma {:induction false} StorePhaseEntries(pg: seq<PGRecipeResult>, id: int)
    requires AllScorable(pg)
    ensures id in StorePhase(pg).byId <==> id in StoreIds(pg)
    ensures id in StoreIds(pg) ==> Scorable(LastStore(pg, id)) && StorePhase(pg).byId[id] == StoreEntry(LastStore(pg, id))
  {
    if pg != [] {
      StorePhaseEntries(pg[..|pg| - 1], id);
    }
  }

  /** An id already merged is boosted once per graph result with that id. */
  lemma {:induction false} GraphPhaseKept(m: Merged, kg: seq<KG.KGRecipeResult>, table: map<int, Row>, id: int)
    requires id in m.byId
    ensures id in GraphPhase(m, kg, table).byId && GraphPhase(m, kg, table).byId[id] == BoostN(m.byId[id], CountId(kg, id))
  {
    if kg != [] {
      var init, g := kg[..|kg| - 1], kg[|kg| - 1];
      var prev := GraphPhase(m, init, table);
      GraphPhaseKept(m, init, table, id);
      assert GraphPhase(m, kg, table) == GraphStep(prev, g, table);
      if g.id != id {
        GraphStepOther(prev, g, table, id);
        assert CountId(kg, id) == CountId(init, id);
      } else {
        assert CountId(kg, id) == CountId(init, id) + 1;
        assert GraphStep(prev, g, table).byId[id] == Boosted(prev.byId[id]);
      }
    }
  }

  /** An id not merged yet is present afterwards exactly when the graph returned it and the lookup finds it. */
  lemma {:induction false} GraphPhaseAddedIn(m: Merged, kg: seq<KG.KGRecipeResult>, table: map<int, Row>, id: int)
    requires id !in m.byId
    ensures id in GraphPhase(m, kg, table).byId <==> CountId(kg, id) > 0 && id in table
  {
    if kg != [] {
      var init, g := kg[..|kg| - 1], kg[|kg| - 1];
      GraphPhaseAddedIn(m, init, table, id);
      if g.id != id {
        GraphStepOther(GraphPhase(m, init, table), g, table, id);
      }
    }
  }

  /**
    An id not merged yet is added by its first graph result when the lookup
    finds it, and boosted by each further one.
  */
  lemma {:induction false} GraphPhaseAdded(m: Merged, kg: seq<KG.KGRecipeResult>, table: map<int, Row>, id: int)
    requires id !in m.byId
    ensures id in GraphPhase(m, kg, table).byId <==> CountId(kg, id) > 0 && id in table
    ensures CountId(kg, id) > 0 && id in table ==> GraphPhase(m, kg, table).byId[id] == AddedValue(kg, table, id)
  {
    GraphPhaseAddedIn(m, kg, table, id);
    if CountId(kg, id) > 0 && id in table {
      GraphPhaseAddedEntry(m, kg, table, id);
    }
  }

  /** The entry of an id the graph phase added: the first graph result's entry, boosted by each further one. */
  function AddedValue(kg: seq<KG.KGRecipeResult>, table: map<int, Row>, id: int): FusedRecipeResult
    requires CountId(kg, id) > 0 && id in table
  {
    BoostN(GraphEntry(RowToResult(table[id], "sql", false), FirstGraphRating(kg, id)), CountId(kg, id) - 1)
  }

  predicate AddedEntry(m: Merged, kg: seq<KG.KGRecipeResult>, table: map<int, Row>, id: int)
    requires CountId(kg, id) > 0 && id in table
  {
    id in GraphPhase(m, kg, table).byId && GraphPhase(m, kg, table).byId[id] == AddedValue(kg, table, id)
  }

  lemma {:induction false} GraphPhaseAddedEntry(m: Merged, kg: seq<KG.KGRecipeResult>, table: map<int, Row>, id: int)
    requires id !in m.byId && CountId(kg, id) > 0 && id in table
    ensures AddedEntry(m, kg, table, id)
  {
    var init, g := kg[..|kg| - 1], kg[|kg| - 1];
    if g.id != id {
      GraphPhaseAddedEntry(m, init, table, id);
      AddedByOther(m, kg, table, id);
    } else if CountId(init, id) > 0 {
      GraphPhaseAddedEntry(m, init, table, id);
      AddedBoosted(m, kg, table, id);
    } else {
      AddedFirst(m, kg, table, id);
    }
  }

  lemma {:induction false} AddedByOther(m: Merged, kg: seq<KG.KGRecipeResult>, table: map<int, Row>, id: int)
    requires kg != [] && kg[|kg| - 1].id != id && id in table
    requires CountId(kg[..|kg| - 1], id) > 0 && AddedEntry(m, kg[..|kg| - 1], table, id)
    ensures CountId(kg, id) > 0 && AddedEntry(m, kg, table, id)
  {
    var init, g := kg[..|kg| - 1], kg[|kg| - 1];
    AddedValueOther(kg, table, id);
    GraphStepOther(GraphPhase(m, init, table), g, table, id);
  }

  /** A graph result with another id changes neither the count nor the first rating of `id`. */
  lemma AddedValueOther(kg: seq<KG.KGRecipeResult>, table: map<int, Row>, id: int)
    requires kg != [] && kg[|kg| - 1].id != id && id in table && CountId(kg[..|kg| - 1], id) > 0
    ensures CountId(kg, id) > 0 && AddedValue(kg, table, id) == AddedValue(kg[..|kg| - 1], table, id)
  {
    var init := kg[..|kg| - 1];
    assert CountId(kg, id) == CountId(init, id);
    assert FirstGraphRating(kg, id) == FirstGraphRating(init, id);
  }

  lemma {:induction false} AddedBoosted(m: Merged, kg: seq<KG.KGRecipeResult>, table: map<int, Row>, id: int)
    requires kg != [] && kg[|kg| - 1].id == id && id in table
    requires CountId(kg[..|kg| - 1], id) > 0 && AddedEntry(m, kg[..|kg| - 1], table, id)
    ensures CountId(kg, id) > 0 && AddedEntry(m, kg, table, id)
  {
    var init, g := kg[..|kg| - 1], kg[|kg| - 1];
    GraphStepBoosts(GraphPhase(m, init, table), g, table);
  }

  lemma {:induction false} AddedFirst(m: Merged, kg: seq<KG.KGRecipeResult>, table: map<int, Row>, id: int)
    requires kg != [] && kg[|kg| - 1].id == id && id in table && id !in m.byId
    requires CountId(kg[..|kg| - 1], id) == 0
    ensures CountId(kg, id) > 0 && AddedEntry(m, kg, table, id)
  {
    var init, g := kg[..|kg| - 1], kg[|kg| - 1];
    GraphPhaseAddedIn(m, init, table, id);
    GraphStepAdds(GraphPhase(m, init, table), g, table);
  }

  lemma GraphStepBoosts(m: Merged, g: KG.KGRecipeResult, table: map<int, Row>)
    requires g.id in m.byId
    ensures g.id in GraphStep(m, g, table).byId && GraphStep(m, g, table).byId[g.id] == Boosted(m.byId[g.id])
  {
  }

  lemma GraphStepAdds(m: Merged, g: KG.KGRecipeResult, table: map<int, Row>)
    requires g.id !in m.byId && g.id in table
    ensures g.id in GraphStep(m, g, table).byId
    ensures GraphStep(m, g, table).byId[g.id] == GraphEntry(RowToResult(table[g.id], "sql", false), g.rating)
  {
  }

  /** A graph result leaves the entries of other ids alone. */
  lemma GraphStepOther(m: Merged, g: KG.KGRecipeResult, table: map<int, Row>, id: int)
    requires g.id != id
    ensures id in GraphStep(m, g, table).byId <==> id in m.byId
    ensures id in m.byId ==> GraphStep(m, g, table).byId[id] == m.byId[id]
  {
  }

  /**
    What the merge holds for one id. A store id holds the entry of its last
    store result, boosted once per graph result with the same id. Any other
    id is present exactly when the graph returned it and the lookup finds
    it; it then holds the looked-up record scored by the first graph
    result's rating, boosted once per further graph result.
  */
  lemma {:induction false} MergeEntries(kg: seq<KG.KGRecipeResult>, pg: seq<PGRecipeResult>, table: map<int, Row>, id: int)
    requires AllScorable(pg)
    ensures id in StoreIds(pg) ==>
      Scorable(LastStore(pg, id)) && id in Merge(kg, pg, table).byId
      && Merge(kg, pg, table).byId[id] == BoostN(StoreEntry(LastStore(pg, id)), CountId(kg, id))
    ensures id !in StoreIds(pg) ==> (id in Merge(kg, pg, table).byId <==> CountId(kg, id) > 0 && id in table)
    ensures id !in StoreIds(pg) && CountId(kg, id) > 0 && id in table ==>
      Merge(kg, pg, table).byId[id]
        == BoostN(GraphEntry(RowToResult(table[id], "sql", false), FirstGraphRating(kg, id)), CountId(kg, id) - 1)
  {
    StorePhaseEntries(pg, id);
    if id in StoreIds(pg) {
      GraphPhaseKept(StorePhase(pg), kg, table, id);
    } else {
      GraphPhaseAdded(StorePhase(pg), kg, table, id);
    }
  }

  /**
    A recipe the store returned and the graph returned once ends with 1.2
    times its store score, and with "kg" after the store's tag as its
    sources; the rest of the entry is the store result's.
  */
  lemma FoundByBoth(kg: seq<KG.KGRecipeResult>, pg: seq<PGRecipeResult>, table: map<int, Row>, id: int)
    requires AllScorable(pg)
    requires id in StoreIds(pg) && CountId(kg, id) == 1 && LastStore(pg, id).source != "kg"
    ensures Scorable(LastStore(pg, id)) && id in Merge(kg, pg, table).byId
    ensures Merge(kg, pg, table).byId[id].finalScore == 1.2 * StoreScore(LastStore(pg, id))
    ensures Merge(kg, pg, table).byId[id].sources == [LastStore(pg, id).source, "kg"]
    ensures Merge(kg, pg, table).byId[id].(finalScore := 0.0, sources := []) == StoreEntry(LastStore(pg, id)).(finalScore := 0.0, sources := [])
  {
    MergeEntries(kg, pg, table, id);
    BoostNScore(StoreEntry(LastStore(pg, id)), 1);
    BoostNSources(StoreEntry(LastStore(pg, id)), 1);
  }

  /**
    A recipe only the graph returned, once, is kept exactly when the lookup
    finds it; it then has the looked-up record's fields, the graph rating
    over five (0.5 for a zero rating) as its score, and "kg" as its only source.
  */
  lemma FoundByGraphOnly(kg: seq<KG.KGRecipeResult>, pg: seq<PGRecipeResult>, table: map<int, Row>, id: int, k: int)
    requires AllScorable(pg)
    requires id !in StoreIds(pg) && CountId(kg, id) == 1 && 0 <= k < |kg| && kg[k].id == id
    ensures id in Merge(kg, pg, table).byId <==> GetRecipeById(table, id).Some?
    ensures id in Merge(kg, pg, table).byId ==>
      Merge(kg, pg, table).byId[id] == GraphEntry(GetRecipeById(table, id).value, kg[k].rating)
    ensures id in Merge(kg, pg, table).byId ==>
      Merge(kg, pg, table).byId[id].finalScore == RatingScore(kg[k].rating) && Merge(kg, pg, table).byId[id].sources == ["kg"]
  {
    MergeEntries(kg, pg, table, id);
    forall j | 0 <= j < k ensures kg[j].id != id {
      if kg[j].id == id {
        CountIdTwo(kg, id, j, k);
      }
    }
    FirstGraphRatingAt(kg, id, k);
  }

  /** Two graph results with the same id count twice. */
  lemma {:induction false} CountIdTwo(kg: seq<KG.KGRecipeResult>, id: int, j: int, k: int)
    requires 0 <= j < k < |kg| && kg[j].id == id && kg[k].id == id
    ensures CountId(kg, id) >= 2
  {
    if k < |kg| - 1 {
      CountIdTwo(kg[..|kg| - 1], id, j, k);
    } else {
      CountIdOne(kg[..|kg| - 1], id, j);
    }
  }

  lemma {:induction false} CountIdOne(kg: seq<KG.KGRecipeResult>, id: int, j: int)
    requires 0 <= j < |kg| && kg[j].id == id
    ensures CountId(kg, id) >= 1
  {
    if j < |kg| - 1 {
      CountIdOne(kg[..|kg| - 1], id, j);
    }
  }

  /** The first graph result with the id carries the first graph rating. */
  lemma {:induction false} FirstGraphRatingAt(kg: seq<KG.KGRecipeResult>, id: int, k: int)
    requires 0 <= k < |kg| && kg[k].id == id
    requires forall j :: 0 <= j < k ==> kg[j].id != id
    ensures CountId(kg, id) > 0 && FirstGraphRating(kg, id) == kg[k].rating
  {
    if k < |kg| - 1 {
      FirstGraphRatingAt(kg[..|kg| - 1], id, k);
    } else {
      CountIdNone(kg[..|kg| - 1], id);
    }
  }

  lemma {:induction false} CountIdNone(kg: seq<KG.KGRecipeResult>, id: int)
    requires forall j :: 0 <= j < |kg| ==> kg[j].id != id
    ensures CountId(kg, id) == 0
  {
    if kg != [] {
      CountIdNone(kg[..|kg| - 1], id);
    }
  }

  // ---------------------------------------------------------------- insertion order

  function IdSeq(pg: seq<PGRecipeResult>): seq<int> {
    seq(|pg|, k requires 0 <= k < |pg| => pg[k].id)
  }

  /** The ids of `s` in the order of their first occurrence. */
  function Dedup(s: seq<int>): seq<int> {
    if s == [] then []
    else if s[|s| - 1] in Dedup(s[..|s| - 1]) then Dedup(s[..|s| - 1])
    else Dedup(s[..|s| - 1]) + [s[|s| - 1]]
  }

  lemma {:induction false} StorePhaseOrder(pg: seq<PGRecipeResult>)
    requires AllScorable(pg)
    ensures StorePhase(pg).order == Dedup(IdSeq(pg))
  {
    if pg != [] {
      StorePhaseOrder(pg[..|pg| - 1]);
      StorePhaseValid(pg[..|pg| - 1]);
      assert IdSeq(pg)[..|pg| - 1] == IdSeq(pg[..|pg| - 1]);
    }
  }

  lemma {:induction false} GraphPhaseOrder(m: Merged, kg: seq<KG.KGRecipeResult>, table: map<int, Row>)
    ensures |GraphPhase(m, kg, table).order| >= |m.order|
    ensures GraphPhase(m, kg, table).order[..|m.order|] == m.order
    ensures forall i :: |m.order| <= i < |GraphPhase(m, kg, table).order| ==> GraphPhase(m, kg, table).order[i] in table
  {
    if kg != [] {
      GraphPhaseOrder(m, kg[..|kg| - 1], table);
    }
  }

  /**
    The insertion order of the merge: the store results' ids first, each at
    its first occurrence, then the ids the graph added, all of which the
    lookup found.
  */
  lemma MergeOrder(kg: seq<KG.KGRecipeResult>, pg: seq<PGRecipeResult>, table: map<int, Row>)
    requires AllScorable(pg)
    ensures |Merge(kg, pg, table).order| >= |Dedup(IdSeq(pg))|
    ensures Merge(kg, pg, table).order[..|Dedup(IdSeq(pg))|] == Dedup(IdSeq(pg))
    ensures forall i :: |Dedup(IdSeq(pg))| <= i < |Merge(kg, pg, table).order| ==>
      Merge(kg, pg, table).order[i] in table && Merge(kg, pg, table).order[i] !in StoreIds(pg)
  {
    StorePhaseOrder(pg);
    StorePhaseValid(pg);
    GraphPhaseOrder(StorePhase(pg), kg, table);
    MergeValid(kg, pg, table);
    var m, n := Merge(kg, pg, table), |StorePhase(pg).order|;
    forall i | n <= i < |m.order| ensures m.order[i] !in StoreIds(pg) {
      StorePhaseEntries(pg, m.order[i]);
      assert forall j :: 0 <= j < n ==> StorePhase(pg).order[j] == m.order[j] != m.order[i];
    }
  }

  // ---------------------------------------------------------------- the ranked list

  /** The merged values in descending score order. */
  function Ranked(kg: seq<KG.KGRecipeResult>, pg: seq<PGRecipeResult>, table: map<int, Row>): seq<FusedRecipeResult>
    requires AllScorable(pg)
  {
    MergeValid(kg, pg, table);
    SortDesc(Values(Merge(kg, pg, table)), FinalScore)
  }

  /** `sorted(results_by_id.values(), key=final_score, reverse=True)[:limit]` */
  function FuseSpec(kg: seq<KG.KGRecipeResult>, pg: seq<PGRecipeResult>, table: map<int, Row>, limit: int): seq<FusedRecipeResult>
    requires AllScorable(pg)
  {
    TakePy(Ranked(kg, pg, table), limit)
  }

  lemma ValuesShape(m: Merged)
    requires Valid(m)
    ensures |Values(m)| == |m.order|
    ensures SourcesDistinct(m) ==> forall r :: r in Values(m) ==> NoDup(r.sources)
    ensures Keyed(m) ==> DistinctBy(Values(m), IdOf)
    ensures Keyed(m) ==> forall r :: r in Values(m) ==> r.id in m.byId && m.byId[r.id] == r
  {
    forall r | r in Values(m) ensures exists i :: 0 <= i < |m.order| && r == m.byId[m.order[i]] {
      var i :| 0 <= i < |Values(m)| && Values(m)[i] == r;
    }
  }

  /**
    The ranking is the merge's values in descending score order, stable,
    with the same elements; the sources of each entry are distinct, and
    when every table row is stored under its own id no two entries share
    an id and each is the merge's entry for its id.
  */
  lemma RankedShape(kg: seq<KG.KGRecipeResult>, pg: seq<PGRecipeResult>, table: map<int, Row>)
    requires AllScorable(pg)
    ensures Valid(Merge(kg, pg, table))
    ensures multiset(Ranked(kg, pg, table)) == multiset(Values(Merge(kg, pg, table)))
    ensures |Ranked(kg, pg, table)| == |Merge(kg, pg, table).order|
    ensures SortedDesc(Ranked(kg, pg, table), FinalScore)
    ensures forall v :: WithKey(Ranked(kg, pg, table), FinalScore, v) == WithKey(Values(Merge(kg, pg, table)), FinalScore, v)
    ensures forall r :: r in Ranked(kg, pg, table) ==> NoDup(r.sources)
    ensures KeyedById(table) ==> DistinctBy(Ranked(kg, pg, table), IdOf)
    ensures KeyedById(table) ==> forall r :: r in Ranked(kg, pg, table) ==>
      r.id in Merge(kg, pg, table).byId && Merge(kg, pg, table).byId[r.id] == r
  {
    MergeValid(kg, pg, table);
    var m := Merge(kg, pg, table);
    var vs := Values(m);
    ValuesShape(m);
    SortDescCorrect(vs, FinalScore);
    SortDescElements(vs, FinalScore);
    if KeyedById(table) {
      SortDescDistinct(vs, FinalScore, IdOf);
    }
  }

  /**
    The fused list is the start of the ranking: at most `limit` entries (a
    negative limit drops that many from the end), in descending score
    order, each with distinct sources; when every table row is stored under
    its own id no two entries share an id and each is the merge's entry
    for its id.
  */
  lemma FusedShape(kg: seq<KG.KGRecipeResult>, pg: seq<PGRecipeResult>, table: map<int, Row>, limit: int)
    requires AllScorable(pg)
    ensures FuseSpec(kg, pg, table, limit) == Ranked(kg, pg, table)[..|FuseSpec(kg, pg, table, limit)|]
    ensures 0 <= limit ==> |FuseSpec(kg, pg, table, limit)| == if limit < |Merge(kg, pg, table).order| then limit else |Merge(kg, pg, table).order|
    ensures SortedDesc(FuseSpec(kg, pg, table, limit), FinalScore)
    ensures forall r :: r in FuseSpec(kg, pg, table, limit) ==> NoDup(r.sources)
    ensures KeyedById(table) ==> DistinctBy(FuseSpec(kg, pg, table, limit), IdOf)
    ensures KeyedById(table) ==> forall r :: r in FuseSpec(kg, pg, table, limit) ==>
      r.id in Merge(kg, pg, table).byId && Merge(kg, pg, table).byId[r.id] == r
  {
    RankedShape(kg, pg, table);
    var ranked := Ranked(kg, pg, table);
    var fused := FuseSpec(kg, pg, table, limit);
    assert fused == ranked[..|fused|];
    forall r | r in fused ensures r in ranked {
      var i :| 0 <= i < |fused| && fused[i] == r;
      assert ranked[i] == r;
    }
  }

  /**
    `_fuse_results`: merges the store results and then the graph results
    into a dictionary keyed by id, orders its values by descending score
    (stable) and keeps the first `limit`. The `table` stands for the lookup
    `get_recipe_by_id` performs for a graph result the store did not return.
  */
  method FuseResults(kgResults: seq<KG.KGRecipeResult>, pgResults: seq<PGRecipeResult>, limit: int, table: map<int, Row>)
    returns (fused: seq<FusedRecipeResult>)
    requires AllScorable(pgResults)
    ensures fused == FuseSpec(kgResults, pgResults, table, limit)
    ensures SortedDesc(fused, FinalScore)
    ensures 0 <= limit ==> |fused| <= limit
    ensures forall r :: r in fused ==> NoDup(r.sources)
    ensures KeyedById(table) ==> DistinctBy(fused, IdOf)
  {
    var order, byId := MergeStoreResults(pgResults);
    order, byId := MergeGraphResults(order, byId, kgResults, table);
    MergeValid(kgResults, pgResults, table);
    assert Merged(order, byId) == Merge(kgResults, pgResults, table);
    var values := seq(|order|, k requires 0 <= k < |order| => byId[order[k]]);
    assert values == Values(Merged(order, byId));
    var sorted := SortDesc(values, FinalScore);
    fused := TakePy(sorted, limit);
    FusedShape(kgResults, pgResults, table, limit);
  }

  /** The first loop of `_fuse_results`: each store result scored and written under its id. */
  method MergeStoreResults(pgResults: seq<PGRecipeResult>) returns (order: seq<int>, byId: map<int, FusedRecipeResult>)
    requires AllScorable(pgResults)
    ensures Merged(order, byId) == StorePhase(pgResults)
  {
    order, byId := [], map[];
    for i := 0 to |pgResults|
      invariant Merged(order, byId) == StorePhase(pgResults[..i])
    {
      var r := pgResults[i];
      var vectorScore := if r.distance.Some? then 1.0 / (1.0 + r.distance.value) else 0.5;
      var ratingScore := if r.rating != 0.0 then r.rating / 5.0 else 0.5;
      var finalScore := 0.6 * vectorScore + 0.4 * ratingScore;
      var entry := FusedRecipeResult(r.id, r.title, r.description, r.url, r.cuisine, r.course, r.diet,
        r.prepTimeMins, r.cookTimeMins, r.rating, r.voteCount, r.ingredients, finalScore, [r.source], None);
      assert Scorable(r) && entry == StoreEntry(r);
      assert pgResults[..i + 1][..i] == pgResults[..i];
      ghost var before := Merged(order, byId);
      if r.id !in byId {
        order := order + [r.id];
      }
      byId := byId[r.id := entry];
      assert Merged(order, byId) == Put(before, r.id, StoreEntry(r));
    }
    assert pgResults[..|pgResults|] == pgResults;
  }

  /**
    The second loop of `_fuse_results`: each graph result boosts the entry
    with its id, or adds the looked-up record when there is none yet.
  */
  method MergeGraphResults(order0: seq<int>, byId0: map<int, FusedRecipeResult>, kgResults: seq<KG.KGRecipeResult>,
                           table: map<int, Row>) returns (order: seq<int>, byId: map<int, FusedRecipeResult>)
    ensures Merged(order, byId) == GraphPhase(Merged(order0, byId0), kgResults, table)
  {
    order, byId := order0, byId0;
    for i := 0 to |kgResults|
      invariant Merged(order, byId) == GraphPhase(Merged(order0, byId0), kgResults[..i], table)
    {
      assert kgResults[..i + 1][..i] == kgResults[..i];
      order, byId := MergeGraphResult(order, byId, kgResults[i], table);
    }
    assert kgResults[..|kgResults|] == kgResults;
  }

  /** One pass of the second loop: boost the entry with the graph result's id, or add the looked-up record. */
  method MergeGraphResult(order0: seq<int>, byId0: map<int, FusedRecipeResult>, g: KG.KGRecipeResult, table: map<int, Row>)
    returns (order: seq<int>, byId: map<int, FusedRecipeResult>)
    ensures Merged(order, byId) == GraphStep(Merged(order0, byId0), g, table)
  {
    order, byId := order0, byId0;
    if g.id in byId {
      var existing := byId[g.id];
      var sources := if "kg" in existing.sources then existing.sources else existing.sources + ["kg"];
      byId := byId[g.id := existing.(finalScore := existing.finalScore * 1.2, sources := sources)];
    } else {
      var fullRecipe := GetRecipeById(table, g.id);
      if fullRecipe.Some? {
        var full := fullRecipe.value;
        var ratingScore := if g.rating != 0.0 then g.rating / 5.0 else 0.5;
        order := order + [g.id];
        byId := byId[g.id := FusedRecipeResult(full.id, full.title, full.description, full.url, full.cuisine,
          full.course, full.diet, full.prepTimeMins, full.cookTimeMins, full.rating, full.voteCount,
          full.ingredients, ratingScore, ["kg"], None)];
        assert Merged(order, byId) == Put(Merged(order0, byId0), g.id, GraphEntry(full, g.rating));
      }
    }
  }

  // ---------------------------------------------------------------- source breakdown

  /** The tags the breakdown reports, each starting at zero. */
  const BreakdownTags: set<string> := {"kg", "sql", "vector", "sql+vector"}

  /** How often `t` occurs in `s`. */
  function Occurrences(s: seq<string>, t: string): nat {
    if s == [] then 0 else Occurrences(s[..|s| - 1], t) + (if s[|s| - 1] == t then 1 else 0)
  }

  /** How often `t` occurs among the sources of all the results. */
  function TagTotal(rs: seq<FusedRecipeResult>, t: string): nat {
    if rs == [] then 0 else TagTotal(rs[..|rs| - 1], t) + Occurrences(rs[|rs| - 1].sources, t)
  }

  /** How many of the results list `t` among their sources. */
  function ResultsWith(rs: seq<FusedRecipeResult>, t: string): nat {
    if rs == [] then 0 else ResultsWith(rs[..|rs| - 1], t) + (if t in rs[|rs| - 1].sources then 1 else 0)
  }

  lemma {:induction false} OccurrencesNoDup(s: seq<string>, t: string)
    requires NoDup(s)
    ensures Occurrences(s, t) == if t in s then 1 else 0
  {
    if s != [] {
      var init := s[..|s| - 1];
      OccurrencesNoDup(init, t);
      assert s == init + [s[|s| - 1]];
      if s[|s| - 1] == t {
        assert t !in init;
      }
    }
  }

  /** When no result lists a source twice, a tag's total is the number of results that carry it. */
  lemma {:induction false} TagTotalCountsResults(rs: seq<FusedRecipeResult>, t: string)
    requires forall r :: r in rs ==> NoDup(r.sources)
    ensures TagTotal(rs, t) == ResultsWith(rs, t)
  {
    if rs != [] {
      var init := rs[..|rs| - 1];
      assert forall r :: r in init ==> r in rs;
      TagTotalCountsResults(init, t);
      OccurrencesNoDup(rs[|rs| - 1].sources, t);
    }
  }

  /**
    The `source_breakdown` loop of `search`: one counter per known tag, each
    incremented for every occurrence of its tag among the results' sources;
    other tags are ignored.
  */
  method SourceBreakdown(fused: seq<FusedRecipeResult>) returns (breakdown: map<string, int>)
    ensures breakdown.Keys == BreakdownTags
    ensures forall t :: t in breakdown ==> breakdown[t] == TagTotal(fused, t)
  {
    breakdown := map["kg" := 0, "sql" := 0, "vector" := 0, "sql+vector" := 0];
    for i := 0 to |fused|
      invariant breakdown.Keys == BreakdownTags
      invariant forall t :: t in breakdown ==> breakdown[t] == TagTotal(fused[..i], t)
    {
      var sources := fused[i].sources;
      for j := 0 to |sources|
        invariant breakdown.Keys == BreakdownTags
        invariant forall t :: t in breakdown ==> breakdown[t] == TagTotal(fused[..i], t) + Occurrences(sources[..j], t)
      {
        var source := sources[j];
        if source in breakdown {
          breakdown := breakdown[source := breakdown[source] + 1];
        }
        assert sources[..j + 1][..j] == sources[..j];
      }
      assert sources[..|sources|] == sources;
      assert fused[..i + 1][..i] == fused[..i];
    }
    assert fused[..|fused|] == fused;
  }

  // ---------------------------------------------------------------- routing

  /** The graph search runs when the intent asks for it or names ingredients. */
  predicate GraphRuns(intent: ParsedIntent) {
    intent.useKg || TruthyList(intent.ingredientsInclude)
  }

  /** One of the three explicit store rules applies (otherwise the hybrid search runs by default). */
  predicate StoreRuleFires(intent: ParsedIntent) {
    intent.useSql || (intent.useVector && Truthy(intent.semanticQuery))
  }

  /** The store search `search` runs: the first of hybrid, vector, SQL whose rule applies, else hybrid. */
  function StoreChoice(intent: ParsedIntent): SearchKind {
    if intent.useSql && intent.useVector then HybridSearch
    else if intent.useVector && Truthy(intent.semanticQuery) then VectorSearch
    else if intent.useSql then SqlSearch
    else HybridSearch
  }

  /** The query the chosen store search sends: it has the chosen shape and asks for twice the limit. */
  function StoreRequest(intent: ParsedIntent, limit: int): (req: SqlRequest)
    ensures req.kind == StoreChoice(intent)
    ensures |req.params| >= 1 && req.params[|req.params| - 1] == PInt(limit * 2)
  {
    if intent.useSql && intent.useVector then HybridRequestFor(intent, limit * 2)
    else if intent.useVector && Truthy(intent.semanticQuery) then VectorRequestFor(intent.semanticQuery.value, limit * 2)
    else if intent.useSql then SqlRequestFor(intent, limit * 2)
    else HybridRequestFor(intent, limit * 2)
  }

  /** The store results `search` fuses: those of the chosen query's rows. */
  function StoreResults(intent: ParsedIntent, limit: int, db: SqlRequest -> seq<Row>): seq<PGRecipeResult> {
    ResultsOf(db(StoreRequest(intent, limit)), StoreRequest(intent, limit))
  }

  /** The graph results `search` fuses: those of the graph query at twice the limit, or none when it does not run. */
  function GraphResults(intent: ParsedIntent, limit: int, run: KG.CypherQuery -> seq<KG.KgRecord>): seq<KG.KGRecipeResult> {
    if GraphRuns(intent) then
      var records := run(KG.SearchQuery(intent, limit * 2));
      seq(|records|, k requires 0 <= k < |records| => KG.RecordToResult(records[k], 1.0))
    else []
  }

  /** Every row's distance can be scored. */
  predicate ScorableRows(rows: seq<Row>) {
    forall k :: 0 <= k < |rows| ==> (rows[k].distance.Some? ==> 1.0 + rows[k].distance.value != 0.0)
  }

  lemma ResultsScorable(rows: seq<Row>, req: SqlRequest)
    requires ScorableRows(rows)
    ensures AllScorable(ResultsOf(rows, req))
  {
  }

  // ---------------------------------------------------------------- routing explanation

  /** Each explanation line starts with the label of the search it describes. */
  const GraphLabel: string := "Knowledge Graph: "

  function GraphLine(intent: ParsedIntent): string {
    GraphLabel + (
      if TruthyList(intent.ingredientsInclude) then "searching for recipes with " + Join(", ", intent.ingredientsInclude.value)
      else "exploring ingredient relationships")
  }

  /** The label the line of each store search starts with. */
  function StoreLabel(kind: SearchKind): string {
    match kind
    case HybridSearch => "SQL+Vector: "
    case VectorSearch => "Vector: "
    case SqlSearch => "SQL: "
  }

  /** The filters the hybrid line mentions: cuisine, diet and the prep ceiling. */
  function HybridFilterNotes(intent: ParsedIntent): seq<string> {
    (if Truthy(intent.cuisine) then ["cuisine=" + intent.cuisine.value] else [])
    + (if Truthy(intent.diet) then ["diet=" + intent.diet.value] else [])
    + (if TruthyInt(intent.maxPrepTimeMins) then ["prep<=" + IntToString(intent.maxPrepTimeMins.value) + "min"] else [])
  }

  /** The filters the SQL line mentions: cuisine, diet and course. */
  function SqlFilterNotes(intent: ParsedIntent): seq<string> {
    (if Truthy(intent.cuisine) then ["cuisine=" + intent.cuisine.value] else [])
    + (if Truthy(intent.diet) then ["diet=" + intent.diet.value] else [])
    + (if Truthy(intent.course) then ["course=" + intent.course.value] else [])
  }

  /** The line for the store search, when one of its rules applies. */
  function StoreLine(intent: ParsedIntent): Option<string> {
    if intent.useSql && intent.useVector then
      var notes := HybridFilterNotes(intent);
      Some(StoreLabel(HybridSearch) + (
        "hybrid search combining filters"
        + (if notes != [] then " (" + Join(", ", notes) + ")" else "")
        + " with semantic similarity"))
    else if intent.useVector && Truthy(intent.semanticQuery) then
      Some(StoreLabel(VectorSearch) + ("semantic search for '" + intent.semanticQuery.value + "'"))
    else if intent.useSql then
      var notes := SqlFilterNotes(intent);
      Some(StoreLabel(SqlSearch) + ("filtering by " + (if notes != [] then Join(", ", notes) else "structured filters")))
    else None
  }

  const DefaultLine: string := "Default: " + "hybrid search with semantic similarity"

  /** `_generate_routing_explanation` */
  function RoutingExplanation(intent: ParsedIntent): seq<string> {
    var lines := (if GraphRuns(intent) then [GraphLine(intent)] else [])
      + (if StoreLine(intent).Some? then [StoreLine(intent).value] else []);
    if lines == [] then [DefaultLine] else lines
  }

  lemma PrefixConcat(a: string, b: string)
    ensures IsPrefix(a, a + b)
  {
    assert (a + b)[..|a|] == a;
  }

  lemma PrefixHead(p: string, s: string)
    requires IsPrefix(p, s) && p != []
    ensures s[0] == p[0]
  {
    assert s[..|p|][0] == s[0];
  }

  lemma StoreLineShape(intent: ParsedIntent)
    ensures StoreLine(intent).Some? <==> StoreRuleFires(intent)
    ensures StoreLine(intent).Some? ==> IsPrefix(StoreLabel(StoreChoice(intent)), StoreLine(intent).value)
    ensures StoreLine(intent).Some? ==> StoreLine(intent).value[0] in {'S', 'V'}
  {
    if StoreLine(intent).Some? {
      var tag := StoreLabel(StoreChoice(intent));
      var line := StoreLine(intent).value;
      assert line == tag + line[|tag|..];
      PrefixConcat(tag, line[|tag|..]);
      PrefixHead(tag, line);
    }
  }

  /**
    The explanation names the searches `search` runs: one or two lines, the
    first a graph line exactly when the graph search runs, a store line
    starting with the chosen search's label exactly when one of the three
    store rules applies, and the default line alone exactly when neither
    produced a line.
  */
  lemma RoutingExplanationShape(intent: ParsedIntent)
    ensures 1 <= |RoutingExplanation(intent)| <= 2
    ensures GraphRuns(intent) <==> IsPrefix(GraphLabel, RoutingExplanation(intent)[0])
    ensures |RoutingExplanation(intent)| == 2 <==> GraphRuns(intent) && StoreRuleFires(intent)
    ensures StoreRuleFires(intent) ==>
      IsPrefix(StoreLabel(StoreChoice(intent)), RoutingExplanation(intent)[|RoutingExplanation(intent)| - 1])
    ensures RoutingExplanation(intent) == [DefaultLine] <==> !GraphRuns(intent) && !StoreRuleFires(intent)
  {
    StoreLineShape(intent);
    var g := GraphLine(intent);
    PrefixConcat(GraphLabel, g[|GraphLabel|..]);
    assert g == GraphLabel + g[|GraphLabel|..];
    assert g[0] == 'K';
    if StoreLine(intent).Some? {
      var line := StoreLine(intent).value;
      if IsPrefix(GraphLabel, line) {
        PrefixHead(GraphLabel, line);
      }
    }
    assert DefaultLine[0] == 'D' && GraphLabel[0] == 'K';
    if IsPrefix(GraphLabel, DefaultLine) {
      PrefixHead(GraphLabel, DefaultLine);
    }
  }

  // ---------------------------------------------------------------- search

  datatype Thinking = Thinking(reasoning: Option<string>, routingExplanation: seq<string>)

  datatype SearchResponse = SearchResponse(
    query: string,
    parsedIntent: ParsedIntent,
    results: seq<FusedRecipeResult>,
    sourceBreakdown: map<string, int>,
    thinking: Option<Thinking>)

  /**
    `search` for an intent already parsed from `query`: runs the graph
    search when it applies and exactly one store search, both at twice the
    limit, fuses their results, counts the sources and explains the
    routing. `db`, `run` and `table` stand for the two stores; `reasoning`
    is the extractor's explanation, when it gives one.
  */
  method Search(query: string, intent: ParsedIntent, reasoning: Option<string>, limit: int,
                db: SqlRequest -> seq<Row>, run: KG.CypherQuery -> seq<KG.KgRecord>, table: map<int, Row>)
    returns (response: SearchResponse)
    requires forall req :: ScorableRows(db(req))
    ensures AllScorable(StoreResults(intent, limit, db))
    ensures response.results == FuseSpec(GraphResults(intent, limit, run), StoreResults(intent, limit, db), table, limit)
    ensures response.sourceBreakdown.Keys == BreakdownTags
    ensures forall t :: t in BreakdownTags ==> response.sourceBreakdown[t] == ResultsWith(response.results, t)
    ensures response.query == query && response.parsedIntent == intent
    ensures response.thinking == Some(Thinking(reasoning, RoutingExplanation(intent)))
  {
    var kgResults: seq<KG.KGRecipeResult> := [];
    if intent.useKg || TruthyList(intent.ingredientsInclude) {
      kgResults := KG.Search(intent, limit * 2, run);
    }
    assert kgResults == GraphResults(intent, limit, run);
    var pgResults: seq<PGRecipeResult>;
    if intent.useSql && intent.useVector {
      pgResults := SearchHybrid(intent, limit * 2, db);
    } else if intent.useVector && Truthy(intent.semanticQuery) {
      pgResults := SearchVector(intent.semanticQuery.value, limit * 2, db);
    } else if intent.useSql {
      pgResults := SearchSql(intent, limit * 2, db);
    } else {
      pgResults := SearchHybrid(intent, limit * 2, db);
    }
    assert pgResults == StoreResults(intent, limit, db);
    ResultsScorable(db(StoreRequest(intent, limit)), StoreRequest(intent, limit));
    var fused := FuseResults(kgResults, pgResults, limit, table);
    var breakdown := SourceBreakdown(fused);
    forall t | t in BreakdownTags ensures breakdown[t] == ResultsWith(fused, t) {
      TagTotalCountsResults(fused, t);
    }
    var thinking := Thinking(reasoning, RoutingExplanation(intent));
    response := SearchResponse(query, intent, fused, breakdown, Some(thinking));
  }
}
