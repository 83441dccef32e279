/**
  The structured intent of a recipe query and its construction from the
  JSON object the language model answers with. The model call itself is
  an input: only the mapping from the decoded object to the record is here.
*/
module Intent {
  import opened Optional

  /** The filters and routing flags extracted from one query. */
  datatype ParsedIntent = ParsedIntent(
    cuisine: Option<string>,
    diet: Option<string>,
    course: Option<string>,
    maxPrepTimeMins: Option<int>,
    maxCookTimeMins: Option<int>,
    ingredientsInclude: Option<seq<string>>,
    ingredientsExclude: Option<seq<string>>,
    semanticQuery: Option<string>,
    useKg: bool,
    useSql: bool,
    useVector: bool)

  /** `ParsedIntent()`: every optional field None, every flag False. */
  function DefaultIntent(): ParsedIntent {
    ParsedIntent(None, None, None, None, None, None, None, None, false, false, false)
  }

  // Python truthiness: None, "", 0 and [] all read as "absent".

  predicate Truthy(s: Option<string>) { s.Some? && s.value != "" }

  predicate TruthyInt(n: Option<int>) { n.Some? && n.value != 0 }

  predicate TruthyList(l: Option<seq<string>>) { l.Some? && l.value != [] }

  /** The entries of an optional list, `[]` for None. */
  function Items(l: Option<seq<string>>): seq<string> {
    if l.Some? then l.value else []
  }

  /**
    A value of the decoded JSON object. Anything other than null, a
    boolean, an integer, a string or a list of strings is kept only as its
    truthiness.
  */
  datatype Json = JNull | JBool(b: bool) | JInt(i: int) | JStr(s: string) | JStrList(items: seq<string>) | JOther(truthy: bool)

  predicate JsonTruthy(j: Json) {
    match j
    case JNull => false
    case JBool(b) => b
    case JInt(i) => i != 0
    case JStr(s) => s != ""
    case JStrList(items) => items != []
    case JOther(t) => t
  }

  /** `result.get(key)` read as an optional string. */
  function GetStr(d: map<string, Json>, key: string): Option<string> {
    if key in d && d[key].JStr? then Some(d[key].s) else None
  }

  /** `result.get(key)` read as an optional integer. */
  function GetInt(d: map<string, Json>, key: string): Option<int> {
    if key in d && d[key].JInt? then Some(d[key].i) else None
  }

  /** `result.get(key)` read as an optional list of strings. */
  function GetList(d: map<string, Json>, key: string): Option<seq<string>> {
    if key in d && d[key].JStrList? then Some(d[key].items) else None
  }

  /** `result.get(key, False)` as the routing code reads it (by truthiness). */
  predicate GetFlag(d: map<string, Json>, key: string) {
    key in d && JsonTruthy(d[key])
  }

  /**
    The record built from the decoded object: each field from the key of
    the same name, None when the key is absent, and a missing flag False.
  */
  function IntentFromJson(d: map<string, Json>): (i: ParsedIntent)
    ensures "cuisine" !in d ==> i.cuisine == None
    ensures "diet" !in d ==> i.diet == None
    ensures "course" !in d ==> i.course == None
    ensures "max_prep_time_mins" !in d ==> i.maxPrepTimeMins == None
    ensures "max_cook_time_mins" !in d ==> i.maxCookTimeMins == None
    ensures "ingredients_include" !in d ==> i.ingredientsInclude == None
    ensures "ingredients_exclude" !in d ==> i.ingredientsExclude == None
    ensures "semantic_query" !in d ==> i.semanticQuery == None
    ensures "use_kg" !in d ==> !i.useKg
    ensures "use_sql" !in d ==> !i.useSql
    ensures "use_vector" !in d ==> !i.useVector
    ensures d == map[] ==> i == DefaultIntent()
  {
    ParsedIntent(
      GetStr(d, "cuisine"),
      GetStr(d, "diet"),
      GetStr(d, "course"),
      GetInt(d, "max_prep_time_mins"),
      GetInt(d, "max_cook_time_mins"),
      GetList(d, "ingredients_include"),
      GetList(d, "ingredients_exclude"),
      GetStr(d, "semantic_query"),
      GetFlag(d, "use_kg"),
      GetFlag(d, "use_sql"),
      GetFlag(d, "use_vector"))
  }

  /** The names of the fields of the decoded object. */
  const IntentKeys: set<string> := {
    "cuisine", "diet", "course", "max_prep_time_mins", "max_cook_time_mins",
    "ingredients_include", "ingredients_exclude", "semantic_query",
    "use_kg", "use_sql", "use_vector"}

  /** The JSON value that describes field `key` of `i`, None for an absent optional field. */
  function FieldJson(i: ParsedIntent, key: string): Option<Json> {
    if key == "cuisine" then StrJson(i.cuisine)
    else if key == "diet" then StrJson(i.diet)
    else if key == "course" then StrJson(i.course)
    else if key == "max_prep_time_mins" then IntJson(i.maxPrepTimeMins)
    else if key == "max_cook_time_mins" then IntJson(i.maxCookTimeMins)
    else if key == "ingredients_include" then ListJson(i.ingredientsInclude)
    else if key == "ingredients_exclude" then ListJson(i.ingredientsExclude)
    else if key == "semantic_query" then StrJson(i.semanticQuery)
    else if key == "use_kg" then Some(JBool(i.useKg))
    else if key == "use_sql" then Some(JBool(i.useSql))
    else if key == "use_vector" then Some(JBool(i.useVector))
    else None
  }

  function StrJson(v: Option<string>): Option<Json> {
    if v.Some? then Some(JStr(v.value)) else None
  }

  function IntJson(v: Option<int>): Option<Json> {
    if v.Some? then Some(JInt(v.value)) else None
  }

  function ListJson(v: Option<seq<string>>): Option<Json> {
    if v.Some? then Some(JStrList(v.value)) else None
  }

  /**
    The JSON object an extractor would answer with to describe `i`. Reading
    it back gives `i` again: every value, the order of the ingredient lists
    included, is copied verbatim.
  */
  function IntentToJson(i: ParsedIntent): (d: map<string, Json>)
    ensures IntentFromJson(d) == i
  {
    map k | k in IntentKeys && FieldJson(i, k).Some? :: FieldJson(i, k).value
  }
}
