/**
  The text the loader sends to the embedding model for each recipe: the
  title, then whichever of description, cuisine, diet, course, the first
  ten ingredients and the tags are present, each labelled, joined by " | ".
  The database writes and the embedding calls are outside the model.
*/
module PgLoader {
  import opened Text
  import opened CsvParser

  /** At most this many ingredients are written into the embedding text. */
  const EmbeddedIngredients: int := 10

  /** A labelled part when the field is not empty, nothing otherwise. */
  function PartIf(labelText: string, field: string): seq<string> {
    if field != "" then [labelText + field] else []
  }

  /** The ingredients part: the first ten ingredients, comma-separated. */
  function IngredientsPart(recipe: Recipe): seq<string> {
    if recipe.ingredients != [] then ["Ingredients: " + Join(", ", TakePy(recipe.ingredients, EmbeddedIngredients))] else []
  }

  /** The parts of the embedding text, in the order they are written. */
  function EmbeddingParts(recipe: Recipe): seq<string> {
    ["Title: " + recipe.title]
    + PartIf("Description: ", recipe.description)
    + PartIf("Cuisine: ", recipe.cuisine)
    + PartIf("Diet: ", recipe.diet)
    + PartIf("Course: ", recipe.course)
    + IngredientsPart(recipe)
    + PartIf("Tags: ", recipe.tags)
  }

  /** How many of the optional fields are present. */
  function PresentFields(recipe: Recipe): nat {
    (if recipe.description != "" then 1 else 0) + (if recipe.cuisine != "" then 1 else 0)
    + (if recipe.diet != "" then 1 else 0) + (if recipe.course != "" then 1 else 0)
    + (if recipe.ingredients != [] then 1 else 0) + (if recipe.tags != "" then 1 else 0)
  }

  /**
    `_create_embedding_text`: starts a list with the title, appends a
    labelled part for each present field, and joins the list with " | ".
  */
  method CreateEmbeddingText(recipe: Recipe) returns (text: string)
    ensures text == Join(" | ", EmbeddingParts(recipe))
    ensures IsPrefix("Title: " + recipe.title, text)
  {
    var parts := ["Title: " + recipe.title];
    if recipe.description != "" {
      parts := parts + ["Description: " + recipe.description];
    }
    assert parts == ["Title: " + recipe.title] + PartIf("Description: ", recipe.description);
    if recipe.cuisine != "" {
      parts := parts + ["Cuisine: " + recipe.cuisine];
    }
    assert parts == ["Title: " + recipe.title] + PartIf("Description: ", recipe.description)
      + PartIf("Cuisine: ", recipe.cuisine);
    if recipe.diet != "" {
      parts := parts + ["Diet: " + recipe.diet];
    }
    assert parts == ["Title: " + recipe.title] + PartIf("Description: ", recipe.description)
      + PartIf("Cuisine: ", recipe.cuisine) + PartIf("Diet: ", recipe.diet);
    if recipe.course != "" {
      parts := parts + ["Course: " + recipe.course];
    }
    assert parts == ["Title: " + recipe.title] + PartIf("Description: ", recipe.description)
      + PartIf("Cuisine: ", recipe.cuisine) + PartIf("Diet: ", recipe.diet) + PartIf("Course: ", recipe.course);
    if recipe.ingredients != [] {
      parts := parts + ["Ingredients: " + Join(", ", TakePy(recipe.ingredients, EmbeddedIngredients))];
    }
    assert parts == ["Title: " + recipe.title] + PartIf("Description: ", recipe.description)
      + PartIf("Cuisine: ", recipe.cuisine) + PartIf("Diet: ", recipe.diet) + PartIf("Course: ", recipe.course) + IngredientsPart(recipe);
    if recipe.tags != "" {
      parts := parts + ["Tags: " + recipe.tags];
    }
    assert parts == EmbeddingParts(recipe);
    text := Join(" | ", parts);
    JoinStartsWithFirst(" | ", parts);
  }

  lemma {:induction false} JoinStartsWithFirst(sep: string, parts: seq<string>)
    requires parts != []
    ensures IsPrefix(parts[0], Join(sep, parts))
  {
    if |parts| > 1 {
      assert Join(sep, parts) == parts[0] + (sep + Join(sep, parts[1..]));
    }
  }

  /** The number of times `c` occurs in `s`. */
  function Occurrences(s: string, c: char): (n: nat)
    ensures n <= |s|
    ensures n == 0 <==> c !in s
  {
    if s == [] then 0 else (if s[0] == c then 1 else 0) + Occurrences(s[1..], c)
  }

  lemma {:induction false} OccurrencesAppend(a: string, b: string, c: char)
    ensures Occurrences(a + b, c) == Occurrences(a, c) + Occurrences(b, c)
  {
    if a != [] {
      assert (a + b)[1..] == a[1..] + b;
      OccurrencesAppend(a[1..], b, c);
    } else {
      assert a + b == b;
    }
  }

  /** Joining pieces free of `c` with a separator holding one `c` puts exactly one `c` between neighbours. */
  lemma {:induction false} OccurrencesJoin(sep: string, parts: seq<string>, c: char)
    requires parts != []
    requires Occurrences(sep, c) == 1
    requires forall k :: 0 <= k < |parts| ==> c !in parts[k]
    ensures Occurrences(Join(sep, parts), c) == |parts| - 1
  {
    if |parts| > 1 {
      OccurrencesJoin(sep, parts[1..], c);
      OccurrencesAppend(parts[0], sep, c);
      OccurrencesAppend(parts[0] + sep, Join(sep, parts[1..]), c);
    }
  }

  /** No part holds a '|'. */
  predicate BarFree(parts: seq<string>) {
    forall k :: 0 <= k < |parts| ==> '|' !in parts[k]
  }

  lemma BarFreeAppend(a: seq<string>, b: seq<string>)
    requires BarFree(a) && BarFree(b)
    ensures BarFree(a + b)
  {
    forall k | 0 <= k < |a + b| ensures '|' !in (a + b)[k] {
      if k >= |a| {
        assert (a + b)[k] == b[k - |a|];
      }
    }
  }

  lemma BarFreePart(labelText: string, field: string)
    requires '|' !in labelText && '|' !in field
    ensures BarFree(PartIf(labelText, field))
  {
  }

  /**
    When no field holds a '|', the embedding text holds one '|' per present
    optional field: the separators between the title and the parts.
  */
  lemma EmbeddingSeparators(recipe: Recipe)
    requires '|' !in recipe.title && '|' !in recipe.description && '|' !in recipe.cuisine
    requires '|' !in recipe.diet && '|' !in recipe.course && '|' !in recipe.tags
    requires forall k :: 0 <= k < |recipe.ingredients| ==> '|' !in recipe.ingredients[k]
    ensures |EmbeddingParts(recipe)| == 1 + PresentFields(recipe)
    ensures Occurrences(Join(" | ", EmbeddingParts(recipe)), '|') == PresentFields(recipe)
  {
    EmbeddingPartsBarFree(recipe);
    assert Occurrences(" | ", '|') == 1;
    OccurrencesJoin(" | ", EmbeddingParts(recipe), '|');
  }

  /** When no field holds a '|', no part of the embedding text does. */
  lemma EmbeddingPartsBarFree(recipe: Recipe)
    requires '|' !in recipe.title && '|' !in recipe.description && '|' !in recipe.cuisine
    requires '|' !in recipe.diet && '|' !in recipe.course && '|' !in recipe.tags
    requires forall k :: 0 <= k < |recipe.ingredients| ==> '|' !in recipe.ingredients[k]
    ensures BarFree(EmbeddingParts(recipe))
  {
    var shown := TakePy(recipe.ingredients, EmbeddedIngredients);
    assert forall k :: 0 <= k < |shown| ==> shown[k] == recipe.ingredients[k];
    JoinAvoids(", ", shown, '|');
    var title := ["Title: " + recipe.title];
    var ing := IngredientsPart(recipe);
    assert '|' !in "Title: " && '|' !in "Ingredients: ";
    assert BarFree(title) && BarFree(ing);
    assert '|' !in "Description: " && '|' !in "Cuisine: " && '|' !in "Diet: ";
    assert '|' !in "Course: " && '|' !in "Tags: ";
    var d := PartIf("Description: ", recipe.description);
    var c := PartIf("Cuisine: ", recipe.cuisine);
    var di := PartIf("Diet: ", recipe.diet);
    var co := PartIf("Course: ", recipe.course);
    var t := PartIf("Tags: ", recipe.tags);
    BarFreePart("Description: ", recipe.description);
    BarFreePart("Cuisine: ", recipe.cuisine);
    BarFreePart("Diet: ", recipe.diet);
    BarFreePart("Course: ", recipe.course);
    BarFreePart("Tags: ", recipe.tags);
    BarFreeAppend(title, d);
    BarFreeAppend(title + d, c);
    BarFreeAppend(title + d + c, di);
    BarFreeAppend(title + d + c + di, co);
    BarFreeAppend(title + d + c + di + co, ing);
    BarFreeAppend(title + d + c + di + co + ing, t);
  }

  /** The ingredients part lists the first ten ingredients, in their order, and is one of the parts. */
  lemma EmbeddedIngredientsFirstTen(recipe: Recipe)
    requires recipe.ingredients != []
    ensures var part := "Ingredients: " + Join(", ", TakePy(recipe.ingredients, EmbeddedIngredients));
      && part in EmbeddingParts(recipe)
      && (|recipe.ingredients| <= 10 ==> part == "Ingredients: " + Join(", ", recipe.ingredients))
      && (|recipe.ingredients| > 10 ==> part == "Ingredients: " + Join(", ", recipe.ingredients[..10]))
  {
    var part := "Ingredients: " + Join(", ", TakePy(recipe.ingredients, EmbeddedIngredients));
    var before := ["Title: " + recipe.title] + PartIf("Description: ", recipe.description)
      + PartIf("Cuisine: ", recipe.cuisine) + PartIf("Diet: ", recipe.diet) + PartIf("Course: ", recipe.course);
    assert EmbeddingParts(recipe) == before + [part] + PartIf("Tags: ", recipe.tags);
    assert EmbeddingParts(recipe)[|before|] == part;
  }
}
