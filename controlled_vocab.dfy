/**
  The controlled vocabulary: free text normalised to lower-case
  alphanumeric words, the prompt section that lists the allowed values,
  the mapping of a free-text value onto the closest allowed value, and the
  rewriting of a parsed intent so that its filters use allowed values only.
*/
module ControlledVocab {
  import opened Optional
  import opened Text
  import opened Intent

  // ---------------------------------------------------------------- normalisation

  /** Every character of `w` is in [a-z0-9]. */
  predicate AllAlnum(w: string) {
    forall i :: 0 <= i < |w| ==> IsLowerAlnum(w[i])
  }

  /** `s` without its leading characters outside [a-z0-9]. */
  function DropSeparators(s: string): (r: string)
    ensures |r| <= |s| && r == s[|s| - |r|..]
    ensures r == [] || IsLowerAlnum(r[0])
    ensures s != [] && !IsLowerAlnum(s[0]) ==> |r| < |s|
  {
    if s != [] && !IsLowerAlnum(s[0]) then DropSeparators(s[1..]) else s
  }

  /** The length of the run of [a-z0-9] characters that `s` starts with. */
  function AlnumRun(s: string): (n: nat)
    ensures n <= |s|
    ensures forall i :: 0 <= i < n ==> IsLowerAlnum(s[i])
    ensures n < |s| ==> !IsLowerAlnum(s[n])
  {
    if s != [] && IsLowerAlnum(s[0]) then 1 + AlnumRun(s[1..]) else 0
  }

  /** `re.sub(r"[^a-z0-9]+", " ", s)`: each maximal run of other characters becomes one space. */
  function Squash(s: string): string
    decreases |s|
  {
    if s == [] then ""
    else if IsLowerAlnum(s[0]) then [s[0]] + Squash(s[1..])
    else " " + Squash(DropSeparators(s))
  }

  /**
    The maximal runs of [a-z0-9] in `s`, in order: the non-empty pieces of
    `re.split(r"[^a-z0-9]+", s)`.
  */
  function Words(s: string): (r: seq<string>)
    ensures forall k :: 0 <= k < |r| ==> r[k] != "" && AllAlnum(r[k])
    decreases |s|
  {
    var t := DropSeparators(s);
    if t == [] then []
    else
      var n := AlnumRun(t);
      var w, rest := t[..n], Words(t[n..]);
      assert w != "" && AllAlnum(w);
      assert forall k :: 0 < k <= |rest| ==> ([w] + rest)[k] == rest[k - 1];
      [w] + rest
  }

  /**
    `_normalize_text`: nothing for a missing or empty value; otherwise the
    lower-cased value with every run of characters outside [a-z0-9] turned
    into one space, stripped. The result is words of [a-z0-9] separated by
    single spaces.
  */
  function NormalizeText(value: Option<string>): (r: string)
    ensures !Truthy(value) ==> r == ""
    ensures Stripped(r)
    ensures forall i :: 0 <= i < |r| ==> r[i] == ' ' || IsLowerAlnum(r[i])
    ensures forall i :: 0 <= i < |r| - 1 && r[i] == ' ' ==> r[i + 1] != ' '
  {
    if !Truthy(value) then ""
    else
      var s := Lower(value.value);
      StripSquash(s);
      JoinWordsShape(Words(s));
      Strip(Squash(s))
  }

  /** `_tokenize`: the words of the lower-cased value (of "" when it is missing). */
  function Tokenize(value: Option<string>): (r: seq<string>)
    ensures forall k :: 0 <= k < |r| ==> r[k] != "" && AllAlnum(r[k])
  {
    Words(Lower(value.GetOr("")))
  }

  /** The tokens of a value, joined by single spaces, are its normalised text. */
  lemma TokenizeJoin(value: Option<string>)
    ensures Join(" ", Tokenize(value)) == NormalizeText(value)
  {
    if Truthy(value) {
      StripSquash(Lower(value.value));
    } else {
      assert Lower(value.GetOr("")) == "";
    }
  }

  /** The space `Squash` puts in front when `s` starts with a separator. */
  function Lead(s: string): string {
    if s != [] && !IsLowerAlnum(s[0]) then " " else ""
  }

  lemma {:induction false} SquashAlnumPrefix(t: string, n: nat)
    requires n <= |t|
    requires forall i :: 0 <= i < n ==> IsLowerAlnum(t[i])
    ensures Squash(t) == t[..n] + Squash(t[n..])
  {
    if n > 0 {
      SquashAlnumPrefix(t[1..], n - 1);
      SquashPrefixStep(t, n);
    } else {
      assert t[n..] == t;
    }
  }

  lemma SquashPrefixStep(t: string, n: nat)
    requires 0 < n <= |t| && IsLowerAlnum(t[0])
    requires Squash(t[1..]) == t[1..][..n - 1] + Squash(t[1..][n - 1..])
    ensures Squash(t) == t[..n] + Squash(t[n..])
  {
    SquashCons(t);
    ConsSlices(t, n);
  }

  lemma ConsSlices(t: string, n: nat)
    requires 0 < n <= |t|
    ensures t[1..][n - 1..] == t[n..]
    ensures t[..n] == [t[0]] + t[1..][..n - 1]
  {
    assert t[..n] == [t[0]] + t[1..][..n - 1];
  }

  /** A word character in front is kept, then the rest is squashed. */
  lemma SquashCons(t: string)
    requires t != [] && IsLowerAlnum(t[0])
    ensures Squash(t) == [t[0]] + Squash(t[1..])
  {
  }

  lemma SquashDrop(s: string)
    ensures Squash(s) == Lead(s) + Squash(DropSeparators(s))
  {
    if s == [] || IsLowerAlnum(s[0]) {
      assert DropSeparators(s) == s;
    }
  }

  lemma AllSpaceAppend(a: string, b: string)
    requires AllSpace(a) && AllSpace(b)
    ensures AllSpace(a + b)
  {
    forall i | 0 <= i < |a + b| ensures IsSpace((a + b)[i]) {
      if i < |a| {
        assert (a + b)[i] == a[i];
      } else {
        assert (a + b)[i] == b[i - |a|];
      }
    }
  }

  lemma LeadSpace(s: string)
    ensures AllSpace(Lead(s))
  {
    if Lead(s) == " " {
      assert IsSpace(' ');
    }
  }

  lemma Regroup(a: string, b: string, c: string, d: string)
    ensures a + (b + (c + d)) == a + b + c + d
  {
  }

  lemma Regroup5(a: string, b: string, c: string, d: string, e: string)
    ensures a + b + (c + d) + e == a + (b + c + d) + e
  {
  }

  /** `Squash(s)` is its words joined by spaces, with a space in front when `s` starts with a separator and spaces behind. */
  lemma {:induction false} SquashShape(s: string) returns (trail: string)
    ensures AllSpace(trail)
    ensures Squash(s) == Lead(s) + Join(" ", Words(s)) + trail
    decreases |s|
  {
    var t := DropSeparators(s);
    SquashDrop(s);
    WordsDrop(s);
    if t == [] {
      trail := "";
      assert Squash(s) == Lead(s) + "" + "";
    } else {
      var n := AlnumRun(t);
      SquashAlnumPrefix(t, n);
      var tr := SquashShape(t[n..]);
      trail := SquashShapeStep(Lead(s), t[..n], t[n..], tr, Squash(s));
    }
  }

  /** The words of `s` are the first run after the separators, then the words of the rest. */
  lemma WordsDrop(s: string)
    ensures var t := DropSeparators(s);
      Words(s) == if t == [] then [] else [t[..AlnumRun(t)]] + Words(t[AlnumRun(t)..])
  {
  }

  /** The step of `SquashShape`: one word in front of the shape of the rest. */
  lemma SquashShapeStep(lead: string, w: string, u: string, tr: string, sq: string) returns (trail: string)
    requires AllSpace(tr)
    requires u != [] ==> !IsLowerAlnum(u[0])
    requires Squash(u) == Lead(u) + Join(" ", Words(u)) + tr
    requires sq == lead + (w + Squash(u))
    ensures AllSpace(trail)
    ensures sq == lead + Join(" ", [w] + Words(u)) + trail
  {
    LeadSpace(u);
    var rest := Join(" ", Words(u));
    if Words(u) == [] {
      AllSpaceAppend(Lead(u), tr);
      trail := Lead(u) + tr;
      assert [w] + Words(u) == [w];
      assert Join(" ", [w]) == w;
      Regroup(lead, w, Lead(u), tr);
    } else {
      assert u != [];
      trail := tr;
      assert Join(" ", [w] + Words(u)) == w + " " + rest;
      Regroup(lead, w, " " + rest, tr);
      Regroup5(lead, w, " ", rest, tr);
    }
  }

  /** Words joined by single spaces: only [a-z0-9] and lone spaces, a word character at each end. */
  lemma {:induction false} JoinWordsShape(ws: seq<string>)
    requires forall k :: 0 <= k < |ws| ==> ws[k] != "" && AllAlnum(ws[k])
    ensures var j := Join(" ", ws);
      && (j == [] || (IsLowerAlnum(j[0]) && IsLowerAlnum(j[|j| - 1])))
      && (forall i :: 0 <= i < |j| ==> j[i] == ' ' || IsLowerAlnum(j[i]))
      && (forall i :: 0 <= i < |j| - 1 && j[i] == ' ' ==> j[i + 1] != ' ')
  {
    if |ws| > 1 {
      JoinWordsShape(ws[1..]);
      var j, w, rest := Join(" ", ws), ws[0], Join(" ", ws[1..]);
      assert j == w + " " + rest;
      forall i | 0 <= i < |j| ensures j[i] == ' ' || IsLowerAlnum(j[i]) {
        if i < |w| {
          assert j[i] == w[i];
        } else if i > |w| {
          assert j[i] == rest[i - |w| - 1];
        }
      }
      forall i | 0 <= i < |j| - 1 && j[i] == ' ' ensures j[i + 1] != ' ' {
        if i == |w| {
          assert j[i + 1] == rest[0];
        } else {
          assert i > |w|;
          assert j[i] == rest[i - |w| - 1] && j[i + 1] == rest[i - |w|];
        }
      }
      assert j[|j| - 1] == rest[|rest| - 1];
    }
  }

  /** Stripping the squashed string leaves its words joined by single spaces. */
  lemma StripSquash(s: string)
    ensures Strip(Squash(s)) == Join(" ", Words(s))
  {
    var trail := SquashShape(s);
    var j := Join(" ", Words(s));
    JoinWordsShape(Words(s));
    if j != [] {
      AlnumNotSpace(j[0]);
      AlnumNotSpace(j[|j| - 1]);
    }
    LeadSpace(s);
    StripPadded(Lead(s), j, trail);
  }

  lemma AlnumNotSpace(c: char)
    requires IsLowerAlnum(c)
    ensures !IsSpace(c)
  {
  }

  // ---------------------------------------------------------------- prompt

  const Header: string := "Use only the following " + "controlled values when " + "setting structured filters " + "or ingredient names:"

  /** The ingredient limit `format_vocab_for_prompt` uses when the caller gives none, as `ensure_vocab` does. */
  const DefaultIngredientLimit: int := 40

  lemma HeaderOneLine()
    ensures '\n' !in Header && Header != ""
  {
    assert '\n' !in "Use only the following ";
    assert '\n' !in "controlled values when ";
    assert '\n' !in "setting structured filters ";
    assert '\n' !in "or ingredient names:";
  }

  /** `vocab.get(key, [])` */
  function Lookup(vocab: map<string, seq<string>>, key: string): seq<string> {
    if key in vocab then vocab[key] else []
  }

  /** The line `format_list` writes: the first `limit` values (a Python slice), then how many were left out. */
  function Entry(name: string, values: seq<string>, limit: int): string {
    var subset := TakePy(values, limit);
    var extra := |values| - |subset|;
    "- " + name + ": " + Join(", ", subset) + (if extra > 0 then " (+" + IntToString(extra) + " more)" else "")
  }

  /** A list within its limit is written whole; a longer one is cut at the limit and says how many values it left out. */
  lemma EntryShape(name: string, values: seq<string>, limit: int)
    ensures |values| <= limit ==> Entry(name, values, limit) == "- " + name + ": " + Join(", ", values)
    ensures 0 <= limit < |values| ==>
      Entry(name, values, limit) == "- " + name + ": " + Join(", ", values[..limit]) + " (+" + NatToString(|values| - limit) + " more)"
  {
  }

  /** One section for a non-empty list, none for an empty one. */
  function Section(vocab: map<string, seq<string>>, name: string, key: string, limit: int): seq<string> {
    if Lookup(vocab, key) == [] then [] else [Entry(name, Lookup(vocab, key), limit)]
  }

  /** The sections in prompt order: cuisines (30), courses (20), diets (20), ingredients. */
  function Sections(vocab: map<string, seq<string>>, ingredientLimit: int): seq<string> {
    Section(vocab, "Cuisines", "cuisines", 30) + Section(vocab, "Courses", "courses", 20)
    + Section(vocab, "Diets", "diets", 20) + Section(vocab, "Ingredients", "ingredients", ingredientLimit)
  }

  /** The four lists the prompt shows are all empty. */
  predicate NothingToShow(vocab: map<string, seq<string>>) {
    Lookup(vocab, "cuisines") == [] && Lookup(vocab, "courses") == []
    && Lookup(vocab, "diets") == [] && Lookup(vocab, "ingredients") == []
  }

  /** The prompt snippet: nothing without sections, else the header and the sections on separate lines. */
  function Prompt(vocab: map<string, seq<string>>, ingredientLimit: int): string {
    var sections := Sections(vocab, ingredientLimit);
    if sections == [] then "" else Join("\n", [Header] + sections)
  }

  /**
    `format_vocab_for_prompt`: collects a section per non-empty list, then
    writes the header and the sections one per line; the empty string when
    every list is empty.
  */
  method FormatVocabForPrompt(vocab: map<string, seq<string>>, ingredientLimit: int) returns (prompt: string)
    ensures prompt == Prompt(vocab, ingredientLimit)
    ensures prompt == "" <==> NothingToShow(vocab)
  {
    var sections: seq<string> := [];
    var cuisines := Lookup(vocab, "cuisines");
    if cuisines != [] {
      sections := sections + [Entry("Cuisines", cuisines, 30)];
    }
    assert sections == Section(vocab, "Cuisines", "cuisines", 30);
    var courses := Lookup(vocab, "courses");
    if courses != [] {
      sections := sections + [Entry("Courses", courses, 20)];
    }
    assert sections == Section(vocab, "Cuisines", "cuisines", 30) + Section(vocab, "Courses", "courses", 20);
    var diets := Lookup(vocab, "diets");
    if diets != [] {
      sections := sections + [Entry("Diets", diets, 20)];
    }
    ghost var three := sections;
    assert three == Section(vocab, "Cuisines", "cuisines", 30) + Section(vocab, "Courses", "courses", 20)
      + Section(vocab, "Diets", "diets", 20);
    var ingredients := Lookup(vocab, "ingredients");
    if ingredients != [] {
      sections := sections + [Entry("Ingredients", ingredients, ingredientLimit)];
    }
    assert sections == three + Section(vocab, "Ingredients", "ingredients", ingredientLimit);
    if sections == [] {
      return "";
    }
    var lines := [Header] + sections;
    assert Join("\n", lines) == Header + "\n" + Join("\n", lines[1..]);
    prompt := Join("\n", lines);
  }

  /** The lists shown hold no line break. */
  predicate SingleLineValues(vocab: map<string, seq<string>>) {
    forall key, k :: key in vocab && 0 <= k < |vocab[key]| ==> '\n' !in vocab[key][k]
  }

  lemma EntryOneLine(name: string, values: seq<string>, limit: int)
    requires '\n' !in name
    requires forall k :: 0 <= k < |values| ==> '\n' !in values[k]
    ensures '\n' !in Entry(name, values, limit)
  {
    var subset := TakePy(values, limit);
    JoinAvoids(", ", subset, '\n');
    var extra := |values| - |subset|;
    if extra > 0 {
      assert forall i :: 0 <= i < |IntToString(extra)| ==> IsDigit(IntToString(extra)[i]);
    }
  }

  lemma SectionOneLine(vocab: map<string, seq<string>>, name: string, key: string, limit: int)
    requires SingleLineValues(vocab) && '\n' !in name
    ensures forall k :: 0 <= k < |Section(vocab, name, key, limit)| ==> '\n' !in Section(vocab, name, key, limit)[k]
  {
    var values := Lookup(vocab, key);
    if values != [] {
      assert key in vocab && values == vocab[key];
      EntryOneLine(name, values, limit);
    }
  }

  lemma SectionsOneLine(vocab: map<string, seq<string>>, ingredientLimit: int)
    requires SingleLineValues(vocab)
    ensures forall k :: 0 <= k < |Sections(vocab, ingredientLimit)| ==> '\n' !in Sections(vocab, ingredientLimit)[k]
  {
    var a := Section(vocab, "Cuisines", "cuisines", 30);
    var b := Section(vocab, "Courses", "courses", 20);
    var c := Section(vocab, "Diets", "diets", 20);
    var d := Section(vocab, "Ingredients", "ingredients", ingredientLimit);
    SectionOneLine(vocab, "Cuisines", "cuisines", 30);
    SectionOneLine(vocab, "Courses", "courses", 20);
    SectionOneLine(vocab, "Diets", "diets", 20);
    SectionOneLine(vocab, "Ingredients", "ingredients", ingredientLimit);
    assert Sections(vocab, ingredientLimit) == a + b + c + d;
  }

  /** When the values hold no line break, the prompt's lines are the header followed by one line per non-empty list. */
  lemma PromptLines(vocab: map<string, seq<string>>, ingredientLimit: int)
    requires SingleLineValues(vocab)
    requires !NothingToShow(vocab)
    ensures Split(Prompt(vocab, ingredientLimit), '\n') == [Header] + Sections(vocab, ingredientLimit)
    ensures |Sections(vocab, ingredientLimit)| ==
      (if Lookup(vocab, "cuisines") == [] then 0 else 1) + (if Lookup(vocab, "courses") == [] then 0 else 1)
      + (if Lookup(vocab, "diets") == [] then 0 else 1) + (if Lookup(vocab, "ingredients") == [] then 0 else 1)
  {
    var sections := Sections(vocab, ingredientLimit);
    var lines := [Header] + sections;
    SectionsOneLine(vocab, ingredientLimit);
    HeaderOneLine();
    assert forall k :: 0 <= k < |lines| ==> '\n' !in lines[k];
    SplitJoin(lines, '\n');
  }

  // ---------------------------------------------------------------- mapping onto the vocabulary

  /**
    Keywords that point an ingredient at preferred vocabulary entries, in
    the order they are tried.
  */
  const IngredientKeywordHints: seq<(string, seq<string>)> := [
    ("soy", ["Tofu", "Tempeh", "Soybeans"]),
    ("soy-based", ["Tofu", "Tempeh", "Soybeans"]),
    ("soybean", ["Soybeans"]),
    ("bean curd", ["Tofu"]),
    ("garbanzo", ["Chickpeas"]),
    ("chickpea", ["Chickpeas", "Chana Dal"])]

  /** The normalised form of an option. */
  function Norm(opt: string): string {
    NormalizeText(Some(opt))
  }

  /** `{opt: _normalize_text(opt) for opt in options}`, kept in option order. */
  function NormsOf(options: seq<string>): (norms: seq<string>)
    ensures |norms| == |options|
    ensures forall i :: 0 <= i < |options| ==> norms[i] == Norm(options[i])
  {
    seq(|options|, i requires 0 <= i < |options| => Norm(options[i]))
  }

  /** `next((opt for opt in options if opt.lower() == target.lower()), None)`, as an index (`|options|` for None). */
  function CaseIndex(options: seq<string>, target: string): (i: nat)
    ensures i <= |options|
    ensures i < |options| ==> Lower(options[i]) == Lower(target)
    ensures forall j :: 0 <= j < i ==> Lower(options[j]) != Lower(target)
  {
    if options == [] then 0
    else if Lower(options[0]) == Lower(target) then 0
    else 1 + CaseIndex(options[1..], target)
  }

  /**
    One preferred entry: the first option equal to `target` ignoring case,
    unless there is none or it is empty (Python's `if match:`).
  */
  function TargetHit(target: string, options: seq<string>): (r: Option<string>)
    ensures r.Some? ==> r.value != "" && Lower(r.value) == Lower(target)
    ensures r.Some? ==> exists i :: 0 <= i < |options| && options[i] == r.value
                          && forall j :: 0 <= j < i ==> Lower(options[j]) != Lower(target)
    ensures r.None? ==> forall i :: 0 <= i < |options| && Lower(options[i]) == Lower(target) ==>
                          options[i] == "" || exists j :: 0 <= j < i && Lower(options[j]) == Lower(target)
  {
    var i := CaseIndex(options, target);
    if i < |options| && options[i] != "" then Some(options[i]) else None
  }

  /** The first target with a non-empty case-insensitive match among the options, that match. */
  function TargetMatch(targets: seq<string>, options: seq<string>): (r: Option<string>)
    ensures r.Some? ==> r.value in options && r.value != ""
  {
    if targets == [] then None
    else
      var m := TargetHit(targets[0], options);
      if m.Some? then m else TargetMatch(targets[1..], options)
  }

  /**
    `TargetMatch` answers `x` exactly when some target hits `x` and no
    earlier target hits anything.
  */
  lemma {:induction false} TargetMatchFirst(targets: seq<string>, options: seq<string>, x: string)
    ensures TargetMatch(targets, options) == Some(x) <==>
      exists t :: 0 <= t < |targets| && TargetHit(targets[t], options) == Some(x)
        && forall u :: 0 <= u < t ==> TargetHit(targets[u], options).None?
  {
    if targets != [] {
      var tail := targets[1..];
      TargetMatchFirst(tail, options, x);
      if TargetMatch(targets, options) == Some(x) {
        if TargetHit(targets[0], options).None? {
          var t :| 0 <= t < |tail| && TargetHit(tail[t], options) == Some(x)
            && forall u :: 0 <= u < t ==> TargetHit(tail[u], options).None?;
          assert targets[t + 1] == tail[t];
          forall u | 0 <= u < t + 1 ensures TargetHit(targets[u], options).None? {
            if u > 0 {
              assert targets[u] == tail[u - 1];
            }
          }
        }
      } else {
        forall t | 0 <= t < |targets| && TargetHit(targets[t], options) == Some(x)
          ensures exists u :: 0 <= u < t && TargetHit(targets[u], options).Some?
        {
          if t > 0 && TargetHit(targets[0], options).None? {
            assert tail[t - 1] == targets[t];
            var u :| 0 <= u < t - 1 && TargetHit(tail[u], options).Some?;
            assert targets[u + 1] == tail[u];
          }
        }
      }
    }
  }

  /** `TargetMatch` answers nothing exactly when no target hits. */
  lemma {:induction false} TargetMatchNone(targets: seq<string>, options: seq<string>)
    ensures TargetMatch(targets, options).None? <==>
      forall t :: 0 <= t < |targets| ==> TargetHit(targets[t], options).None?
  {
    if targets != [] {
      TargetMatchNone(targets[1..], options);
      assert forall t :: 1 <= t < |targets| ==> targets[t] == targets[1..][t - 1];
    }
  }

  /** One hint: its targets' match when its keyword occurs in `lowerValue`, else nothing. */
  function HintHit(hint: (string, seq<string>), options: seq<string>, lowerValue: string): (r: Option<string>)
    ensures r.Some? ==> Contains(lowerValue, hint.0) && r.value in options && r.value != ""
  {
    if Contains(lowerValue, hint.0) then TargetMatch(hint.1, options) else None
  }

  /** The keyword phase: the first hint whose keyword occurs in `lowerValue` and whose targets match an option. */
  function HintMatch(hints: seq<(string, seq<string>)>, options: seq<string>, lowerValue: string): (r: Option<string>)
    ensures r.Some? ==> r.value in options && r.value != ""
  {
    if hints == [] then None
    else
      var m := HintHit(hints[0], options, lowerValue);
      if m.Some? then m else HintMatch(hints[1..], options, lowerValue)
  }

  /**
    The keyword phase answers `x` exactly when some hint's keyword occurs
    and its targets match `x`, and no earlier hint answers anything.
  */
  lemma {:induction false} HintMatchFirst(hints: seq<(string, seq<string>)>, options: seq<string>, lowerValue: string, x: string)
    ensures HintMatch(hints, options, lowerValue) == Some(x) <==>
      exists h :: 0 <= h < |hints| && Contains(lowerValue, hints[h].0) && TargetMatch(hints[h].1, options) == Some(x)
        && forall g :: 0 <= g < h ==> HintHit(hints[g], options, lowerValue).None?
  {
    if hints != [] {
      var tail := hints[1..];
      HintMatchFirst(tail, options, lowerValue, x);
      if HintMatch(hints, options, lowerValue) == Some(x) {
        if HintHit(hints[0], options, lowerValue).None? {
          var h :| 0 <= h < |tail| && Contains(lowerValue, tail[h].0) && TargetMatch(tail[h].1, options) == Some(x)
            && forall g :: 0 <= g < h ==> HintHit(tail[g], options, lowerValue).None?;
          assert hints[h + 1] == tail[h];
          forall g | 0 <= g < h + 1 ensures HintHit(hints[g], options, lowerValue).None? {
            if g > 0 {
              assert hints[g] == tail[g - 1];
            }
          }
        }
      } else {
        forall h | 0 <= h < |hints| && Contains(lowerValue, hints[h].0) && TargetMatch(hints[h].1, options) == Some(x)
          ensures exists g :: 0 <= g < h && HintHit(hints[g], options, lowerValue).Some?
        {
          if h > 0 && HintHit(hints[0], options, lowerValue).None? {
            assert tail[h - 1] == hints[h];
            var g :| 0 <= g < h - 1 && HintHit(tail[g], options, lowerValue).Some?;
            assert hints[g + 1] == tail[g];
          }
        }
      }
    }
  }

  /** The keyword phase answers nothing exactly when no hint's keyword occurs with a matching target. */
  lemma {:induction false} HintMatchNone(hints: seq<(string, seq<string>)>, options: seq<string>, lowerValue: string)
    ensures HintMatch(hints, options, lowerValue).None? <==>
      forall h :: 0 <= h < |hints| && Contains(lowerValue, hints[h].0) ==> TargetMatch(hints[h].1, options).None?
  {
    if hints != [] {
      HintMatchNone(hints[1..], options, lowerValue);
      assert forall h :: 1 <= h < |hints| ==> hints[h] == hints[1..][h - 1];
    }
  }

  /** How many of `tokens` are in `among`. */
  function CountIn(tokens: seq<string>, among: set<string>): (n: nat)
    ensures n <= |tokens|
    ensures n == |tokens| <==> forall k :: 0 <= k < |tokens| ==> tokens[k] in among
    ensures n == 0 <==> forall k :: 0 <= k < |tokens| ==> tokens[k] !in among
  {
    if tokens == [] then 0
    else (if tokens[0] in among then 1 else 0) + CountIn(tokens[1..], among)
  }

  /** `len([t for t in tokens if t in among]) / len(tokens)`: the share of the tokens found in `among`. */
  function Overlap(tokens: seq<string>, among: set<string>): (share: real)
    requires tokens != []
    ensures (forall k :: 0 <= k < |tokens| ==> tokens[k] in among) ==> share == 1.0
    ensures (forall k :: 0 <= k < |tokens| ==> tokens[k] !in among) ==> share == 0.0
  {
    var n := |tokens| as real;
    assert n / n == 1.0;
    (CountIn(tokens, among) as real) / n
  }

  /** `set(_tokenize(opt))` */
  function TokenSet(opt: string): set<string> {
    set t | t in Tokenize(Some(opt))
  }

  /** Some non-empty token occurs inside `text`. */
  predicate AnyTokenIn(tokens: seq<string>, text: string) {
    exists k :: 0 <= k < |tokens| && tokens[k] != "" && Contains(text, tokens[k])
  }

  function Max(a: real, b: real): real {
    if a >= b then a else b
  }

  const TokenHitScore: real := 0.72

  /**
    The fuzzy score of an option whose normalised form is `normOpt`: the
    similarity ratio of the normalised strings, raised to the share of the
    value's tokens that are tokens of the option, and raised to 0.72 when a
    token occurs inside the normalised option: the largest of these candidates.
  */
  function Score(nv: string, valueTokens: seq<string>, opt: string, normOpt: string,
                 ratio: (string, string) -> real): (score: real)
    ensures score >= ratio(nv, normOpt)
    ensures valueTokens != [] ==> score >= Overlap(valueTokens, TokenSet(opt))
    ensures valueTokens != [] && AnyTokenIn(valueTokens, normOpt) ==> score >= TokenHitScore
    ensures valueTokens == [] ==> score == ratio(nv, normOpt)
    ensures valueTokens != [] ==>
      || score == ratio(nv, normOpt)
      || score == Overlap(valueTokens, TokenSet(opt))
      || (AnyTokenIn(valueTokens, normOpt) && score == TokenHitScore)
  {
    var base := ratio(nv, normOpt);
    if valueTokens == [] then base
    else
      var withOverlap := Max(base, Overlap(valueTokens, TokenSet(opt)));
      if AnyTokenIn(valueTokens, normOpt) then Max(withOverlap, TokenHitScore) else withOverlap
  }

  /** The score of every option, in option order. */
  function Scores(options: seq<string>, nv: string, valueTokens: seq<string>, ratio: (string, string) -> real): (scores: seq<real>)
    ensures |scores| == |options|
    ensures forall i :: 0 <= i < |options| ==> scores[i] == Score(nv, valueTokens, options[i], Norm(options[i]), ratio)
  {
    seq(|options|, i requires 0 <= i < |options| => Score(nv, valueTokens, options[i], Norm(options[i]), ratio))
  }

  /**
    The fuzzy phase's choice: the index of the first highest positive score
    (-1 when no score is positive) and that score (0 then). A later score
    replaces the best only when strictly greater, so among equals the
    earliest stays; an option listed twice scores the same both times, so
    walking the list chooses what walking the de-duplicated dictionary of
    options chooses.
  */
  function Best(scores: seq<real>): (b: (int, real))
    ensures -1 <= b.0 < |scores|
    ensures b.0 == -1 ==> b.1 == 0.0
    ensures b.0 >= 0 ==> b.1 == scores[b.0] > 0.0
    ensures b.0 >= 0 ==> forall j :: 0 <= j < b.0 ==> scores[j] < b.1
    ensures forall j :: 0 <= j < |scores| ==> scores[j] <= b.1
  {
    if scores == [] then (-1, 0.0)
    else
      var prev := Best(scores[..|scores| - 1]);
      var last := scores[|scores| - 1];
      if last > prev.1 then (|scores| - 1, last) else prev
  }

  /**
    `map_value_to_vocab`: None for a missing or empty value, no options, or
    a value that normalises to nothing; otherwise the first option with the
    same normalised form; otherwise the keyword phase (only with hints);
    otherwise the best fuzzy option, when it is not empty and its score
    reaches the threshold.
  */
  function MapSpec(value: Option<string>, options: seq<string>, hints: seq<(string, seq<string>)>,
                   threshold: real, ratio: (string, string) -> real): (r: Option<string>)
    ensures r.Some? ==> r.value in options
    ensures !Truthy(value) || options == [] || NormalizeText(value) == "" ==> r.None?
  {
    if !Truthy(value) || options == [] then None
    else
      var nv := NormalizeText(value);
      if nv == "" then None
      else
        var i := IndexOf(NormsOf(options), nv);
        if i < |options| then Some(options[i])
        else
          var hinted := if hints == [] then None else HintMatch(hints, options, Lower(value.value));
          if hinted.Some? then hinted
          else
            FuzzyPick(options, Scores(options, nv, Tokenize(value), ratio), threshold)
  }

  /** The fuzzy phase's answer: the best-scoring option, when there is one, it is not empty and it reaches the threshold. */
  function FuzzyPick(options: seq<string>, scores: seq<real>, threshold: real): (r: Option<string>)
    requires |scores| == |options|
    ensures r.Some? ==> r.value in options && r.value != ""
  {
    var b := Best(scores);
    if b.0 >= 0 && options[b.0] != "" && b.1 >= threshold then Some(options[b.0]) else None
  }

  /** When the fuzzy phase finds nothing among non-empty options, every score misses the threshold or is not positive. */
  lemma FuzzyPickNone(options: seq<string>, scores: seq<real>, threshold: real)
    requires |scores| == |options|
    requires forall j :: 0 <= j < |options| ==> options[j] != ""
    requires FuzzyPick(options, scores, threshold).None?
    ensures forall j :: 0 <= j < |scores| ==> scores[j] < threshold || scores[j] <= 0.0
  {
    var b := Best(scores);
    forall j | 0 <= j < |scores| ensures scores[j] < threshold || scores[j] <= 0.0 {
      assert scores[j] <= b.1;
    }
  }

  /** An option with the value's normalised form wins, and the first such option wins. */
  lemma MapExact(value: Option<string>, options: seq<string>, hints: seq<(string, seq<string>)>,
                 threshold: real, ratio: (string, string) -> real, i: nat)
    requires Truthy(value) && NormalizeText(value) != ""
    requires i < |options| && Norm(options[i]) == NormalizeText(value)
    requires forall j :: 0 <= j < i ==> Norm(options[j]) != NormalizeText(value)
    ensures MapSpec(value, options, hints, threshold, ratio) == Some(options[i])
  {
    var k := IndexOf(NormsOf(options), NormalizeText(value));
    assert k == i;
  }

  /** Without an exact match, a keyword hint that matches decides before any fuzzy score. */
  lemma MapHinted(value: Option<string>, options: seq<string>, hints: seq<(string, seq<string>)>,
                  threshold: real, ratio: (string, string) -> real)
    requires Truthy(value) && NormalizeText(value) != ""
    requires forall j :: 0 <= j < |options| ==> Norm(options[j]) != NormalizeText(value)
    requires HintMatch(hints, options, Lower(value.value)).Some?
    ensures MapSpec(value, options, hints, threshold, ratio) == HintMatch(hints, options, Lower(value.value))
  {
    var k := IndexOf(NormsOf(options), NormalizeText(value));
    assert k == |options|;
  }

  /**
    Without an exact or hinted match, the result is an option whose score
    reaches the threshold, that no option beats and that no earlier option
    ties.
  */
  lemma MapFuzzyFound(value: Option<string>, options: seq<string>, hints: seq<(string, seq<string>)>,
                      threshold: real, ratio: (string, string) -> real)
    requires Truthy(value) && NormalizeText(value) != ""
    requires forall j :: 0 <= j < |options| ==> Norm(options[j]) != NormalizeText(value)
    requires hints == [] || HintMatch(hints, options, Lower(value.value)).None?
    requires MapSpec(value, options, hints, threshold, ratio).Some?
    ensures var scores := Scores(options, NormalizeText(value), Tokenize(value), ratio);
      exists i :: 0 <= i < |options| && options[i] == MapSpec(value, options, hints, threshold, ratio).value
        && scores[i] >= threshold
        && (forall j :: 0 <= j < |options| ==> scores[j] <= scores[i])
        && (forall j :: 0 <= j < i ==> scores[j] < scores[i])
  {
    var scores := Scores(options, NormalizeText(value), Tokenize(value), ratio);
    var k := IndexOf(NormsOf(options), NormalizeText(value));
    assert k == |options|;
    var b := Best(scores);
    assert b.0 >= 0;
    assert options[b.0] == MapSpec(value, options, hints, threshold, ratio).value;
  }

  /**
    Without an exact or hinted match and without empty options, no result
    means that every score misses the threshold or is not positive.
  */
  lemma MapFuzzyNone(value: Option<string>, options: seq<string>, hints: seq<(string, seq<string>)>,
                     threshold: real, ratio: (string, string) -> real)
    requires Truthy(value) && NormalizeText(value) != ""
    requires forall j :: 0 <= j < |options| ==> Norm(options[j]) != NormalizeText(value) && options[j] != ""
    requires hints == [] || HintMatch(hints, options, Lower(value.value)).None?
    requires MapSpec(value, options, hints, threshold, ratio).None?
    ensures var scores := Scores(options, NormalizeText(value), Tokenize(value), ratio);
      forall j :: 0 <= j < |options| ==> scores[j] < threshold || scores[j] <= 0.0
  {
    var k := IndexOf(NormsOf(options), NormalizeText(value));
    assert k == |options|;
    FuzzyPickNone(options, Scores(options, NormalizeText(value), Tokenize(value), ratio), threshold);
  }

  /**
    `map_value_to_vocab` as the source writes it: a loop over the options
    for an exact match, the hint loops, then one pass keeping the best
    fuzzy score, each phase returning as soon as it has an answer.
  */
  method MapValueToVocab(value: Option<string>, options: seq<string>, hints: seq<(string, seq<string>)>,
                         threshold: real, ratio: (string, string) -> real) returns (r: Option<string>)
    ensures r == MapSpec(value, options, hints, threshold, ratio)
  {
    if !Truthy(value) || options == [] {
      return None;
    }
    var normalizedValue := NormalizeText(value);
    if normalizedValue == "" {
      return None;
    }
    var norms := NormsOf(options);
    var exact := FirstExact(norms, normalizedValue);
    if exact < |options| {
      return Some(options[exact]);
    }
    var lowerValue := Lower(value.value);
    if hints != [] {
      var hinted := FirstHinted(hints, options, lowerValue);
      if hinted.Some? {
        return hinted;
      }
    }
    var valueTokens := Tokenize(value);
    var bestOption, bestScore := FuzzyBest(options, norms, normalizedValue, valueTokens, ratio);
    if bestOption.Some? && bestOption.value != "" && bestScore >= threshold {
      return bestOption;
    }
    return None;
  }

  /** The exact-match loop: the first option whose normalised form is the value's, `|norms|` when none is. */
  method FirstExact(norms: seq<string>, nv: string) returns (i: nat)
    ensures i == IndexOf(norms, nv)
  {
    i := 0;
    while i < |norms|
      invariant i <= |norms|
      invariant forall j :: 0 <= j < i ==> norms[j] != nv
    {
      if norms[i] == nv {
        return;
      }
      i := i + 1;
    }
  }

  /**
    The keyword loops: for each hint whose keyword occurs in the value, the
    preferred entries in order, the first that names an option (ignoring
    case) and is not empty winning.
  */
  method FirstHinted(hints: seq<(string, seq<string>)>, options: seq<string>, lowerValue: string) returns (r: Option<string>)
    ensures r == HintMatch(hints, options, lowerValue)
  {
    for h := 0 to |hints|
      invariant HintMatch(hints, options, lowerValue) == HintMatch(hints[h..], options, lowerValue)
    {
      var (keyword, preferred) := hints[h];
      assert hints[h..][1..] == hints[h + 1..];
      if Contains(lowerValue, keyword) {
        for t := 0 to |preferred|
          invariant TargetMatch(preferred, options) == TargetMatch(preferred[t..], options)
        {
          var m := CaseIndex(options, preferred[t]);
          assert preferred[t..][1..] == preferred[t + 1..];
          if m < |options| && options[m] != "" {
            return Some(options[m]);
          }
        }
      }
    }
    return None;
  }

  /** One more score replaces the best so far only when strictly greater. */
  lemma BestSnoc(scores: seq<real>, i: nat)
    requires i < |scores|
    ensures Best(scores[..i + 1]) == if scores[i] > Best(scores[..i]).1 then (i, scores[i]) else Best(scores[..i])
  {
    assert scores[..i + 1][..i] == scores[..i];
  }

  /** The fuzzy loop: the option with the first highest positive score, kept on strict improvement only. */
  method FuzzyBest(options: seq<string>, norms: seq<string>, nv: string, valueTokens: seq<string>,
                   ratio: (string, string) -> real) returns (bestOption: Option<string>, bestScore: real)
    requires norms == NormsOf(options)
    ensures var b := Best(Scores(options, nv, valueTokens, ratio));
      && bestScore == b.1
      && (bestOption.Some? <==> b.0 >= 0)
      && (bestOption.Some? ==> bestOption.value == options[b.0])
  {
    bestOption := None;
    bestScore := 0.0;
    ghost var scores := Scores(options, nv, valueTokens, ratio);
    for i := 0 to |options|
      invariant bestScore == Best(scores[..i]).1
      invariant bestOption.Some? <==> Best(scores[..i]).0 >= 0
      invariant bestOption.Some? ==> bestOption.value == options[Best(scores[..i]).0]
    {
      var score := Score(nv, valueTokens, options[i], norms[i], ratio);
      assert score == scores[i];
      BestSnoc(scores, i);
      if score > bestScore {
        bestScore := score;
        bestOption := Some(options[i]);
      }
    }
    assert scores[..|options|] == scores;
  }

  /** The hint phase on the example of a soy-based protein: the first hint, "soy", points at Tofu. */
  lemma SoyHintsToTofu()
    ensures HintMatch(IngredientKeywordHints, ["Tofu", "Tempeh", "Paneer"], Lower("soy-based bean protein")) == Some("Tofu")
  {
    var lv := Lower("soy-based bean protein");
    assert lv[0..3] == "soy";
    ContainsAt(lv, "soy", 0);
    assert CaseIndex(["Tofu", "Tempeh", "Paneer"], "Tofu") == 0;
  }

  // ---------------------------------------------------------------- constraining an intent

  const FieldThreshold: real := 0.7
  const IngredientThreshold: real := 0.5

  /** `normalize_field`: a missing or empty value becomes None, anything else its mapping (no hints). */
  function FieldSpec(value: Option<string>, options: seq<string>, ratio: (string, string) -> real): (r: Option<string>)
    ensures r.Some? ==> r.value in options
    ensures !Truthy(value) ==> r.None?
  {
    if !Truthy(value) then None else MapSpec(value, options, [], FieldThreshold, ratio)
  }

  /** One structured field: mapped when it is set, left empty otherwise. */
  method MapField(value: Option<string>, options: seq<string>, ratio: (string, string) -> real) returns (m: Option<string>)
    ensures m == FieldSpec(value, options, ratio)
  {
    m := None;
    if Truthy(value) {
      m := MapValueToVocab(value, options, [], FieldThreshold, ratio);
    }
  }

  /** No element of `s` appears twice. */
  predicate Distinct(s: seq<string>) {
    forall i, j :: 0 <= i < j < |s| ==> s[i] != s[j]
  }

  /** The mapping of one ingredient. */
  function IngredientMapping(ingredient: string, options: seq<string>, ratio: (string, string) -> real): Option<string> {
    MapSpec(Some(ingredient), options, IngredientKeywordHints, IngredientThreshold, ratio)
  }

  /** The mapping of each ingredient, in order. */
  function Mappings(values: seq<string>, options: seq<string>, ratio: (string, string) -> real): (r: seq<Option<string>>)
    ensures |r| == |values|
    ensures forall i :: 0 <= i < |values| ==> r[i] == IngredientMapping(values[i], options, ratio)
  {
    seq(|values|, i requires 0 <= i < |values| => IngredientMapping(values[i], options, ratio))
  }

  /** A mapping that contributes: some non-empty value. */
  predicate Contributes(m: Option<string>) {
    m.Some? && m.value != ""
  }

  /** The contributing mappings, each kept at its first occurrence. */
  function Collected(mapped: seq<Option<string>>): (r: seq<string>)
    ensures Distinct(r)
    ensures forall k :: 0 <= k < |r| ==> r[k] != ""
  {
    if mapped == [] then []
    else
      var prev := Collected(mapped[..|mapped| - 1]);
      var m := mapped[|mapped| - 1];
      if Contributes(m) && m.value !in prev then prev + [m.value] else prev
  }

  lemma CollectedSnoc(mapped: seq<Option<string>>, i: nat)
    requires i < |mapped|
    ensures var prev := Collected(mapped[..i]);
      Collected(mapped[..i + 1]) == if Contributes(mapped[i]) && mapped[i].value !in prev then prev + [mapped[i].value] else prev
  {
    assert mapped[..i + 1][..i] == mapped[..i];
  }

  /** Every collected value is one of the mappings. */
  lemma {:induction false} CollectedSound(mapped: seq<Option<string>>)
    ensures forall x :: x in Collected(mapped) ==> exists i :: 0 <= i < |mapped| && mapped[i] == Some(x)
  {
    if mapped != [] {
      var init := mapped[..|mapped| - 1];
      CollectedSound(init);
      forall x | x in Collected(mapped) ensures exists i :: 0 <= i < |mapped| && mapped[i] == Some(x) {
        if x in Collected(init) {
          var i :| 0 <= i < |init| && init[i] == Some(x);
          assert mapped[i] == init[i];
        } else {
          assert mapped[|mapped| - 1] == Some(x);
        }
      }
    }
  }

  /** Every contributing mapping is collected. */
  lemma {:induction false} CollectedComplete(mapped: seq<Option<string>>)
    ensures forall i :: 0 <= i < |mapped| && Contributes(mapped[i]) ==> mapped[i].value in Collected(mapped)
  {
    if mapped != [] {
      var init := mapped[..|mapped| - 1];
      CollectedComplete(init);
      forall i | 0 <= i < |mapped| && Contributes(mapped[i]) ensures mapped[i].value in Collected(mapped) {
        if i < |init| {
          assert mapped[i] == init[i];
        }
      }
    }
  }

  /**
    The collected values keep the order of their first occurrences: an
    earlier value first occurs among the mappings before a later one.
  */
  lemma {:induction false} CollectedOrder(mapped: seq<Option<string>>)
    ensures forall j, k :: 0 <= j < k < |Collected(mapped)| ==>
      IndexOf(mapped, Some(Collected(mapped)[j])) < IndexOf(mapped, Some(Collected(mapped)[k]))
  {
    if mapped != [] {
      var n := |mapped| - 1;
      var init := mapped[..n];
      var prev := Collected(init);
      CollectedOrder(init);
      CollectedSound(init);
      assert mapped == init + [mapped[n]];
      forall x | x in prev ensures IndexOf(mapped, Some(x)) == IndexOf(init, Some(x)) < n {
        var i :| 0 <= i < |init| && init[i] == Some(x);
        IndexOfPrefix(init, mapped, Some(x), i);
      }
      var r := Collected(mapped);
      if r == prev {
        forall j, k | 0 <= j < k < |r| ensures IndexOf(mapped, Some(r[j])) < IndexOf(mapped, Some(r[k])) {
          assert r[j] in prev && r[k] in prev;
        }
      } else {
        var v := mapped[n].value;
        assert r == prev + [v];
        CollectedComplete(init);
        assert IndexOf(mapped, Some(v)) == n by {
          forall i | 0 <= i < n ensures mapped[i] != Some(v) {
            assert mapped[i] == init[i];
          }
        }
        forall j, k | 0 <= j < k < |r| ensures IndexOf(mapped, Some(r[j])) < IndexOf(mapped, Some(r[k])) {
          assert r[j] == prev[j] && r[j] in prev;
          if k < |prev| {
            assert r[k] == prev[k] && r[k] in prev;
          }
        }
      }
    }
  }

  /** `normalize_ingredient_list`: None for a missing or empty list, and None again when nothing maps. */
  function IngredientListSpec(values: Option<seq<string>>, options: seq<string>, ratio: (string, string) -> real): (r: Option<seq<string>>)
    ensures r.Some? ==> r.value != [] && Distinct(r.value)
    ensures !TruthyList(values) ==> r.None?
  {
    if !TruthyList(values) then None
    else
      var c := Collected(Mappings(values.value, options, ratio));
      if c == [] then None else Some(c)
  }

  /**
    The ingredients list keeps exactly the non-empty mappings of its
    ingredients: each kept value is the mapping of one of them, and each
    ingredient that maps to a non-empty value has that value kept.
  */
  lemma IngredientListExact(values: seq<string>, options: seq<string>, ratio: (string, string) -> real)
    requires values != []
    ensures var r := IngredientListSpec(Some(values), options, ratio);
      (forall x :: r.Some? && x in r.value ==> exists i :: 0 <= i < |values| && IngredientMapping(values[i], options, ratio) == Some(x))
      && (forall i :: 0 <= i < |values| && Contributes(IngredientMapping(values[i], options, ratio)) ==>
            r.Some? && IngredientMapping(values[i], options, ratio).value in r.value)
      && (forall x :: r.Some? && x in r.value ==> x in options)
  {
    var mapped := Mappings(values, options, ratio);
    CollectedSound(mapped);
    CollectedComplete(mapped);
    forall x | x in Collected(mapped) ensures x in options {
      var i :| 0 <= i < |mapped| && mapped[i] == Some(x);
    }
  }

  /** One ingredient mapped with the ingredient hints and threshold. */
  method MapIngredient(ingredient: string, options: seq<string>, ratio: (string, string) -> real) returns (m: Option<string>)
    ensures m == IngredientMapping(ingredient, options, ratio)
  {
    m := MapValueToVocab(Some(ingredient), options, IngredientKeywordHints, IngredientThreshold, ratio);
  }

  /** `normalize_ingredient_list`: nothing for a missing or empty list, else the collected mappings, or nothing when none maps. */
  method NormalizeIngredientList(values: Option<seq<string>>, options: seq<string>, ratio: (string, string) -> real)
    returns (r: Option<seq<string>>)
    ensures r == IngredientListSpec(values, options, ratio)
  {
    if !TruthyList(values) {
      return None;
    }
    var normalized := CollectIngredients(values.value, options, ratio);
    r := if normalized == [] then None else Some(normalized);
  }

  /** The loop of `normalize_ingredient_list`: map each ingredient, append a non-empty mapping not seen yet. */
  method CollectIngredients(items: seq<string>, options: seq<string>, ratio: (string, string) -> real)
    returns (normalized: seq<string>)
    ensures normalized == Collected(Mappings(items, options, ratio))
  {
    ghost var all := Mappings(items, options, ratio);
    normalized := [];
    for i := 0 to |items|
      invariant normalized == Collected(all[..i])
    {
      var mapped := MapIngredient(items[i], options, ratio);
      assert mapped == all[i];
      CollectedSnoc(all, i);
      if mapped.Some? && mapped.value != "" && mapped.value !in normalized {
        normalized := normalized + [mapped.value];
      }
    }
    assert all[..|items|] == all;
  }

  /**
    `apply_vocab_constraints`: cuisine, course and diet are replaced by
    their mapping onto the vocabulary (threshold 0.7, empty values become
    None), and both ingredient lists by their de-duplicated mappings; the
    other fields keep their values.
  */
  method ApplyVocabConstraints(intent: ParsedIntent, vocab: map<string, seq<string>>, ratio: (string, string) -> real)
    returns (result: ParsedIntent)
    ensures result == intent.(
      cuisine := FieldSpec(intent.cuisine, Lookup(vocab, "cuisines"), ratio),
      course := FieldSpec(intent.course, Lookup(vocab, "courses"), ratio),
      diet := FieldSpec(intent.diet, Lookup(vocab, "diets"), ratio),
      ingredientsInclude := IngredientListSpec(intent.ingredientsInclude, Lookup(vocab, "ingredients"), ratio),
      ingredientsExclude := IngredientListSpec(intent.ingredientsExclude, Lookup(vocab, "ingredients"), ratio))
    ensures result.cuisine.Some? ==> result.cuisine.value in Lookup(vocab, "cuisines")
    ensures result.course.Some? ==> result.course.value in Lookup(vocab, "courses")
    ensures result.diet.Some? ==> result.diet.value in Lookup(vocab, "diets")
    ensures result.ingredientsInclude.Some? ==> result.ingredientsInclude.value != [] && Distinct(result.ingredientsInclude.value)
    ensures result.ingredientsExclude.Some? ==> result.ingredientsExclude.value != [] && Distinct(result.ingredientsExclude.value)
  {
    result := intent;
    var mapped := MapField(intent.cuisine, Lookup(vocab, "cuisines"), ratio);
    result := result.(cuisine := mapped);
    mapped := MapField(intent.course, Lookup(vocab, "courses"), ratio);
    result := result.(course := mapped);
    mapped := MapField(intent.diet, Lookup(vocab, "diets"), ratio);
    result := result.(diet := mapped);
    var included := NormalizeIngredientList(intent.ingredientsInclude, Lookup(vocab, "ingredients"), ratio);
    result := result.(ingredientsInclude := included);
    var excluded := NormalizeIngredientList(intent.ingredientsExclude, Lookup(vocab, "ingredients"), ratio);
    result := result.(ingredientsExclude := excluded);
  }

  // ---------------------------------------------------------------- the soy example

  /** A value whose first character lower-cases into [a-z0-9] normalises to a string starting with that character. */
  lemma NormFirst(v: string)
    requires v != [] && IsLowerAlnum(LowerChar(v[0]))
    ensures Norm(v) != [] && Norm(v)[0] == LowerChar(v[0])
  {
    var x := Squash(Lower(v));
    assert Lower(v)[0] == LowerChar(v[0]);
    assert x == [LowerChar(v[0])] + Squash(Lower(v)[1..]);
    AlnumNotSpace(x[0]);
    assert LStrip(x) == x;
    RStripShape(x);
  }

  /** Values whose first characters lower-case to different letters or digits normalise apart. */
  lemma NormsDiffer(a: string, b: string)
    requires a != [] && b != []
    requires IsLowerAlnum(LowerChar(a[0])) && IsLowerAlnum(LowerChar(b[0])) && LowerChar(a[0]) != LowerChar(b[0])
    ensures Norm(a) != Norm(b)
  {
    NormFirst(a);
    NormFirst(b);
  }

  /** No option normalises like "soy-based bean protein". */
  lemma SoyNoExact(options: seq<string>, value: string)
    requires options == ["Tofu", "Tempeh", "Paneer"] && value == "soy-based bean protein"
    ensures NormalizeText(Some(value)) != ""
    ensures forall j :: 0 <= j < |options| ==> Norm(options[j]) != NormalizeText(Some(value))
  {
    NormFirst(value);
    assert Norm(value) == NormalizeText(Some(value));
    forall j | 0 <= j < |options| ensures Norm(options[j]) != Norm(value) {
      if j == 0 {
        NormsDiffer("Tofu", value);
      } else if j == 1 {
        NormsDiffer("Tempeh", value);
      } else {
        NormsDiffer("Paneer", value);
      }
    }
  }

  /** "soy-based bean protein" maps to Tofu among Tofu, Tempeh and Paneer, whatever the similarity ratio. */
  lemma SoyMapsToTofu(ratio: (string, string) -> real)
    ensures IngredientMapping("soy-based bean protein", ["Tofu", "Tempeh", "Paneer"], ratio) == Some("Tofu")
  {
    var options := ["Tofu", "Tempeh", "Paneer"];
    var value := "soy-based bean protein";
    SoyNoExact(options, value);
    SoyHintsToTofu();
    MapHinted(Some(value), options, IngredientKeywordHints, IngredientThreshold, ratio);
  }

  lemma CollectedSingle(m: Option<string>)
    requires Contributes(m)
    ensures Collected([m]) == [m.value]
  {
    assert [m][..0] == [];
  }

  /** A one-ingredient list whose ingredient maps to a non-empty value becomes that value alone. */
  lemma ListOfOne(v: string, options: seq<string>, ratio: (string, string) -> real, m: string)
    requires IngredientMapping(v, options, ratio) == Some(m) && m != ""
    ensures IngredientListSpec(Some([v]), options, ratio) == Some([m])
  {
    var mapped := Mappings([v], options, ratio);
    assert mapped == [Some(m)];
    CollectedSingle(Some(m));
    assert Collected(mapped) == [m];
  }

  /** The ingredient list ["soy-based bean protein"] becomes ["Tofu"] against that vocabulary. */
  lemma SoyListToTofu(ratio: (string, string) -> real)
    ensures IngredientListSpec(Some(["soy-based bean protein"]), ["Tofu", "Tempeh", "Paneer"], ratio) == Some(["Tofu"])
  {
    SoyMapsToTofu(ratio);
    ListOfOne("soy-based bean protein", ["Tofu", "Tempeh", "Paneer"], ratio, "Tofu");
  }
}
