/**
 * The country search box: the typed value is lower-cased and trimmed; a
 * query shorter than two characters closes the result list; otherwise the list
 * shows the table's keys, in table order, whose lower-cased form contains the
 * query, at most ten of them, or a "no country found" line.
 */
module Search {
  import opened Wrappers
  import opened JsText
  import opened Countries

  const MinQueryLength: nat := 2
  const MaxResults: nat := 10

  /** What the result list shows after an input event. */
  datatype SearchView =
    | Closed                       // query too short: the list is hidden
    | NotFound                     // "Aucun pays trouvé"
    | Results(keys: seq<string>)   // one item per matching country

  function NormalizeQuery(value: string): string
  {
    Trim(Lower(value))
  }

  predicate KeyMatches(key: string, query: string)
  {
    Contains(Lower(key), query)
  }

  /** `keys.filter(k => k.toLowerCase().includes(query))`. */
  function Matches(keys: seq<string>, query: string): (r: seq<string>)
    ensures |r| <= |keys|
    ensures forall k :: k in r ==> k in keys && KeyMatches(k, query)
  {
    if keys == [] then []
    else (if KeyMatches(keys[0], query) then [keys[0]] else []) + Matches(keys[1..], query)
  }

  /** `slice(0, n)`. */
  function Take(s: seq<string>, n: nat): (r: seq<string>)
    ensures |r| == (if |s| < n then |s| else n)
    ensures r == s[..|r|]
  {
    if |s| <= n then s else s[..n]
  }

  /** The input handler of the search box, on the current country table. */
  function Search(t: Table, value: string): (r: SearchView)
    ensures r == Closed <==> Utf16Length(NormalizeQuery(value)) < MinQueryLength
    ensures r.Results? ==> 1 <= |r.keys| <= MaxResults
    ensures r.Results? ==> forall k :: k in r.keys ==> k in t.keys && KeyMatches(k, NormalizeQuery(value))
  {
    var query := NormalizeQuery(value);
    if Utf16Length(query) < MinQueryLength then Closed
    else
      var matches := Take(Matches(t.keys, query), MaxResults);
      if |matches| > 0 then Results(matches) else NotFound
  }

  /** a is b with some elements left out, the rest kept in order. */
  predicate IsSubsequence(a: seq<string>, b: seq<string>)
    decreases |b|
  {
    a == [] || (b != [] && (IsSubsequence(a, b[1..]) || (a[0] == b[0] && IsSubsequence(a[1..], b[1..]))))
  }

  /** The filter keeps exactly the matching keys, in their original order. */
  lemma {:induction false} MatchesExact(keys: seq<string>, query: string)
    ensures forall k :: k in Matches(keys, query) <==> k in keys && KeyMatches(k, query)
    ensures IsSubsequence(Matches(keys, query), keys)
  {
    if keys != [] {
      MatchesExact(keys[1..], query);
      assert keys == [keys[0]] + keys[1..];
      var m := Matches(keys, query);
      if KeyMatches(keys[0], query) {
        assert m == [keys[0]] + Matches(keys[1..], query);
        assert m[0] == keys[0] && m[1..] == Matches(keys[1..], query);
        assert IsSubsequence(m[1..], keys[1..]);
      } else {
        assert m == Matches(keys[1..], query);
      }
    }
  }

  /** The list is closed exactly when the normalised query has fewer than two UTF-16 units. */
  lemma SearchClosedIff(t: Table, value: string)
    ensures Search(t, value) == Closed <==> Utf16Length(NormalizeQuery(value)) < MinQueryLength
  {
  }

  /** "No country found" is shown exactly when the query is long enough and no key contains it. */
  lemma SearchNotFoundIff(t: Table, value: string)
    ensures Search(t, value) == NotFound <==>
      && Utf16Length(NormalizeQuery(value)) >= MinQueryLength
      && forall k :: k in t.keys ==> !KeyMatches(k, NormalizeQuery(value))
  {
    var query := NormalizeQuery(value);
    MatchesExact(t.keys, query);
    var m := Matches(t.keys, query);
    if Utf16Length(query) >= MinQueryLength && Search(t, value) == NotFound {
      assert m == [];
    }
    if Utf16Length(query) >= MinQueryLength && m != [] {
      assert m[0] in m;
    }
  }

  /**
   * A result list holds the first min(10, n) of the n matching keys, in table
   * order; every entry is a key of the table whose lower-cased form contains the
   * query, and clicking it shows that country's record.
   */
  lemma SearchResults(t: Table, value: string, shown: Option<CountryInfo>)
    requires Valid(t)
    requires Search(t, value).Results?
    ensures var query := NormalizeQuery(value);
      var m := Matches(t.keys, query);
      var r := Search(t, value).keys;
      && Utf16Length(query) >= MinQueryLength
      && 1 <= |r| <= MaxResults
      && |r| == (if |m| < MaxResults then |m| else MaxResults)
      && r == m[..|r|]
      && (forall k :: k in r ==> k in t.entries && KeyMatches(k, query))
      && (forall k :: k in r ==> ShowCountryInfo(t, k, shown) == Some(t.entries[k]))
  {
    var query := NormalizeQuery(value);
    MatchesExact(t.keys, query);
    var m := Matches(t.keys, query);
    var r := Search(t, value).keys;
    forall k | k in r
      ensures k in m
    {
      var i :| 0 <= i < |r| && r[i] == k;
      assert m[i] == k;
    }
  }

  /** Lower-casing of a few typed values and keys. */
  lemma LowerExamples()
    ensures Lower("fra") == "fra" && Lower("xyz") == "xyz" && Lower("F") == "f"
    ensures Lower("  FRA ") == "  fra "
    ensures Lower("France") == "france" && Lower("Germany") == "germany"
  {
  }

  /** Trimming strips the blanks around "fra" and leaves the other queries alone. */
  lemma TrimExamples()
    ensures Trim("  fra ") == "fra"
    ensures Trim("fra") == "fra" && Trim("xyz") == "xyz" && Trim("f") == "f"
  {
    TrimPadded();
    TrimUnpadded("fra");
    TrimUnpadded("xyz");
    TrimUnpadded("f");
  }

  lemma TrimPadded()
    ensures Trim("  fra ") == "fra"
  {
    assert TrimStart("  fra ") == TrimStart(" fra ") == TrimStart("fra ") == "fra ";
    assert TrimEnd("fra ") == TrimEnd("fra") == "fra";
  }

  /** A string that neither starts nor ends with white space is its own trim. */
  lemma TrimUnpadded(s: string)
    requires s != [] && !IsJsSpace(s[0]) && !IsJsSpace(s[|s| - 1])
    ensures Trim(s) == s
  {
  }

  /** The normalised form of a few typed values, and its length in UTF-16 units. */
  lemma NormalizeExamples()
    ensures NormalizeQuery("fra") == "fra"
    ensures NormalizeQuery("  FRA ") == "fra"
    ensures NormalizeQuery("xyz") == "xyz"
    ensures Utf16Length("fra") == 3 && Utf16Length("xyz") == 3
    ensures NormalizeQuery("F") == "f" && Utf16Length("f") == 1
  {
    LowerExamples();
    TrimExamples();
  }

  lemma FranceContainsFra()
    ensures Contains("france", "fra")
  {
    assert "france"[..3] == "fra";
  }

  lemma GermanyLacksFra()
    ensures !Contains("germany", "fra")
  {
    ContainsNeedsFirst("germany", "fra");
  }

  lemma NoXyz()
    ensures !Contains("france", "xyz") && !Contains("germany", "xyz")
  {
    ContainsNeedsFirst("france", "xyz");
    ContainsNeedsFirst("germany", "xyz");
  }

  /** Which of the keys France and Germany contain "fra" and "xyz" once lower-cased. */
  lemma KeyMatchesExample()
    ensures KeyMatches("France", "fra") && !KeyMatches("Germany", "fra")
    ensures !KeyMatches("France", "xyz") && !KeyMatches("Germany", "xyz")
  {
    LowerExamples();
    FranceContainsFra();
    GermanyLacksFra();
    NoXyz();
  }

  lemma MatchesExample()
    ensures Matches(["France", "Germany"], "fra") == ["France"]
    ensures Matches(["France", "Germany"], "xyz") == []
  {
    KeyMatchesExample();
    var keys: seq<string> := ["France", "Germany"];
    assert keys[1..] == ["Germany"] && keys[1..][1..] == [];
  }

  /** "fra" and "  FRA " find France and not Germany; "F" is too short; "xyz" finds nothing. */
  lemma SearchExample(france: CountryInfo, germany: CountryInfo)
    ensures var t := Table(["France", "Germany"], map["France" := france, "Germany" := germany]);
      && Search(t, "fra") == Results(["France"])
      && Search(t, "  FRA ") == Results(["France"])
      && Search(t, "F") == Closed
      && Search(t, "xyz") == NotFound
  {
    var t := Table(["France", "Germany"], map["France" := france, "Germany" := germany]);
    NormalizeExamples();
    MatchesExample();
    SearchFound(t, "fra");
    SearchFound(t, "  FRA ");
    SearchShort(t, "F");
    SearchMissing(t, "xyz");
  }

  /*
   * SearchFound, SearchShort and SearchMissing take the facts about literal
   * strings that they need as preconditions, supplied by the example lemmas
   * above: unfolding those literals again inside each case is needlessly costly
   * for the verifier.
   */
  lemma SearchFound(t: Table, value: string)
    requires t.keys == ["France", "Germany"]
    requires NormalizeQuery(value) == "fra" && Utf16Length("fra") == 3
    requires Matches(["France", "Germany"], "fra") == ["France"]
    ensures Search(t, value) == Results(["France"])
  {
  }

  lemma SearchShort(t: Table, value: string)
    requires NormalizeQuery(value) == "f" && Utf16Length("f") == 1
    ensures Search(t, value) == Closed
  {
  }

  lemma SearchMissing(t: Table, value: string)
    requires t.keys == ["France", "Germany"]
    requires NormalizeQuery(value) == "xyz" && Utf16Length("xyz") == 3
    requires Matches(["France", "Germany"], "xyz") == []
    ensures Search(t, value) == NotFound
  {
  }
}
