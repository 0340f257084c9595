/**
 * The browse page: the listings shown for a search term and a food-type
 * filter, and the food-type categories the filter offers.
 */
module Browse {
  import opened Text
  import opened Seqs
  import opened Types

  // ---------------------------------------------------------------- filtering

  /** The search: the lower-cased term occurs in the lower-cased name, food type or description. */
  predicate MatchesSearch(l: Listing, searchTerm: string) {
    var term := Lower(searchTerm);
    Contains(Lower(l.restaurantName), term) || Contains(Lower(l.foodType), term) || Contains(Lower(l.description), term)
  }

  /** The food-type filter as the page writes it, `startsWith` branch included. */
  predicate MatchesFoodType(l: Listing, filter: string) {
    || filter == "all"
    || Contains(Lower(l.foodType), Lower(filter))
    || (filter != "all" && StartsWith(Lower(l.foodType), Lower(filter)))
  }

  predicate Shown(l: Listing, searchTerm: string, filter: string) {
    MatchesSearch(l, searchTerm) && MatchesFoodType(l, filter)
  }

  /** `filteredListings`. */
  function FilteredListings(ls: seq<Listing>, searchTerm: string, filter: string): seq<Listing> {
    if ls == [] then []
    else
      (if Shown(ls[0], searchTerm, filter) then [ls[0]] else [])
      + FilteredListings(ls[1..], searchTerm, filter)
  }

  /** A listing passes the search exactly when the lower-cased term is a substring of one of its three text fields. */
  lemma {:induction false} MatchesSearchIff(l: Listing, searchTerm: string)
    ensures MatchesSearch(l, searchTerm) <==>
      (|| IsSubstring(Lower(searchTerm), Lower(l.restaurantName))
       || IsSubstring(Lower(searchTerm), Lower(l.foodType))
       || IsSubstring(Lower(searchTerm), Lower(l.description)))
  {
    var term := Lower(searchTerm);
    ContainsIff(Lower(l.restaurantName), term);
    ContainsIff(Lower(l.foodType), term);
    ContainsIff(Lower(l.description), term);
  }

  /** The `startsWith` branch adds nothing: the filter is "all" or a substring match on the food type. */
  lemma FoodTypeFilterSimplifies(l: Listing, filter: string)
    ensures MatchesFoodType(l, filter) <==> filter == "all" || Contains(Lower(l.foodType), Lower(filter))
  {
    StartsWithContains(Lower(l.foodType), Lower(filter));
  }

  /** The shown listings are a subsequence of all listings: nothing added, order kept. */
  lemma {:induction false} FilteredIsSubseq(ls: seq<Listing>, searchTerm: string, filter: string)
    ensures IsSubseq(FilteredListings(ls, searchTerm, filter), ls)
  {
    if ls != [] {
      var rest := FilteredListings(ls[1..], searchTerm, filter);
      FilteredIsSubseq(ls[1..], searchTerm, filter);
      if Shown(ls[0], searchTerm, filter) {
        assert FilteredListings(ls, searchTerm, filter) == [ls[0]] + rest;
        assert ([ls[0]] + rest)[1..] == rest;
      } else {
        assert FilteredListings(ls, searchTerm, filter) == rest;
      }
    }
  }

  /** A listing is shown exactly when it is one of the listings and passes both tests. */
  lemma {:induction false} FilteredMembers(ls: seq<Listing>, searchTerm: string, filter: string)
    ensures forall l :: l in FilteredListings(ls, searchTerm, filter) <==> l in ls && Shown(l, searchTerm, filter)
  {
    if ls != [] {
      FilteredMembers(ls[1..], searchTerm, filter);
      assert ls == [ls[0]] + ls[1..];
    }
  }

  /** Filtering distributes over concatenation, so each listing is kept or dropped on its own. */
  lemma {:induction false} FilteredAppend(a: seq<Listing>, b: seq<Listing>, searchTerm: string, filter: string)
    ensures FilteredListings(a + b, searchTerm, filter)
            == FilteredListings(a, searchTerm, filter) + FilteredListings(b, searchTerm, filter)
  {
    if a != [] {
      FilteredAppend(a[1..], b, searchTerm, filter);
      assert (a + b)[1..] == a[1..] + b;
    } else {
      assert a + b == b;
    }
  }

  /** With an empty search term and the filter at "all", every listing is shown. */
  lemma {:induction false} EmptySearchShowsAll(ls: seq<Listing>)
    ensures FilteredListings(ls, "", "all") == ls
  {
    if ls != [] {
      ContainsEmpty(Lower(ls[0].restaurantName));
      assert Lower("") == "";
      EmptySearchShowsAll(ls[1..]);
      assert [ls[0]] + ls[1..] == ls;
    }
  }

  // ---------------------------------------------------------------- categories

  /** `foodType.split(' ')[0]`. */
  function FirstWord(foodType: string): string {
    Split(foodType, ' ')[0]
  }

  /** A listing's category: its first word without `(`, `)` and `,`, trimmed, or the whole food type when that is empty. */
  function CategoryOf(foodType: string): string {
    var word := Trim(Strip(FirstWord(foodType), "(),"));
    if word != [] then word else foodType
  }

  /** One category per listing, in listing order. */
  function RawCategories(ls: seq<Listing>): (r: seq<string>)
    ensures |r| == |ls| && forall i :: 0 <= i < |ls| ==> r[i] == CategoryOf(ls[i].foodType)
  {
    if ls == [] then [] else [CategoryOf(ls[0].foodType)] + RawCategories(ls[1..])
  }

  /** `.filter(Boolean)` on strings: the empty ones dropped. */
  function NonEmpty(s: seq<string>): (r: seq<string>)
    ensures forall x :: x in r <==> x in s && x != []
  {
    if s == [] then []
    else (if s[0] != [] then [s[0]] else []) + NonEmpty(s[1..])
  }

  /** `foodTypes`: "all", then every non-empty category once, in order of first appearance. */
  function FoodTypes(ls: seq<Listing>): seq<string> {
    ["all"] + Dedup(NonEmpty(RawCategories(ls)))
  }

  /** The first word is the longest prefix of the food type without a space. */
  lemma FirstWordSpec(foodType: string)
    ensures StartsWith(foodType, FirstWord(foodType))
    ensures ' ' !in FirstWord(foodType)
    ensures |FirstWord(foodType)| == |foodType| || foodType[|FirstWord(foodType)|] == ' '
  {
    SplitFirstPiece(foodType, ' ');
  }

  /**
   * A category is empty only for an empty food type. Otherwise it is either
   * the whole food type (the fallback) or a non-empty trimmed string of
   * characters of the first word, without spaces, parentheses or commas.
   */
  lemma CategoryOfShape(foodType: string)
    ensures CategoryOf(foodType) == [] <==> foodType == []
    ensures || CategoryOf(foodType) == foodType
            || (&& CategoryOf(foodType) != []
                && !IsWhitespace(CategoryOf(foodType)[0])
                && !IsWhitespace(CategoryOf(foodType)[|CategoryOf(foodType)| - 1])
                && forall c :: c in CategoryOf(foodType) ==> c in FirstWord(foodType) && c !in "(), ")
  {
    var stripped := Strip(FirstWord(foodType), "(),");
    FirstWordSpec(foodType);
    TrimChars(stripped);
  }

  /** A food type that starts with a plain word and a space is in that word's category. */
  lemma CategoryOfLeadingWord(word: string, rest: string)
    requires word != [] && forall c :: c in word ==> c !in "(), " && !IsWhitespace(c)
    ensures CategoryOf(word + " " + rest) == word
  {
    assert word + " " + rest == word + [' '] + rest;
    SplitAtFirst(word, ' ', rest);
    StripNothing(word, "(),");
    TrimNothing(word);
  }

  /** The first seeded listing is in category "Salads". */
  lemma SeedCategoryExample()
    ensures CategoryOf("Salads and Sandwiches") == "Salads"
  {
    assert "Salads and Sandwiches" == "Salads" + " " + "and Sandwiches";
    CategoryOfLeadingWord("Salads", "and Sandwiches");
  }

  /** A first word made only of parentheses and commas falls back to the whole food type. */
  lemma FallbackCategoryExample()
    ensures CategoryOf("() rice") == "() rice"
  {
  }

  /** Dropping empties keeps the relative order of first appearances of the kept strings. */
  lemma {:induction false} NonEmptyFirstIndex(s: seq<string>, x: string, y: string)
    requires x in NonEmpty(s) && y in NonEmpty(s)
    requires FirstIndex(NonEmpty(s), x) < FirstIndex(NonEmpty(s), y)
    ensures FirstIndex(s, x) < FirstIndex(s, y)
  {
    var ne := NonEmpty(s);
    assert x != [] && y != [] && x != y;
    if s[0] == [] {
      assert ne == NonEmpty(s[1..]);
      FirstIndexTail(s, x);
      FirstIndexTail(s, y);
      NonEmptyFirstIndex(s[1..], x, y);
    } else if x != s[0] {
      var rest := NonEmpty(s[1..]);
      assert ne == [s[0]] + rest;
      assert y != s[0];
      FirstIndexTail(ne, x);
      FirstIndexTail(ne, y);
      FirstIndexTail(s, x);
      FirstIndexTail(s, y);
      assert ne[1..] == rest;
      NonEmptyFirstIndex(s[1..], x, y);
    }
  }

  /** The de-duplicated categories are exactly the non-empty categories of the listings. */
  lemma CategoriesMembers(ls: seq<Listing>)
    ensures forall c :: c in Dedup(NonEmpty(RawCategories(ls))) <==>
              c != [] && exists i :: 0 <= i < |ls| && CategoryOf(ls[i].foodType) == c
  {
    var raw := RawCategories(ls);
    DedupSpec(NonEmpty(raw));
    forall c | c in Dedup(NonEmpty(raw)) ensures exists i :: 0 <= i < |ls| && CategoryOf(ls[i].foodType) == c {
      var i :| 0 <= i < |raw| && raw[i] == c;
    }
    forall c | c != [] && (exists i :: 0 <= i < |ls| && CategoryOf(ls[i].foodType) == c)
      ensures c in Dedup(NonEmpty(raw))
    {
      var i :| 0 <= i < |ls| && CategoryOf(ls[i].foodType) == c;
      assert raw[i] == c;
    }
  }

  /** The de-duplicated categories come in the order their first listing appears. */
  lemma CategoriesOrder(ls: seq<Listing>)
    ensures forall i, j :: 0 <= i < j < |Dedup(NonEmpty(RawCategories(ls)))| ==>
              && Dedup(NonEmpty(RawCategories(ls)))[i] in RawCategories(ls)
              && Dedup(NonEmpty(RawCategories(ls)))[j] in RawCategories(ls)
              && FirstIndex(RawCategories(ls), Dedup(NonEmpty(RawCategories(ls)))[i])
                 < FirstIndex(RawCategories(ls), Dedup(NonEmpty(RawCategories(ls)))[j])
  {
    var raw := RawCategories(ls);
    var d := Dedup(NonEmpty(raw));
    DedupSpec(NonEmpty(raw));
    forall i, j | 0 <= i < j < |d|
      ensures d[i] in raw && d[j] in raw && FirstIndex(raw, d[i]) < FirstIndex(raw, d[j])
    {
      NonEmptyFirstIndex(raw, d[i], d[j]);
    }
  }

  /**
   * The categories list starts with "all"; the rest are pairwise distinct,
   * each the non-empty category of some listing, every listing's non-empty
   * category among them, listed in the order their first listing appears.
   */
  lemma FoodTypesSpec(ls: seq<Listing>)
    ensures FoodTypes(ls)[0] == "all"
    ensures Distinct(FoodTypes(ls)[1..])
    ensures forall c :: c in FoodTypes(ls)[1..] <==> c != [] && exists i :: 0 <= i < |ls| && CategoryOf(ls[i].foodType) == c
    ensures forall i, j :: 1 <= i < j < |FoodTypes(ls)| ==>
              FirstIndex(RawCategories(ls), FoodTypes(ls)[i]) < FirstIndex(RawCategories(ls), FoodTypes(ls)[j])
  {
    var d := Dedup(NonEmpty(RawCategories(ls)));
    var r := FoodTypes(ls);
    DedupSpec(NonEmpty(RawCategories(ls)));
    assert r[1..] == d;
    CategoriesMembers(ls);
    CategoriesOrder(ls);
    forall i, j | 1 <= i < j < |r|
      ensures FirstIndex(RawCategories(ls), r[i]) < FirstIndex(RawCategories(ls), r[j])
    {
      assert r[i] == d[i - 1] && r[j] == d[j - 1];
    }
  }
}
