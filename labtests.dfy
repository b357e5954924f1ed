/** The lab-tests screen: categories with their unique names and order ranks, the
    category and test forms, the filtered and paged list of tests. */
module LabTests {
  import opened Text
  import opened ListView

  datatype Category = Category(id: int, name: string, orderRank: int, colorHexa: string)

  datatype LabTest = LabTest(
    id: int, name: string, price: real, coins: real, unionCoins: real,
    firstUnionCoins: real, lastUnionCoins: real, categoryId: int, imageUrl: string)

  const PageSize: nat := 5
  const DefaultColor: string := "#005FA1"

  // --------------------------------------------------------- order ranks

  /** `type.id !== excludeId`: with no id to exclude every category takes part. */
  predicate Counts(t: Category, excludeId: Option<int>) {
    excludeId.None? || t.id != excludeId.value
  }

  /** Some category other than the excluded one has rank `v`. */
  function RankUsedBy(types: seq<Category>, v: real, excludeId: Option<int>): (r: bool)
    ensures r <==> exists i :: 0 <= i < |types| && types[i].orderRank as real == v && Counts(types[i], excludeId)
  {
    if types == [] then false
    else (types[0].orderRank as real == v && Counts(types[0], excludeId))
         || RankUsedBy(types[1..], v, excludeId)
  }

  /** `isOrderRankUnique(orderRank, excludeId)`: no counted category has the rank the text
      denotes. A text that is not a number (NaN) equals no rank, so it is "unique". */
  function IsOrderRankUnique(types: seq<Category>, rankText: string, excludeId: Option<int>): (r: bool)
    ensures ParseNumber(rankText).None? ==> r
    ensures ParseNumber(rankText).Some? ==>
              (r <==> forall t :: t in types && Counts(t, excludeId) ==> t.orderRank as real != ParseNumber(rankText).value)
  {
    match ParseNumber(rankText)
    case None => true
    case Some(v) =>
      assert (exists i :: 0 <= i < |types| && types[i].orderRank as real == v && Counts(types[i], excludeId))
             <==> (exists t :: t in types && Counts(t, excludeId) && t.orderRank as real == v);
      !RankUsedBy(types, v, excludeId)
  }

  /** `Math.max(...types.map(t => t.orderRank))`. */
  function MaxRank(types: seq<Category>): (r: int)
    requires types != []
    ensures forall t :: t in types ==> t.orderRank <= r
    ensures exists t :: t in types && t.orderRank == r
  {
    if |types| == 1 then types[0].orderRank
    else
      var m := MaxRank(types[1..]);
      assert forall t :: t in types[1..] ==> t in types;
      if types[0].orderRank >= m then types[0].orderRank else m
  }

  /** `getNextAvailableOrderRank`: 1 for no categories, else one more than the largest rank. */
  function NextAvailableOrderRank(types: seq<Category>): (r: int)
    ensures types == [] ==> r == 1
    ensures forall t :: t in types ==> t.orderRank < r
    ensures types != [] ==> exists t :: t in types && t.orderRank == r - 1
  {
    if |types| == 0 then 1 else MaxRank(types) + 1
  }

  /** The rank the "add category" form is seeded with passes the uniqueness check. */
  lemma NextRankIsUnique(types: seq<Category>, excludeId: Option<int>)
    ensures IsOrderRankUnique(types, IntToString(NextAvailableOrderRank(types)), excludeId)
  {
    ParseIntToString(NextAvailableOrderRank(types));
  }

  // ---------------------------------------------------- suggested ranks

  function Ranks(types: seq<Category>): (r: seq<int>)
    ensures |r| == |types|
    ensures forall i :: 0 <= i < |types| ==> r[i] == types[i].orderRank
  {
    if types == [] then [] else [types[0].orderRank] + Ranks(types[1..])
  }

  /** `usedRanks.length > 0 ? Math.max(...usedRanks) : 0`. */
  function MaxUsedRank(types: seq<Category>): int {
    if types == [] then 0 else MaxRank(types)
  }

  /** The ranks in `lo .. hi` that no category uses, in increasing order. */
  function FreeRanks(used: seq<int>, lo: int, hi: int): (r: seq<int>)
    decreases hi - lo
  {
    if hi < lo then [] else FreeRanks(used, lo, hi - 1) + (if hi in used then [] else [hi])
  }

  /** The free ranks of `lo .. hi` lie in the range and are unused, ... */
  lemma {:induction false} FreeRanksInRange(used: seq<int>, lo: int, hi: int)
    ensures forall k :: 0 <= k < |FreeRanks(used, lo, hi)| ==>
              lo <= FreeRanks(used, lo, hi)[k] <= hi && FreeRanks(used, lo, hi)[k] !in used
    decreases hi - lo
  {
    if hi >= lo {
      FreeRanksInRange(used, lo, hi - 1);
    }
  }

  /** ... they are strictly increasing, ... */
  lemma {:induction false} FreeRanksIncreasing(used: seq<int>, lo: int, hi: int)
    ensures forall j, k :: 0 <= j < k < |FreeRanks(used, lo, hi)| ==>
              FreeRanks(used, lo, hi)[j] < FreeRanks(used, lo, hi)[k]
    decreases hi - lo
  {
    if hi >= lo {
      FreeRanksIncreasing(used, lo, hi - 1);
      FreeRanksInRange(used, lo, hi - 1);
    }
  }

  /** ... and every unused rank of the range is among them. */
  lemma {:induction false} FreeRanksComplete(used: seq<int>, lo: int, hi: int)
    ensures forall x :: lo <= x <= hi && x !in used ==> x in FreeRanks(used, lo, hi)
    decreases hi - lo
  {
    if hi >= lo {
      FreeRanksComplete(used, lo, hi - 1);
      var p := FreeRanks(used, lo, hi - 1);
      assert forall x :: x in p ==> x in FreeRanks(used, lo, hi);
    }
  }

  lemma FreeRanksFacts(used: seq<int>, lo: int, hi: int)
    ensures forall k :: 0 <= k < |FreeRanks(used, lo, hi)| ==>
              lo <= FreeRanks(used, lo, hi)[k] <= hi && FreeRanks(used, lo, hi)[k] !in used
    ensures forall j, k :: 0 <= j < k < |FreeRanks(used, lo, hi)| ==>
              FreeRanks(used, lo, hi)[j] < FreeRanks(used, lo, hi)[k]
    ensures forall x :: lo <= x <= hi && x !in used ==> x in FreeRanks(used, lo, hi)
  {
    FreeRanksInRange(used, lo, hi);
    FreeRanksIncreasing(used, lo, hi);
    FreeRanksComplete(used, lo, hi);
  }

  /** The free ranks up to a bound are a prefix of the free ranks up to a larger bound. */
  lemma {:induction false} FreeRanksPrefix(used: seq<int>, lo: int, mid: int, hi: int)
    requires mid <= hi
    ensures FreeRanks(used, lo, mid) <= FreeRanks(used, lo, hi)
    decreases hi - mid
  {
    if mid < hi {
      FreeRanksPrefix(used, lo, mid, hi - 1);
    }
  }

  function Take(s: seq<int>, n: nat): (r: seq<int>)
    ensures |r| == Min(|s|, n) && r <= s
  {
    if |s| <= n then s else s[..n]
  }

  /** The ranks `suggestAvailableOrderRanks` offers: the first five free ranks of
      1 .. maxRank + 3. */
  function Suggestions(types: seq<Category>): seq<int> {
    Take(FreeRanks(Ranks(types), 1, MaxUsedRank(types) + 3), 5)
  }

  /** `suggestAvailableOrderRanks`: walk the ranks 1 .. maxRank + 3 and collect the unused
      ones, stopping as soon as five have been found. */
  method SuggestAvailableOrderRanks(types: seq<Category>) returns (suggestions: seq<int>)
    ensures suggestions == Suggestions(types)
  {
    var usedRanks := Ranks(types);
    var maxRank := MaxUsedRank(types);
    ghost var free := FreeRanks(usedRanks, 1, maxRank + 3);
    ghost var stopped := false;
    suggestions := [];
    var i := 1;
    while i <= maxRank + 3
      invariant 1 <= i && (i <= maxRank + 4 || i == 1)
      invariant suggestions == FreeRanks(usedRanks, 1, i - 1)
      invariant |suggestions| < 5
    {
      if i !in usedRanks {
        suggestions := suggestions + [i];
      }
      if |suggestions| >= 5 {
        FreeRanksPrefix(usedRanks, 1, i, maxRank + 3);
        TakeOfLongPrefix(suggestions, free, 5);
        stopped := true;
        break;
      }
      i := i + 1;
    }
    if !stopped {
      assert suggestions == free;
    }
  }

  /** What the suggestions are: at most five free ranks in increasing order, none skipped,
      and at least three when no rank is negative. */
  lemma SuggestionsMeet(types: seq<Category>)
    ensures var s := Suggestions(types);
            && |s| <= 5
            && (forall j, k :: 0 <= j < k < |s| ==> s[j] < s[k])
            && (forall k :: 0 <= k < |s| ==> 1 <= s[k] <= MaxUsedRank(types) + 3 && s[k] !in Ranks(types))
            && (s != [] ==> forall x :: 1 <= x <= s[|s| - 1] && x !in Ranks(types) ==> x in s)
            && ((forall t :: t in types ==> t.orderRank >= 0) ==> |s| >= 3)
  {
    SuggestionFacts(Ranks(types), MaxUsedRank(types) + 3, Suggestions(types));
    if forall t :: t in types ==> t.orderRank >= 0 {
      SuggestionFloor(types);
    }
  }

  /** Taking `n` items of a list that starts with `n` known items gives those items. */
  lemma TakeOfLongPrefix(p: seq<int>, f: seq<int>, n: nat)
    requires p <= f && |p| == n
    ensures Take(f, n) == p
  {
  }

  /** What the first (at most) five free ranks are: increasing, in range, unused, and with
      no unused rank below the last one left out. */
  lemma SuggestionFacts(used: seq<int>, ceiling: int, s: seq<int>)
    requires s == Take(FreeRanks(used, 1, ceiling), 5)
    ensures |s| <= 5
    ensures forall j, k :: 0 <= j < k < |s| ==> s[j] < s[k]
    ensures forall k :: 0 <= k < |s| ==> 1 <= s[k] <= ceiling && s[k] !in used
    ensures s != [] ==> forall x :: 1 <= x <= s[|s| - 1] && x !in used ==> x in s
  {
    var f := FreeRanks(used, 1, ceiling);
    FreeRanksFacts(used, 1, ceiling);
    assert forall k :: 0 <= k < |s| ==> s[k] == f[k];
    if s != [] {
      forall x | 1 <= x <= s[|s| - 1] && x !in used ensures x in s {
        assert x in f;
        var k :| 0 <= k < |f| && f[k] == x;
        assert k < |s|;
        assert s[k] == x;
      }
    }
  }

  /** With no negative rank, maxRank + 1, + 2 and + 3 are always free, so at least three
      ranks are suggested. */
  lemma SuggestionFloor(types: seq<Category>)
    requires forall t :: t in types ==> t.orderRank >= 0
    ensures |Take(FreeRanks(Ranks(types), 1, MaxUsedRank(types) + 3), 5)| >= 3
  {
    RanksAtMostMax(types);
    FreeAboveMax(Ranks(types), MaxUsedRank(types));
  }

  /** No used rank exceeds `maxRank`, and with no negative rank `maxRank` is not negative. */
  lemma RanksAtMostMax(types: seq<Category>)
    requires forall t :: t in types ==> t.orderRank >= 0
    ensures forall i :: 0 <= i < |Ranks(types)| ==> Ranks(types)[i] <= MaxUsedRank(types)
    ensures MaxUsedRank(types) >= 0
  {
    var used := Ranks(types);
    forall i | 0 <= i < |used|
      ensures used[i] <= MaxUsedRank(types)
    {
      assert types[i] in types;
    }
  }

  /** Above the largest used rank the next three ranks are free. */
  lemma FreeAboveMax(used: seq<int>, m: int)
    requires m >= 0
    requires forall i :: 0 <= i < |used| ==> used[i] <= m
    ensures |Take(FreeRanks(used, 1, m + 3), 5)| >= 3
  {
    assert m + 1 !in used && m + 2 !in used && m + 3 !in used;
    var f0 := FreeRanks(used, 1, m);
    assert FreeRanks(used, 1, m + 1) == f0 + [m + 1];
    assert FreeRanks(used, 1, m + 2) == f0 + [m + 1] + [m + 2];
    assert FreeRanks(used, 1, m + 3) == f0 + [m + 1] + [m + 2] + [m + 3];
  }

  // ------------------------------------------------------- sorting categories

  predicate SortedByRank(cs: seq<Category>) {
    forall i, j :: 0 <= i < j < |cs| ==> cs[i].orderRank <= cs[j].orderRank
  }

  /** Put `c` in front of the first category whose rank is not smaller. */
  function InsertByRank(c: Category, cs: seq<Category>): (r: seq<Category>)
    requires SortedByRank(cs)
    ensures SortedByRank(r)
    ensures multiset(r) == multiset(cs) + multiset{c}
  {
    if cs == [] || c.orderRank <= cs[0].orderRank then
      ConsSorted(c, cs);
      [c] + cs
    else
      var rest := InsertByRank(c, cs[1..]);
      assert cs == [cs[0]] + cs[1..];
      InsertKeepsFloor(c, cs[1..], rest, cs[0].orderRank);
      ConsSorted(cs[0], rest);
      [cs[0]] + rest
  }

  /** A category no later one ranks below can go in front of a sorted list. */
  lemma ConsSorted(x: Category, cs: seq<Category>)
    requires SortedByRank(cs)
    requires cs == [] || x.orderRank <= cs[0].orderRank
    ensures SortedByRank([x] + cs)
  {
    var r := [x] + cs;
    forall i, j | 0 <= i < j < |r|
      ensures r[i].orderRank <= r[j].orderRank
    {
      if i > 0 {
        assert r[i] == cs[i - 1] && r[j] == cs[j - 1];
      } else {
        assert r[j] == cs[j - 1];
      }
    }
  }

  /** Whatever bound all of `cs` and `c` respect, the insertion respects too. */
  lemma InsertKeepsFloor(c: Category, cs: seq<Category>, r: seq<Category>, floor: int)
    requires multiset(r) == multiset(cs) + multiset{c}
    requires floor <= c.orderRank
    requires forall i :: 0 <= i < |cs| ==> floor <= cs[i].orderRank
    ensures r == [] || floor <= r[0].orderRank
  {
    if r != [] {
      assert r[0] in multiset(r);
      if r[0] != c {
        assert r[0] in multiset(cs);
        assert r[0] in cs;
      }
    }
  }

  /** `resource.sort((a, b) => a.orderRank - b.orderRank)`: the categories ordered by rank. */
  function SortByRank(cs: seq<Category>): (r: seq<Category>)
    ensures SortedByRank(r)
    ensures multiset(r) == multiset(cs)
  {
    if cs == [] then []
    else
      assert cs == [cs[0]] + cs[1..];
      InsertByRank(cs[0], SortByRank(cs[1..]))
  }

  // ---------------------------------------------------------- category form

  datatype TypeError = EmptyName | InvalidRank | NameExists | RankUsed

  datatype CategoryPayload = CategoryPayload(id: Option<int>, name: string, colorHexa: string, orderRank: real)

  /** Some counted category's lower-cased name equals `key`. */
  function NameUsedBy(types: seq<Category>, key: string, excludeId: Option<int>): (r: bool)
    ensures r <==> exists i :: 0 <= i < |types| && Lower(types[i].name) == key && Counts(types[i], excludeId)
  {
    if types == [] then false
    else (Lower(types[0].name) == key && Counts(types[0], excludeId))
         || NameUsedBy(types[1..], key, excludeId)
  }

  /** The four gates `addType` and `updateType` apply, in their order, before any request. */
  function CheckCategory(types: seq<Category>, name: string, rankText: string, excludeId: Option<int>): Option<TypeError> {
    if Trim(name) == [] then Some(EmptyName)
    else if rankText == [] || ParseNumber(rankText).None? then Some(InvalidRank)
    else if NameUsedBy(types, Lower(Trim(name)), excludeId) then Some(NameExists)
    else if !IsOrderRankUnique(types, rankText, excludeId) then Some(RankUsed)
    else None
  }

  /** What sending a category means: a trimmed non-empty name no other category has
      (ignoring ASCII case) and a numeric rank no other category uses. */
  ghost predicate AcceptableCategory(types: seq<Category>, name: string, rankText: string, excludeId: Option<int>) {
    && Trim(name) != []
    && rankText != [] && ParseNumber(rankText).Some?
    && (forall t :: t in types && Counts(t, excludeId) ==> Lower(t.name) != Lower(Trim(name)))
    && (forall t :: t in types && Counts(t, excludeId) ==> t.orderRank as real != ParseNumber(rankText).value)
  }

  lemma CheckCategoryIff(types: seq<Category>, name: string, rankText: string, excludeId: Option<int>)
    ensures CheckCategory(types, name, rankText, excludeId).None? <==> AcceptableCategory(types, name, rankText, excludeId)
  {
    var key := Lower(Trim(name));
    NameUsedByIff(types, key, excludeId);
    if Trim(name) != [] && rankText != [] && ParseNumber(rankText).Some? {
      var v := ParseNumber(rankText).value;
      assert IsOrderRankUnique(types, rankText, excludeId) <==>
             forall t :: t in types && Counts(t, excludeId) ==> t.orderRank as real != v;
      assert NameUsedBy(types, key, excludeId) <==>
             !forall t :: t in types && Counts(t, excludeId) ==> Lower(t.name) != key;
    }
  }

  /** `NameUsedBy` over the categories themselves rather than their positions. */
  lemma NameUsedByIff(types: seq<Category>, key: string, excludeId: Option<int>)
    ensures NameUsedBy(types, key, excludeId) <==>
              exists t :: t in types && Counts(t, excludeId) && Lower(t.name) == key
  {
    if exists t :: t in types && Counts(t, excludeId) && Lower(t.name) == key {
      var t :| t in types && Counts(t, excludeId) && Lower(t.name) == key;
      var i :| 0 <= i < |types| && types[i] == t;
    }
  }

  /** `addType`: the payload of a new category, or the first gate that failed. */
  function AddType(types: seq<Category>, name: string, rankText: string): (r: Result<CategoryPayload, TypeError>)
    ensures r.Ok? <==> AcceptableCategory(types, name, rankText, None)
    ensures r.Ok? ==> r.value == CategoryPayload(None, Trim(name), DefaultColor, ParseNumber(rankText).value)
    ensures r == Err(EmptyName) <==> Trim(name) == []
  {
    CheckCategoryIff(types, name, rankText, None);
    match CheckCategory(types, name, rankText, None)
    case Some(e) => Err(e)
    case None => Ok(CategoryPayload(None, Trim(name), DefaultColor, ParseNumber(rankText).value))
  }

  /** `updateType`: the same gates with the edited category left out of both checks. */
  function UpdateType(types: seq<Category>, edit: Category, name: string, rankText: string): (r: Result<CategoryPayload, TypeError>)
    ensures r.Ok? <==> AcceptableCategory(types, name, rankText, Some(edit.id))
    ensures r.Ok? ==> r.value == CategoryPayload(Some(edit.id), Trim(name),
                                                 if edit.colorHexa != [] then edit.colorHexa else DefaultColor,
                                                 ParseNumber(rankText).value)
    ensures r == Err(EmptyName) <==> Trim(name) == []
  {
    CheckCategoryIff(types, name, rankText, Some(edit.id));
    match CheckCategory(types, name, rankText, Some(edit.id))
    case Some(e) => Err(e)
    case None => Ok(CategoryPayload(Some(edit.id), Trim(name),
                                    if edit.colorHexa != [] then edit.colorHexa else DefaultColor,
                                    ParseNumber(rankText).value))
  }

  /** Saving an edited category with its own name and rank is accepted when no other
      category holds them, while adding those same values as a new category is refused. */
  lemma UpdateExcludesEditedCategory(types: seq<Category>, c: Category)
    requires c in types
    requires Trim(c.name) == c.name && c.name != []
    requires forall t :: t in types && t.id != c.id ==> Lower(t.name) != Lower(c.name) && t.orderRank != c.orderRank
    ensures UpdateType(types, c, c.name, IntToString(c.orderRank)).Ok?
    ensures AddType(types, c.name, IntToString(c.orderRank)) == Err(NameExists)
  {
    ParseIntToString(c.orderRank);
    assert !AcceptableCategory(types, c.name, IntToString(c.orderRank), None);
    var i :| 0 <= i < |types| && types[i] == c;
    assert NameUsedBy(types, Lower(Trim(c.name)), None);
  }

  // -------------------------------------------------------------- test form

  datatype TestForm = TestForm(
    name: string, price: string, typeName: string, coins: string, unionCoins: string,
    firstUnionCoins: string, lastUnionCoins: string, image: string)

  /** The JSON body of an add or update; `price` is `None` where `Number` gave NaN,
      which `JSON.stringify` sends as null. */
  datatype TestPayload = TestPayload(
    id: Option<int>, name: string, price: Option<real>, coins: real, unionCoins: real,
    firstUnionCoins: real, lastUnionCoins: real, categoryId: int, orderRank: int,
    imageBase64: Option<string>)

  datatype TestError = MissingFields | UnknownType

  /** `types.find(t => t.name === name)`. */
  function FindCategoryByName(types: seq<Category>, name: string): (r: Option<Category>)
    ensures r.Some? <==> exists t :: t in types && t.name == name
    ensures r.Some? ==> exists i :: 0 <= i < |types| && types[i] == r.value && r.value.name == name
                                   && forall j :: 0 <= j < i ==> types[j].name != name
  {
    if types == [] then None
    else if types[0].name == name then Some(types[0])
    else
      var r := FindCategoryByName(types[1..], name);
      assert forall t :: t in types[1..] ==> t in types;
      assert types[0].name != name ==> ((exists t :: t in types && t.name == name) <==> (exists t :: t in types[1..] && t.name == name));
      r
  }

  /** `saveTest`: refuses a form without name, price or category, then one whose category
      name matches no category; otherwise builds the body that is sent. */
  function SaveTest(types: seq<Category>, form: TestForm, editing: Option<LabTest>): (r: Result<TestPayload, TestError>)
    ensures r == Err(MissingFields) <==> form.name == [] || form.price == [] || form.typeName == []
    ensures r == Err(UnknownType) <==>
              form.name != [] && form.price != [] && form.typeName != []
              && forall t :: t in types ==> t.name != form.typeName
    ensures r.Ok? ==>
              && r.value.name == form.name
              && r.value.price == ParseNumber(form.price)
              && r.value.coins == NumberOrZero(form.coins)
              && r.value.unionCoins == NumberOrZero(form.unionCoins)
              && r.value.firstUnionCoins == NumberOrZero(form.firstUnionCoins)
              && r.value.lastUnionCoins == NumberOrZero(form.lastUnionCoins)
              && r.value.orderRank == 0
              && FindCategoryByName(types, form.typeName).Some?
              && r.value.categoryId == FindCategoryByName(types, form.typeName).value.id
              && (r.value.imageBase64.Some? <==> form.image != [])
              && (r.value.imageBase64.Some? ==> r.value.imageBase64.value == form.image)
              && (r.value.id.Some? <==> editing.Some?)
              && (editing.Some? ==> r.value.id.value == editing.value.id)
  {
    if form.name == [] || form.price == [] || form.typeName == [] then Err(MissingFields)
    else match FindCategoryByName(types, form.typeName)
      case None => Err(UnknownType)
      case Some(t) =>
        Ok(TestPayload(
          if editing.Some? then Some(editing.value.id) else None,
          form.name, ParseNumber(form.price), NumberOrZero(form.coins), NumberOrZero(form.unionCoins),
          NumberOrZero(form.firstUnionCoins), NumberOrZero(form.lastUnionCoins), t.id, 0,
          if form.image != [] then Some(form.image) else None))
  }

  // ------------------------------------------------------------ test list

  /** A test is shown when its category id, as text, equals the selected filter (or no
      filter is selected) and its lower-cased name contains the lower-cased search. */
  predicate MatchesTest(t: LabTest, filterType: string, searchTerm: string) {
    (filterType == [] || IntToString(t.categoryId) == filterType)
    && Includes(Lower(t.name), Lower(searchTerm))
  }

  /** `filteredTests`: only matching tests, and no more of them than there are tests. */
  function FilteredTests(tests: seq<LabTest>, filterType: string, searchTerm: string): (r: seq<LabTest>)
    ensures |r| <= |tests|
    ensures forall t :: t in r ==> t in tests && MatchesTest(t, filterType, searchTerm)
  {
    var p := (t: LabTest) => MatchesTest(t, filterType, searchTerm);
    var r := Filter(tests, p);
    assert forall t :: t in r ==> t in tests && p(t) by {
      forall t | t in r ensures t in tests && p(t) {
        FilterMembers(tests, p, t);
      }
    }
    r
  }

  /** The filtered list keeps, in order and with their multiplicity, exactly the tests
      whose category id, as text, is the selected filter (or no filter is selected) and
      whose lower-cased name contains the lower-cased search term. */
  lemma FilteredTestsExact(tests: seq<LabTest>, filterType: string, searchTerm: string, x: LabTest)
    ensures var r := FilteredTests(tests, filterType, searchTerm);
            var shown := (filterType == [] || IntToString(x.categoryId) == filterType)
                         && OccursIn(Lower(searchTerm), Lower(x.name));
            && IsSubsequence(r, tests)
            && (x in r <==> x in tests && shown)
            && multiset(r)[x] == if shown then multiset(tests)[x] else 0
  {
    var p := (t: LabTest) => MatchesTest(t, filterType, searchTerm);
    FilterIsSubsequence(tests, p);
    FilterMembers(tests, p, x);
    FilterCounts(tests, p, x);
    IncludesIff(Lower(x.name), Lower(searchTerm));
  }

  /** With a category selected in the filter, a test is shown only when its category id
      is that one: ids are compared exactly, through their text. */
  lemma SelectedCategoryExact(tests: seq<LabTest>, categoryId: int, searchTerm: string, x: LabTest)
    ensures var r := FilteredTests(tests, IntToString(categoryId), searchTerm);
            var shown := x.categoryId == categoryId && OccursIn(Lower(searchTerm), Lower(x.name));
            && (x in r <==> x in tests && shown)
            && multiset(r)[x] == if shown then multiset(tests)[x] else 0
  {
    FilteredTestsExact(tests, IntToString(categoryId), searchTerm, x);
    IntToStringInjective(x.categoryId, categoryId);
  }

  /** With no category selected and an empty search every test is shown. */
  lemma NoFilterShowsAll(tests: seq<LabTest>)
    ensures FilteredTests(tests, [], []) == tests
  {
    forall i | 0 <= i < |tests| ensures MatchesTest(tests[i], [], []) {
      IncludesEmpty(Lower(tests[i].name));
    }
    FilterKeepsAll(tests, (t: LabTest) => MatchesTest(t, [], []));
  }

  /** The local patch after a successful delete: `prev.filter(t => t.id !== id)`. */
  function RemoveTest(tests: seq<LabTest>, id: int): seq<LabTest> {
    Filter(tests, (t: LabTest) => t.id != id)
  }

  lemma RemoveTestExact(tests: seq<LabTest>, id: int, x: LabTest)
    ensures IsSubsequence(RemoveTest(tests, id), tests)
    ensures x in RemoveTest(tests, id) <==> x in tests && x.id != id
    ensures x.id != id ==> multiset(RemoveTest(tests, id))[x] == multiset(tests)[x]
  {
    FilterIsSubsequence(tests, (t: LabTest) => t.id != id);
    FilterMembers(tests, (t: LabTest) => t.id != id, x);
    FilterCounts(tests, (t: LabTest) => t.id != id, x);
  }

  // --------------------------------------------------------- screen state

  /** The categories step of `fetchData` throws when the request or its JSON parse fails
      (`None`), when the reply is `null` (`catData.success` throws), or when the reply reports success with a `resource` that is not an array,
      which has no `.sort`. */
  predicate CategoriesThrow(categories: Option<Body<Category>>) {
    categories.None? || categories.value.NullBody?
    || (categories.value.ObjectBody? && categories.value.success && !categories.value.resource.ArrayResource?)
  }

  /** The screen's React state that the handlers change. */
  class LabTestsScreen {
    var tests: seq<LabTest>
    var types: seq<Category>
    var filterType: string
    var searchTerm: string
    var page: nat
    var savingTest: bool

    ghost predicate Valid()
      reads this
    {
      page >= 1 && SortedByRank(types)
    }

    constructor ()
      ensures Valid()
      ensures tests == [] && types == [] && filterType == [] && searchTerm == []
      ensures page == 1 && !savingTest
    {
      tests, types, filterType, searchTerm, page, savingTest := [], [], [], [], 1, false;
    }

    /** `paginatedTests`: the tests shown on the current page. */
    function Shown(): (r: seq<LabTest>)
      reads this
      requires Valid()
      ensures |r| <= PageSize
    {
      PageSlice(FilteredTests(tests, filterType, searchTerm), page, PageSize)
    }

    function TotalPagesShown(): nat
      reads this
    {
      TotalPages(|FilteredTests(tests, filterType, searchTerm)|, PageSize)
    }

    /** `fetchData`: the categories are read first and replace the list, sorted by rank,
        when their reply reports success; then the tests, likewise. `None` is a request
        or JSON parse that threw. A throw in the categories step, `.sort` included,
        skips the labs request, so both lists are kept. */
    method Load(categories: Option<Body<Category>>, labs: Option<Body<LabTest>>)
      requires Valid()
      modifies this`types, this`tests
      ensures Valid()
      ensures types == if categories.Some? && SuccessfulResource(categories.value).Some?
                       then SortByRank(SuccessfulResource(categories.value).value) else old(types)
      ensures tests == if !CategoriesThrow(categories) && labs.Some? && SuccessfulResource(labs.value).Some?
                       then SuccessfulResource(labs.value).value else old(tests)
    {
      if categories.Some? && SuccessfulResource(categories.value).Some? {
        types := SortByRank(SuccessfulResource(categories.value).value);
      }
      if !CategoriesThrow(categories) && labs.Some? && SuccessfulResource(labs.value).Some? {
        tests := SuccessfulResource(labs.value).value;
      }
    }

    /** `saveTest` up to the request: when the gates pass, `savingTest` is raised and the
        payload is sent; a refused form leaves the flag as it was. */
    method StartSave(form: TestForm, editing: Option<LabTest>) returns (outcome: Result<TestPayload, TestError>)
      requires Valid()
      modifies this`savingTest
      ensures Valid()
      ensures outcome == SaveTest(types, form, editing)
      ensures outcome.Ok? ==> savingTest
      ensures !outcome.Ok? ==> savingTest == old(savingTest)
    {
      var r := SaveTest(types, form, editing);
      if r.Ok? {
        savingTest := true;
      }
      outcome := r;
    }

    /** The save request has ended (`finally`): `savingTest` is lowered and, when the
        server reported success, the data is fetched again as in `Load`. */
    method FinishSave(success: bool, categories: Option<Body<Category>>, labs: Option<Body<LabTest>>)
      requires Valid()
      modifies this`savingTest, this`types, this`tests
      ensures Valid() && !savingTest
      ensures !success ==> types == old(types) && tests == old(tests)
      ensures success ==>
                && types == (if categories.Some? && SuccessfulResource(categories.value).Some?
                             then SortByRank(SuccessfulResource(categories.value).value) else old(types))
                && tests == (if !CategoriesThrow(categories) && labs.Some? && SuccessfulResource(labs.value).Some?
                             then SuccessfulResource(labs.value).value else old(tests))
    {
      savingTest := false;
      if success {
        Load(categories, labs);
      }
    }

    /** A delete the server confirmed removes that test locally. */
    method DeleteSucceeded(id: int)
      requires Valid()
      modifies this`tests
      ensures Valid()
      ensures tests == RemoveTest(old(tests), id)
    {
      tests := RemoveTest(tests, id);
    }

    /** Choosing a category in the filter also goes back to page 1. */
    method SetFilterType(value: string)
      requires Valid()
      modifies this`filterType, this`page
      ensures Valid()
      ensures filterType == value && page == 1
    {
      filterType := value;
      page := 1;
    }

    /** Typing in the search box changes the term only: the page is kept. */
    method SetSearchTerm(value: string)
      requires Valid()
      modifies this`searchTerm
      ensures Valid()
      ensures searchTerm == value
    {
      searchTerm := value;
    }

    /** The pager is drawn only while the filter shows some test. */
    method GoToPreviousPage()
      requires Valid() && |FilteredTests(tests, filterType, searchTerm)| > 0
      modifies this`page
      ensures Valid()
      ensures page == PrevPage(old(page), savingTest)
    {
      page := PrevPage(page, savingTest);
    }

    method GoToNextPage()
      requires Valid() && |FilteredTests(tests, filterType, searchTerm)| > 0
      modifies this`page
      ensures Valid()
      ensures page == NextPage(old(page), TotalPagesShown(), savingTest)
    {
      page := NextPage(page, TotalPagesShown(), savingTest);
    }
  }
}
