/** The search page: the fetched results, the list derived from them by a sort or a
    filter, and the numbers the sorts read out of free-text fields. */
module SearchPage {
  import opened Wrappers
  import opened Records
  import opened Http
  import opened App
  import opened Sorting

  const SearchFailed := "検索に失敗しました。"

  predicate IsDigit(c: char) {
    '0' <= c <= '9'
  }

  /** The value of a decimal numeral (`parseInt` on a digit string). */
  function DigitsValue(ds: string): nat
    requires forall k :: 0 <= k < |ds| ==> IsDigit(ds[k])
  {
    if ds == [] then 0
    else
      var last := ds[|ds| - 1];
      assert IsDigit(last);
      DigitsValue(ds[..|ds| - 1]) * 10 + (last as int - '0' as int)
  }

  /** The decimal numeral of `n`, as the server writes ages, counts and costs. */
  function Decimal(n: nat): (s: string)
    ensures |s| >= 1
    ensures forall k :: 0 <= k < |s| ==> IsDigit(s[k])
    decreases n
  {
    if n < 10 then [('0' as int + n) as char] else Decimal(n / 10) + [('0' as int + n % 10) as char]
  }

  lemma {:induction false} DecimalValue(n: nat)
    ensures DigitsValue(Decimal(n)) == n
    decreases n
  {
    var s := Decimal(n);
    if n >= 10 {
      DecimalValue(n / 10);
      assert s[..|s| - 1] == Decimal(n / 10);
    } else {
      assert s[..0] == [];
    }
  }

  /** `s[i..j]` is the first maximal run of digits in `s`: what `/\d+/` matches. */
  predicate FirstDigitRun(s: string, i: int, j: int) {
    && 0 <= i < j <= |s|
    && (forall k :: 0 <= k < i ==> !IsDigit(s[k]))
    && (forall k :: i <= k < j ==> IsDigit(s[k]))
    && (j == |s| || !IsDigit(s[j]))
  }

  /** The first index at or after `i` that holds a digit, or `|s|`. */
  function FirstDigitFrom(s: string, i: nat): (j: nat)
    requires i <= |s|
    ensures i <= j <= |s|
    ensures forall k :: i <= k < j ==> !IsDigit(s[k])
    ensures j < |s| ==> IsDigit(s[j])
    decreases |s| - i
  {
    if i == |s| || IsDigit(s[i]) then i else FirstDigitFrom(s, i + 1)
  }

  /** The end of the run of digits that starts at `i`. */
  function RunEnd(s: string, i: nat): (j: nat)
    requires i <= |s|
    ensures i <= j <= |s|
    ensures forall k :: i <= k < j ==> IsDigit(s[k])
    ensures j == |s| || !IsDigit(s[j])
    decreases |s| - i
  {
    if i == |s| || !IsDigit(s[i]) then i else RunEnd(s, i + 1)
  }

  /** A text has at most one first digit run. */
  lemma FirstDigitRunUnique(s: string, i: int, j: int, i2: int, j2: int)
    requires FirstDigitRun(s, i, j) && FirstDigitRun(s, i2, j2)
    ensures i == i2 && j == j2
  {
    assert IsDigit(s[i]) && IsDigit(s[i2]);
    assert j < |s| ==> !IsDigit(s[j]);
    assert j2 < |s| ==> !IsDigit(s[j2]);
  }

  /** `extractNumber`: the value of the first run of digits in the text, and 0 for a
      missing text or one without digits. */
  function ExtractNumber(text: Option<string>): (n: nat)
    ensures text.None? ==> n == 0
    ensures text.Some? && (forall k :: 0 <= k < |text.value| ==> !IsDigit(text.value[k])) ==> n == 0
    ensures forall i, j :: text.Some? && FirstDigitRun(text.value, i, j) ==> n == DigitsValue(text.value[i..j])
  {
    match text
    case None => 0
    case Some(s) =>
      var i := FirstDigitFrom(s, 0);
      if i == |s| then 0
      else
        var j := RunEnd(s, i);
        assert FirstDigitRun(s, i, j);
        forall i2, j2 | FirstDigitRun(s, i2, j2) ensures i2 == i && j2 == j {
          FirstDigitRunUnique(s, i, j, i2, j2);
        }
        DigitsValue(s[i..j])
  }

  /** A number written after a digit-free prefix and before a unit that does not
      start with a digit reads back as itself. */
  lemma ExtractsWrittenNumber(prefix: string, n: nat, unit: string)
    requires forall k :: 0 <= k < |prefix| ==> !IsDigit(prefix[k])
    requires unit == [] || !IsDigit(unit[0])
    ensures ExtractNumber(Some(prefix + Decimal(n) + unit)) == n
  {
    var s := prefix + Decimal(n) + unit;
    var i, j := |prefix|, |prefix| + |Decimal(n)|;
    assert s[i..j] == Decimal(n);
    assert FirstDigitRun(s, i, j);
    DecimalValue(n);
  }

  /** An age as the server stores it. */
  lemma AgeExample()
    ensures ExtractNumber(Some("25歳")) == 25
  {
    assert Decimal(25) == "25";
    ExtractsWrittenNumber("", 25, "歳");
    assert "" + "25" + "歳" == "25歳";
  }

  function AgeKey(p: Post): int { ExtractNumber(p.age) }
  function CostKey(p: Post): int { ExtractNumber(p.cost) }
  /** Date count descending: the comparator `(a, b) => n(b) - n(a)` sorts ascending by `-n`. */
  function DateCountKey(p: Post): int { -(ExtractNumber(p.dateNumber) as int) }

  /** `sortByAge`. */
  function ByAge(results: seq<Post>): seq<Post> { SortBy(results, AgeKey) }
  /** `sortByCost`. */
  function ByCost(results: seq<Post>): seq<Post> { SortBy(results, CostKey) }
  /** `sortByDateCount`. */
  function ByDateCount(results: seq<Post>): seq<Post> { SortBy(results, DateCountKey) }

  /** The age sort is a permutation of the results, ascending by age, and keeps the
      order of results of equal age. */
  lemma ByAgeIsStableAscending(results: seq<Post>)
    ensures multiset(ByAge(results)) == multiset(results)
    ensures forall i, j :: 0 <= i < j < |results| ==> ExtractNumber(ByAge(results)[i].age) <= ExtractNumber(ByAge(results)[j].age)
    ensures forall k :: WithKey(ByAge(results), AgeKey, k) == WithKey(results, AgeKey, k)
  {
    var r := ByAge(results);
    assert SortedBy(r, AgeKey);
    forall k ensures WithKey(r, AgeKey, k) == WithKey(results, AgeKey, k) {
      SortByStable(results, AgeKey, k);
    }
  }

  /** The cost sort is a permutation of the results, ascending by cost, stable. */
  lemma ByCostIsStableAscending(results: seq<Post>)
    ensures multiset(ByCost(results)) == multiset(results)
    ensures forall i, j :: 0 <= i < j < |results| ==> ExtractNumber(ByCost(results)[i].cost) <= ExtractNumber(ByCost(results)[j].cost)
    ensures forall k :: WithKey(ByCost(results), CostKey, k) == WithKey(results, CostKey, k)
  {
    var r := ByCost(results);
    assert SortedBy(r, CostKey);
    forall k ensures WithKey(r, CostKey, k) == WithKey(results, CostKey, k) {
      SortByStable(results, CostKey, k);
    }
  }

  /** The date-count sort is a permutation of the results, descending by the number
      of the date, stable. */
  lemma ByDateCountIsStableDescending(results: seq<Post>)
    ensures multiset(ByDateCount(results)) == multiset(results)
    ensures forall i, j :: 0 <= i < j < |results| ==>
              ExtractNumber(ByDateCount(results)[i].dateNumber) >= ExtractNumber(ByDateCount(results)[j].dateNumber)
    ensures forall k :: WithKey(ByDateCount(results), DateCountKey, k) == WithKey(results, DateCountKey, k)
  {
    var r := ByDateCount(results);
    assert SortedBy(r, DateCountKey);
    forall k ensures WithKey(r, DateCountKey, k) == WithKey(results, DateCountKey, k) {
      SortByStable(results, DateCountKey, k);
    }
  }

  /** `filterByGender`: the results whose gender is exactly `gender`. */
  function ByGender(results: seq<Post>, gender: string): (r: seq<Post>)
    ensures |r| <= |results|
    ensures forall p :: p in r <==> p in results && p.gender == Some(gender)
  {
    if results == [] then []
    else (if results[0].gender == Some(gender) then [results[0]] else []) + ByGender(results[1..], gender)
  }

  /** The filter keeps the original order: filtering a concatenation filters each part. */
  lemma {:induction false} ByGenderOfConcat(a: seq<Post>, b: seq<Post>, gender: string)
    ensures ByGender(a + b, gender) == ByGender(a, gender) + ByGender(b, gender)
  {
    if a != [] {
      assert (a + b)[1..] == a[1..] + b;
      ByGenderOfConcat(a[1..], b, gender);
    } else {
      assert a + b == b;
    }
  }

  class Page {
    var query: string
    var results: seq<Post>
    var filteredResults: seq<Post>
    var error: string
    var searched: bool
    const selection: Selection

    constructor (selection: Selection)
      ensures this.selection == selection
      ensures query == "" && results == [] && filteredResults == [] && error == "" && !searched
    {
      this.selection := selection;
      query := "";
      results := [];
      filteredResults := [];
      error := "";
      searched := false;
    }

    /** `fetchResults` once the reply is in: on success both lists become the data,
        the error is cleared and the first result, if any, is selected; on failure
        the error is set and both lists are emptied. Either way the page has searched. */
    method CompleteFetch(reply: Outcome<seq<Post>>)
      modifies this`results, this`filteredResults, this`error, this`searched, selection
      ensures searched
      ensures reply.Ok? ==> results == reply.body && filteredResults == reply.body && error == ""
      ensures reply.Ok? && reply.body != [] ==> selection.post == Some(reply.body[0])
      ensures !reply.Ok? || reply.body == [] ==> selection.post == old(selection.post)
      ensures !reply.Ok? ==> results == [] && filteredResults == []
      ensures reply.NotOk? ==> error == SearchFailed
      ensures reply.Threw? ==> error == reply.message
    {
      match reply {
        case Ok(data) =>
          results := data;
          filteredResults := data;
          searched := true;
          if |data| > 0 {
            selection.Select(data[0]);
          }
          error := "";
        case NotOk(_, _) =>
          error := SearchFailed;
          results, filteredResults := [], [];
          searched := true;
        case Threw(message) =>
          error := message;
          results, filteredResults := [], [];
          searched := true;
      }
    }

    method SortByAge()
      modifies this`filteredResults
      ensures filteredResults == ByAge(results)
    {
      filteredResults := ByAge(results);
    }

    method SortByDateCount()
      modifies this`filteredResults
      ensures filteredResults == ByDateCount(results)
    {
      filteredResults := ByDateCount(results);
    }

    method SortByCost()
      modifies this`filteredResults
      ensures filteredResults == ByCost(results)
    {
      filteredResults := ByCost(results);
    }

    method FilterByGender(gender: string)
      modifies this`filteredResults
      ensures filteredResults == ByGender(results, gender)
    {
      filteredResults := ByGender(results, gender);
    }
  }

  /** Operations do not compound: a sort after a filter sorts all the results, and
      neither touches the results themselves. */
  method FilterThenSortByAge(page: Page, gender: string)
    modifies page`filteredResults
    ensures page.results == old(page.results)
    ensures page.filteredResults == ByAge(page.results)
    ensures |page.filteredResults| == |page.results|
  {
    page.FilterByGender(gender);
    page.SortByAge();
  }
}
