/** The inbox list query (components/EmailList.jsx): search and category
    filtering, the comparator sort, the distinct sorted category list, the sort
    order toggle and the category badge colours. */
module EmailList {
  import opened Types
  import opened Strings

  // ----- Filtering -----

  /** `xs.filter(keep)`: keeps exactly the elements satisfying `keep`, never adds
      or duplicates one, and keeps every copy of an element it keeps. */
  function Filter(xs: seq<Email>, keep: Email -> bool): (r: seq<Email>)
    ensures |r| <= |xs|
    ensures forall x :: x in r <==> x in xs && keep(x)
    ensures multiset(r) <= multiset(xs)
    ensures forall x :: keep(x) ==> multiset(r)[x] == multiset(xs)[x]
  {
    if xs == [] then []
    else
      assert xs == [xs[0]] + xs[1..];
      (if keep(xs[0]) then [xs[0]] else []) + Filter(xs[1..], keep)
  }

  /** A filter that keeps everything is the identity. */
  lemma {:induction false} FilterKeepingAll(xs: seq<Email>, keep: Email -> bool)
    requires forall x :: x in xs ==> keep(x)
    ensures Filter(xs, keep) == xs
  {
    if xs != [] {
      FilterKeepingAll(xs[1..], keep);
    }
  }

  /** The search test: the lower-cased term occurs in the lower-cased subject,
      sender or body. */
  predicate MatchesSearch(e: Email, term: string) {
    var t := ToLower(term);
    Contains(ToLower(e.subject), t) || Contains(ToLower(e.sender), t) || Contains(ToLower(e.body), t)
  }

  function SearchFilter(emails: seq<Email>, term: string): seq<Email> {
    Filter(emails, e => MatchesSearch(e, term))
  }

  /** The category test: 'all' keeps everything, any other value only the emails
      whose category is exactly that string. */
  predicate MatchesCategory(e: Email, filter: string) {
    filter == "all" || e.category == Some(filter)
  }

  function CategoryFilter(emails: seq<Email>, filter: string): seq<Email> {
    if filter == "all" then emails else Filter(emails, (e: Email) => e.category == Some(filter))
  }

  /** An empty search term keeps every email, in order. */
  lemma EmptySearchKeepsAll(emails: seq<Email>)
    ensures SearchFilter(emails, "") == emails
  {
    forall e | e in emails
      ensures MatchesSearch(e, "")
    {
      ContainsEmpty(ToLower(e.subject));
    }
    FilterKeepingAll(emails, e => MatchesSearch(e, ""));
  }

  /** The category filter keeps exactly the emails passing the category test. */
  lemma CategoryFilterKeeps(emails: seq<Email>, filter: string)
    ensures var r := CategoryFilter(emails, filter);
            (forall e :: e in r <==> e in emails && MatchesCategory(e, filter))
            && multiset(r) <= multiset(emails)
            && (filter == "all" ==> r == emails)
  {
  }

  // ----- The comparator -----

  /** The current sort settings: `sortBy` and `sortOrder`. */
  datatype SortSpec = SortSpec(sortBy: string, sortOrder: string)

  /** A sort key: the timestamp's time value, or a lower-cased string. */
  datatype Key = Num(n: int) | Str(s: string)

  function KeyOf(e: Email, sortBy: string): Key {
    if sortBy == "timestamp" then Num(e.timestamp)
    else if sortBy == "sender" then Str(ToLower(e.sender))
    else Str(ToLower(e.subject))
  }

  /** `<` on keys; the two kinds never meet under one `sortBy`, so their mutual
      order is arbitrary. */
  predicate KeyLess(a: Key, b: Key) {
    match (a, b)
    case (Num(x), Num(y)) => x < y
    case (Str(x), Str(y)) => StrLess(x, y)
    case (Num(_), Str(_)) => true
    case (Str(_), Num(_)) => false
  }

  lemma KeyLessStrictTotal(a: Key, b: Key, c: Key)
    ensures !KeyLess(a, a)
    ensures KeyLess(a, b) ==> !KeyLess(b, a)
    ensures KeyLess(a, b) && KeyLess(b, c) ==> KeyLess(a, c)
    ensures a != b ==> KeyLess(a, b) || KeyLess(b, a)
  {
    if a.Str? {
      StrLessIrreflexive(a.s);
      if b.Str? {
        if StrLess(a.s, b.s) { StrLessAsymmetric(a.s, b.s); }
        if a.s != b.s { StrLessTotal(a.s, b.s); }
        if c.Str? && StrLess(a.s, b.s) && StrLess(b.s, c.s) { StrLessTransitive(a.s, b.s, c.s); }
      }
    }
  }

  /** The comparator passed to `sort`: -1, 0 or 1, ascending only for 'asc'. */
  function Compare(a: Email, b: Email, spec: SortSpec): int {
    var ka := KeyOf(a, spec.sortBy);
    var kb := KeyOf(b, spec.sortBy);
    if KeyLess(ka, kb) then (if spec.sortOrder == "asc" then -1 else 1)
    else if KeyLess(kb, ka) then (if spec.sortOrder == "asc" then 1 else -1)
    else 0
  }

  /** The comparator answers 0 exactly on equal keys, is antisymmetric, and its
      "not after" relation is total and transitive. */
  lemma CompareIsTotalPreorder(a: Email, b: Email, c: Email, spec: SortSpec)
    ensures Compare(a, b, spec) == 0 <==> KeyOf(a, spec.sortBy) == KeyOf(b, spec.sortBy)
    ensures Compare(a, b, spec) == -Compare(b, a, spec)
    ensures Compare(a, b, spec) <= 0 || Compare(b, a, spec) <= 0
    ensures Compare(a, b, spec) <= 0 && Compare(b, c, spec) <= 0 ==> Compare(a, c, spec) <= 0
  {
    var ka, kb, kc := KeyOf(a, spec.sortBy), KeyOf(b, spec.sortBy), KeyOf(c, spec.sortBy);
    KeyLessStrictTotal(ka, kb, kc);
    KeyLessStrictTotal(kb, ka, kc);
    KeyLessStrictTotal(kc, kb, ka);
    KeyLessStrictTotal(ka, kc, kb);
    KeyLessStrictTotal(kb, kc, ka);
    KeyLessStrictTotal(kc, ka, kb);
  }

  // ----- Sorting -----

  /** Every earlier element compares as not after every later one. */
  predicate Ordered(s: seq<Email>, spec: SortSpec) {
    forall i, j :: 0 <= i < j < |s| ==> Compare(s[i], s[j], spec) <= 0
  }

  /** Places `x` before the first element it does not come after. */
  function Insert(x: Email, ys: seq<Email>, spec: SortSpec): (r: seq<Email>)
    ensures |r| == |ys| + 1
    ensures multiset(r) == multiset(ys) + multiset{x}
  {
    if ys == [] then [x]
    else if Compare(x, ys[0], spec) <= 0 then [x] + ys
    else
      assert ys == [ys[0]] + ys[1..];
      [ys[0]] + Insert(x, ys[1..], spec)
  }

  /** `sort(compare)`: insertion sort, inserting each element in front of its
      equals, so equal keys keep their order. */
  function SortEmails(xs: seq<Email>, spec: SortSpec): (r: seq<Email>)
    ensures multiset(r) == multiset(xs)
  {
    if xs == [] then []
    else
      assert xs == [xs[0]] + xs[1..];
      Insert(xs[0], SortEmails(xs[1..], spec), spec)
  }

  lemma {:induction false} InsertKeepsOrder(x: Email, ys: seq<Email>, spec: SortSpec)
    requires Ordered(ys, spec)
    ensures Ordered(Insert(x, ys, spec), spec)
  {
    if ys == [] {
    } else if Compare(x, ys[0], spec) <= 0 {
      var r := Insert(x, ys, spec);
      forall i, j | 0 <= i < j < |r|
        ensures Compare(r[i], r[j], spec) <= 0
      {
        if i == 0 && j > 1 {
          CompareIsTotalPreorder(x, ys[0], ys[j - 1], spec);
        }
      }
    } else {
      var rest := Insert(x, ys[1..], spec);
      InsertKeepsOrder(x, ys[1..], spec);
      CompareIsTotalPreorder(x, ys[0], x, spec);
      var r := [ys[0]] + rest;
      forall j | 0 < j < |r|
        ensures Compare(ys[0], r[j], spec) <= 0
      {
        assert r[j] in multiset(rest);
        if r[j] != x {
          assert r[j] in ys[1..];
          var k :| 0 <= k < |ys[1..]| && ys[1..][k] == r[j];
          assert ys[k + 1] == r[j];
        }
      }
    }
  }

  /** The sort yields an ordered permutation of its input. */
  lemma {:induction false} SortEmailsOrders(xs: seq<Email>, spec: SortSpec)
    ensures Ordered(SortEmails(xs, spec), spec)
    ensures multiset(SortEmails(xs, spec)) == multiset(xs)
  {
    if xs != [] {
      SortEmailsOrders(xs[1..], spec);
      InsertKeepsOrder(xs[0], SortEmails(xs[1..], spec), spec);
    }
  }

  /** In an ordered list the keys ascend under 'asc' and descend otherwise. */
  lemma OrderedMeansKeysInOrder(s: seq<Email>, spec: SortSpec, i: nat, j: nat)
    requires Ordered(s, spec) && i < j < |s|
    ensures var ki, kj := KeyOf(s[i], spec.sortBy), KeyOf(s[j], spec.sortBy);
            spec.sortOrder == "asc" ==> !KeyLess(kj, ki)
    ensures var ki, kj := KeyOf(s[i], spec.sortBy), KeyOf(s[j], spec.sortBy);
            spec.sortOrder != "asc" ==> !KeyLess(ki, kj)
  {
    KeyLessStrictTotal(KeyOf(s[i], spec.sortBy), KeyOf(s[j], spec.sortBy), KeyOf(s[j], spec.sortBy));
  }

  /** `filteredAndSortedEmails`. */
  function FilteredAndSorted(emails: seq<Email>, term: string, filter: string, spec: SortSpec): seq<Email> {
    SortEmails(CategoryFilter(SearchFilter(emails, term), filter), spec)
  }

  /** The list shows exactly the emails passing both tests, none more often than
      in the inbox, ordered by the chosen key and direction. */
  lemma FilteredAndSortedSpec(emails: seq<Email>, term: string, filter: string, spec: SortSpec)
    ensures var r := FilteredAndSorted(emails, term, filter, spec);
            && (forall e :: e in r <==> e in emails && MatchesSearch(e, term) && MatchesCategory(e, filter))
            && multiset(r) <= multiset(emails)
            && Ordered(r, spec)
  {
    var searched := SearchFilter(emails, term);
    var kept := CategoryFilter(searched, filter);
    var r := SortEmails(kept, spec);
    CategoryFilterKeeps(searched, filter);
    SortEmailsOrders(kept, spec);
    forall e
      ensures e in r <==> e in emails && MatchesSearch(e, term) && MatchesCategory(e, filter)
    {
      assert e in r <==> e in multiset(r);
      assert e in kept <==> e in multiset(kept);
    }
  }

  // ----- The category list -----

  /** The category values present in the inbox, skipping undefined and "". */
  predicate Present(emails: seq<Email>, c: string) {
    exists e :: e in emails && e.category == Some(c) && c != ""
  }

  predicate NoDuplicates(s: seq<string>) {
    forall i, j :: 0 <= i < j < |s| ==> s[i] != s[j]
  }

  /** `forEach` adding each truthy category to a Set, kept in insertion order. */
  function CollectCategories(emails: seq<Email>, seen: seq<string>): (r: seq<string>)
    requires NoDuplicates(seen)
    ensures NoDuplicates(r)
    ensures forall c :: c in r <==> c in seen || Present(emails, c)
  {
    if emails == [] then seen
    else
      var e := emails[0];
      assert forall x :: x in emails <==> x == e || x in emails[1..];
      if e.category.Some? && e.category.value != "" && e.category.value !in seen then
        CollectCategories(emails[1..], seen + [e.category.value])
      else
        CollectCategories(emails[1..], seen)
  }

  /** Insertion into a list kept in `<` order. */
  function InsertString(x: string, ys: seq<string>): (r: seq<string>)
    ensures multiset(r) == multiset(ys) + multiset{x}
  {
    if ys == [] then [x]
    else if !StrLess(ys[0], x) then [x] + ys
    else
      assert ys == [ys[0]] + ys[1..];
      [ys[0]] + InsertString(x, ys[1..])
  }

  /** `Array.prototype.sort()` with no comparator, on strings. */
  function SortStrings(xs: seq<string>): (r: seq<string>)
    ensures multiset(r) == multiset(xs)
  {
    if xs == [] then []
    else
      assert xs == [xs[0]] + xs[1..];
      InsertString(xs[0], SortStrings(xs[1..]))
  }

  predicate StrictlyAscending(s: seq<string>) {
    forall i, j :: 0 <= i < j < |s| ==> StrLess(s[i], s[j])
  }

  lemma {:induction false} InsertStringAscending(x: string, ys: seq<string>)
    requires StrictlyAscending(ys) && x !in ys
    ensures StrictlyAscending(InsertString(x, ys))
  {
    if ys == [] {
    } else if !StrLess(ys[0], x) {
      StrLessTotal(x, ys[0]);
      var r := [x] + ys;
      forall i, j | 0 <= i < j < |r|
        ensures StrLess(r[i], r[j])
      {
        if i == 0 && j > 1 {
          StrLessTransitive(x, ys[0], ys[j - 1]);
        }
      }
    } else {
      var rest := InsertString(x, ys[1..]);
      InsertStringAscending(x, ys[1..]);
      var r := [ys[0]] + rest;
      forall j | 0 < j < |r|
        ensures StrLess(ys[0], r[j])
      {
        assert r[j] in multiset(rest);
        if r[j] != x {
          assert r[j] in ys[1..];
          var k :| 0 <= k < |ys[1..]| && ys[1..][k] == r[j];
          assert ys[k + 1] == r[j];
        }
      }
    }
  }

  lemma {:induction false} SortStringsAscending(xs: seq<string>)
    requires NoDuplicates(xs)
    ensures StrictlyAscending(SortStrings(xs))
  {
    if xs != [] {
      assert NoDuplicates(xs[1..]) by {
        forall i, j | 0 <= i < j < |xs[1..]|
          ensures xs[1..][i] != xs[1..][j]
        {
          assert xs[1..][i] == xs[i + 1] && xs[1..][j] == xs[j + 1];
        }
      }
      SortStringsAscending(xs[1..]);
      assert xs[0] !in multiset(SortStrings(xs[1..]));
      InsertStringAscending(xs[0], SortStrings(xs[1..]));
    }
  }

  /** `allCategories`. */
  function AllCategories(emails: seq<Email>): seq<string> {
    SortStrings(CollectCategories(emails, []))
  }

  /** The category list is strictly ascending (so sorted and duplicate-free) and
      holds exactly the truthy categories present in the inbox. */
  lemma AllCategoriesSpec(emails: seq<Email>)
    ensures StrictlyAscending(AllCategories(emails))
    ensures forall c :: c in AllCategories(emails) <==> Present(emails, c)
  {
    var collected := CollectCategories(emails, []);
    SortStringsAscending(collected);
    forall c
      ensures c in AllCategories(emails) <==> c in collected
    {
      assert c in AllCategories(emails) <==> c in multiset(AllCategories(emails));
    }
  }

  // ----- Sort order toggle and badge colours -----

  /** `toggleSortOrder`: 'asc' becomes 'desc', anything else 'asc'. */
  function ToggleSortOrder(order: string): (r: string)
    ensures r == "asc" || r == "desc"
    ensures r != order || order !in {"asc", "desc"}
  {
    if order == "asc" then "desc" else "asc"
  }

  /** Toggling twice restores either of the two orders. */
  lemma ToggleTwiceIsIdentity(order: string)
    requires order == "asc" || order == "desc"
    ensures ToggleSortOrder(ToggleSortOrder(order)) == order
  {
  }

  const DefaultColor: string := "bg-gray-50 text-gray-600"

  /** `getCategoryColor`: a class per category name, the default otherwise. */
  function CategoryColor(category: Option<string>): string {
    if category == Some("Important") then "bg-red-100 text-red-800"
    else if category == Some("Newsletter") then "bg-blue-100 text-blue-800"
    else if category == Some("Spam") then "bg-gray-100 text-gray-800"
    else if category == Some("To-Do") then "bg-yellow-100 text-yellow-800"
    else if category == Some("Project Update") then "bg-purple-100 text-purple-800"
    else if category == Some("Meeting Request") then "bg-green-100 text-green-800"
    else if category == Some("Unknown") then "bg-gray-200 text-gray-700"
    else DefaultColor
  }

  /** The seven categories get seven distinct classes, none the default; every
      other value, and an undefined category, gets the default. */
  lemma CategoryColorsDistinct(c: Category, d: Category, other: Option<string>)
    requires other.None? || ParseCategory(other.value).None?
    ensures CategoryColor(Some(CategoryName(c))) != DefaultColor
    ensures c != d ==> CategoryColor(Some(CategoryName(c))) != CategoryColor(Some(CategoryName(d)))
    ensures CategoryColor(other) == DefaultColor
  {
  }
}
