/**
 * app/components/InsightsList.tsx: the domain filter of the insights table.
 * The options are the distinct non-null domains, plus "Unassigned" when some
 * insight has no domain, sorted; the table shows the insights the chosen
 * option keeps, in their original order.
 */
module InsightsList {
  import opened Js

  /** `Insight`; `Domain__c` and the two view fields may be null in the records Salesforce returns. */
  datatype Insight = Insight(
    id: string,
    title: string,
    domain: Option<string>,
    debtScore: real,
    createdDate: string,
    viewCount: Option<real>,
    lastViewedAt: Option<string>)

  const All := "All"
  const Unassigned := "Unassigned"
  const NoMatchMessage := "No insights match the current filter."
  const NoneFoundMessage := "No insights found. Create one from the home page!"
  const NotAvailable := "N/A"

  // ---------------------------------------------------------------------------
  // String order: `Array.prototype.sort()` with no comparator compares strings
  // character by character, a proper prefix first.

  predicate StrLe(a: string, b: string)
    decreases |a|
  {
    a == [] || (b != [] && (a[0] < b[0] || (a[0] == b[0] && StrLe(a[1..], b[1..]))))
  }

  lemma {:induction false} StrLeTotal(a: string, b: string)
    ensures StrLe(a, b) || StrLe(b, a)
    decreases |a|
  {
    if a != [] && b != [] && a[0] == b[0] {
      StrLeTotal(a[1..], b[1..]);
    }
  }

  lemma {:induction false} StrLeTransitive(a: string, b: string, c: string)
    requires StrLe(a, b) && StrLe(b, c)
    ensures StrLe(a, c)
    decreases |a|
  {
    if a != [] && b != [] && c != [] && a[0] == b[0] && b[0] == c[0] {
      StrLeTransitive(a[1..], b[1..], c[1..]);
    }
  }

  lemma {:induction false} StrLeAntisymmetric(a: string, b: string)
    requires StrLe(a, b) && StrLe(b, a)
    ensures a == b
    decreases |a|
  {
    if a != [] {
      StrLeAntisymmetric(a[1..], b[1..]);
      assert a == [a[0]] + a[1..] && b == [b[0]] + b[1..];
    }
  }

  predicate Sorted(s: seq<string>) {
    forall i, j :: 0 <= i < j < |s| ==> StrLe(s[i], s[j])
  }

  predicate NoDuplicates(s: seq<string>) {
    forall i, j :: 0 <= i < j < |s| ==> s[i] != s[j]
  }

  /** Insert `x` before the first element it precedes. */
  function Insert(x: string, s: seq<string>): (r: seq<string>)
    ensures |r| == |s| + 1
    ensures multiset(r) == multiset(s) + multiset{x}
    ensures Sorted(s) ==> Sorted(r)
  {
    if s == [] || StrLe(x, s[0]) then
      assert Sorted(s) ==> forall j :: 0 <= j < |s| ==> StrLe(x, s[j]) by {
        if Sorted(s) && s != [] {
          forall j | 0 <= j < |s| ensures StrLe(x, s[j]) {
            if j > 0 { StrLeTransitive(x, s[0], s[j]); }
          }
        }
      }
      [x] + s
    else
      var t := Insert(x, s[1..]);
      assert s == [s[0]] + s[1..];
      StrLeTotal(x, s[0]);
      assert Sorted(s) ==> Sorted([s[0]] + t) by {
        if Sorted(s) {
          forall j | 0 <= j < |t| ensures StrLe(s[0], t[j]) {
            assert t[j] in multiset(t);
            assert t[j] in multiset(s[1..]) || t[j] == x;
            if t[j] != x {
              var k :| 0 <= k < |s[1..]| && s[1..][k] == t[j];
              assert s[k + 1] == t[j];
            }
          }
        }
      }
      [s[0]] + t
  }

  /** Insertion sort: the reference definition of `sort()` on strings. */
  function SortStrings(s: seq<string>): (r: seq<string>)
    ensures Sorted(r)
    ensures multiset(r) == multiset(s)
  {
    if s == [] then []
    else
      assert s == [s[0]] + s[1..];
      Insert(s[0], SortStrings(s[1..]))
  }

  /** A permutation of a sequence without duplicates has none. */
  lemma PermutationKeepsDistinct(s: seq<string>, t: seq<string>)
    requires NoDuplicates(s) && multiset(s) == multiset(t)
    ensures NoDuplicates(t)
  {
    forall i, j | 0 <= i < j < |t| ensures t[i] != t[j] {
      if t[i] == t[j] {
        assert t == t[..j] + [t[j]] + t[j + 1..];
        assert t[i] in multiset(t[..j]);
        assert multiset(t)[t[j]] >= 2;
        DistinctCountsOne(s, t[j]);
      }
    }
  }

  lemma {:induction false} DistinctCountsOne(s: seq<string>, x: string)
    requires NoDuplicates(s)
    ensures multiset(s)[x] <= 1
  {
    if s != [] {
      assert s == [s[0]] + s[1..];
      DistinctCountsOne(s[1..], x);
      if s[0] == x {
        assert x !in s[1..];
      }
    }
  }

  // ---------------------------------------------------------------------------
  // `uniqueDomains`

  /** Some insight among the first `n` has domain `d`. */
  predicate DomainAmong(insights: seq<Insight>, n: int, d: string)
    requires 0 <= n <= |insights|
  {
    exists k | 0 <= k < n :: insights[k].domain == Some(d)
  }

  /** Some insight has a null or empty domain (`insights.some(i => !i.Domain__c)`). */
  predicate SomeUnassigned(insights: seq<Insight>) {
    exists k | 0 <= k < |insights| :: !Present(insights[k].domain)
  }

  /** The table's label for an insight's domain: `Domain__c || 'Unassigned'`. */
  function DomainLabel(i: Insight): (r: string)
    ensures Present(i.domain) ==> r == i.domain.value
    ensures !Present(i.domain) ==> r == Unassigned
  {
    if Present(i.domain) then i.domain.value else Unassigned
  }

  /**
   * The options of the domain filter (after the fixed "All"). The non-null
   * domains are collected without repetition, "Unassigned" is appended once
   * when some insight has a falsy domain, and the list is sorted. An empty
   * domain is not null, so "" is an option when some insight has it.
   */
  method UniqueDomains(insights: seq<Insight>) returns (domains: seq<string>)
    ensures Sorted(domains)
    ensures NoDuplicates(domains)
    ensures forall d :: d in domains <==>
      DomainAmong(insights, |insights|, d) || (d == Unassigned && SomeUnassigned(insights))
    ensures forall k | 0 <= k < |insights| :: DomainLabel(insights[k]) in domains
  {
    domains := [];
    var i := 0;
    while i < |insights|
      invariant 0 <= i <= |insights|
      invariant NoDuplicates(domains)
      invariant forall d :: d in domains <==> DomainAmong(insights, i, d)
    {
      var d := insights[i].domain;
      if d.Some? && d.value !in domains {
        domains := domains + [d.value];
      }
      assert forall e :: DomainAmong(insights, i + 1, e) <==>
        DomainAmong(insights, i, e) || insights[i].domain == Some(e);
      i := i + 1;
    }
    if SomeUnassigned(insights) {
      if Unassigned !in domains {
        domains := domains + [Unassigned];
      }
    }
    var unsorted := domains;
    domains := SortStrings(domains);
    PermutationKeepsDistinct(unsorted, domains);
    assert forall d :: d in domains <==> d in unsorted by {
      forall d ensures d in domains <==> d in unsorted {
        assert d in domains <==> d in multiset(domains);
        assert d in unsorted <==> d in multiset(unsorted);
      }
    }
    forall k | 0 <= k < |insights| ensures DomainLabel(insights[k]) in domains {
      if Present(insights[k].domain) {
        assert DomainAmong(insights, |insights|, insights[k].domain.value);
      }
    }
  }

  // ---------------------------------------------------------------------------
  // `filteredInsights`

  /** Whether the selected option keeps an insight. */
  predicate Keeps(filter: string, i: Insight) {
    if filter == All then true
    else if filter == Unassigned then !Present(i.domain)
    else i.domain == Some(filter)
  }

  /** `insights.filter(...)` */
  function FilterInsights(insights: seq<Insight>, filter: string): (r: seq<Insight>)
    ensures |r| <= |insights|
    ensures forall x :: x in r <==> x in insights && Keeps(filter, x)
    ensures forall y :: multiset(r)[y] == if Keeps(filter, y) then multiset(insights)[y] else 0
  {
    if insights == [] then []
    else
      var rest := FilterInsights(insights[1..], filter);
      assert insights == [insights[0]] + insights[1..];
      if Keeps(filter, insights[0]) then [insights[0]] + rest else rest
  }

  /** `a` is `b` with some elements removed, the rest in their order. */
  predicate Subsequence<T(==)>(a: seq<T>, b: seq<T>)
    decreases |b|
  {
    if a == [] then true
    else if b == [] then false
    else (a[0] == b[0] && Subsequence(a[1..], b[1..])) || Subsequence(a, b[1..])
  }

  lemma {:induction false} FilterIsSubsequence(insights: seq<Insight>, filter: string)
    ensures Subsequence(FilterInsights(insights, filter), insights)
  {
    if insights != [] {
      FilterIsSubsequence(insights[1..], filter);
      var r := FilterInsights(insights, filter);
      if !Keeps(filter, insights[0]) && r != [] {
        assert Subsequence(r, insights[1..]);
      }
    }
  }

  lemma {:induction false} FilterAllIsIdentity(insights: seq<Insight>)
    ensures FilterInsights(insights, All) == insights
  {
    if insights != [] {
      FilterAllIsIdentity(insights[1..]);
      assert insights == [insights[0]] + insights[1..];
    }
  }

  /** "Unassigned" keeps exactly the falsy domains, any other option exactly its own domain. */
  lemma FilterSelects(insights: seq<Insight>, filter: string, x: Insight)
    requires filter != All
    ensures filter == Unassigned ==> (x in FilterInsights(insights, filter) <==> x in insights && !Present(x.domain))
    ensures filter != Unassigned ==>
      (x in FilterInsights(insights, filter) <==> x in insights && x.domain == Some(filter))
  {
  }

  /**
   * Choosing the option a row displays shows that row again, except for an
   * insight whose domain is the literal text "Unassigned": that option keeps
   * only the insights without a domain.
   */
  lemma RowLabelSelectsRow(insights: seq<Insight>, x: Insight)
    requires x in insights
    ensures x in FilterInsights(insights, DomainLabel(x)) <==> x.domain != Some(Unassigned)
  {
  }

  // ---------------------------------------------------------------------------
  // Display fallbacks

  /** The message of an empty table, if the table is empty. */
  function EmptyTableMessage(insights: seq<Insight>, filtered: seq<Insight>): (r: Option<string>)
    ensures r.Some? <==> filtered == []
    ensures r == Some(NoMatchMessage) <==> filtered == [] && insights != []
    ensures r == Some(NoneFoundMessage) <==> filtered == [] && insights == []
  {
    if filtered != [] then None
    else if |insights| > 0 then Some(NoMatchMessage)
    else Some(NoneFoundMessage)
  }

  /** The "All" option never shows the no-match message. */
  lemma {:induction false} AllNeverMismatches(insights: seq<Insight>)
    ensures EmptyTableMessage(insights, FilterInsights(insights, All)) != Some(NoMatchMessage)
  {
    FilterAllIsIdentity(insights);
  }

  /** `View_Count__c || 0` */
  function ViewCountLabel(i: Insight): (r: real)
    ensures i.viewCount.Some? && i.viewCount.value != 0.0 ==> r == i.viewCount.value
    ensures i.viewCount.None? || i.viewCount == Some(0.0) ==> r == 0.0
  {
    if i.viewCount.Some? && i.viewCount.value != 0.0 then i.viewCount.value else 0.0
  }

  /** The last-viewed column: the formatted timestamp when one is set, else "N/A". */
  function LastViewedLabel(i: Insight, format: string -> string): (r: string)
    ensures Present(i.lastViewedAt) ==> r == format(i.lastViewedAt.value)
    ensures !Present(i.lastViewedAt) ==> r == NotAvailable
  {
    if Present(i.lastViewedAt) then format(i.lastViewedAt.value) else NotAvailable
  }
}
