/**
 * The resource summarizer: the stack's resources are sorted by type, grouped into runs of equal
 * type (itertools.groupby) and each run's length is recorded in a dictionary keyed by type.
 */
module ResourceTally {
  import opened Text
  import opened Slack

  /** A stack resource as the cloud API lists it; only its type matters to the tally. */
  datatype Resource = Resource(logicalId: string, resourceType: string)

  function Types(resources: seq<Resource>): (types: seq<string>)
    ensures |types| == |resources|
    ensures forall i :: 0 <= i < |resources| ==> types[i] == resources[i].resourceType
  {
    if resources == [] then [] else [resources[0].resourceType] + Types(resources[1..])
  }

  /** Python's `<` on strings: lexicographic by character code, a proper prefix first. */
  predicate Below(a: string, b: string)
    decreases |a|
  {
    if a == [] then b != []
    else b != [] && (a[0] < b[0] || (a[0] == b[0] && Below(a[1..], b[1..])))
  }

  lemma {:induction false} BelowTransitive(a: string, b: string, c: string)
    requires Below(a, b) && Below(b, c)
    ensures Below(a, c)
    decreases |a|
  {
    if a != [] && a[0] == b[0] && b[0] == c[0] {
      BelowTransitive(a[1..], b[1..], c[1..]);
    }
  }

  lemma {:induction false} BelowTotal(a: string, b: string)
    ensures a == b || Below(a, b) || Below(b, a)
    decreases |a|
  {
    if a != [] && b != [] && a[0] == b[0] {
      BelowTotal(a[1..], b[1..]);
      if a[1..] == b[1..] {
        assert a == [a[0]] + a[1..] && b == [b[0]] + b[1..];
      }
    }
  }

  lemma BelowAsymmetric(a: string, b: string)
    requires Below(a, b)
    ensures !Below(b, a)
  {
  }

  /** No element is below an earlier one. */
  ghost predicate Sorted(s: seq<string>)
  {
    forall i, j :: 0 <= i < j < |s| ==> !Below(s[j], s[i])
  }

  /** Equal elements stand next to each other: what groupby needs to see each type once. */
  ghost predicate Grouped(s: seq<string>)
  {
    forall i, j, k :: 0 <= i < j < k < |s| && s[i] == s[k] ==> s[j] == s[i]
  }

  function Insert(x: string, s: seq<string>): seq<string>
  {
    if s == [] then [x]
    else if Below(s[0], x) then [s[0]] + Insert(x, s[1..])
    else [x] + s
  }

  /** `sorted(..., key=lambda res: res['ResourceType'])`, seen through the resource types. */
  function Sort(s: seq<string>): seq<string>
  {
    if s == [] then [] else Insert(s[0], Sort(s[1..]))
  }

  lemma {:induction false} InsertSorted(x: string, s: seq<string>)
    requires Sorted(s)
    ensures Sorted(Insert(x, s))
    ensures multiset(Insert(x, s)) == multiset(s) + multiset{x}
    decreases |s|
  {
    if s == [] {
    } else if Below(s[0], x) {
      InsertSorted(x, s[1..]);
      assert s == [s[0]] + s[1..];
      NothingBelowHead(x, s, Insert(x, s[1..]));
    } else {
      forall j | 0 <= j < |s| ensures !Below(s[j], x) {
        BelowTotal(s[0], x);
        if Below(s[j], x) && s[0] != x {
          BelowTransitive(s[j], x, s[0]);
        }
      }
    }
  }

  /** Whatever holds the tail of a sorted `s` plus an `x` above its head has nothing below that head. */
  lemma NothingBelowHead(x: string, s: seq<string>, t: seq<string>)
    requires Sorted(s) && s != [] && Below(s[0], x)
    requires multiset(t) == multiset(s[1..]) + multiset{x}
    ensures forall j :: 0 <= j < |t| ==> !Below(t[j], s[0])
  {
    forall j | 0 <= j < |t| ensures !Below(t[j], s[0]) {
      assert t[j] in multiset(t);
      if t[j] == x {
        BelowAsymmetric(s[0], x);
      } else {
        assert t[j] in s[1..];
        var m :| 0 <= m < |s[1..]| && s[1..][m] == t[j];
        assert s[m + 1] == t[j];
      }
    }
  }

  /** Sorting yields a sorted permutation of its input. */
  lemma {:induction false} SortSortedPermutation(s: seq<string>)
    ensures Sorted(Sort(s))
    ensures multiset(Sort(s)) == multiset(s)
    decreases |s|
  {
    if s != [] {
      SortSortedPermutation(s[1..]);
      InsertSorted(s[0], Sort(s[1..]));
      assert s == [s[0]] + s[1..];
    }
  }

  /** In a sorted sequence an element is only ever surrounded by copies of itself. */
  lemma SortedIsGrouped(s: seq<string>)
    requires Sorted(s)
    ensures Grouped(s)
  {
    forall i, j, k | 0 <= i < j < k < |s| && s[i] == s[k] ensures s[j] == s[i] {
      BelowTotal(s[i], s[j]);
    }
  }

  /** `itertools.groupby` followed by `len(list(group))`: each run of equal elements, with its length. */
  function GroupBy(s: seq<string>): (groups: seq<(string, nat)>)
    ensures s == [] <==> groups == []
    ensures s != [] ==> groups[0].0 == s[0]
  {
    if s == [] then []
    else
      var rest := GroupBy(s[1..]);
      if rest != [] && rest[0].0 == s[0] then [(s[0], rest[0].1 + 1)] + rest[1..]
      else [(s[0], 1)] + rest
  }

  /** The first group is the maximal run at the front, and the other groups are those of the rest. */
  lemma {:induction false} GroupByFirstRun(s: seq<string>)
    requires s != []
    ensures 1 <= GroupBy(s)[0].1 <= |s|
    ensures forall j :: 0 <= j < GroupBy(s)[0].1 ==> s[j] == s[0]
    ensures GroupBy(s)[0].1 < |s| ==> s[GroupBy(s)[0].1] != s[0]
    ensures GroupBy(s)[1..] == GroupBy(s[GroupBy(s)[0].1..])
    decreases |s|
  {
    var rest := GroupBy(s[1..]);
    if rest != [] && rest[0].0 == s[0] {
      GroupByFirstRun(s[1..]);
      var c := rest[0].1;
      assert s[1..][c..] == s[c + 1..];
      forall j | 0 <= j < c + 1 ensures s[j] == s[0] {
        if j > 0 {
          assert s[j] == s[1..][j - 1];
        }
      }
    }
  }

  function SumCounts(groups: seq<(string, nat)>): nat
  {
    if groups == [] then 0 else groups[0].1 + SumCounts(groups[1..])
  }

  /** The group lengths add up to the length of the grouped sequence. */
  lemma {:induction false} GroupBySize(s: seq<string>)
    ensures SumCounts(GroupBy(s)) == |s|
    decreases |s|
  {
    if s != [] {
      GroupByFirstRun(s);
      var c := GroupBy(s)[0].1;
      GroupBySize(s[c..]);
    }
  }

  /**
   * `{key: n for key, n in groups}`: entries are stored left to right, so for a repeated key the
   * last group wins.
   */
  function ToDict(groups: seq<(string, nat)>): map<string, nat>
  {
    if groups == [] then map[]
    else
      var rest := ToDict(groups[1..]);
      if groups[0].0 in rest then rest else rest[groups[0].0 := groups[0].1]
  }

  /** The reference count: each element of `s` with its number of occurrences. */
  ghost function CountMap(s: seq<string>): map<string, nat>
  {
    map t | t in s :: multiset(s)[t]
  }

  lemma MultisetOfRun(s: seq<string>, c: nat)
    requires c <= |s|
    requires forall j :: 0 <= j < c ==> s[j] == s[0]
    ensures c > 0 ==> multiset(s[..c]) == multiset{}[s[0] := c]
  {
    if c > 0 {
      var x := s[0];
      var k := 0;
      while k < c
        invariant 0 <= k <= c
        invariant multiset(s[..k]) == multiset{}[x := k]
      {
        assert s[..k + 1] == s[..k] + [s[k]];
        k := k + 1;
      }
    }
  }

  lemma GroupedSuffix(s: seq<string>, c: nat)
    requires Grouped(s) && c <= |s|
    ensures Grouped(s[c..])
  {
  }

  /** In a grouped sequence the first element does not come back after its first run. */
  lemma FirstRunIsAll(s: seq<string>, c: nat)
    requires Grouped(s) && 0 < c <= |s|
    requires c < |s| ==> s[c] != s[0]
    ensures s[0] !in s[c..]
  {
  }

  /** Counting a front run of `c` copies of `x` on top of the rest, where `x` no longer occurs. */
  lemma CountMapOfRun(s: seq<string>, c: nat)
    requires 0 < c <= |s|
    requires forall j :: 0 <= j < c ==> s[j] == s[0]
    requires s[0] !in s[c..]
    ensures CountMap(s) == CountMap(s[c..])[s[0] := c]
  {
    var x, r := s[0], s[c..];
    MultisetOfRun(s, c);
    assert s == s[..c] + r;
    assert multiset(s) == multiset(s[..c]) + multiset(r);
    forall t ensures t in s <==> t == x || t in r {
      if t in s {
        var k :| 0 <= k < |s| && s[k] == t;
        if k >= c {
          assert r[k - c] == t;
        }
      }
    }
  }

  /**
   * Grouping a sequence whose equal elements are adjacent, then keeping the last length per key,
   * counts every element exactly, with one entry per group.
   */
  lemma {:induction false} GroupedTally(s: seq<string>)
    requires Grouped(s)
    ensures ToDict(GroupBy(s)) == CountMap(s)
    ensures |ToDict(GroupBy(s))| == |GroupBy(s)|
    decreases |s|
  {
    if s != [] {
      GroupByFirstRun(s);
      var x, c := s[0], GroupBy(s)[0].1;
      var r := s[c..];
      GroupedSuffix(s, c);
      GroupedTally(r);
      FirstRunIsAll(s, c);
      CountMapOfRun(s, c);
      assert GroupBy(s) == [(x, c)] + GroupBy(r);
      assert x !in ToDict(GroupBy(r));
    }
  }

  /** The groups the summary iterates over: the sorted resource types, grouped. */
  function TypeGroups(resources: seq<Resource>): seq<(string, nat)>
  {
    GroupBy(Sort(Types(resources)))
  }

  /** `resource_count`: resource type to the number of resources of that type. */
  function Tally(resources: seq<Resource>): map<string, nat>
  {
    ToDict(TypeGroups(resources))
  }

  /** The number of resources of type `t`. */
  ghost function Occurrences(resources: seq<Resource>, t: string): nat
  {
    multiset(Types(resources))[t]
  }

  /**
   * The tally has exactly one entry per resource type present, each holding that type's number
   * of resources, which is positive.
   */
  lemma TallyCounts(resources: seq<Resource>)
    ensures forall t :: t in Tally(resources) <==> t in Types(resources)
    ensures forall t :: t in Tally(resources) ==> Tally(resources)[t] == Occurrences(resources, t) > 0
  {
    var types := Types(resources);
    SortSortedPermutation(types);
    SortedIsGrouped(Sort(types));
    GroupedTally(Sort(types));
    forall t ensures t in Sort(types) <==> t in types {
      assert t in Sort(types) <==> t in multiset(Sort(types));
    }
  }

  /** Reordering the resources does not change the tally. */
  lemma TallyOrderIndependent(a: seq<Resource>, b: seq<Resource>)
    requires multiset(Types(a)) == multiset(Types(b))
    ensures Tally(a) == Tally(b)
  {
    TallyCounts(a);
    TallyCounts(b);
    forall t ensures t in Types(a) <==> t in Types(b) {
      assert t in Types(a) <==> t in multiset(Types(a));
    }
  }

  /** The dictionary holds one entry per group, and the group sizes add up to the resource count. */
  lemma TallyTotal(resources: seq<Resource>)
    ensures |Tally(resources)| == |TypeGroups(resources)|
    ensures SumCounts(TypeGroups(resources)) == |resources|
  {
    var types := Types(resources);
    SortSortedPermutation(types);
    SortedIsGrouped(Sort(types));
    GroupedTally(Sort(types));
    GroupBySize(Sort(types));
    assert |Sort(types)| == |multiset(Sort(types))| == |types|;
  }

  function TypeField(t: string, n: nat): Field
  {
    Field("Type " + t, "Total " + NatToString(n), true)
  }

  /** `get_stack_summary_attachment`, over the resource list the cloud API returned. */
  function GetStackSummaryAttachment(resources: seq<Resource>): (a: Attachment)
    ensures a.Breakdown? && a.fallback == a.title
  {
    var counts := Tally(resources);
    var title := "Breakdown of all " + NatToString(|resources|) + " resources";
    Breakdown(title, title, set t | t in counts :: TypeField(t, counts[t]))
  }

  /**
   * The breakdown reports every resource type present with its number of resources and nothing
   * else, and its title reports the total, readable back as a number.
   */
  lemma SummaryAttachmentReportsTally(resources: seq<Resource>)
    ensures var a := GetStackSummaryAttachment(resources);
      && (forall t :: t in Types(resources) ==> TypeField(t, Occurrences(resources, t)) in a.typeFields)
      && (forall f :: f in a.typeFields ==>
            exists t :: t in Types(resources) && f == TypeField(t, Occurrences(resources, t)))
      && a.title == "Breakdown of all " + NatToString(|resources|) + " resources"
      && DecimalValue(NatToString(|resources|)) == |resources|
  {
    TallyCounts(resources);
    NatToStringRoundTrip(|resources|);
  }
}
