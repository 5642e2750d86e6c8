/** The audit reporter: finds the stacks with no notification targets and names them. */
module Audit {
  import opened Text
  import opened Slack

  /** A stack as `describe_stacks` lists it: its name and its notification targets. */
  datatype Stack = Stack(stackName: string, notificationArns: seq<string>)

  const AuditPrefix: string := "The following stacks are not configured for notifications: "

  /** `get_stacks_without_notification_arns`, over the listed stacks: those whose target list is empty. */
  function GetStacksWithoutNotificationArns(stacks: seq<Stack>): (r: seq<Stack>)
    ensures forall s :: s in r ==> s in stacks && s.notificationArns == []
    ensures forall s :: s in stacks && s.notificationArns == [] ==> s in r
    ensures |r| <= |stacks|
    ensures r == [] <==> forall s :: s in stacks ==> s.notificationArns != []
  {
    if stacks == [] then []
    else
      var rest := GetStacksWithoutNotificationArns(stacks[1..]);
      assert forall s :: s in stacks[1..] ==> s in stacks;
      if stacks[0].notificationArns == [] then [stacks[0]] + rest else rest
  }

  /** The filter keeps the original order: filtering a concatenation concatenates the results. */
  lemma {:induction false} FilterKeepsOrder(a: seq<Stack>, b: seq<Stack>)
    ensures GetStacksWithoutNotificationArns(a + b)
         == GetStacksWithoutNotificationArns(a) + GetStacksWithoutNotificationArns(b)
    decreases |a|
  {
    if a == [] {
      assert a + b == b;
    } else {
      assert (a + b)[0] == a[0] && (a + b)[1..] == a[1..] + b;
      FilterKeepsOrder(a[1..], b);
    }
  }

  function Quote(name: string): string
  {
    "\"" + name + "\""
  }

  function QuotedNames(stacks: seq<Stack>): (names: seq<string>)
    ensures |names| == |stacks|
    ensures forall i :: 0 <= i < |stacks| ==> names[i] == Quote(stacks[i].stackName)
  {
    if stacks == [] then [] else [Quote(stacks[0].stackName)] + QuotedNames(stacks[1..])
  }

  /**
   * `report_stacks_without_notifications`: nothing when every stack has a notification target,
   * otherwise a text naming each stack that has none.
   */
  function ReportStacksWithoutNotifications(stacks: seq<Stack>): (m: Message)
    ensures m == map[] <==> forall s :: s in stacks ==> s.notificationArns != []
    ensures m != map[] ==> m.Keys == {"text"} && m["text"].Str? && AuditPrefix <= m["text"].s
  {
    var missing := GetStacksWithoutNotificationArns(stacks);
    if missing == [] then map[]
    else map["text" := Str(AuditPrefix + Join(", ", QuotedNames(missing)))]
  }

  /** Every stack without notification targets appears, quoted, in the audit text. */
  lemma AuditNamesEachStack(stacks: seq<Stack>, s: Stack)
    requires s in stacks && s.notificationArns == []
    ensures "text" in ReportStacksWithoutNotifications(stacks)
    ensures Contains(ReportStacksWithoutNotifications(stacks)["text"].s, Quote(s.stackName))
  {
    var missing := GetStacksWithoutNotificationArns(stacks);
    var i :| 0 <= i < |missing| && missing[i] == s;
    var joined := Join(", ", QuotedNames(missing));
    JoinContainsEach(", ", QuotedNames(missing), i);
    ContainsGrows(joined, Quote(s.stackName), AuditPrefix, "");
    assert AuditPrefix + joined + "" == AuditPrefix + joined;
  }

  /** Quoting distributes over concatenation, so the names keep the order of the stacks. */
  lemma {:induction false} QuotedNamesConcat(a: seq<Stack>, b: seq<Stack>)
    ensures QuotedNames(a + b) == QuotedNames(a) + QuotedNames(b)
    decreases |a|
  {
    if a == [] {
      assert a + b == b;
    } else {
      assert (a + b)[0] == a[0] && (a + b)[1..] == a[1..] + b;
      QuotedNamesConcat(a[1..], b);
    }
  }

  /**
   * The audit text of two lists of stacks, each with some unmonitored stack, is the text of the
   * first followed by `", "` and the names of the second: the names come in list order, separated
   * by a comma, and no others appear.
   */
  lemma AuditTextConcat(a: seq<Stack>, b: seq<Stack>)
    requires exists s :: s in a && s.notificationArns == []
    requires exists s :: s in b && s.notificationArns == []
    ensures var ra, rb := ReportStacksWithoutNotifications(a), ReportStacksWithoutNotifications(b);
      && "text" in ra && "text" in rb && |AuditPrefix| <= |rb["text"].s|
      && ReportStacksWithoutNotifications(a + b)
         == map["text" := Str(ra["text"].s + ", " + rb["text"].s[|AuditPrefix|..])]
  {
    var ma, mb := GetStacksWithoutNotificationArns(a), GetStacksWithoutNotificationArns(b);
    var ja, jb := Join(", ", QuotedNames(ma)), Join(", ", QuotedNames(mb));
    AuditTextOf(a);
    AuditTextOf(b);
    MissingOfConcat(a, b);
    JoinQuotedConcat(ma, mb);
    PrefixedJoin(AuditPrefix, ja, jb);
  }

  lemma PrefixedJoin(p: string, ja: string, jb: string)
    ensures (p + jb)[|p|..] == jb
    ensures p + (ja + ", " + jb) == (p + ja) + ", " + jb
  {
  }

  /** The unmonitored stacks of a concatenation, when the first part has some. */
  lemma MissingOfConcat(a: seq<Stack>, b: seq<Stack>)
    requires exists s :: s in a && s.notificationArns == []
    ensures ReportStacksWithoutNotifications(a + b)
         == map["text" := Str(AuditPrefix + Join(", ", QuotedNames(
              GetStacksWithoutNotificationArns(a) + GetStacksWithoutNotificationArns(b))))]
  {
    var w :| w in a && w.notificationArns == [];
    assert w in a + b;
    FilterKeepsOrder(a, b);
    AuditTextOf(a + b);
  }

  /** The joined names of two non-empty lists of stacks, with the separator between. */
  lemma JoinQuotedConcat(a: seq<Stack>, b: seq<Stack>)
    requires a != [] && b != []
    ensures Join(", ", QuotedNames(a + b)) == Join(", ", QuotedNames(a)) + ", " + Join(", ", QuotedNames(b))
  {
    QuotedNamesConcat(a, b);
    JoinConcat(", ", QuotedNames(a), QuotedNames(b));
  }

  /** With some unmonitored stack, the report is the prefix and the joined, quoted names. */
  lemma AuditTextOf(stacks: seq<Stack>)
    requires exists s :: s in stacks && s.notificationArns == []
    ensures GetStacksWithoutNotificationArns(stacks) != []
    ensures ReportStacksWithoutNotifications(stacks)
         == map["text" := Str(AuditPrefix + Join(", ", QuotedNames(GetStacksWithoutNotificationArns(stacks))))]
  {
  }

  /** A single unmonitored stack, wherever it sits among monitored ones, yields exactly its quoted name after the prefix. */
  lemma AuditSingleStack(before: seq<Stack>, name: string, after: seq<Stack>)
    requires forall s :: s in before ==> s.notificationArns != []
    requires forall s :: s in after ==> s.notificationArns != []
    ensures ReportStacksWithoutNotifications(before + [Stack(name, [])] + after)
         == map["text" := Str(AuditPrefix + "\"" + name + "\"")]
  {
    var one := [Stack(name, [])];
    FilterKeepsOrder(before + one, after);
    FilterKeepsOrder(before, one);
    assert one[1..] == [];
    assert GetStacksWithoutNotificationArns(one) == one;
    assert GetStacksWithoutNotificationArns(before + one + after) == one;
    assert QuotedNames(one) == [Quote(name)];
    assert Join(", ", [Quote(name)]) == Quote(name);
    assert AuditPrefix + Quote(name) == AuditPrefix + "\"" + name + "\"";
  }
}
