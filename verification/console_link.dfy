/**
 * The console link builder: the region scanner that stands for the pattern
 * `arn:aws:cloudformation:(?P<region>[a-z]{2}-[a-z]{4,9}-[1-2]{1})` anchored at the start of the
 * stack identifier, and the console URL built from that region.
 */
module ConsoleLink {
  import opened Results
  import opened Text

  const ArnPrefix: string := "arn:aws:cloudformation:"

  predicate IsLower(c: char) { 'a' <= c <= 'z' }

  /** The number of consecutive lowercase letters in `s` from index `i` on. */
  function LowerRun(s: string, i: nat): (n: nat)
    requires i <= |s|
    ensures i + n <= |s|
    ensures forall k :: i <= k < i + n ==> IsLower(s[k])
    ensures i + n < |s| ==> !IsLower(s[i + n])
    decreases |s| - i
  {
    if i < |s| && IsLower(s[i]) then 1 + LowerRun(s, i + 1) else 0
  }

  /** The shape of a region code: two letters, `-`, four to nine letters, `-`, then `1` or `2`. */
  ghost predicate RegionShape(r: string)
  {
    && 9 <= |r| <= 14
    && IsLower(r[0]) && IsLower(r[1]) && r[2] == '-'
    && (forall k :: 3 <= k < |r| - 2 ==> IsLower(r[k]))
    && r[|r| - 2] == '-'
    && r[|r| - 1] in {'1', '2'}
  }

  /** The identifier starts with the ARN prefix followed by the region `r`. */
  ghost predicate MatchesRegion(stackId: string, r: string)
  {
    ArnPrefix + r <= stackId && RegionShape(r)
  }

  /**
   * `get_stack_region`: the prefix, then the region scanned right after it. The match is
   * anchored at the start of the identifier, as `re.match` is.
   */
  function GetStackRegion(stackId: string): (r: Option<string>)
    ensures r.Some? ==> MatchesRegion(stackId, r.value)
  {
    if !(ArnPrefix <= stackId) then None
    else match ScanRegion(stackId, |ArnPrefix|)
      case None => None
      case Some(region) =>
        assert ArnPrefix + region == stackId[..|ArnPrefix| + |region|];
        Some(region)
  }

  /**
   * The region part of the pattern, matched at index `p`: the two-letter area, `-`, the greedy
   * run of four to nine letters, `-` and the zone digit. A letter run longer than nine cannot
   * match: every shorter choice is followed by a letter, not by `-`.
   */
  function ScanRegion(s: string, p: nat): (r: Option<string>)
    requires p <= |s|
    ensures r.Some? ==> p + |r.value| <= |s| && s[p..p + |r.value|] == r.value && RegionShape(r.value)
  {
    if |s| < p + 3 then None
    else if !(IsLower(s[p]) && IsLower(s[p + 1]) && s[p + 2] == '-') then None
    else
      var n := LowerRun(s, p + 3);
      if 4 <= n <= 9 && p + n + 5 <= |s| && s[p + n + 3] == '-' && s[p + n + 4] in {'1', '2'}
      then Some(s[p..p + n + 5])
      else None
  }

  /** The characters of a matched region sit right after the ARN prefix. */
  lemma MatchedChars(stackId: string, r: string)
    requires MatchesRegion(stackId, r)
    ensures |ArnPrefix| + |r| <= |stackId|
    ensures stackId[..|ArnPrefix|] == ArnPrefix
    ensures stackId[|ArnPrefix|..|ArnPrefix| + |r|] == r
  {
  }

  /** The scanner finds every region the pattern allows, so it fails only when nothing matches. */
  lemma RegionComplete(stackId: string, r: string)
    requires MatchesRegion(stackId, r)
    ensures GetStackRegion(stackId) == Some(r)
  {
    MatchedChars(stackId, r);
    ScanComplete(stackId, |ArnPrefix|, r);
  }

  /** Wherever a region-shaped string sits, the scanner started there returns exactly it. */
  lemma ScanComplete(s: string, p: nat, r: string)
    requires p + |r| <= |s| && s[p..p + |r|] == r && RegionShape(r)
    ensures ScanRegion(s, p) == Some(r)
  {
    var m := |r| - 5;
    assert forall k :: 0 <= k < |r| ==> s[p + k] == r[k] by {
      forall k | 0 <= k < |r| ensures s[p + k] == r[k] {
        assert s[p..p + |r|][k] == r[k];
      }
    }
    assert IsLower(s[p]) && IsLower(s[p + 1]) && s[p + 2] == '-';
    assert s[p + m + 3] == '-' && s[p + m + 4] in {'1', '2'};
    forall k | p + 3 <= k < p + 3 + m ensures IsLower(s[k]) {
      assert s[k] == r[k - p];
    }
    LowerRunAtLeast(s, p + 3, m);
  }

  /** A run of `m` letters followed by a non-letter is exactly what `LowerRun` counts. */
  lemma LowerRunAtLeast(s: string, i: nat, m: nat)
    requires i + m < |s|
    requires forall k :: i <= k < i + m ==> IsLower(s[k])
    requires !IsLower(s[i + m])
    ensures LowerRun(s, i) == m
    decreases m
  {
  }

  const ConsolePath: string := "console.aws.amazon.com/cloudformation/home"

  /** The query of the console link: a fixed filter, a fixed tab and the stack identifier. */
  function StackQuery(stackId: string): (q: map<string, string>)
    ensures q.Keys == {"filter", "tab", "stackId"}
    ensures q["filter"] == "active" && q["tab"] == "events" && q["stackId"] == stackId
  {
    map["filter" := "active", "tab" := "events", "stackId" := stackId]
  }

  /** The console address template, filled with a region and an encoded query. */
  function ConsoleUrl(region: string, query: string): string
  {
    "https://" + region + ConsoleUrlTail(region, query)
  }

  /** Everything in the console address after the region host label. */
  function ConsoleUrlTail(region: string, query: string): string
  {
    "." + ConsolePath + "?region=" + region + "#/stacks?" + query
  }

  /**
   * `get_stack_url`: the region-specific console address, the region again as a parameter, and
   * the encoded query. `urlencode` stands for the library's query encoder.
   */
  function GetStackUrl(stackId: string, urlencode: map<string, string> -> string): (r: Result<string, Error>)
    ensures r.Failure? ==> r.error == MalformedStackId(stackId)
    ensures r.Success? <==> GetStackRegion(stackId).Some?
  {
    match GetStackRegion(stackId)
    case None => Failure(MalformedStackId(stackId))
    case Some(region) =>
      Success(ConsoleUrl(region, urlencode(StackQuery(stackId))))
  }

  /** The first host label of an `https://` address: the text up to its first dot. */
  function HostLabel(url: string): Option<string>
  {
    if !("https://" <= url) then None
    else match IndexOf(url[8..], '.')
      case None => None
      case Some(i) => Some(url[8..8 + i])
  }

  /** The console link is built exactly when the identifier matches the region pattern. */
  lemma StackUrlFailsOnlyWithoutRegion(stackId: string, urlencode: map<string, string> -> string)
    ensures GetStackUrl(stackId, urlencode).Failure? <==> forall r :: !MatchesRegion(stackId, r)
  {
    forall r | MatchesRegion(stackId, r) ensures GetStackRegion(stackId) == Some(r) {
      RegionComplete(stackId, r);
    }
  }

  lemma RegionHasNoDot(r: string)
    requires RegionShape(r)
    ensures '.' !in r
  {
  }

  /** A URL of the form https://<host><tail>, where host has no dot and tail starts with one, has host as its first host label. */
  lemma HostLabelOf(host: string, tail: string)
    requires '.' !in host && |tail| > 0 && tail[0] == '.'
    ensures HostLabel("https://" + host + tail) == Some(host)
  {
    var url := "https://" + host + tail;
    assert url[..8] == "https://";
    assert url[8..] == host + tail;
    assert (host + tail)[..|host|] == host;
    assert (host + tail)[|host|] == '.';
    assert url[8..8 + |host|] == host;
  }

  /** A region without dots is the host label of its console address. */
  lemma ConsoleUrlHost(region: string, query: string)
    requires '.' !in region
    ensures HostLabel(ConsoleUrl(region, query)) == Some(region)
  {
    HostLabelOf(region, ConsoleUrlTail(region, query));
  }

  /** The console address repeats the region as its `region=` parameter. */
  lemma ConsoleUrlRegionParam(region: string, query: string)
    ensures Contains(ConsoleUrl(region, query), "?region=" + region + "#/stacks?")
  {
    var before := "https://" + region + "." + ConsolePath;
    assert ConsoleUrl(region, query) == before + ("?region=" + region + "#/stacks?") + query;
    ContainsMiddle(before, "?region=" + region + "#/stacks?", query);
  }

  /** The console address ends with the encoded query, right after the stacks route. */
  lemma ConsoleUrlQuery(region: string, query: string)
    ensures EndsWith(ConsoleUrl(region, query), "#/stacks?" + query)
  {
    var before := "https://" + region + "." + ConsolePath + "?region=" + region;
    assert ConsoleUrl(region, query) == before + ("#/stacks?" + query);
  }

  /**
   * The region read off the identifier comes back out of the link twice, as the host label of
   * the address and as its `region=` parameter, and the link ends with the encoded query of the
   * stack identifier.
   */
  lemma StackUrlCarriesRegion(stackId: string, urlencode: map<string, string> -> string)
    requires GetStackUrl(stackId, urlencode).Success?
    ensures HostLabel(GetStackUrl(stackId, urlencode).value) == GetStackRegion(stackId)
    ensures Contains(GetStackUrl(stackId, urlencode).value, "?region=" + GetStackRegion(stackId).value + "#/stacks?")
    ensures EndsWith(GetStackUrl(stackId, urlencode).value, "#/stacks?" + urlencode(StackQuery(stackId)))
  {
    RegionHasNoDot(GetStackRegion(stackId).value);
    ConsoleUrlHost(GetStackRegion(stackId).value, urlencode(StackQuery(stackId)));
    ConsoleUrlRegionParam(GetStackRegion(stackId).value, urlencode(StackQuery(stackId)));
    ConsoleUrlQuery(GetStackRegion(stackId).value, urlencode(StackQuery(stackId)));
  }

  /** The region of a typical stack identifier is found and ends at the zone digit. */
  lemma ExampleRegion()
    ensures GetStackRegion("arn:aws:cloudformation:us-east-1:123:stack/foo/abc") == Some("us-east-1")
  {
    var id := "arn:aws:cloudformation:us-east-1:123:stack/foo/abc";
    assert ArnPrefix + "us-east-1" == id[..32];
    RegionComplete(id, "us-east-1");
  }

  /** The zone digit must be 1 or 2, so a region such as eu-west-3 is not recognised. */
  lemma ExampleZoneThreeRejected()
    ensures GetStackRegion("arn:aws:cloudformation:eu-west-3:123:stack/foo/abc").None?
  {
  }
}
