/** The deterministic planner (internal/planner/planner.go), on ASCII text. */
module Planner {
  import opened Cloudflare
  import opened Names
  import opened Orders
  import opened Text

  // ----- Sorted lists -----

  predicate Ascending(s: seq<string>) {
    forall i, j | 0 <= i < j < |s| :: Less(s[i], s[j])
  }

  function Elements(s: seq<string>): set<string> {
    set x | x in s
  }

  lemma Prepend(x: string, s: seq<string>)
    requires Ascending(s) && (forall y | y in s :: Less(x, y))
    ensures Ascending([x] + s) && Elements([x] + s) == {x} + Elements(s)
  {}

  lemma Head(s: seq<string>)
    requires s != [] && Ascending(s)
    ensures s == [s[0]] + s[1..] && Elements(s) == {s[0]} + Elements(s[1..])
    ensures s[0] !in s[1..] && (forall y | y in s[1..] :: Less(s[0], y))
  {
    LessIrreflexive(s[0]);
    assert s == [s[0]] + s[1..];
    assert forall i | 1 <= i < |s| :: Less(s[0], s[i]);
  }

  /** A strictly ascending list is determined by its elements. */
  lemma {:induction false} AscendingUnique(a: seq<string>, b: seq<string>)
    requires Ascending(a) && Ascending(b) && Elements(a) == Elements(b)
    ensures a == b
  {
    if a != [] && b != [] {
      Head(a);
      Head(b);
      assert a[0] in Elements(b) && b[0] in Elements(a);
      LessAsymmetric(a[0], b[0]);
      assert Elements(a[1..]) == Elements(a) - {a[0]} && Elements(b[1..]) == Elements(b) - {b[0]};
      AscendingUnique(a[1..], b[1..]);
    } else {
      assert forall s: seq<string> | s != [] :: s[0] in Elements(s);
    }
  }

  ghost function Sorted(values: set<string>): (r: seq<string>)
    ensures Ascending(r) && Elements(r) == values
    decreases |values|
  {
    if values == {} then []
    else
      var low := Least(values);
      var rest := Sorted(values - {low});
      assert forall x | x in rest :: x in Elements(rest);
      Prepend(low, rest);
      [low] + rest
  }

  ghost predicate LeastOf(values: set<string>, r: string) {
    First((a, b) => Less(a, b), values, r)
  }

  ghost function Least(values: set<string>): (r: string)
    requires values != {}
    ensures r in values && (forall x | x in values && x != r :: Less(r, x))
  {
    HasLeast(values);
    var r :| LeastOf(values, r);
    r
  }

  lemma HasLeast(values: set<string>)
    requires values != {}
    ensures exists r :: LeastOf(values, r)
  {
    forall x, y | x in values && y in values && x != y ensures Less(x, y) <==> !Less(y, x) {
      LessTotal(x, y);
      LessAsymmetric(x, y);
    }
    forall x, y, z | x in values && y in values && z in values && Less(x, y) && Less(y, z) ensures Less(x, z) {
      LessTransitive(x, y, z);
    }
    var r := HasFirst((a, b) => Less(a, b), values);
    assert LeastOf(values, r);
  }

  function Insert(s: seq<string>, x: string): (r: seq<string>)
    requires Ascending(s) && x !in s
    ensures Ascending(r) && Elements(r) == Elements(s) + {x}
  {
    if s == [] then [x]
    else
      Head(s);
      LessTotal(x, s[0]);
      if Less(x, s[0]) then
        InsertFirst(s, x);
        [x] + s
      else
        var rest := Insert(s[1..], x);
        assert forall y | y in rest :: y in Elements(rest);
        Prepend(s[0], rest);
        [s[0]] + rest
  }

  lemma InsertFirst(s: seq<string>, x: string)
    requires s != [] && Ascending(s) && Less(x, s[0])
    ensures Ascending([x] + s) && Elements([x] + s) == {x} + Elements(s)
  {
    Head(s);
    forall y | y in s ensures Less(x, y) {
      if y != s[0] {
        LessTransitive(x, s[0], y);
      }
    }
    Prepend(x, s);
  }

  method SortedKeys(values: set<string>) returns (result: seq<string>)
    ensures result == Sorted(values)
  {
    result := [];
    var left := values;
    while left != {}
      invariant left <= values && Ascending(result) && Elements(result) == values - left
      decreases left
    {
      var value := Any(left);
      assert value !in Elements(result);
      result := Insert(result, value);
      left := left - {value};
    }
    AscendingUnique(result, Sorted(values));
  }

  // ----- Names in DNS -----

  predicate IsSpace(c: char) {
    c == ' ' || '\t' <= c <= '\r'
  }

  function Canonical(name: string): string {
    Lower(TrimSuffix(Trim(name, IsSpace), "."))
  }

  predicate LabelChar(c: char) {
    'a' <= c <= 'z' || '0' <= c <= '9' || c == '-'
  }

  predicate ValidLabel(l: string) {
    l != "" && l[0] != '-' && l[|l| - 1] != '-' && forall i | 0 <= i < |l| :: LabelChar(l[i])
  }

  /** The host name syntax of section 2.1 of RFC 1123, with the length bound of a subdomain. */
  predicate Subdomain(s: string) {
    |s| <= 253 && forall l | l in Labels(s) :: ValidLabel(l)
  }

  predicate Concrete(s: string) {
    s != "" && !HasPrefix(s, "*.") && Subdomain(s)
  }

  predicate InZone(hostname: string, zone: string) {
    hostname == zone || HasSuffix(hostname, "." + zone)
  }

  predicate Eligible(hostname: string, zones: seq<string>) {
    Concrete(hostname) && exists k | 0 <= k < |zones| :: InZone(hostname, zones[k])
  }

  /** Every character but a dot is in some label. */
  lemma {:induction false} LabelAt(s: string, i: nat) returns (l: string)
    requires i < |s| && s[i] != '.'
    ensures l in Labels(s) && s[i] in l
  {
    var rest := Labels(s[1..]);
    if i == 0 {
      l := [s[0]] + rest[0];
      assert Labels(s)[0] == l && l[0] == s[0];
    } else {
      var tail := LabelAt(s[1..], i - 1);
      l := if s[0] != '.' && tail == rest[0] then [s[0]] + tail else tail;
      assert s[0] == '.' ==> Labels(s) == [""] + rest;
      assert s[0] != '.' ==> Labels(s) == [[s[0]] + rest[0]] + rest[1..];
      assert rest == [rest[0]] + rest[1..];
    }
  }

  lemma CharsOfLabels(s: string)
    requires forall l | l in Labels(s) :: ValidLabel(l)
    ensures forall i | 0 <= i < |s| :: s[i] == '.' || LabelChar(s[i])
  {
    forall i | 0 <= i < |s| && s[i] != '.' ensures LabelChar(s[i]) {
      var l := LabelAt(s, i);
      assert ValidLabel(l);
    }
  }

  /** Canonicalisation leaves concrete names alone. */
  lemma CanonicalId(name: string)
    requires Concrete(name)
    ensures Canonical(name) == name
  {
    ConcreteEdges(name);
    TrimId(name);
    CharsOfLabels(name);
    LowerId(name);
  }

  lemma ConcreteEdges(name: string)
    requires Concrete(name)
    ensures name[0] != '.' && LabelChar(name[0]) && name[|name| - 1] != '.' && LabelChar(name[|name| - 1])
  {
    var labels := Labels(name);
    EdgeLabels(name);
    assert labels[0] in labels && labels[|labels| - 1] in labels;
  }

  lemma TrimId(s: string)
    requires s != "" && !IsSpace(s[0]) && !IsSpace(s[|s| - 1]) && s[|s| - 1] != '.'
    ensures TrimSuffix(Trim(s, IsSpace), ".") == s
  {}

  lemma LowerId(s: string)
    requires forall i | 0 <= i < |s| :: s[i] == '.' || LabelChar(s[i])
    ensures Lower(s) == s
  {}

  /** The text, without the space around it, ends in a dot after another dot or after space. */
  predicate DoublyEnded(name: string) {
    var t := Trim(name, IsSpace);
    |t| > 1 && t[|t| - 1] == '.' && (t[|t| - 2] == '.' || IsSpace(t[|t| - 2]))
  }

  /** Canonicalisation is idempotent exactly on text that does not end so. */
  lemma CanonicalIdempotentExactly(name: string)
    ensures Canonical(Canonical(name)) == Canonical(name) <==> !DoublyEnded(name)
  {
    var t := Trim(name, IsSpace);
    TrimEdges(name);
    CanonicalOfTrimmed(t);
    assert Canonical(name) == Lower(TrimSuffix(t, "."));
  }

  /** An input on which it is not: "a..". */
  lemma CanonicalTwice(s: string)
    requires |s| == 3 && s[0] == 'a' && s[1] == '.' && s[2] == '.'
    ensures Canonical(Canonical(s)) != Canonical(s)
  {
    TrimStays(s);
    CanonicalIdempotentExactly(s);
  }

  lemma TrimStays(s: string)
    requires s != "" && !IsSpace(s[0]) && !IsSpace(s[|s| - 1])
    ensures Trim(s, IsSpace) == s
  {}

  lemma CanonicalOfTrimmed(t: string)
    requires t != "" ==> !IsSpace(t[0]) && !IsSpace(t[|t| - 1])
    ensures var c := Lower(TrimSuffix(t, "."));
            Canonical(c) == c <==> !(|t| > 1 && t[|t| - 1] == '.' && (t[|t| - 2] == '.' || IsSpace(t[|t| - 2])))
  {
    var s := TrimSuffix(t, ".");
    var c := Lower(s);
    LowerTwice(s);
    if s != "" {
      LowerKeeps(s[0]);
      LowerKeeps(s[|s| - 1]);
      if s[|s| - 1] == '.' || IsSpace(s[|s| - 1]) {
        Shortens(c);
      } else {
        TrimId(c);
      }
    }
  }

  lemma TrimEdges(name: string)
    ensures var t := Trim(name, IsSpace); t != "" ==> !IsSpace(t[0]) && !IsSpace(t[|t| - 1])
  {}

  lemma LowerKeeps(c: char)
    ensures IsSpace(LowerChar(c)) <==> IsSpace(c)
    ensures LowerChar(c) == '.' <==> c == '.'
    ensures LowerChar(LowerChar(c)) == LowerChar(c)
  {}

  lemma LowerTwice(s: string)
    ensures Lower(Lower(s)) == Lower(s)
  {}

  /** Text that ends in a dot or in space does not survive. */
  lemma Shortens(c: string)
    requires c != "" && !IsSpace(c[0]) && (c[|c| - 1] == '.' || IsSpace(c[|c| - 1]))
    ensures |Canonical(c)| < |c|
  {}

  // ----- Zones and host names -----

  function CanonicalSet(names: seq<string>): set<string> {
    set name | name in names :: Canonical(name)
  }

  function EligibleOf(names: set<string>, zones: seq<string>): set<string> {
    set h | h in names && Eligible(h, zones)
  }

  function IneligibleOf(names: set<string>, zones: seq<string>): set<string> {
    set h | h in names && h != "" && !Eligible(h, zones)
  }

  /** The names that are accepted, and those that are rejected, among `names`. */
  function AcceptedNames(names: seq<string>, zones: seq<string>): set<string> {
    EligibleOf(CanonicalSet(names), zones)
  }

  function RejectedNames(names: seq<string>, zones: seq<string>): set<string> {
    IneligibleOf(CanonicalSet(names), zones)
  }

  /** `None` stands for the error about a zone that is not a concrete name. */
  method NormalizeZones(zones: seq<string>) returns (result: Option<seq<string>>)
    ensures result == if forall h | h in CanonicalSet(zones) :: Concrete(h) then
              Some(Sorted(CanonicalSet(zones))) else None
  {
    var unique: set<string> := {};
    for i := 0 to |zones|
      invariant unique == CanonicalSet(zones[..i])
      invariant forall h | h in unique :: Concrete(h)
    {
      var zone := Canonical(zones[i]);
      SplitSet(zones, i);
      if zone == "" || HasPrefix(zone, "*.") || !Subdomain(zone) {
        assert zone in CanonicalSet(zones);
        return None;
      }
      unique := unique + {zone};
    }
    assert zones[..|zones|] == zones;
    var keys := SortedKeys(unique);
    result := Some(keys);
  }

  lemma SplitSet(names: seq<string>, i: nat)
    requires i < |names|
    ensures CanonicalSet(names[..i + 1]) == CanonicalSet(names[..i]) + {Canonical(names[i])}
    ensures CanonicalSet(names[..i + 1]) <= CanonicalSet(names)
  {}

  lemma OneMore(names: set<string>, zones: seq<string>, h: string)
    ensures EligibleOf(names + {h}, zones) == EligibleOf(names, zones) + (if Eligible(h, zones) then {h} else {})
    ensures IneligibleOf(names + {h}, zones)
         == IneligibleOf(names, zones) + (if h != "" && !Eligible(h, zones) then {h} else {})
  {}

  method NormalizeHostnames(hostnames: seq<string>, zones: seq<string>)
    returns (accepted: seq<string>, refused: seq<string>)
    ensures accepted == Sorted(AcceptedNames(hostnames, zones)) && refused == Sorted(RejectedNames(hostnames, zones))
  {
    var allowed: set<string>, rejected: set<string> := {}, {};
    ghost var seen: set<string> := {};
    for i := 0 to |hostnames|
      invariant seen == CanonicalSet(hostnames[..i])
      invariant allowed == EligibleOf(seen, zones) && rejected == IneligibleOf(seen, zones)
    {
      var hostname := Canonical(hostnames[i]);
      SplitSet(hostnames, i);
      OneMore(seen, zones, hostname);
      seen := seen + {hostname};
      allowed, rejected := Classify(hostname, zones, allowed, rejected);
    }
    assert hostnames[..|hostnames|] == hostnames;
    accepted := SortedKeys(allowed);
    refused := SortedKeys(rejected);
  }

  method Classify(hostname: string, zones: seq<string>, allowed: set<string>, rejected: set<string>)
    returns (accepted: set<string>, refused: set<string>)
    ensures accepted == allowed + (if Eligible(hostname, zones) then {hostname} else {})
    ensures refused == rejected + (if hostname != "" && !Eligible(hostname, zones) then {hostname} else {})
  {
    accepted, refused := allowed, rejected;
    var valid := IsEligible(hostname, zones);
    if valid {
      accepted := accepted + {hostname};
    } else if hostname != "" {
      refused := refused + {hostname};
    }
  }

  method IsEligible(hostname: string, zones: seq<string>) returns (valid: bool)
    ensures valid <==> Eligible(hostname, zones)
  {
    valid := hostname != "" && !HasPrefix(hostname, "*.") && Subdomain(hostname);
    if valid {
      for i := 0 to |zones|
        invariant forall k | 0 <= k < i :: !InZone(hostname, zones[k])
      {
        if hostname == zones[i] || HasSuffix(hostname, "." + zones[i]) {
          return true;
        }
      }
      valid := false;
    }
  }

  /** Both outputs are strictly ascending, and every canonical name but "" is in exactly one of them. */
  lemma NormalizedPartition(hostnames: seq<string>, zones: seq<string>)
    ensures var a, r := Sorted(AcceptedNames(hostnames, zones)), Sorted(RejectedNames(hostnames, zones));
            && Ascending(a) && Ascending(r) && Elements(a) !! Elements(r)
            && Elements(a) + Elements(r) == CanonicalSet(hostnames) - {""}
  {
    PartitionOf(CanonicalSet(hostnames), zones);
  }

  lemma PartitionOf(names: set<string>, zones: seq<string>)
    ensures EligibleOf(names, zones) !! IneligibleOf(names, zones)
    ensures EligibleOf(names, zones) + IneligibleOf(names, zones) == names - {""}
  {}

  /** A name is eligible exactly when it is concrete and its labels end with the labels of a zone. */
  lemma EligibleByLabels(hostname: string, zones: seq<string>)
    ensures Eligible(hostname, zones) <==>
            Concrete(hostname) && exists k | 0 <= k < |zones| :: EndsWithLabels(hostname, zones[k])
  {
    forall k | 0 <= k < |zones| ensures InZone(hostname, zones[k]) <==> EndsWithLabels(hostname, zones[k]) {
      SuffixIsLabelSuffix(hostname, zones[k]);
    }
  }

  /** Order and repetition of the inputs do not matter. */
  lemma NormalizedByElements(names: seq<string>, other: seq<string>, zones: seq<string>, allowed: seq<string>)
    requires Elements(names) == Elements(other) && Elements(zones) == Elements(allowed)
    ensures AcceptedNames(names, zones) == AcceptedNames(other, allowed)
    ensures RejectedNames(names, zones) == RejectedNames(other, allowed)
  {
    assert forall x :: x in names <==> x in Elements(names);
    assert forall x :: x in other <==> x in Elements(other);
    forall h ensures Eligible(h, zones) <==> Eligible(h, allowed) {
      forall k | 0 <= k < |zones| ensures exists m | 0 <= m < |allowed| :: allowed[m] == zones[k] {
        assert zones[k] in Elements(zones);
      }
      forall k | 0 <= k < |allowed| ensures exists m | 0 <= m < |zones| :: zones[m] == allowed[k] {
        assert allowed[k] in Elements(allowed);
      }
    }
  }

  /** Normalising the accepted list again returns it, with nothing rejected. */
  lemma NormalizedAgain(names: seq<string>, zones: seq<string>)
    ensures var a := Sorted(AcceptedNames(names, zones));
            Sorted(AcceptedNames(a, zones)) == a && Sorted(RejectedNames(a, zones)) == []
  {
    var a := Sorted(AcceptedNames(names, zones));
    forall h | h in a ensures Canonical(h) == h && Eligible(h, zones) {
      assert h in Elements(a);
      CanonicalId(h);
    }
    assert CanonicalSet(a) == Elements(a);
    assert AcceptedNames(a, zones) == Elements(a);
    assert RejectedNames(a, zones) == {};
  }

  // ----- Ingress -----

  const CATCH_ALL := IngressRule("", "http_status:404", "")

  /** One rule a host name, then the catch-all. */
  function Rules(hostnames: seq<string>, origin: string): (r: seq<IngressRule>)
    ensures |r| == |hostnames| + 1
  {
    if hostnames == [] then [CATCH_ALL]
    else [IngressRule(hostnames[0], origin, "")] + Rules(hostnames[1..], origin)
  }

  /** One rule a name, in order, then the one for everything else. */
  lemma {:induction false} RulesAt(hostnames: seq<string>, origin: string)
    ensures var r := Rules(hostnames, origin);
            && |r| == |hostnames| + 1 && r[|hostnames|] == IngressRule("", "http_status:404", "")
            && forall i | 0 <= i < |hostnames| :: r[i] == IngressRule(hostnames[i], origin, "")
  {
    if hostnames != [] {
      RulesAt(hostnames[1..], origin);
    }
  }

  method IngressRules(hostnames: seq<string>, originService: string) returns (rules: seq<IngressRule>)
    ensures rules == Rules(hostnames, originService)
  {
    rules := [];
    for i := 0 to |hostnames|
      invariant rules + Rules(hostnames[i..], originService) == Rules(hostnames, originService)
    {
      rules := rules + [IngressRule(hostnames[i], originService, "")];
      assert hostnames[i..][1..] == hostnames[i + 1..];
    }
    rules := rules + [CATCH_ALL];
  }

  method EqualIngress(left: seq<IngressRule>, right: seq<IngressRule>) returns (equal: bool)
    ensures equal <==> left == right
  {
    if |left| != |right| {
      return false;
    }
    for i := 0 to |left|
      invariant left[..i] == right[..i]
    {
      if left[i] != right[i] {
        return false;
      }
    }
    return true;
  }

  /** How Cloudflare evaluates a configuration: the first rule without a host name or with the host decides. */
  function FirstMatch(rules: seq<IngressRule>, host: string): Option<string> {
    if rules == [] then None
    else if rules[0].hostname == "" || rules[0].hostname == host then Some(rules[0].service)
    else FirstMatch(rules[1..], host)
  }

  /** A host goes to the origin exactly when it is listed, and otherwise to the 404 rule. */
  lemma {:induction false} RoutesExactly(hostnames: seq<string>, origin: string, host: string)
    requires "" !in hostnames
    ensures FirstMatch(Rules(hostnames, origin), host) == Some(if host in hostnames then origin else "http_status:404")
  {
    if hostnames != [] {
      assert forall h | h in hostnames[1..] :: h in hostnames;
      RoutesExactly(hostnames[1..], origin, host);
      assert hostnames == [hostnames[0]] + hostnames[1..];
      assert Rules(hostnames, origin)[1..] == Rules(hostnames[1..], origin);
    }
  }

  lemma {:induction false} RulesDetermine(a: seq<string>, b: seq<string>, origin: string, other: string)
    requires Rules(a, origin) == Rules(b, other)
    ensures a == b && (a != [] ==> origin == other)
  {
    assert |a| == |b|;
    if a != [] {
      assert Rules(a, origin)[1..] == Rules(a[1..], origin) && Rules(b, other)[1..] == Rules(b[1..], other);
      assert Rules(a, origin)[0] == Rules(b, other)[0];
      RulesDetermine(a[1..], b[1..], origin, other);
      assert a == [a[0]] + a[1..] && b == [b[0]] + b[1..];
    }
  }

  /** Canonical configurations are equal exactly when they publish the same set of names, at the same
      origin if there is any. */
  lemma EqualRules(a: seq<string>, b: seq<string>, origin: string, other: string)
    requires Ascending(a) && Ascending(b)
    ensures Rules(a, origin) == Rules(b, other) <==>
            Elements(a) == Elements(b) && (Elements(a) == {} || origin == other)
  {
    assert a != [] ==> a[0] in Elements(a);
    if Elements(a) == Elements(b) {
      AscendingUnique(a, b);
    }
    if Rules(a, origin) == Rules(b, other) {
      RulesDetermine(a, b, origin, other);
    }
  }

  // ----- Bounded names -----

  function CompactID(value: string, limit: nat): (r: string)
    ensures |r| <= limit || |r| == 7
  {
    var v := WithoutHyphens(value);
    if |v| > limit then v[..limit] else if v == "" then "unknown" else v
  }

  predicate IsHyphen(c: char) {
    c == '-'
  }

  predicate NameChar(c: char) {
    'a' <= c <= 'z' || '0' <= c <= '9' || c == '-'
  }

  function Dashed(value: string): (r: string)
    ensures |r| == |value|
    ensures forall i | 0 <= i < |r| :: NameChar(r[i]) && (NameChar(value[i]) ==> r[i] == value[i])
  {
    seq(|value|, i requires 0 <= i < |value| => if NameChar(value[i]) then value[i] else '-')
  }

  /** Lower case, other characters to hyphens, no hyphen at either end, never empty, at most `limit` long. */
  function Sanitized(value: string, limit: nat): string {
    var clean := Trim(Dashed(Lower(value)), IsHyphen);
    Cut(if clean == "" then "unknown" else clean, limit)
  }

  function Cut(clean: string, limit: nat): string {
    if |clean| > limit then TrimRight(clean[..limit], IsHyphen) else clean
  }

  method Sanitize(value: string, limit: nat) returns (clean: string)
    ensures clean == Sanitized(value, limit)
  {
    var lower := Lower(value);
    var result := "";
    for i := 0 to |lower|
      invariant |result| == i
      invariant forall k | 0 <= k < i :: result[k] == if NameChar(lower[k]) then lower[k] else '-'
    {
      if NameChar(lower[i]) {
        result := result + [lower[i]];
      } else {
        result := result + ['-'];
      }
    }
    assert result == Dashed(lower);
    clean := Trim(result, IsHyphen);
    if clean == "" {
      clean := "unknown";
    }
    if |clean| > limit {
      clean := TrimRight(clean[..limit], IsHyphen);
    }
  }

  /** Non-empty text over the alphabet of names, without a hyphen at either end. */
  predicate Clean(s: string) {
    s != "" && s[0] != '-' && s[|s| - 1] != '-' && forall i | 0 <= i < |s| :: NameChar(s[i])
  }

  lemma TrimClean(s: string)
    requires forall i | 0 <= i < |s| :: NameChar(s[i])
    ensures var t := Trim(s, IsHyphen); t == "" || Clean(t)
  {}

  lemma CutClean(s: string, limit: nat)
    requires Clean(s) && limit > 0
    ensures Clean(Cut(s, limit)) && |Cut(s, limit)| <= limit
  {}

  lemma SanitizedClean(value: string, limit: nat)
    requires limit > 0
    ensures Clean(Sanitized(value, limit)) && |Sanitized(value, limit)| <= limit
  {
    var trimmed := Trim(Dashed(Lower(value)), IsHyphen);
    TrimClean(Dashed(Lower(value)));
    CutClean(if trimmed == "" then "unknown" else trimmed, limit);
  }

  /** Clean text within the limit is left alone, so sanitising twice is sanitising once. */
  lemma SanitizedId(s: string, limit: nat)
    requires Clean(s) && |s| <= limit
    ensures Sanitized(s, limit) == s
  {}

  lemma SanitizedTwice(value: string, limit: nat)
    requires limit > 0
    ensures Sanitized(Sanitized(value, limit), limit) == Sanitized(value, limit)
  {
    SanitizedClean(value, limit);
    SanitizedId(Sanitized(value, limit), limit);
  }

  /** Text that fits and begins and ends with a letter or digit keeps its letters, digits and hyphens, in lower
      case; everything else becomes a hyphen. */
  lemma SanitizedSpells(value: string, limit: nat)
    requires 0 < |value| <= limit && LetterOrDigit(value[0]) && LetterOrDigit(value[|value| - 1])
    ensures |Sanitized(value, limit)| == |value|
    ensures forall i | 0 <= i < |value| ::
              Sanitized(value, limit)[i] == if 'A' <= value[i] <= 'Z' then value[i] - 'A' + 'a'
                                            else if LetterOrDigit(value[i]) then value[i] else '-'
  {
    var dashed := Dashed(Lower(value));
    TrimStaysDashed(dashed);
    assert forall i | 0 <= i < |value| :: NameChar(Lower(value)[i]) <==> LetterOrDigit(value[i]) || value[i] == '-';
  }

  predicate LetterOrDigit(c: char) {
    'a' <= c <= 'z' || 'A' <= c <= 'Z' || '0' <= c <= '9'
  }

  lemma TrimStaysDashed(s: string)
    requires s != "" && s[0] != '-' && s[|s| - 1] != '-'
    ensures Trim(s, IsHyphen) == s
  {}

  const MAX_TUNNEL_NAME := 100

  function FullName(cluster: string, rest: string): string {
    "kflared-" + CompactID(cluster, 8) + rest
  }

  function NameParts(namespace: string, gateway: string, uid: string): string {
    "-" + Sanitized(namespace, 14) + "-" + Sanitized(gateway, 14) + "-" + Sanitized(uid, 36)
  }

  function Bounded(name: string): string {
    if |name| > MAX_TUNNEL_NAME then name[..MAX_TUNNEL_NAME] else name
  }

  /** The tunnel name of a binding. */
  function BindingTunnelName(cluster: string, namespace: string, gateway: string, uid: string): string {
    Bounded(FullName(cluster, NameParts(namespace, gateway, uid)))
  }

  lemma PartsFit(namespace: string, gateway: string, uid: string)
    ensures |NameParts(namespace, gateway, uid)| <= 67
  {
    SanitizedClean(namespace, 14);
    SanitizedClean(gateway, 14);
    SanitizedClean(uid, 36);
  }

  /** The cut never happens. */
  lemma TunnelNameFits(cluster: string, namespace: string, gateway: string, uid: string)
    ensures BindingTunnelName(cluster, namespace, gateway, uid) == FullName(cluster, NameParts(namespace, gateway, uid))
    ensures |BindingTunnelName(cluster, namespace, gateway, uid)| <= 83
  {
    PartsFit(namespace, gateway, uid);
  }

  /** The name spelled out, for names that need no change. */
  lemma TunnelNameReads(cluster: int, namespace: string, gateway: string, uid: int)
    requires Clean(namespace) && |namespace| <= 14 && Clean(gateway) && |gateway| <= 14
    ensures BindingTunnelName(UidText(cluster), namespace, gateway, UidText(uid))
         == "kflared-" + UidText(cluster)[..8] + "-" + namespace + "-" + gateway + "-" + UidText(uid)
  {
    UidClean(uid);
    SanitizedId(namespace, 14);
    SanitizedId(gateway, 14);
    SanitizedId(UidText(uid), 36);
    FirstDigits(cluster);
    TunnelNameFits(UidText(cluster), namespace, gateway, UidText(uid));
    Regrouped("kflared-", UidText(cluster)[..8], namespace, gateway, UidText(uid));
  }

  lemma FirstDigits(n: int)
    ensures CompactID(UidText(n), 8) == UidText(n)[..8]
  {
    UidDigits(n);
  }

  lemma Regrouped(a: string, b: string, c: string, d: string, e: string)
    ensures a + b + ("-" + c + "-" + d + "-" + e) == a + b + "-" + c + "-" + d + "-" + e
  {}

  lemma UidClean(n: int)
    ensures Clean(UidText(n))
  {
    UidChars(n);
  }

  /** A tunnel name tells which binding it is for, whatever the other parts. */
  lemma TunnelNamesTell(cluster: string, a: int, b: int, n: string, m: string, g: string, h: string)
    requires 0 <= a < UIDS && 0 <= b < UIDS && a != b
    ensures BindingTunnelName(cluster, n, g, UidText(a)) != BindingTunnelName(cluster, m, h, UidText(b))
  {
    UidEnds(cluster, n, g, a);
    UidEnds(cluster, m, h, b);
    UidOrder(a, b);
  }

  lemma UidEnds(cluster: string, n: string, g: string, a: int)
    ensures var name := BindingTunnelName(cluster, n, g, UidText(a)); |name| >= 36 && name[|name| - 36..] == UidText(a)
  {
    UidClean(a);
    SanitizedId(UidText(a), 36);
    TunnelNameFits(cluster, n, g, UidText(a));
  }

  /** It is never the name of the tunnel of a private route, as the cluster's UID begins with a digit. */
  lemma TunnelNamesDisjoint(cluster: string, n: string, g: string, binding: string, digest: string, route: string)
    requires cluster != "" && HexDigit(cluster[0])
    ensures BindingTunnelName(cluster, n, g, binding) != PrivateTunnelName(digest, route)
  {
    EighthCharacter(cluster, NameParts(n, g, binding), digest, route);
  }

  lemma EighthCharacter(cluster: string, rest: string, digest: string, route: string)
    requires cluster != "" && HexDigit(cluster[0])
    ensures Bounded(FullName(cluster, rest)) != PrivateTunnelName(digest, route)
  {
    assert FullName(cluster, rest)[8] == cluster[0];
    assert PrivateTunnelName(digest, route)[8] == 'p';
  }

  // ----- The order of bindings -----

  function BindingKey(namespace: string, name: string, uid: string): string {
    namespace + "/" + name + "/" + uid
  }

  predicate SlashFree(s: string) {
    forall i | 0 <= i < |s| :: s[i] != '/'
  }

  lemma FirstSlash(a: string, b: string, x: string, y: string)
    requires SlashFree(a) && SlashFree(b) && a + "/" + x == b + "/" + y
    ensures a == b && x == y
  {
    var s := a + "/" + x;
    assert s[|a|] == '/' && s[|b|] == '/';
    assert a == s[..|a|] && b == s[..|b|];
    assert x == s[|a| + 1..] && y == s[|b| + 1..];
  }

  lemma KeyInjective(n: string, a: string, u: string, m: string, b: string, v: string)
    requires SlashFree(n) && SlashFree(a) && SlashFree(m) && SlashFree(b) && BindingKey(n, a, u) == BindingKey(m, b, v)
    ensures n == m && a == b && u == v
  {
    assert BindingKey(n, a, u) == n + "/" + (a + "/" + u) && BindingKey(m, b, v) == m + "/" + (b + "/" + v);
    FirstSlash(n, m, a + "/" + u, b + "/" + v);
    FirstSlash(a, b, u, v);
  }

  predicate BindingPrecedes(created: int, key: string, otherCreated: int, otherKey: string) {
    if created != otherCreated then created < otherCreated else Less(key, otherKey)
  }

  /** One is a proper prefix of the other, and the character that follows it sorts before the slash. */
  predicate CutBelow(n: string, m: string) {
    || (|n| < |m| && m[..|n|] == n && m[|n|] < '/')
    || (|m| < |n| && n[..|m|] == m && n[|m|] < '/')
  }

  /** Followed by a slash, two different texts compare as without exactly when neither is cut below. */
  lemma {:induction false} SlashOrder(n: string, m: string, x: string, y: string)
    requires SlashFree(n) && SlashFree(m) && n != m
    ensures (Less(n + "/" + x, m + "/" + y) <==> Less(n, m)) <==> !CutBelow(n, m)
  {
    if n == "" {
      assert n + "/" + x == ['/'] + x && (m + "/" + y)[0] == m[0];
    } else if m == "" {
      assert m + "/" + y == ['/'] + y && (n + "/" + x)[0] == n[0];
    } else {
      HeadAndTail(n, x);
      HeadAndTail(m, y);
      if n[0] == m[0] {
        SlashOrder(n[1..], m[1..], x, y);
        SameHead(n, m);
      }
    }
  }

  lemma HeadAndTail(n: string, x: string)
    requires n != ""
    ensures (n + "/" + x)[0] == n[0] && (n + "/" + x)[1..] == n[1..] + "/" + x
    ensures n == [n[0]] + n[1..]
  {}

  lemma SameHead(n: string, m: string)
    requires n != "" && m != "" && n[0] == m[0]
    ensures CutBelow(n, m) <==> CutBelow(n[1..], m[1..])
  {
    if |n| < |m| {
      assert m[..|n|] == [m[0]] + m[1..][..|n| - 1] && n == [n[0]] + n[1..];
    } else if |m| < |n| {
      assert n[..|m|] == [n[0]] + n[1..][..|m| - 1] && m == [m[0]] + m[1..];
    }
  }

  lemma {:induction false} CommonPrefix(p: string, x: string, y: string)
    ensures Less(p + x, p + y) <==> Less(x, y)
  {
    if p == "" {
      assert p + x == x && p + y == y;
    } else {
      assert (p + x)[1..] == p[1..] + x && (p + y)[1..] == p[1..] + y;
      CommonPrefix(p[1..], x, y);
    }
  }

  /** Namespace first, then name, then UID. */
  predicate TupleLess(n: string, a: string, u: string, m: string, b: string, v: string) {
    if n != m then Less(n, m) else if a != b then Less(a, b) else Less(u, v)
  }

  /** The first part in which the tuples differ, if it is namespace or name, is cut below. */
  predicate Diverges(n: string, a: string, m: string, b: string) {
    if n != m then CutBelow(n, m) else a != b && CutBelow(a, b)
  }

  /** The concatenated keys are compared like the tuples exactly when the tuples do not diverge. */
  lemma KeyOrderExactly(n: string, a: string, u: string, m: string, b: string, v: string)
    requires SlashFree(n) && SlashFree(a) && SlashFree(m) && SlashFree(b)
    ensures (Less(BindingKey(n, a, u), BindingKey(m, b, v)) <==> TupleLess(n, a, u, m, b, v))
       <==> !Diverges(n, a, m, b)
  {
    var x, y := a + "/" + u, b + "/" + v;
    assert BindingKey(n, a, u) == n + "/" + x && BindingKey(m, b, v) == m + "/" + y;
    if n != m {
      SlashOrder(n, m, x, y);
    } else {
      CommonPrefix(n + "/", x, y);
      if a != b {
        SlashOrder(a, b, u, v);
      } else {
        CommonPrefix(a + "/", u, v);
      }
    }
  }

  /** Of two bindings created at the same time, the one in namespace "a-b" precedes the one in "a". */
  lemma KeyOrderIsNotTupleOrder(u: string, v: string)
    ensures Less("a", "a-b") && BindingPrecedes(0, BindingKey("a-b", "x", v), 0, BindingKey("a", "x", u))
  {}
}
