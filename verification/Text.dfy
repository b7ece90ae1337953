/** The string operations the planner uses, on ASCII text. */
module Text {

  // ----- Order -----

  /** Go's `<` on strings: the first differing character decides, a proper prefix comes first. */
  predicate Less(a: string, b: string) {
    b != "" && (a == "" || a[0] < b[0] || (a[0] == b[0] && Less(a[1..], b[1..])))
  }

  lemma LessIrreflexive(a: string)
    ensures !Less(a, a)
  {}

  lemma {:induction false} LessTransitive(a: string, b: string, c: string)
    requires Less(a, b) && Less(b, c)
    ensures Less(a, c)
  {
    if a != "" && a[0] == b[0] == c[0] {
      LessTransitive(a[1..], b[1..], c[1..]);
    }
  }

  lemma LessAsymmetric(a: string, b: string)
    ensures !(Less(a, b) && Less(b, a))
  {}

  lemma {:induction false} LessTotal(a: string, b: string)
    ensures a == b || Less(a, b) || Less(b, a)
  {
    if a != "" && b != "" && a[0] == b[0] {
      LessTotal(a[1..], b[1..]);
      assert a == [a[0]] + a[1..] && b == [b[0]] + b[1..];
    }
  }

  /** One text comes before another if it is continued by it, or has the smaller character where they first
      differ. */
  lemma {:induction false} LessExactly(a: string, b: string)
    ensures Less(a, b) <==> exists k :: Parts(a, b, k) && (k == |a| || a[k] < b[k])
  {
    if a != "" && b != "" && a[0] == b[0] {
      LessExactly(a[1..], b[1..]);
      forall k | k > 0 ensures Parts(a, b, k) <==> Parts(a[1..], b[1..], k - 1) {
        if k <= |a| && k < |b| {
          FirstAndRest(a, k);
          FirstAndRest(b, k);
        }
      }
      if Less(a, b) {
        var k :| Parts(a[1..], b[1..], k) && (k == |a| - 1 || a[1..][k] < b[1..][k]);
        assert Parts(a, b, k + 1);
      }
    } else if a != b && (a == "" || (b != "" && a[0] < b[0])) {
      assert Parts(a, b, 0);
    }
  }

  lemma FirstAndRest(a: string, k: int)
    requires 0 < k <= |a|
    ensures a[..k] == [a[0]] + a[1..][..k - 1]
  {}

  /** The texts agree on the first `k` characters, and `b` goes on. */
  predicate Parts(a: string, b: string, k: int) {
    0 <= k <= |a| && k < |b| && a[..k] == b[..k]
  }

  // ----- Labels -----

  /** The pieces between dots; always at least one. */
  function Labels(s: string): (r: seq<string>)
    ensures |r| > 0
  {
    if s == "" then [""] else Extend(s[0], Labels(s[1..]))
  }

  /** The labels of a text once `c` is put in front of it. */
  function Extend(c: char, labels: seq<string>): (r: seq<string>)
    requires |labels| > 0
    ensures |r| > 0
  {
    if c == '.' then [""] + labels else [[c] + labels[0]] + labels[1..]
  }

  lemma ExtendAppend(c: char, p: seq<string>, q: seq<string>)
    requires |p| > 0
    ensures Extend(c, p + q) == Extend(c, p) + q
  {
    assert (p + q)[1..] == p[1..] + q;
  }

  function Join(labels: seq<string>): string
    requires |labels| > 0
  {
    if |labels| == 1 then labels[0] else labels[0] + "." + Join(labels[1..])
  }

  lemma {:induction false} JoinLabels(s: string)
    ensures Join(Labels(s)) == s
  {
    if s != "" {
      JoinLabels(s[1..]);
      var rest := Labels(s[1..]);
      if s[0] != '.' {
        assert Labels(s)[1..] == rest[1..];
        assert s == [s[0]] + s[1..];
        assert Join(Labels(s)) == [s[0]] + Join(rest);
      } else {
        assert Labels(s)[1..] == rest;
        assert s == "." + s[1..];
      }
    }
  }

  lemma {:induction false} LabelsOfDotted(x: string, y: string)
    ensures Labels(x + "." + y) == Labels(x) + Labels(y)
  {
    var s := x + "." + y;
    if x == "" {
      assert s[1..] == y;
    } else {
      assert s[1..] == x[1..] + "." + y;
      LabelsOfDotted(x[1..], y);
      ExtendAppend(x[0], Labels(x[1..]), Labels(y));
    }
  }

  lemma {:induction false} JoinAppend(p: seq<string>, q: seq<string>)
    requires |p| > 0 && |q| > 0
    ensures Join(p + q) == Join(p) + "." + Join(q)
  {
    if |p| == 1 {
      assert (p + q)[1..] == q;
    } else {
      JoinAppend(p[1..], q);
      assert (p + q)[1..] == p[1..] + q;
      assert Join(p + q) == p[0] + "." + (Join(p[1..]) + "." + Join(q));
      assert Join(p) + "." + Join(q) == p[0] + "." + Join(p[1..]) + "." + Join(q);
    }
  }

  predicate HasPrefix(s: string, prefix: string) {
    prefix <= s
  }

  predicate HasSuffix(s: string, suffix: string) {
    |suffix| <= |s| && s[|s| - |suffix|..] == suffix
  }

  /** The label test: the labels of `s` end with the labels of `zone`. */
  predicate EndsWithLabels(s: string, zone: string) {
    var a, b := Labels(s), Labels(zone);
    |b| <= |a| && a[|a| - |b|..] == b
  }

  /** The planner's string test for a zone is the test on whole labels. */
  lemma SuffixIsLabelSuffix(s: string, zone: string)
    ensures (s == zone || HasSuffix(s, "." + zone)) <==> EndsWithLabels(s, zone)
  {
    var a, b := Labels(s), Labels(zone);
    if HasSuffix(s, "." + zone) {
      var x := s[..|s| - |zone| - 1];
      assert s == x + "." + zone;
      LabelsOfDotted(x, zone);
      assert a[|a| - |b|..] == b;
    }
    if EndsWithLabels(s, zone) {
      JoinLabels(s);
      JoinLabels(zone);
      var p := a[..|a| - |b|];
      assert a == p + b;
      if p != [] {
        JoinAppend(p, b);
        assert s == Join(p) + "." + zone;
        assert s[|s| - |zone| - 1..] == "." + zone;
      } else {
        assert a == b;
      }
    }
  }

  /** How the labels of a text show its first and last character. */
  lemma {:induction false} EdgeLabels(s: string)
    requires s != ""
    ensures var first := Labels(s)[0];
            if s[0] == '.' then first == "" else first != "" && first[0] == s[0]
    ensures var last := Labels(s)[|Labels(s)| - 1];
            if s[|s| - 1] == '.' then last == "" else last != "" && last[|last| - 1] == s[|s| - 1]
  {
    if |s| > 1 {
      EdgeLabels(s[1..]);
    } else {
      assert Labels(s[1..]) == [""];
    }
  }

  // ----- Case and trimming -----

  function LowerChar(c: char): char {
    if 'A' <= c <= 'Z' then c - 'A' + 'a' else c
  }

  function Lower(s: string): (r: string)
    ensures |r| == |s|
    ensures forall i | 0 <= i < |s| :: r[i] == LowerChar(s[i])
  {
    seq(|s|, i requires 0 <= i < |s| => LowerChar(s[i]))
  }

  /** Drops leading characters that satisfy `p`. */
  function TrimLeft(s: string, p: char -> bool): (r: string)
    ensures |r| <= |s| && r == s[|s| - |r|..]
    ensures r != "" ==> !p(r[0])
    ensures forall i | 0 <= i < |s| - |r| :: p(s[i])
  {
    if s != "" && p(s[0]) then TrimLeft(s[1..], p) else s
  }

  /** Drops trailing characters that satisfy `p`. */
  function TrimRight(s: string, p: char -> bool): (r: string)
    ensures r <= s
    ensures r != "" ==> !p(r[|r| - 1])
    ensures forall i | |r| <= i < |s| :: p(s[i])
  {
    if s != "" && p(s[|s| - 1]) then TrimRight(s[..|s| - 1], p) else s
  }

  function Trim(s: string, p: char -> bool): string {
    TrimRight(TrimLeft(s, p), p)
  }

  function TrimPrefix(s: string, prefix: string): string {
    if HasPrefix(s, prefix) then s[|prefix|..] else s
  }

  function TrimSuffix(s: string, suffix: string): string {
    if HasSuffix(s, suffix) then s[..|s| - |suffix|] else s
  }

  /** `strings.ReplaceAll(s, "-", "")`. */
  function WithoutHyphens(s: string): (r: string)
    ensures |r| <= |s|
    ensures forall i | 0 <= i < |r| :: r[i] != '-'
  {
    if s == "" then "" else (if s[0] == '-' then "" else [s[0]]) + WithoutHyphens(s[1..])
  }
}
