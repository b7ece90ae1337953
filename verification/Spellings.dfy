/** Which texts the planner takes for the same DNS name, character by character. */
module Spellings {
  import opened Origins
  import opened Planner
  import opened Text

  // ----- Concrete names -----

  predicate Alphanumeric(c: char) {
    'a' <= c <= 'z' || '0' <= c <= '9'
  }

  /** Lower-case letters, digits, hyphens and dots, with a letter or digit at either end and at either side of
      every dot. */
  predicate WellSpelled(s: string) {
    && s != "" && Alphanumeric(s[0]) && Alphanumeric(s[|s| - 1])
    && (forall i | 0 <= i < |s| :: Alphanumeric(s[i]) || s[i] == '-' || s[i] == '.')
    && (forall i | 0 < i < |s| - 1 && s[i] == '.' :: Alphanumeric(s[i - 1]) && Alphanumeric(s[i + 1]))
  }

  /** The test on labels is this test on characters. */
  lemma ConcreteExactly(s: string)
    ensures Concrete(s) <==> |s| <= 253 && WellSpelled(s)
  {
    LabelsWellSpelled(s);
  }

  lemma {:induction false} LabelsWellSpelled(s: string)
    ensures (forall l | l in Labels(s) :: ValidLabel(l)) <==> WellSpelled(s)
    decreases |s|
  {
    if '.' !in s {
      DotFreeLabels(s);
      LabelWellSpelled(s);
    } else {
      var x, y := SplitAtDot(s);
      LabelsOfDotted(x, y);
      DotFreeLabels(x);
      LabelWellSpelled(x);
      LabelsWellSpelled(y);
      assert forall l :: l in [x] + Labels(y) <==> l == x || l in Labels(y);
      DottedWellSpelled(x, y);
    }
  }

  lemma {:induction false} SplitAtDot(s: string) returns (x: string, y: string)
    requires '.' in s
    ensures s == x + "." + y && '.' !in x
  {
    if s[0] == '.' {
      x, y := "", s[1..];
    } else {
      x, y := SplitAtDot(s[1..]);
      x := [s[0]] + x;
    }
  }

  lemma LabelWellSpelled(l: string)
    requires '.' !in l
    ensures ValidLabel(l) <==> WellSpelled(l)
  {}

  lemma DottedWellSpelled(x: string, y: string)
    requires '.' !in x
    ensures WellSpelled(x + "." + y) <==> WellSpelled(x) && WellSpelled(y)
  {
    var s := x + "." + y;
    assert s[|x|] == '.' && s[..|x|] == x && s[|x| + 1..] == y;
    if WellSpelled(s) {
      PartsWellSpelled(s, x, y);
    }
    if WellSpelled(x) && WellSpelled(y) {
      forall i | 0 < i < |s| - 1 && s[i] == '.' ensures Alphanumeric(s[i - 1]) && Alphanumeric(s[i + 1]) {
        assert i > |x| ==> y[i - |x| - 1] == '.';
      }
    }
  }

  lemma PartsWellSpelled(s: string, x: string, y: string)
    requires WellSpelled(s) && |s| == |x| + 1 + |y| && s[|x|] == '.' && s[..|x|] == x && s[|x| + 1..] == y
    ensures WellSpelled(x) && WellSpelled(y)
  {
    assert 0 < |x| < |s| - 1;
    assert Alphanumeric(s[|x| - 1]) && Alphanumeric(s[|x| + 1]);
  }

  // ----- Spellings of a name -----

  /** Tab, line feed, vertical tab, form feed, carriage return and space. */
  predicate Blank(s: string) {
    forall i | 0 <= i < |s| :: s[i] as int in {9, 10, 11, 12, 13, 32}
  }

  /** `z`, with any of its letters in upper case. */
  predicate SameLetters(x: string, z: string) {
    |x| == |z| && forall i | 0 <= i < |x| :: x[i] == z[i] || ('A' <= x[i] <= 'Z' && z[i] as int == x[i] as int + 32)
  }

  /** `s` is `z` with any letters in upper case, perhaps with a dot after it, and with any space around. */
  ghost predicate Spells(s: string, z: string) {
    exists before, x, dot, after :: Spelled(s, z, before, x, dot, after)
  }

  predicate Spelled(s: string, z: string, before: string, x: string, dot: string, after: string) {
    s == before + (x + dot) + after && Blank(before) && Blank(after) && dot in {"", "."} && SameLetters(x, z)
  }

  /** The planner takes exactly the spellings of a concrete name for it. */
  lemma CanonicalExactly(s: string, z: string)
    requires Concrete(z)
    ensures Canonical(s) == z <==> Spells(s, z)
  {
    ConcreteExactly(z);
    if before, x, dot, after :| Spelled(s, z, before, x, dot, after) {
      SpelledCanonical(s, z, before, x, dot, after);
    }
    if Canonical(s) == z {
      CanonicalSpelled(s);
    }
  }

  lemma SpelledCanonical(s: string, z: string, before: string, x: string, dot: string, after: string)
    requires WellSpelled(z) && Spelled(s, z, before, x, dot, after)
    ensures Canonical(s) == z
  {
    LowerSpelled(x, z);
    SpelledEdges(x, z, dot);
    TrimPadded(before, x + dot, after);
    SuffixDropped(x, dot);
  }

  lemma SpelledEdges(x: string, z: string, dot: string)
    requires WellSpelled(z) && SameLetters(x, z) && dot in {"", "."}
    ensures x != "" && x[|x| - 1] != '.'
    ensures !IsSpace((x + dot)[0]) && !IsSpace((x + dot)[|x + dot| - 1])
  {
    assert (x + dot)[0] == x[0] && (x + dot)[|x + dot| - 1] == if dot == "" then x[|x| - 1] else '.';
  }

  lemma SuffixDropped(x: string, dot: string)
    requires dot in {"", "."} && x != "" && x[|x| - 1] != '.'
    ensures TrimSuffix(x + dot, ".") == x
  {
    if dot == "" {
      assert x + dot == x;
    } else {
      assert (x + dot)[..|x|] == x && (x + dot)[|x|..] == ".";
    }
  }

  /** Any text spells what the planner takes it for. */
  lemma CanonicalSpelled(s: string)
    ensures Spells(s, Canonical(s))
  {
    var r := TrimLeft(s, IsSpace);
    TrimmedSpelled(s, r, TrimRight(r, IsSpace));
  }

  lemma TrimmedSpelled(s: string, r: string, t: string)
    requires |r| <= |s| && r == s[|s| - |r|..] && forall i | 0 <= i < |s| - |r| :: IsSpace(s[i])
    requires t <= r && forall i | |t| <= i < |r| :: IsSpace(r[i])
    ensures Spells(s, Lower(TrimSuffix(t, ".")))
  {
    var x := TrimSuffix(t, ".");
    var before, dot, after := s[..|s| - |r|], if HasSuffix(t, ".") then "." else "", r[|t|..];
    assert s == before + r && r == t + after && t == x + dot;
    assert s == before + (x + dot) + after;
    LowerLetters(x);
    assert Spelled(s, Lower(x), before, x, dot, after);
  }

  lemma LowerLetters(x: string)
    ensures SameLetters(x, Lower(x))
  {}

  lemma TrimPadded(before: string, t: string, after: string)
    requires Blank(before) && Blank(after) && t != "" && !IsSpace(t[0]) && !IsSpace(t[|t| - 1])
    ensures Trim(before + t + after, IsSpace) == t
  {
    assert before + t + after == before + (t + after);
    TrimLeftPadded(before, t + after);
    TrimRightPadded(t, after);
  }

  lemma {:induction false} TrimLeftPadded(before: string, u: string)
    requires Blank(before) && u != "" && !IsSpace(u[0])
    ensures TrimLeft(before + u, IsSpace) == u
  {
    if before == "" {
      assert before + u == u;
    } else {
      assert (before + u)[0] == before[0] && (before + u)[1..] == before[1..] + u;
      TrimLeftPadded(before[1..], u);
    }
  }

  lemma {:induction false} TrimRightPadded(u: string, after: string)
    requires Blank(after) && u != "" && !IsSpace(u[|u| - 1])
    ensures TrimRight(u + after, IsSpace) == u
    decreases |after|
  {
    if after == "" {
      assert u + after == u;
    } else {
      var s := u + after;
      assert s[|s| - 1] == after[|after| - 1] && s[..|s| - 1] == u + after[..|after| - 1];
      TrimRightPadded(u, after[..|after| - 1]);
    }
  }

  lemma LowerSpelled(x: string, z: string)
    requires SameLetters(x, z) && WellSpelled(z)
    ensures Lower(x) == z
  {}

  /** Lists of names that differ in spelling only are normalised alike, as zones and as host names. */
  lemma SpellingsAlike(names: seq<string>, others: seq<string>, zones: seq<string>)
    requires |others| == |names|
    requires forall i | 0 <= i < |names| :: others[i] == names[i] || (Concrete(names[i]) && Spells(others[i], names[i]))
    ensures CanonicalSet(others) == CanonicalSet(names)
    ensures AcceptedNames(others, zones) == AcceptedNames(names, zones)
    ensures RejectedNames(others, zones) == RejectedNames(names, zones)
  {
    forall i | 0 <= i < |names| ensures Canonical(others[i]) == Canonical(names[i]) {
      if others[i] != names[i] {
        CanonicalExactly(others[i], names[i]);
        CanonicalId(names[i]);
      }
    }
    SameCanonical(names, others);
  }

  lemma SameCanonical(names: seq<string>, others: seq<string>)
    requires |others| == |names| && forall i | 0 <= i < |names| :: Canonical(others[i]) == Canonical(names[i])
    ensures CanonicalSet(others) == CanonicalSet(names)
  {
    forall h ensures h in CanonicalSet(others) <==> h in CanonicalSet(names) {
      if x :| x in others && h == Canonical(x) {
        var i :| 0 <= i < |others| && others[i] == x;
        assert names[i] in names;
      }
      if x :| x in names && h == Canonical(x) {
        var i :| 0 <= i < |names| && names[i] == x;
        assert others[i] in others;
      }
    }
  }

  /** A host name is accepted, in any spelling, exactly when it lies in one of the zones. */
  lemma SpellingAccepted(s: string, z: string, zones: seq<string>)
    requires Concrete(z) && Spells(s, z)
    ensures z in AcceptedNames([s], zones) <==> exists k | 0 <= k < |zones| :: EndsWithLabels(z, zones[k])
    ensures z in RejectedNames([s], zones) <==> z !in AcceptedNames([s], zones)
  {
    CanonicalExactly(s, z);
    assert [s][0] == s;
    assert z in CanonicalSet([s]);
    EligibleByLabels(z, zones);
  }
}
