/** The origin of a tunnel: the URL of a Service's port inside the cluster. */
module Origins {
  import opened Kube
  import opened Names
  import opened Text

  function OriginURL(service: Key, port: int): string {
    "http://" + service.name + "." + service.namespace + ".svc.cluster.local:" + Decimal(port)
  }

  function Decimal(n: int): string
    decreases if n < 0 then 1 - n else n
  {
    if n < 0 then "-" + Decimal(-n)
    else if n < 10 then [DIGITS[n]]
    else Decimal(n / 10) + [DIGITS[n % 10]]
  }

  // ----- Reading a URL back -----

  predicate IsDigit(c: char) {
    '0' <= c <= '9'
  }

  /** The number that digits stand for. */
  function Value(digits: string): int
    requires forall i | 0 <= i < |digits| :: IsDigit(digits[i])
  {
    if digits == "" then 0
    else Value(digits[..|digits| - 1]) * 10 + (digits[|digits| - 1] as int - '0' as int)
  }

  /** Digits, with a sign if it is needed, that stand for `n`. */
  predicate Reads(text: string, n: int) {
    if n < 0 then text != "" && text[0] == '-' && ReadsNatural(text[1..], -n) else ReadsNatural(text, n)
  }

  predicate ReadsNatural(text: string, n: nat) {
    text != "" && (forall i | 0 <= i < |text| :: IsDigit(text[i])) && Value(text) == n
  }

  /** A text is read as one number at most. */
  lemma ReadsOne(text: string, n: int, m: int)
    requires Reads(text, n) && Reads(text, m)
    ensures n == m
  {}

  lemma DecimalReads(n: int)
    ensures Reads(Decimal(n), n)
  {
    if n < 0 {
      NaturalReads(-n);
      assert Decimal(n)[1..] == Decimal(-n);
    } else {
      NaturalReads(n);
    }
  }

  lemma {:induction false} NaturalReads(n: nat)
    ensures ReadsNatural(Decimal(n), n)
  {
    if n < 10 {
      OneDigit(n);
    } else {
      NaturalReads(n / 10);
      OneMoreDigit(Decimal(n / 10), n / 10, n % 10);
      LastDigit(n);
    }
  }

  lemma LastDigit(n: nat)
    requires n >= 10
    ensures Decimal(n) == Decimal(n / 10) + [DIGITS[n % 10]] && n == n / 10 * 10 + n % 10
  {}

  lemma OneDigit(d: nat)
    requires d < 10
    ensures ReadsNatural([DIGITS[d]], d)
  {
    OneMoreDigit("", 0, d);
    assert "" + [DIGITS[d]] == [DIGITS[d]];
  }

  lemma OneMoreDigit(text: string, n: nat, d: nat)
    requires (text == "" && n == 0) || ReadsNatural(text, n)
    requires d < 10
    ensures ReadsNatural(text + [DIGITS[d]], n * 10 + d)
  {
    var c := DIGITS[d];
    assert IsDigit(c) && c as int - '0' as int == d;
    assert (text + [c])[..|text|] == text && (text + [c])[|text|] == c;
  }

  /** The text after the last colon is read as the port, and the labels of the host before it are those of the
      Service's name, then those of its namespace, then "svc.cluster.local". */
  ghost predicate Addresses(origin: string, name: string, namespace: string, port: int) {
    exists host, digits ::
      && origin == "http://" + host + ":" + digits && ':' !in digits && Reads(digits, port)
      && Labels(host) == Labels(name) + Labels(namespace) + ["svc", "cluster", "local"]
  }

  lemma URLAddresses(service: Key, port: int)
    ensures Addresses(OriginURL(service, port), service.name, service.namespace, port)
  {
    DecimalReads(port);
    NoColon(Decimal(port), port);
    SuffixParts();
    HostLabels(service.name, service.namespace, ".svc.cluster.local", "svc", "cluster", "local");
    Assembled(OriginURL(service, port), "http://", ".svc.cluster.local:", ".svc.cluster.local", ":", Decimal(port),
      service, port);
  }

  lemma SuffixParts()
    ensures ".svc.cluster.local" == "." + ("svc" + "." + ("cluster" + "." + "local"))
    ensures ".svc.cluster.local:" == ".svc.cluster.local" + ":"
  {}

  lemma Assembled(origin: string, scheme: string, tail: string, suffix: string, colon: string, digits: string,
      service: Key, port: int)
    requires origin == scheme + service.name + "." + service.namespace + tail + digits
    requires scheme == "http://" && colon == ":" && tail == suffix + colon && ':' !in digits && Reads(digits, port)
    requires Labels(service.name + "." + service.namespace + suffix)
          == Labels(service.name) + Labels(service.namespace) + ["svc", "cluster", "local"]
    ensures Addresses(origin, service.name, service.namespace, port)
  {
    assert origin == scheme + (service.name + "." + service.namespace + suffix) + colon + digits;
  }

  lemma NoColon(digits: string, port: int)
    requires Reads(digits, port)
    ensures ':' !in digits
  {
    forall i | 0 <= i < |digits| ensures digits[i] != ':' {
      if port < 0 && i > 0 {
        assert digits[1..][i - 1] == digits[i];
      }
    }
  }

  lemma HostLabels(name: string, namespace: string, suffix: string, x: string, y: string, z: string)
    requires suffix == "." + (x + "." + (y + "." + z)) && '.' !in x && '.' !in y && '.' !in z
    ensures Labels(name + "." + namespace + suffix) == Labels(name) + Labels(namespace) + [x, y, z]
  {
    ThreeLabels(x, y, z);
    TwoAndRest(name, namespace, x + "." + (y + "." + z));
    Nested(name, namespace, x + "." + (y + "." + z));
  }

  lemma Nested(a: string, b: string, rest: string)
    ensures a + "." + b + ("." + rest) == a + "." + (b + "." + rest)
  {}

  lemma TwoAndRest(a: string, b: string, rest: string)
    ensures Labels(a + "." + (b + "." + rest)) == Labels(a) + Labels(b) + Labels(rest)
  {
    LabelsOfDotted(b, rest);
    LabelsOfDotted(a, b + "." + rest);
  }

  lemma ThreeLabels(x: string, y: string, z: string)
    requires '.' !in x && '.' !in y && '.' !in z
    ensures Labels(x + "." + (y + "." + z)) == [x, y, z]
  {
    TwoAndRest(x, y, z);
    DotFreeLabels(x);
    DotFreeLabels(y);
    DotFreeLabels(z);
  }

  lemma {:induction false} DotFreeLabels(s: string)
    requires '.' !in s
    ensures Labels(s) == [s]
  {
    if s != "" {
      DotFreeLabels(s[1..]);
      assert [s[0]] + s[1..] == s;
    }
  }

  /** URLs of different ports, or of Services that differ in name or namespace, differ. */
  lemma OriginsTell(s: Key, p: int, t: Key, q: int)
    requires '.' !in s.name && '.' !in s.namespace && '.' !in t.name && '.' !in t.namespace
    requires OriginURL(s, p) == OriginURL(t, q)
    ensures s == t && p == q
  {
    URLAddresses(s, p);
    URLAddresses(t, q);
    var host, digits :| OriginURL(s, p) == "http://" + host + ":" + digits && ':' !in digits && Reads(digits, p)
      && Labels(host) == Labels(s.name) + Labels(s.namespace) + ["svc", "cluster", "local"];
    var host', digits' :| OriginURL(t, q) == "http://" + host' + ":" + digits' && ':' !in digits' && Reads(digits', q)
      && Labels(host') == Labels(t.name) + Labels(t.namespace) + ["svc", "cluster", "local"];
    LastColon("http://" + host, digits, "http://" + host', digits');
    assert ("http://" + host)[7..] == host && ("http://" + host')[7..] == host';
    ReadsOne(digits, p, q);
    DotFreeLabels(s.name);
    DotFreeLabels(s.namespace);
    DotFreeLabels(t.name);
    DotFreeLabels(t.namespace);
    assert Labels(host)[0] == s.name && Labels(host)[1] == s.namespace;
    assert Labels(host)[0] == t.name && Labels(host)[1] == t.namespace;
  }

  lemma LastColon(x: string, d: string, y: string, e: string)
    requires x + ":" + d == y + ":" + e && ':' !in d && ':' !in e
    ensures x == y && d == e
  {
    var s := x + ":" + d;
    assert s[|x|] == ':' && s[|y|] == ':';
    forall i | |x| < i < |s| ensures s[i] != ':' {
      assert s[i] == d[i - |x| - 1];
    }
    forall i | |y| < i < |s| ensures s[i] != ':' {
      assert s[i] == (y + ":" + e)[i] == e[i - |y| - 1];
    }
    assert s[..|x|] == x && s[|x| + 1..] == d && s[..|y|] == y && s[|y| + 1..] == e;
  }
}
