/** The names and tags by which the controllers recognise what belongs to an object, as text. The protocol
    modules use numbers and datatypes in their place; the lemmas here say why that loses nothing. */
module Names {
  import opened Text

  // ----- UID text -----

  const DIGITS := "0123456789abcdef"

  predicate HexDigit(c: char) {
    '0' <= c <= '9' || 'a' <= c <= 'f'
  }

  /** The last `width` hexadecimal digits of `n`. */
  function Hex(n: int, width: nat): (r: string)
    ensures |r| == width
    ensures forall i | 0 <= i < width :: HexDigit(r[i])
    decreases width, n
  {
    if width == 0 then "" else Hex(n / 16, width - 1) + [DIGITS[n % 16]]
  }

  function Pow16(width: nat): (r: int)
    ensures r > 0
  {
    if width == 0 then 1 else 16 * Pow16(width - 1)
  }

  /** Puts a hyphen after each of the leading pieces of the given widths. */
  function Hyphenate(h: string, widths: seq<nat>): (r: string)
    requires Sum(widths) <= |h|
    ensures |r| == |h| + |widths|
    decreases |widths|, h
  {
    if widths == [] then h else h[..widths[0]] + "-" + Hyphenate(h[widths[0]..], widths[1..])
  }

  function Sum(widths: seq<nat>): nat {
    if widths == [] then 0 else widths[0] + Sum(widths[1..])
  }

  const WIDTHS: seq<nat> := [8, 4, 4, 4]

  const UIDS := Pow16(32)

  /** Canonical lower-case UUID text of the 128-bit number `n`. */
  function UidText(n: int): (r: string)
    ensures |r| == 36
  {
    assert Sum(WIDTHS) == 20;
    Hyphenate(Hex(n, 32), WIDTHS)
  }

  /** Texts of equal length compare by their first parts, then by the rest. */
  lemma {:induction false} LessAppend(a: string, b: string, x: string, y: string)
    requires |a| == |b|
    ensures Less(a + x, b + y) <==> Less(a, b) || (a == b && Less(x, y))
  {
    if a == "" {
      assert a + x == x && b + y == y;
    } else {
      LessAppend(a[1..], b[1..], x, y);
      assert (a + x)[1..] == a[1..] + x && (b + y)[1..] == b[1..] + y;
      assert a == [a[0]] + a[1..] && b == [b[0]] + b[1..];
    }
  }

  lemma LessDigit(i: int, j: int)
    requires 0 <= i < 16 && 0 <= j < 16
    ensures Less([DIGITS[i]], [DIGITS[j]]) <==> i < j
    ensures DIGITS[i] == DIGITS[j] <==> i == j
  {}

  /** Text order on equally long digit strings is numeric order. */
  lemma {:induction false} HexOrder(a: int, b: int, width: nat)
    requires 0 <= a < Pow16(width) && 0 <= b < Pow16(width)
    ensures Less(Hex(a, width), Hex(b, width)) <==> a < b
    ensures Hex(a, width) == Hex(b, width) <==> a == b
  {
    if width > 0 {
      HexOrder(a / 16, b / 16, width - 1);
      LessAppend(Hex(a / 16, width - 1), Hex(b / 16, width - 1), [DIGITS[a % 16]], [DIGITS[b % 16]]);
      LessDigit(a % 16, b % 16);
      assert Hex(a, width)[..width - 1] == Hex(a / 16, width - 1) && Hex(a, width)[width - 1] == DIGITS[a % 16];
      assert Hex(b, width)[..width - 1] == Hex(b / 16, width - 1) && Hex(b, width)[width - 1] == DIGITS[b % 16];
    }
  }

  lemma {:induction false} HexPrefix(n: int, width: nat, k: nat)
    requires k <= width
    ensures Hex(n, width)[..k] == Hex(n / Pow16(width - k), k)
    decreases width
  {
    if k == width {
      assert Hex(n, width)[..k] == Hex(n, width);
    } else {
      HexPrefix(n / 16, width - 1, k);
      DivDiv(n, Pow16(width - 1 - k));
      assert Hex(n, width)[..k] == Hex(n / 16, width - 1)[..k];
    }
  }

  lemma DivDiv(n: int, d: int)
    requires d > 0
    ensures n / 16 / d == n / (16 * d)
  {
    var q, r := n / 16 / d, n / 16 % d;
    assert n == 16 * (q * d + r) + n % 16;
    assert 0 <= 16 * r + n % 16 < 16 * d;
    DivUnique(n, 16 * d, q, 16 * r + n % 16);
  }

  lemma DivUnique(n: int, d: int, q: int, r: int)
    requires d > 0 && 0 <= r < d && n == q * d + r
    ensures n / d == q
  {
    var p, t := n / d, n % d;
    assert n == p * d + t;
    assert (q - p) * d == t - r;
    if q > p {
      AtLeast(q - p, d);
    } else if p > q {
      AtLeast(p - q, d);
    }
  }

  lemma AtLeast(k: int, d: int)
    requires k > 0 && d > 0
    ensures k * d >= d
  {}

  lemma {:induction false} HyphenateOrder(a: string, b: string, widths: seq<nat>)
    requires |a| == |b| && Sum(widths) <= |a|
    ensures Less(Hyphenate(a, widths), Hyphenate(b, widths)) <==> Less(a, b)
    ensures Hyphenate(a, widths) == Hyphenate(b, widths) <==> a == b
    decreases |widths|
  {
    if widths != [] {
      var w := widths[0];
      var x, y := Hyphenate(a[w..], widths[1..]), Hyphenate(b[w..], widths[1..]);
      HyphenateOrder(a[w..], b[w..], widths[1..]);
      LessAppend(a[..w] + "-", b[..w] + "-", x, y);
      LessAppend(a[..w], b[..w], "-", "-");
      LessAppend(a[..w], b[..w], a[w..], b[w..]);
      assert a == a[..w] + a[w..] && b == b[..w] + b[w..];
      assert Hyphenate(a, widths)[..w] == a[..w] && Hyphenate(a, widths)[w + 1..] == x;
      assert Hyphenate(b, widths)[..w] == b[..w] && Hyphenate(b, widths)[w + 1..] == y;
    }
  }

  /** UIDs may be compared as numbers. */
  lemma UidOrder(a: int, b: int)
    requires 0 <= a < UIDS && 0 <= b < UIDS
    ensures Less(UidText(a), UidText(b)) <==> a < b
    ensures UidText(a) == UidText(b) <==> a == b
  {
    HexOrder(a, b, 32);
    assert Sum(WIDTHS) == 20;
    HyphenateOrder(Hex(a, 32), Hex(b, 32), WIDTHS);
  }

  predicate HyphenFree(a: string) {
    forall i | 0 <= i < |a| :: a[i] != '-'
  }

  lemma {:induction false} WithoutHyphensId(a: string)
    requires HyphenFree(a)
    ensures WithoutHyphens(a) == a
  {
    if a != "" {
      WithoutHyphensId(a[1..]);
      assert a == [a[0]] + a[1..];
    }
  }

  lemma {:induction false} OneHyphen(x: string, y: string)
    requires HyphenFree(x)
    ensures WithoutHyphens(x + "-" + y) == x + WithoutHyphens(y)
  {
    var s := x + "-" + y;
    if x == "" {
      assert s[1..] == y;
    } else {
      OneHyphen(x[1..], y);
      assert s[1..] == x[1..] + "-" + y && s[0] == x[0];
      assert [x[0]] + (x[1..] + WithoutHyphens(y)) == x + WithoutHyphens(y);
    }
  }

  lemma {:induction false} HyphenateUndone(h: string, widths: seq<nat>)
    requires Sum(widths) <= |h| && HyphenFree(h)
    ensures WithoutHyphens(Hyphenate(h, widths)) == h
    decreases |widths|
  {
    if widths == [] {
      WithoutHyphensId(h);
    } else {
      var w := widths[0];
      var first, last := h[..w], h[w..];
      assert h == first + last;
      HyphenateUndone(last, widths[1..]);
      OneHyphen(first, Hyphenate(last, widths[1..]));
    }
  }

  lemma UidDigits(n: int)
    ensures WithoutHyphens(UidText(n)) == Hex(n, 32)
  {
    assert Sum(WIDTHS) == 20;
    HyphenateUndone(Hex(n, 32), WIDTHS);
  }

  lemma {:induction false} HyphenateChars(h: string, widths: seq<nat>)
    requires Sum(widths) < |h| && forall i | 0 <= i < |h| :: HexDigit(h[i])
    ensures var r := Hyphenate(h, widths);
            r[|r| - 1] == h[|h| - 1] && forall i | 0 <= i < |r| :: r[i] == '-' || HexDigit(r[i])
    decreases |widths|
  {
    if widths != [] {
      HyphenateChars(h[widths[0]..], widths[1..]);
    }
  }

  lemma UidChars(n: int)
    ensures var t := UidText(n);
            HexDigit(t[0]) && HexDigit(t[35]) && forall i | 0 <= i < 36 :: t[i] == '-' || HexDigit(t[i])
  {
    assert Sum(WIDTHS) == 20;
    HyphenateChars(Hex(n, 32), WIDTHS);
  }

  // ----- Remote names -----

  const PRIVATE_COMMENT := "kflared private route UID="

  /** The comment on the remote route of the private route object `uid`. */
  function PrivateComment(uid: string): (r: string)
    ensures |r| == |PRIVATE_COMMENT| + |uid| && r[|PRIVATE_COMMENT|..] == uid
  {
    PRIVATE_COMMENT + uid
  }

  const PRIVATE_PREFIX := "kflared-private-"

  /** The tunnel name of the private route `uid`; `digest` is the hex digest of the cluster UID. */
  function PrivateTunnelName(digest: string, uid: string): (r: string)
    ensures |r| == 17 + |digest| + |uid| && r[17 + |digest|..] == uid
    ensures HasPrefix(r, PRIVATE_PREFIX)
  {
    PRIVATE_PREFIX + digest + "-" + uid
  }

  /** A comment or a private tunnel name tells which object it is for. */
  lemma PrivateNamesTell(digest: string, a: int, b: int)
    requires 0 <= a < UIDS && 0 <= b < UIDS && a != b
    ensures PrivateComment(UidText(a)) != PrivateComment(UidText(b))
    ensures PrivateTunnelName(digest, UidText(a)) != PrivateTunnelName(digest, UidText(b))
  {
    UidOrder(a, b);
  }

  // ----- Names of children -----

  const CHILD_PREFIX := "kflared-"

  function ConnectorResourceName(uid: string): (r: string)
    ensures HasPrefix(r, CHILD_PREFIX)
  {
    var value := WithoutHyphens(uid);
    var short := if |value| > 12 then value[..12] else value;
    CHILD_PREFIX + (if short == "" then "pending" else short)
  }

  function PrivateResourceName(uid: string): (r: string)
    ensures HasPrefix(r, PRIVATE_PREFIX)
  {
    PRIVATE_PREFIX + TrimPrefix(ConnectorResourceName(uid), CHILD_PREFIX)
  }

  /** No child of a binding has the name of a child of a private route, whatever the UIDs. */
  lemma ChildNamesDisjoint(binding: string, route: string)
    ensures ConnectorResourceName(binding) != PrivateResourceName(route)
  {
    var c, p := ConnectorResourceName(binding), PrivateResourceName(route);
    assert forall i | 8 <= i < |c| :: c[i] != '-';
    assert p[15] == '-';
  }

  lemma TwentyDigits()
    ensures Pow16(20) == 0x1_0000_0000_0000_0000_0000 && UIDS == Pow16(12) * Pow16(20)
  {
    assert Pow16(4) == 0x1_0000;
    assert Pow16(8) == 0x1_0000_0000;
    assert Pow16(12) == 0x1_0000_0000_0000;
    assert Pow16(16) == 0x1_0000_0000_0000_0000;
    assert Pow16(24) == 0x1_0000_0000_0000_0000_0000_0000;
    assert Pow16(28) == 0x1_0000_0000_0000_0000_0000_0000_0000;
  }

  lemma ChildName(n: int)
    requires 0 <= n < UIDS
    ensures var digits := Hex(n / 0x1_0000_0000_0000_0000_0000, 12);
            && ConnectorResourceName(UidText(n)) == CHILD_PREFIX + digits
            && PrivateResourceName(UidText(n)) == PRIVATE_PREFIX + digits
  {
    TwentyDigits();
    UidDigits(n);
    HexPrefix(n, 32, 12);
    assert ConnectorResourceName(UidText(n))[8..] == Hex(n / Pow16(20), 12);
  }

  /** The children of two objects of one kind have the same name exactly when the first 12 digits of the
      UIDs agree. */
  lemma ChildNamesCollide(a: int, b: int)
    requires 0 <= a < UIDS && 0 <= b < UIDS
    ensures var p, q := a / 0x1_0000_0000_0000_0000_0000, b / 0x1_0000_0000_0000_0000_0000;
            && (ConnectorResourceName(UidText(a)) == ConnectorResourceName(UidText(b)) <==> p == q)
            && (PrivateResourceName(UidText(a)) == PrivateResourceName(UidText(b)) <==> p == q)
  {
    var p, q := a / 0x1_0000_0000_0000_0000_0000, b / 0x1_0000_0000_0000_0000_0000;
    TwentyDigits();
    ChildName(a);
    ChildName(b);
    HexOrder(p, q, 12);
    assert (CHILD_PREFIX + Hex(p, 12))[8..] == Hex(p, 12) && (CHILD_PREFIX + Hex(q, 12))[8..] == Hex(q, 12);
    assert (PRIVATE_PREFIX + Hex(p, 12))[16..] == Hex(p, 12) && (PRIVATE_PREFIX + Hex(q, 12))[16..] == Hex(q, 12);
  }
}
