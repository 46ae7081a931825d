/** The string keys nfdump1.c stores in and looks up from its StrMaps.
    `sprintf("%u:%u:%u", ...)` and `sprintf("%u:%u", ...)` join unsigned
    decimal numbers with ':'; `inet_ntoa` writes an IPv4 address as a dotted
    quad. The lemmas show that the colon-joined encodings and the dotted quad
    of a 32-bit address are injective, and that a two-field key never equals
    a three-field key, so a StrMap of such keys behaves as a set of tuples. */
module DecimalKeys {
  import opened CArith

  predicate IsDigit(c: char) {
    '0' <= c <= '9'
  }

  function DigitChar(d: nat): (c: char)
    requires d < 10
    ensures IsDigit(c)
  {
    (('0' as int) + d) as char
  }

  /** `%u`: the decimal digits of `n`, most significant first, no leading zeros. */
  function Dec(n: nat): (s: string)
    ensures 1 <= |s|
    ensures forall i :: 0 <= i < |s| ==> IsDigit(s[i])
    ensures |s| == 1 <==> n < 10
    ensures ':' !in s && '.' !in s
    decreases n
  {
    if n < 10 then [DigitChar(n)] else Dec(n / 10) + [DigitChar(n % 10)]
  }

  lemma {:induction false} DecInjective(a: nat, b: nat)
    requires Dec(a) == Dec(b)
    ensures a == b
    decreases a
  {
    if a < 10 {
      assert Dec(a)[0] == DigitChar(a) && Dec(b)[0] == DigitChar(b);
    } else {
      var pa, pb := Dec(a / 10), Dec(b / 10);
      assert Dec(a) == pa + [DigitChar(a % 10)];
      assert Dec(b) == pb + [DigitChar(b % 10)];
      assert |pa| == |pb|;
      assert pa == Dec(a)[..|pa|] == Dec(b)[..|pb|] == pb;
      assert Dec(a)[|pa|] == DigitChar(a % 10) && Dec(b)[|pb|] == DigitChar(b % 10);
      DecInjective(a / 10, b / 10);
    }
  }

  /** The index of the first `sep` in `s`, or `|s|` when there is none. */
  function FirstSep(s: string, sep: char): (i: nat)
    ensures i <= |s|
  {
    if |s| == 0 || s[0] == sep then 0 else 1 + FirstSep(s[1..], sep)
  }

  lemma {:induction false} FirstSepOfJoin(x: string, y: string, sep: char)
    requires sep !in x
    ensures FirstSep(x + [sep] + y, sep) == |x|
  {
    if x != [] {
      assert x[0] in x;
      assert (x + [sep] + y)[1..] == x[1..] + [sep] + y;
      assert forall c :: c in x[1..] ==> c in x;
      FirstSepOfJoin(x[1..], y, sep);
    }
  }

  /** Splitting at the first `sep` recovers both halves of `x + [sep] + y`. */
  lemma SplitAtFirst(x: string, y: string, u: string, v: string, sep: char)
    requires sep !in x && sep !in u
    requires x + [sep] + y == u + [sep] + v
    ensures x == u && y == v
  {
    var s := x + [sep] + y;
    FirstSepOfJoin(x, y, sep);
    FirstSepOfJoin(u, v, sep);
    assert |x| == |u|;
    assert x == s[..|x|] == u;
    assert y == s[|x| + 1..] == v;
  }

  /** The number of ':' separators in a key. */
  function Colons(s: string): nat {
    multiset(s)[':']
  }

  /** `"%u:%u"`: two numbers, one separator. */
  function Key2(a: nat, b: nat): string {
    Dec(a) + ":" + Dec(b)
  }

  /** `"%u:%u:%u"`: three numbers, two separators. */
  function Key3(a: nat, b: nat, c: nat): string {
    Dec(a) + ":" + Dec(b) + ":" + Dec(c)
  }

  lemma Key2Injective(a: nat, b: nat, c: nat, d: nat)
    requires Key2(a, b) == Key2(c, d)
    ensures a == c && b == d
  {
    SplitAtFirst(Dec(a), Dec(b), Dec(c), Dec(d), ':');
    DecInjective(a, c);
    DecInjective(b, d);
  }

  lemma Key3Injective(a: nat, b: nat, c: nat, d: nat, e: nat, f: nat)
    requires Key3(a, b, c) == Key3(d, e, f)
    ensures a == d && b == e && c == f
  {
    assert Key3(a, b, c) == Dec(a) + ":" + (Dec(b) + ":" + Dec(c));
    assert Key3(d, e, f) == Dec(d) + ":" + (Dec(e) + ":" + Dec(f));
    SplitAtFirst(Dec(a), Dec(b) + ":" + Dec(c), Dec(d), Dec(e) + ":" + Dec(f), ':');
    SplitAtFirst(Dec(b), Dec(c), Dec(e), Dec(f), ':');
    DecInjective(a, d);
    DecInjective(b, e);
    DecInjective(c, f);
  }

  /** A key written with two fields is never one written with three. */
  lemma Key2IsNeverKey3(a: nat, b: nat, c: nat, d: nat, e: nat)
    ensures Key2(a, b) != Key3(c, d, e)
  {
    assert Colons(Key2(a, b)) == 1;
    assert Colons(Key3(c, d, e)) == 2;
  }

  /** The four octets of a 32-bit address, most significant first. */
  function Octets(ip: UInt32): (o: (nat, nat, nat, nat))
    ensures o.0 < 256 && o.1 < 256 && o.2 < 256 && o.3 < 256
    ensures ip == o.0 * 0x100_0000 + o.1 * 0x1_0000 + o.2 * 0x100 + o.3
  {
    var q1 := ip / 0x100;
    var q2 := q1 / 0x100;
    (q2 / 0x100, q2 % 0x100, q1 % 0x100, ip % 0x100)
  }

  /** `inet_ntoa` of `ntohl(ip)` for a host-order address: the four octets
      from most to least significant, in decimal, joined with '.'. */
  function DottedQuad(ip: UInt32): (s: string)
    ensures 7 <= |s|
    ensures ':' !in s
  {
    var o := Octets(ip);
    Dec(o.0) + "." + Dec(o.1) + "." + Dec(o.2) + "." + Dec(o.3)
  }

  /** Four '.'-free words joined with '.' can be split back into them. */
  lemma SplitQuad(w0: string, w1: string, w2: string, w3: string,
                  v0: string, v1: string, v2: string, v3: string)
    requires '.' !in w0 && '.' !in w1 && '.' !in w2
    requires '.' !in v0 && '.' !in v1 && '.' !in v2
    requires w0 + "." + w1 + "." + w2 + "." + w3 == v0 + "." + v1 + "." + v2 + "." + v3
    ensures w0 == v0 && w1 == v1 && w2 == v2 && w3 == v3
  {
    var wt, vt := w1 + "." + w2 + "." + w3, v1 + "." + v2 + "." + v3;
    assert w0 + "." + w1 + "." + w2 + "." + w3 == w0 + "." + wt;
    assert v0 + "." + v1 + "." + v2 + "." + v3 == v0 + "." + vt;
    SplitAtFirst(w0, wt, v0, vt, '.');
    assert wt == w1 + "." + (w2 + "." + w3);
    assert vt == v1 + "." + (v2 + "." + v3);
    SplitAtFirst(w1, w2 + "." + w3, v1, v2 + "." + v3, '.');
    SplitAtFirst(w2, w3, v2, v3, '.');
  }

  /** Different addresses have different dotted quads, so a table keyed by
      dotted quads behaves as a set of addresses. */
  lemma DottedQuadInjective(a: UInt32, b: UInt32)
    requires DottedQuad(a) == DottedQuad(b)
    ensures a == b
  {
    var p, q := Octets(a), Octets(b);
    SplitQuad(Dec(p.0), Dec(p.1), Dec(p.2), Dec(p.3), Dec(q.0), Dec(q.1), Dec(q.2), Dec(q.3));
    DecInjective(p.0, q.0);
    DecInjective(p.1, q.1);
    DecInjective(p.2, q.2);
    DecInjective(p.3, q.3);
  }
}
