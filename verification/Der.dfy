/**
 The DER the nodes read and write by hand (common/src/node/enroll.rs and common/src/quic/config.rs):
 tag-length-value elements and positive integers.
 */
module Der {
  import opened Common

  type Byte = b: int | 0 <= b < 256
  type Bytes = seq<Byte>

  datatype Element = Element(tag: Byte, value: Bytes, rest: Bytes)

  /** Big-endian value. */
  function Value(bytes: Bytes): nat {
    if bytes == [] then 0 else 256 * Value(bytes[..|bytes| - 1]) + bytes[|bytes| - 1]
  }

  /** How many octets spell the length, the length, or nothing for a form the reader refuses. */
  function Length(input: Bytes): Option<(nat, nat)>
    requires input != []
  {
    if input[0] < 0x80 then Some((1, input[0]))
    else
      var n := input[0] - 0x80;
      if n == 0 || n > 4 || |input| < 1 + n then None else Some((1 + n, Value(input[1..1 + n])))
  }

  function ReadElement(input: Bytes): (r: Option<Element>)
    ensures r.Some? ==> |r.value.rest| + |r.value.value| + 2 <= |input|
    ensures r.Some? ==> input[|input| - |r.value.rest|..] == r.value.rest
  {
    if |input| < 2 then None
    else
      var after := input[1..];
      match Length(after)
      case None => None
      case Some((k, len)) =>
        if |after| < k + len then None else Some(Element(input[0], after[k..k + len], after[k + len..]))
  }

  /** The length is written in at most two octets, the second form truncating to 16 bits. */
  function Header(tag: Byte, n: nat): Bytes {
    if n < 128 then [tag, n]
    else if n < 256 then [tag, 0x81, n]
    else [tag, 0x82, n % 65536 / 256, n % 256]
  }

  function Encode(tag: Byte, body: Bytes): Bytes {
    Header(tag, |body|) + body
  }

  lemma Value1(a: Byte)
    ensures Value([a]) == a
  {
    assert [a][..0] == [];
  }

  lemma Value2(a: Byte, b: Byte)
    ensures Value([a, b]) == 256 * a + b
  {
    assert [a, b][..1] == [a];
    Value1(a);
  }

  /** What the reader takes for the length of an encoded element. */
  lemma HeaderRead(tag: Byte, n: nat, more: Bytes)
    ensures var h := Header(tag, n);
            Length((h + more)[1..]) == Some((|h| - 1, if n < 256 then n else n % 65536))
  {
    var h := Header(tag, n);
    var after := (h + more)[1..];
    assert after == h[1..] + more;
    if n < 128 {
      assert after[0] == n;
    } else if n < 256 {
      assert after[0] == 0x81 && after[1..2] == [n];
      Value1(n);
    } else {
      var a, b: Byte := n % 65536 / 256, n % 256;
      assert after[0] == 0x82 && after[1..3] == [a, b];
      Value2(a, b);
      SplitOctets(n);
    }
  }

  lemma SplitOctets(n: nat)
    ensures 256 * (n % 65536 / 256) + n % 256 == n % 65536
  {
    var q, m := n / 65536, n % 65536;
    assert n == 65536 * q + m;
    LowOctet(q, m);
  }

  lemma LowOctet(q: nat, m: nat)
    ensures (65536 * q + m) % 256 == m % 256
  {
    var k, r := m / 256, m % 256;
    assert 65536 * q + m == 256 * (256 * q + k) + r;
    SameRest(65536 * q + m, 256 * q + k, r);
  }

  lemma SameRest(x: nat, k: nat, r: nat)
    requires x == 256 * k + r && r < 256
    ensures x % 256 == r
  {
  }

  /** Reading past a header of `k + 1` octets that spells `len`. */
  lemma ReadAfter(header: Bytes, more: Bytes, len: nat)
    requires |header| >= 2 && len <= |more| && Length((header + more)[1..]) == Some((|header| - 1, len))
    ensures ReadElement(header + more) == Some(Element(header[0], more[..len], more[len..]))
  {
    var k := |header| - 1;
    var after := (header + more)[1..];
    assert after[k..k + len] == more[..len];
    assert after[k + len..] == more[len..];
  }

  /** An encoded element, whatever follows it, reads back as its tag, its body and what followed,
      exactly when the body is shorter than 65536 octets. */
  lemma RoundTrip(tag: Byte, body: Bytes, suffix: Bytes)
    ensures ReadElement(Encode(tag, body) + suffix) == Some(Element(tag, body, suffix)) <==> |body| < 65536
  {
    var n := |body|;
    var h := Header(tag, n);
    var more := body + suffix;
    assert Encode(tag, body) + suffix == h + more;
    HeaderRead(tag, n, more);
    var len := if n < 256 then n else n % 65536;
    ReadAfter(h, more, len);
    assert |more[..len]| == len;
    if n < 65536 {
      assert more[..n] == body && more[n..] == suffix;
    }
  }

  lemma ReadsBack(tag: Byte, body: Bytes, suffix: Bytes)
    requires |body| < 65536
    ensures ReadElement(Encode(tag, body) + suffix) == Some(Element(tag, body, suffix))
  {
    RoundTrip(tag, body, suffix);
  }

  /** An element is read from its own octets alone: what follows it changes only the remainder. */
  lemma ReadsLocally(input: Bytes, suffix: Bytes)
    requires ReadElement(input).Some?
    ensures var e := ReadElement(input).value;
            ReadElement(input + suffix) == Some(e.(rest := e.rest + suffix))
  {
    var after := input[1..];
    var longer := (input + suffix)[1..];
    assert longer == after + suffix;
    var (k, len) := Length(after).value;
    if after[0] >= 0x80 {
      assert longer[1..k] == after[1..k];
    }
    assert longer[k..k + len] == after[k..k + len];
    assert longer[k + len..] == after[k + len..] + suffix;
  }

  // ---- Positive integers --------------------------------------------------------------------------

  function Significant(m: Bytes): (s: Bytes)
    ensures s == [] || s[0] != 0
    ensures |s| <= |m|
  {
    if m == [] then [] else if m[0] != 0 then m else Significant(m[1..])
  }

  function IntegerBody(m: Bytes): Bytes {
    var s := Significant(m);
    if s == [] || s[0] >= 0x80 then [0] + s else s
  }

  /** The length octet is a truncating cast. */
  function EncodeInteger(m: Bytes): Bytes {
    var body := IntegerBody(m);
    [0x02, |body| % 256] + body
  }

  /** Section 8.3.2 of X.690: the first nine bits are not all the same; and the number is not
      negative. */
  predicate Minimal(body: Bytes) {
    && body != []
    && body[0] < 0x80
    && (|body| > 1 && body[0] == 0 ==> body[1] >= 0x80)
  }

  lemma {:induction false} ValueHead(x: Byte, bytes: Bytes)
    ensures Value([x] + bytes) == x * Pow256(|bytes|) + Value(bytes)
    decreases |bytes|
  {
    if bytes == [] {
      assert [x] + bytes == [x];
      Value1(x);
    } else {
      var n := |bytes| - 1;
      assert ([x] + bytes)[..n + 1] == [x] + bytes[..n];
      ValueHead(x, bytes[..n]);
      assert 256 * (x * Pow256(n)) == x * (256 * Pow256(n));
    }
  }

  function Pow256(n: nat): (r: nat)
    ensures r > 0
  {
    if n == 0 then 1 else 256 * Pow256(n - 1)
  }

  lemma {:induction false} PowGrows(m: nat, n: nat)
    requires m <= n
    ensures Pow256(m) <= Pow256(n)
    decreases n
  {
    if m < n {
      PowGrows(m, n - 1);
    }
  }

  lemma {:induction false} ValueBounded(bytes: Bytes)
    ensures Value(bytes) < Pow256(|bytes|)
    decreases |bytes|
  {
    if bytes != [] {
      ValueBounded(bytes[..|bytes| - 1]);
    }
  }

  lemma {:induction false} StrippingKeepsValue(m: Bytes)
    ensures Value(Significant(m)) == Value(m)
    decreases |m|
  {
    if m != [] && m[0] == 0 {
      StrippingKeepsValue(m[1..]);
      assert m == [0] + m[1..];
      ValueHead(0, m[1..]);
    }
  }

  lemma IntegerReads(body: Bytes, suffix: Bytes)
    ensures ReadElement([0x02, |body| % 256] + body + suffix) == Some(Element(0x02, body, suffix)) <==> |body| < 128
  {
    if |body| < 128 {
      assert [0x02, |body| % 256] + body == Encode(0x02, body);
      ReadsBack(0x02, body, suffix);
    } else {
      LongIntegerMisread(body, suffix);
    }
  }

  /** A positive integer is written minimally, keeps its value, and reads back as an INTEGER exactly
      while its body fits the short length form. */
  lemma IntegerHolds(m: Bytes, suffix: Bytes)
    ensures var body := IntegerBody(m);
            && Minimal(body)
            && Value(body) == Value(m)
            && (ReadElement(EncodeInteger(m) + suffix) == Some(Element(0x02, body, suffix)) <==> |body| < 128)
  {
    BodyHolds(m);
    IntegerReads(IntegerBody(m), suffix);
  }

  lemma BodyHolds(m: Bytes)
    ensures Minimal(IntegerBody(m)) && Value(IntegerBody(m)) == Value(m)
  {
    StrippingKeepsValue(m);
    ValueHead(0, Significant(m));
  }

  /** A body of 128 octets or more under a one-octet cast of its length is read as something else. */
  lemma LongIntegerMisread(body: Bytes, suffix: Bytes)
    requires |body| >= 128
    ensures ReadElement([0x02, |body| % 256] + body + suffix) != Some(Element(0x02, body, suffix))
  {
    var l := |body| % 256;
    var input := [0x02, l] + body + suffix;
    var e := ReadElement(input);
    if l < 0x80 {
      assert input[1..][0] == l;
      assert e.Some? ==> |e.value.value| == l;
    } else if e.Some? {
      var (k, len) := Length(input[1..]).value;
      assert k >= 2 && |e.value.rest| == |input| - 1 - k - len && |e.value.value| == len;
    }
  }

  /** Minimal bodies with the same value are the same octets, so a number has one encoding. */
  lemma MinimalIsUnique(a: Bytes, b: Bytes)
    requires Minimal(a) && Minimal(b) && Value(a) == Value(b)
    ensures a == b
  {
    if |a| < |b| {
      LongerIsLarger(a, b);
    } else if |b| < |a| {
      LongerIsLarger(b, a);
    } else {
      SameLengthSameValue(a, b);
    }
  }

  lemma {:induction false} LongerIsLarger(a: Bytes, b: Bytes)
    requires a != [] && a[0] < 0x80 && Minimal(b) && |a| < |b|
    ensures Value(a) < Value(b)
  {
    var n := |b|;
    assert b == [b[0]] + b[1..];
    ValueHead(b[0], b[1..]);
    if b[0] > 0 {
      ValueBounded(a);
      PowGrows(|a|, n - 1);
      Scaled(1, b[0], Pow256(n - 1));
    } else {
      LongerPadded(a, b[1..]);
    }
  }

  /** Behind a leading zero octet the next one is large. */
  lemma {:induction false} LongerPadded(a: Bytes, rest: Bytes)
    requires a != [] && a[0] < 0x80 && rest != [] && rest[0] >= 0x80 && |a| <= |rest|
    ensures Value(a) < Value(rest)
  {
    var n := |rest| - 1;
    assert rest == [rest[0]] + rest[1..];
    ValueHead(rest[0], rest[1..]);
    Scaled(128, rest[0], Pow256(n));
    HalfBound(a);
    PowGrows(|a| - 1, n);
  }

  lemma {:induction false} Scaled(x: nat, y: nat, p: nat)
    requires x <= y
    ensures x * p <= y * p
  {
  }

  lemma {:induction false} HalfBound(a: Bytes)
    requires a != [] && a[0] < 0x80
    ensures Value(a) < 128 * Pow256(|a| - 1)
  {
    assert a == [a[0]] + a[1..];
    ValueHead(a[0], a[1..]);
    ValueBounded(a[1..]);
    Scaled(a[0], 127, Pow256(|a| - 1));
  }

  lemma {:induction false} SameLengthSameValue(a: Bytes, b: Bytes)
    requires |a| == |b| && Value(a) == Value(b)
    ensures a == b
    decreases |a|
  {
    if a != [] {
      var n := |a| - 1;
      assert a[n] == b[n] && Value(a[..n]) == Value(b[..n]);
      SameLengthSameValue(a[..n], b[..n]);
      assert a == a[..n] + [a[n]] && b == b[..n] + [b[n]];
    }
  }

  /** Two magnitudes are written alike exactly when they are the same number. */
  lemma IntegersAgree(m: Bytes, n: Bytes)
    ensures IntegerBody(m) == IntegerBody(n) <==> Value(m) == Value(n)
  {
    IntegerHolds(m, []);
    IntegerHolds(n, []);
    if Value(m) == Value(n) {
      MinimalIsUnique(IntegerBody(m), IntegerBody(n));
    }
  }

  /** Every long form of one to four length octets is read, minimal or not. */
  lemma {:induction false} ReadsLongForm(tag: Byte, octets: Bytes, body: Bytes, suffix: Bytes)
    requires 1 <= |octets| <= 4 && Value(octets) == |body|
    ensures ReadElement([tag, 0x80 + |octets|] + octets + (body + suffix)) == Some(Element(tag, body, suffix))
  {
    var more := body + suffix;
    var header := [tag, 0x80 + |octets|] + octets;
    assert (header + more)[1..] == [0x80 + |octets|] + (octets + more);
    LongLength(octets, more);
    ReadAfter(header, more, |body|);
    assert more[..|body|] == body && more[|body|..] == suffix;
  }

  lemma {:induction false} LongLength(octets: Bytes, more: Bytes)
    requires 1 <= |octets| <= 4
    ensures Length([0x80 + |octets|] + (octets + more)) == Some((1 + |octets|, Value(octets)))
  {
    var input := [0x80 + |octets|] + (octets + more);
    assert input[1..1 + |octets|] == octets;
  }

  /** No other form is: the indefinite one, and those of five or more length octets. */
  lemma RefusesOtherForms(tag: Byte, first: Byte, rest: Bytes)
    requires first == 0x80 || first > 0x84
    ensures ReadElement([tag, first] + rest) == None
  {
    assert ([tag, first] + rest)[1..][0] == first;
  }
}
