/**
 Certificates written and read by hand: the self-signed certificate of a key
 (common/src/quic/config.rs) and the walk that finds a certificate's key and its capability
 extension (common/src/node/enroll.rs).
 */
module Certificate {
  import opened Common
  import opened Der

  const Ed25519Aid: Bytes := [0x06, 0x03, 0x2b, 0x65, 0x70]
  const CapabilityOid: Bytes := [0x2b, 0x06, 0x01, 0x04, 0x01, 0x83, 0xcc, 0x08, 0x01]

  // ---- Reading -----------------------------------------------------------------------------------

  /** What is left of `input` after `n` elements. */
  function Skip(input: Bytes, n: nat): Option<Bytes> {
    if n == 0 then Some(input)
    else
      match ReadElement(input)
      case None => None
      case Some(e) => Skip(e.rest, n - 1)
  }

  /** The body of a leading SEQUENCE. */
  function Sequence(input: Bytes): Option<Element> {
    match ReadElement(input)
    case Some(e) => if e.tag == 0x30 then Some(e) else None
    case None => None
  }

  /** The TBSCertificate from its SPKI on. */
  function FromSpki(cert: Bytes): Option<Bytes> {
    match Sequence(cert)
    case None => None
    case Some(outer) =>
      match Sequence(outer.value)
      case None => None
      case Some(tbs) => PastSubject(tbs.value)
  }

  /** What follows the subject: the version is there only if its tag is. */
  function PastSubject(tbs: Bytes): Option<Bytes> {
    match ReadElement(tbs)
    case None => None
    case Some(e) => Skip(if e.tag == 0xa0 then e.rest else tbs, 5)
  }

  method TbsFromSpki(cert: Bytes) returns (r: Option<Bytes>)
    ensures r == FromSpki(cert)
  {
    var outer := Sequence(cert);
    if outer.None? {
      return None;
    }
    var tbs := Sequence(outer.value.value);
    if tbs.None? {
      return None;
    }
    var first := ReadElement(tbs.value.value);
    if first.None? {
      return None;
    }
    var rest := if first.value.tag == 0xa0 then first.value.rest else tbs.value.value;
    r := SkipFields(rest);
  }

  method SkipFields(input: Bytes) returns (r: Option<Bytes>)
    ensures r == Skip(input, 5)
  {
    var rest := input;
    for i := 0 to 5
      invariant Skip(input, 5) == Skip(rest, 5 - i)
    {
      var e := ReadElement(rest);
      if e.None? {
        return None;
      }
      rest := e.value.rest;
    }
    return Some(rest);
  }

  /** The Ed25519 key a certificate certifies. */
  function SpkiKey(cert: Bytes): Option<Bytes> {
    match FromSpki(cert)
    case None => None
    case Some(rest) =>
      match Sequence(rest)
      case None => None
      case Some(spki) => KeyIn(spki.value)
  }

  function KeyIn(spki: Bytes): Option<Bytes> {
    match Sequence(spki)
    case None => None
    case Some(algorithm) =>
      if algorithm.value != Ed25519Aid then None
      else
        match ReadElement(algorithm.rest)
        case None => None
        case Some(bits) =>
          if bits.tag == 0x03 && |bits.value| == 33 && bits.value[0] == 0 then Some(bits.value[1..]) else None
  }

  /** Four octets, little-endian. */
  function DecodeCapabilities(v: Bytes): Option<nat> {
    if |v| == 4 then Some(Value([v[3], v[2], v[1], v[0]])) else None
  }

  /** The value of the first [3] element, past any unique ids. */
  function Extensions(input: Bytes): Option<Bytes>
    decreases |input|
  {
    match ReadElement(input)
    case None => None
    case Some(e) => if e.tag == 0xa3 then Some(e.value) else Extensions(e.rest)
  }

  /** The capabilities in the fields after the identifier: a `critical` flag may come first. */
  function StampIn(fields: Bytes): Option<nat> {
    var flagged := fields != [] && fields[0] == 0x01;
    var flag := if flagged then ReadElement(fields) else None;
    if flagged && flag.None? then None
    else
      match ReadElement(if flagged then flag.value.rest else fields)
      case None => None
      case Some(e) => if e.tag == 0x04 then DecodeCapabilities(e.value) else None
  }

  function Scan(extensions: Bytes): Option<nat>
    decreases |extensions|
  {
    if extensions == [] then None
    else
      match Sequence(extensions)
      case None => None
      case Some(e) =>
        match ReadElement(e.value)
        case None => None
        case Some(id) =>
          if id.tag == 0x06 && id.value == CapabilityOid then StampIn(id.rest) else Scan(e.rest)
  }

  function Capabilities(cert: Bytes): Option<nat> {
    match FromSpki(cert)
    case None => None
    case Some(rest) =>
      match ReadElement(rest)
      case None => None
      case Some(spki) =>
        match Extensions(spki.rest)
        case None => None
        case Some(wrapped) =>
          match Sequence(wrapped)
          case None => None
          case Some(list) => Scan(list.value)
  }

  method CertCapabilities(cert: Bytes) returns (r: Option<nat>)
    ensures r == Capabilities(cert)
  {
    var from := TbsFromSpki(cert);
    if from.None? {
      return None;
    }
    var spki := ReadElement(from.value);
    if spki.None? {
      return None;
    }
    var wrapped := FindExtensions(spki.value.rest);
    if wrapped.None? {
      return None;
    }
    var list := Sequence(wrapped.value);
    if list.None? {
      return None;
    }
    r := ScanExtensions(list.value.value);
  }

  method FindExtensions(input: Bytes) returns (r: Option<Bytes>)
    ensures r == Extensions(input)
  {
    var rest := input;
    while true
      invariant Extensions(input) == Extensions(rest)
      decreases |rest|
    {
      var e := ReadElement(rest);
      if e.None? {
        return None;
      }
      if e.value.tag == 0xa3 {
        return Some(e.value.value);
      }
      rest := e.value.rest;
    }
  }

  method ScanExtensions(list: Bytes) returns (r: Option<nat>)
    ensures r == Scan(list)
  {
    var extensions := list;
    while extensions != []
      invariant Scan(list) == Scan(extensions)
      decreases |extensions|
    {
      var e := Sequence(extensions);
      if e.None? {
        return None;
      }
      extensions := e.value.rest;
      var id := ReadElement(e.value.value);
      if id.None? {
        return None;
      }
      if id.value.tag == 0x06 && id.value.value == CapabilityOid {
        return StampIn(id.value.rest);
      }
    }
    return None;
  }

  // ---- Certificates as section 4.1 of RFC 5280 lays them out --------------------------------------

  datatype Field = Field(tag: Byte, body: Bytes)

  /** An element with tag 0x01 right after the identifier is the `critical` flag. */
  datatype Extension = Extension(tag: Byte, oid: Bytes, critical: Option<Bytes>, wrap: Byte, value: Bytes, extra: Bytes)

  predicate Flagged(e: Extension) {
    e.wrap == 0x01 ==> e.critical.Some?
  }

  /** Every optional part, and arbitrary octets wherever the reader does not look. */
  datatype Layout = Layout(
    version: Option<Bytes>,
    fields: seq<Field>,
    spki: Bytes,
    tail: Bytes,
    signature: Bytes,
    trailing: Bytes)

  function Join(fs: seq<Field>): Bytes {
    if fs == [] then [] else Encode(fs[0].tag, fs[0].body) + Join(fs[1..])
  }

  function VersionOf(l: Layout): Bytes {
    match l.version case Some(v) => Encode(0xa0, v) case None => []
  }

  function TbsOf(l: Layout): Bytes {
    VersionOf(l) + (Join(l.fields) + (Encode(0x30, l.spki) + l.tail))
  }

  function CertOf(l: Layout): Bytes {
    Encode(0x30, Encode(0x30, TbsOf(l)) + l.signature) + l.trailing
  }

  /** Serial number, signature algorithm, issuer, validity and subject, and a body the two-octet
      length can carry. */
  predicate Fits(l: Layout) {
    && |l.fields| == 5
    && (l.version.None? ==> l.fields[0].tag != 0xa0)
    && |Encode(0x30, TbsOf(l)) + l.signature| < 65536
  }

  lemma {:induction false} SkipsFields(fs: seq<Field>, more: Bytes)
    requires |Join(fs)| < 65536
    ensures Skip(Join(fs) + more, |fs|) == Some(more)
    decreases |fs|
  {
    if fs == [] {
      assert Join(fs) + more == more;
    } else {
      var rest := Join(fs[1..]);
      assert Join(fs) + more == Encode(fs[0].tag, fs[0].body) + (rest + more);
      ReadsBack(fs[0].tag, fs[0].body, rest + more);
      SkipsFields(fs[1..], more);
    }
  }

  lemma VersionPassed(v: Bytes, fs: seq<Field>, rest: Bytes)
    requires |fs| == 5 && |v| < 65536 && |Join(fs)| < 65536
    ensures PastSubject(Encode(0xa0, v) + (Join(fs) + rest)) == Some(rest)
  {
    ReadsBack(0xa0, v, Join(fs) + rest);
    SkipsFields(fs, rest);
  }

  lemma NoVersionPassed(fs: seq<Field>, rest: Bytes)
    requires |fs| == 5 && fs[0].tag != 0xa0 && |Join(fs)| < 65536
    ensures PastSubject(Join(fs) + rest) == Some(rest)
  {
    var more := Join(fs[1..]) + rest;
    assert Join(fs) + rest == Encode(fs[0].tag, fs[0].body) + more;
    ReadsBack(fs[0].tag, fs[0].body, more);
    SkipsFields(fs, rest);
  }

  lemma EnvelopeRead(tbs: Bytes, signature: Bytes, trailing: Bytes)
    requires |Encode(0x30, tbs) + signature| < 65536
    ensures FromSpki(Encode(0x30, Encode(0x30, tbs) + signature) + trailing) == PastSubject(tbs)
  {
    ReadsBack(0x30, Encode(0x30, tbs) + signature, trailing);
    ReadsBack(0x30, tbs, signature);
  }

  /** The walk stops at the SPKI of every laid-out certificate. */
  lemma FindsSpki(l: Layout)
    requires Fits(l)
    ensures FromSpki(CertOf(l)) == Some(Encode(0x30, l.spki) + l.tail)
    ensures |l.spki| < 65536 && |l.tail| < 65536
  {
    var rest := Encode(0x30, l.spki) + l.tail;
    EnvelopeRead(TbsOf(l), l.signature, l.trailing);
    if l.version.Some? {
      VersionPassed(l.version.value, l.fields, rest);
    } else {
      NoVersionPassed(l.fields, rest);
      assert TbsOf(l) == Join(l.fields) + rest;
    }
  }

  lemma KeyInSpki(kind: Byte, algorithm: Bytes, wrap: Byte, bits: Bytes, extra: Bytes)
    requires |algorithm| < 65536 && |bits| < 65536
    ensures KeyIn(Encode(kind, algorithm) + (Encode(wrap, bits) + extra)) == KeyOf(kind, algorithm, wrap, bits)
  {
    ReadsBack(kind, algorithm, Encode(wrap, bits) + extra);
    ReadsBack(wrap, bits, extra);
  }

  /** A key is 32 octets in a BIT STRING without unused bits, beside the SEQUENCE that names Ed25519. */
  function KeyOf(kind: Byte, algorithm: Bytes, wrap: Byte, bits: Bytes): Option<Bytes> {
    if kind == 0x30 && algorithm == Ed25519Aid && wrap == 0x03 && |bits| == 33 && bits[0] == 0 then Some(bits[1..]) else None
  }

  /** The key read from a laid-out certificate is the key in its SPKI, whatever octets stand in any
      other field; it is refused exactly when the algorithm is another or the key is no 32 octets. */
  lemma KeyIsTheSpkiKey(l: Layout, kind: Byte, algorithm: Bytes, wrap: Byte, bits: Bytes, extra: Bytes)
    requires Fits(l) && l.spki == Encode(kind, algorithm) + (Encode(wrap, bits) + extra)
    ensures SpkiKey(CertOf(l)) == KeyOf(kind, algorithm, wrap, bits)
  {
    FindsSpki(l);
    ReadsBack(0x30, l.spki, l.tail);
    KeyInSpki(kind, algorithm, wrap, bits, extra);
  }

  // ---- The capability extension -------------------------------------------------------------------

  function FieldsOf(e: Extension): Bytes {
    (match e.critical case Some(c) => Encode(0x01, c) case None => []) + (Encode(e.wrap, e.value) + e.extra)
  }

  function ExtensionBody(e: Extension): Bytes {
    Encode(e.tag, e.oid) + FieldsOf(e)
  }

  function JoinExtensions(es: seq<Extension>): Bytes {
    if es == [] then [] else Encode(0x30, ExtensionBody(es[0])) + JoinExtensions(es[1..])
  }

  predicate IsStamp(e: Extension) {
    e.tag == 0x06 && e.oid == CapabilityOid
  }

  /** The first extension that carries the capability identifier. */
  function FirstStamp(es: seq<Extension>): Option<Extension> {
    if es == [] then None
    else if IsStamp(es[0]) then Some(es[0])
    else FirstStamp(es[1..])
  }

  /** The word a stamp spells: four octets, the lowest first. */
  function Word(v: Bytes): nat
    requires |v| == 4
  {
    var low: int, second: int, third: int, high: int := v[0], v[1], v[2], v[3];
    low + 256 * second + 65536 * third + 16777216 * high
  }

  lemma {:induction false} Decoded(v: Bytes)
    ensures |v| == 4 ==> DecodeCapabilities(v) == Some(Word(v))
    ensures |v| != 4 ==> DecodeCapabilities(v) == None
  {
    if |v| == 4 {
      var all, three, two, one := [v[3], v[2], v[1], v[0]], [v[3], v[2], v[1]], [v[3], v[2]], [v[3]];
      assert all[..3] == three && three[..2] == two && two[..1] == one && one[..0] == [];
      assert Value(one) == v[3] && Value(two) == 256 * Value(one) + v[2];
      assert Value(three) == 256 * Value(two) + v[1] && Value(all) == 256 * Value(three) + v[0];
    }
  }

  lemma FlagSkipped(c: Bytes, wrap: Byte, value: Bytes, extra: Bytes)
    requires |c| < 65536 && |value| < 65536
    ensures StampIn(Encode(0x01, c) + (Encode(wrap, value) + extra))
         == if wrap == 0x04 then DecodeCapabilities(value) else None
  {
    ReadsBack(0x01, c, Encode(wrap, value) + extra);
    ReadsBack(wrap, value, extra);
  }

  lemma StampRead(e: Extension)
    requires |FieldsOf(e)| < 65536 && Flagged(e)
    ensures StampIn(FieldsOf(e)) == if e.wrap == 0x04 then DecodeCapabilities(e.value) else None
  {
    match e.critical
    case Some(c) => FlagSkipped(c, e.wrap, e.value, e.extra);
    case None =>
      ReadsBack(e.wrap, e.value, e.extra);
      assert FieldsOf(e) == Encode(e.wrap, e.value) + e.extra;
  }

  lemma {:induction false} ScanOne(tag: Byte, oid: Bytes, fields: Bytes, rest: Bytes)
    requires |Encode(tag, oid) + fields| < 65536
    ensures Scan(Encode(0x30, Encode(tag, oid) + fields) + rest)
         == if tag == 0x06 && oid == CapabilityOid then StampIn(fields) else Scan(rest)
  {
    ReadsBack(0x30, Encode(tag, oid) + fields, rest);
    ReadsBack(tag, oid, fields);
  }

  /** What a stamp means: only an OCTET STRING of four octets is a word. */
  function Stamped(stamp: Option<Extension>): Option<nat> {
    if stamp.Some? && stamp.value.wrap == 0x04 && |stamp.value.value| == 4 then Some(Word(stamp.value.value)) else None
  }

  lemma {:induction false} ScanFindsFirst(es: seq<Extension>)
    requires |JoinExtensions(es)| < 65536 && forall i :: 0 <= i < |es| ==> Flagged(es[i])
    ensures Scan(JoinExtensions(es)) == Stamped(FirstStamp(es))
    decreases |es|
  {
    if es != [] {
      var e := es[0];
      ScanOne(e.tag, e.oid, FieldsOf(e), JoinExtensions(es[1..]));
      if e.tag == 0x06 && e.oid == CapabilityOid {
        StampRead(e);
        Decoded(e.value);
      } else {
        assert forall i :: 0 <= i < |es| - 1 ==> es[1..][i] == es[i + 1];
        ScanFindsFirst(es[1..]);
      }
    }
  }

  lemma {:induction false} ExtensionsFound(between: seq<Field>, wrapped: Bytes, after: Bytes)
    requires |Join(between)| < 65536 && |wrapped| < 65536
    requires forall i :: 0 <= i < |between| ==> between[i].tag != 0xa3
    ensures Extensions(Join(between) + (Encode(0xa3, wrapped) + after)) == Some(wrapped)
    decreases |between|
  {
    var more := Encode(0xa3, wrapped) + after;
    if between == [] {
      assert Join(between) + more == more;
      ReadsBack(0xa3, wrapped, after);
    } else {
      var f := between[0];
      assert Join(between) + more == Encode(f.tag, f.body) + (Join(between[1..]) + more);
      ReadsBack(f.tag, f.body, Join(between[1..]) + more);
      ExtensionsFound(between[1..], wrapped, after);
    }
  }

  lemma TailRead(between: seq<Field>, es: seq<Extension>, after: Bytes, beyond: Bytes)
    requires forall i :: 0 <= i < |es| ==> Flagged(es[i])
    requires forall i :: 0 <= i < |between| ==> between[i].tag != 0xa3
    requires |Join(between) + (Encode(0xa3, Encode(0x30, JoinExtensions(es)) + after) + beyond)| < 65536
    ensures var wrapped := Encode(0x30, JoinExtensions(es)) + after;
            && Extensions(Join(between) + (Encode(0xa3, wrapped) + beyond)) == Some(wrapped)
            && Sequence(wrapped) == Some(Element(0x30, JoinExtensions(es), after))
            && Scan(JoinExtensions(es)) == Stamped(FirstStamp(es))
  {
    ExtensionsFound(between, Encode(0x30, JoinExtensions(es)) + after, beyond);
    ReadsBack(0x30, JoinExtensions(es), after);
    ScanFindsFirst(es);
  }

  /** The capabilities of a laid-out certificate are the little-endian word in the first extension with
      the capability identifier, critical or not: nothing inside another field or another extension's
      value is taken for it, and without one, or with anything but an OCTET STRING of four octets in it,
      there are none. */
  lemma {:induction false} CapabilitiesAreTheFirstStamp(l: Layout, between: seq<Field>, es: seq<Extension>, after: Bytes, beyond: Bytes)
    requires Fits(l)
    requires l.tail == Join(between) + (Encode(0xa3, Encode(0x30, JoinExtensions(es)) + after) + beyond)
    requires forall i :: 0 <= i < |between| ==> between[i].tag != 0xa3
    requires forall i :: 0 <= i < |es| ==> Flagged(es[i])
    ensures Capabilities(CertOf(l)) == Stamped(FirstStamp(es))
  {
    FindsSpki(l);
    ReadsBack(0x30, l.spki, l.tail);
    TailRead(between, es, after, beyond);
  }

  /** The octets a certificate authority stamps for the word `c`. */
  function Octets(c: nat): Bytes
    requires c < 0x1_0000_0000
  {
    [c % 256, c / 256 % 256, c / 65536 % 256, c / 16777216]
  }

  lemma {:induction false} FirstStampAfter(before: seq<Extension>, stamp: Extension, others: seq<Extension>)
    requires IsStamp(stamp) && forall i :: 0 <= i < |before| ==> !IsStamp(before[i])
    ensures FirstStamp(before + [stamp] + others) == Some(stamp)
    decreases |before|
  {
    var es := before + [stamp] + others;
    if before != [] {
      assert es[1..] == before[1..] + [stamp] + others;
      FirstStampAfter(before[1..], stamp, others);
    }
  }

  /** Stamping and reading are inverse: every 32-bit word, unknown bits included, comes back from the
      certificate it was stamped into, and a stamp of any other length or type is no capability set. */
  lemma {:induction false} StampedWordIsRead(l: Layout, between: seq<Field>, before: seq<Extension>, stamp: Extension,
                          others: seq<Extension>, after: Bytes, beyond: Bytes, c: nat)
    requires Fits(l) && c < 0x1_0000_0000
    requires l.tail == Join(between)
               + (Encode(0xa3, Encode(0x30, JoinExtensions(before + [stamp] + others)) + after) + beyond)
    requires forall i :: 0 <= i < |between| ==> between[i].tag != 0xa3
    requires IsStamp(stamp) && forall i :: 0 <= i < |before| ==> !IsStamp(before[i])
    requires forall i :: 0 <= i < |before + [stamp] + others| ==> Flagged((before + [stamp] + others)[i])
    ensures stamp.wrap == 0x04 && stamp.value == Octets(c) ==> Capabilities(CertOf(l)) == Some(c)
    ensures stamp.wrap != 0x04 || |stamp.value| != 4 ==> Capabilities(CertOf(l)) == None
  {
    CapabilitiesAreTheFirstStamp(l, between, before + [stamp] + others, after, beyond);
    FirstStampAfter(before, stamp, others);
    if stamp.value == Octets(c) {
      OctetsSpell(c);
    }
  }

  lemma OctetsSpell(c: nat)
    requires c < 0x1_0000_0000
    ensures Word(Octets(c)) == c
  {
    assert c / 65536 == c / 256 / 256 && c / 16777216 == c / 65536 / 256;
  }

  // ---- Object identifiers -------------------------------------------------------------------------

  /** The octets of one arc, seven bits each, every one but the last marked. */
  function Marked(n: nat): Bytes {
    if n < 128 then [0x80 + n] else Marked(n / 128) + [0x80 + n % 128]
  }

  function Arc(n: nat): Bytes {
    if n < 128 then [n] else Marked(n / 128) + [n % 128]
  }

  function ArcsAfter(arcs: seq<nat>): Bytes {
    if arcs == [] then [] else Arc(arcs[0]) + ArcsAfter(arcs[1..])
  }

  /** An object identifier under 1.3, as section 8.19 of X.690 encodes it. */
  function Oid(arcs: seq<nat>): Bytes {
    [43] + ArcsAfter(arcs)
  }

  lemma {:induction false} ArcFirst(arc: nat, rest: seq<nat>)
    ensures ArcsAfter([arc] + rest) == Arc(arc) + ArcsAfter(rest)
  {
    assert ([arc] + rest)[0] == arc && ([arc] + rest)[1..] == rest;
  }

  /** Capabilities are 1.3.6.1.4.1.58888.1, and Ed25519 is 1.3.101.112. */
  lemma KnownIdentifiers()
    ensures CapabilityOid == Oid([6, 1, 4, 1, 58888, 1])
    ensures Ed25519Aid == Encode(0x06, Oid([101, 112]))
  {
    assert Arc(58888) == [0x83, 0xcc, 0x08] by {
      assert 58888 / 128 == 460 && 460 / 128 == 3 && 460 % 128 == 0x4c && 58888 % 128 == 8;
      assert Marked(460) == Marked(3) + [0x80 + 0x4c];
    }
    ArcFirst(1, []);
    ArcFirst(58888, [1] + []);
    ArcFirst(1, [58888] + ([1] + []));
    ArcFirst(4, [1] + ([58888] + ([1] + [])));
    ArcFirst(1, [4] + ([1] + ([58888] + ([1] + []))));
    ArcFirst(6, [1] + ([4] + ([1] + ([58888] + ([1] + [])))));
    assert [6, 1, 4, 1, 58888, 1] == [6] + ([1] + ([4] + ([1] + ([58888] + ([1] + [])))));
    ArcFirst(112, []);
    ArcFirst(101, [112] + []);
    assert [101, 112] == [101] + ([112] + []);
  }

  // ---- The self-signed certificate ----------------------------------------------------------------

  const NotBefore: Bytes := [0x37, 0x30, 0x30, 0x31, 0x30, 0x31, 0x30, 0x30, 0x30, 0x30, 0x30, 0x30, 0x5a]
  const NotAfter: Bytes :=
    [0x39, 0x39, 0x39, 0x39, 0x31, 0x32, 0x33, 0x31, 0x32, 0x33, 0x35, 0x39, 0x35, 0x39, 0x5a]

  const SignatureAlgorithm: Bytes := [0x30, 0x05] + Ed25519Aid

  /** The octets of a text, one a character. */
  function Ascii(text: string): Bytes
    requires forall i :: 0 <= i < |text| ==> text[i] < 128 as char
  {
    seq(|text|, i requires 0 <= i < |text| => text[i] as int)
  }

  function Validity(): Bytes {
    Encode(0x30, [0x17, |NotBefore|] + NotBefore + [0x18, |NotAfter|] + NotAfter)
  }

  function BuildTbs(key: Bytes): Bytes
    requires |key| == 32
  {
    var spki := [0x30, 0x2a] + [0x30, 0x05] + Ed25519Aid + [0x03, 0x21, 0x00] + key;
    Encode(0x30,
      [0xa0, 0x03, 0x02, 0x01, 0x02] + EncodeInteger(key[0..8]) + SignatureAlgorithm + [0x30, 0x00]
      + Validity() + [0x30, 0x00] + spki)
  }

  function BuildCertificate(tbs: Bytes, signature: Bytes): Bytes
    requires |signature| == 64
  {
    Encode(0x30, tbs + SignatureAlgorithm + ([0x03, 0x41, 0x00] + signature))
  }

  function SpkiBody(key: Bytes): Bytes {
    Encode(0x30, Ed25519Aid) + (Encode(0x03, [0] + key) + [])
  }

  function SelfLayout(key: Bytes, signature: Bytes): Layout
    requires |key| == 32 && |signature| == 64
  {
    Layout(
      Some([0x02, 0x01, 0x02]),
      [Field(0x02, IntegerBody(key[0..8])), Field(0x30, Ed25519Aid), Field(0x30, []),
       Field(0x30, [0x17, |NotBefore|] + NotBefore + [0x18, |NotAfter|] + NotAfter), Field(0x30, [])],
      SpkiBody(key), [], SignatureAlgorithm + ([0x03, 0x41, 0x00] + signature), [])
  }

  lemma SpkiLaidOut(key: Bytes)
    requires |key| == 32
    ensures [0x30, 0x2a] + [0x30, 0x05] + Ed25519Aid + [0x03, 0x21, 0x00] + key == Encode(0x30, SpkiBody(key))
    ensures |SpkiBody(key)| == 42
  {
    assert SpkiBody(key) == [0x30, 0x05] + Ed25519Aid + [0x03, 0x21, 0x00] + key;
  }

  lemma Join5(a: Field, b: Field, c: Field, d: Field, e: Field)
    ensures Join([a, b, c, d, e])
         == Encode(a.tag, a.body) + Encode(b.tag, b.body) + Encode(c.tag, c.body) + Encode(d.tag, d.body) + Encode(e.tag, e.body)
  {
    assert [a, b, c, d, e][1..] == [b, c, d, e] && [b, c, d, e][1..] == [c, d, e];
    assert [c, d, e][1..] == [d, e] && [d, e][1..] == [e] && [e][1..] == [];
    assert Join([e]) == Encode(e.tag, e.body) + Join([]);
    assert Join([d, e]) == Encode(d.tag, d.body) + Join([e]);
    assert Join([c, d, e]) == Encode(c.tag, c.body) + Join([d, e]);
    assert Join([b, c, d, e]) == Encode(b.tag, b.body) + Join([c, d, e]);
  }

  lemma Regroup(a: Bytes, b: Bytes, c: Bytes, d: Bytes, e: Bytes, f: Bytes, g: Bytes)
    ensures a + b + c + d + e + f + g == a + ((b + c + d + e + f) + (g + []))
  {
  }

  lemma FixedPartsLaidOut()
    ensures Encode(0x30, Ed25519Aid) == SignatureAlgorithm
    ensures Encode(0x30, []) == [0x30, 0x00]
    ensures Encode(0xa0, [0x02, 0x01, 0x02]) == [0xa0, 0x03, 0x02, 0x01, 0x02]
  {
  }

  lemma FieldsLaidOut(key: Bytes, signature: Bytes)
    requires |key| == 32 && |signature| == 64
    ensures Join(SelfLayout(key, signature).fields)
         == EncodeInteger(key[0..8]) + SignatureAlgorithm + [0x30, 0x00] + Validity() + [0x30, 0x00]
  {
    FixedPartsLaidOut();
    IntegerFits(key[0..8]);
    var fs := SelfLayout(key, signature).fields;
    Join5(fs[0], fs[1], fs[2], fs[3], fs[4]);
    assert fs == [fs[0], fs[1], fs[2], fs[3], fs[4]];
  }

  lemma TbsLaidOut(key: Bytes, signature: Bytes)
    requires |key| == 32 && |signature| == 64
    ensures BuildTbs(key) == Encode(0x30, TbsOf(SelfLayout(key, signature)))
  {
    var l := SelfLayout(key, signature);
    FixedPartsLaidOut();
    FieldsLaidOut(key, signature);
    SpkiLaidOut(key);
    Regroup(VersionOf(l), EncodeInteger(key[0..8]), SignatureAlgorithm, [0x30, 0x00], Validity(), [0x30, 0x00],
      Encode(0x30, l.spki));
  }

  lemma SelfSignedLaidOut(key: Bytes, signature: Bytes)
    requires |key| == 32 && |signature| == 64
    ensures var l := SelfLayout(key, signature);
            BuildCertificate(BuildTbs(key), signature) == CertOf(l) && Fits(l)
  {
    var l := SelfLayout(key, signature);
    var tbs := BuildTbs(key);
    TbsLaidOut(key, signature);
    TbsIsShort(key);
    assert tbs + l.signature == tbs + SignatureAlgorithm + ([0x03, 0x41, 0x00] + signature);
    assert CertOf(l) == Encode(0x30, tbs + l.signature);
  }

  lemma TbsIsShort(key: Bytes)
    requires |key| == 32
    ensures |BuildTbs(key)| < 256
  {
    IntegerFits(key[0..8]);
  }

  lemma IntegerFits(m: Bytes)
    requires |m| < 127
    ensures |IntegerBody(m)| <= |m| + 1 && EncodeInteger(m) == Encode(0x02, IntegerBody(m))
  {
  }

  /** The certificate is valid from the start of 1970 to the end of 9999, as two times of the forms
      section 4.1.2.5 of RFC 5280 prescribes for those years. */
  lemma SelfSignedValidity(key: Bytes, signature: Bytes)
    requires |key| == 32 && |signature| == 64
    ensures exists l :: Fits(l) && BuildCertificate(BuildTbs(key), signature) == CertOf(l)
              && l.fields[3] == Field(0x30, Encode(0x17, Ascii("700101000000Z")) + Encode(0x18, Ascii("99991231235959Z")))
  {
    SelfSignedLaidOut(key, signature);
    assert Ascii("700101000000Z") == NotBefore && Ascii("99991231235959Z") == NotAfter;
    var l := SelfLayout(key, signature);
    assert l.fields[3].body == Encode(0x17, NotBefore) + Encode(0x18, NotAfter);
  }

  /** For every key and signature, the self-signed certificate certifies exactly its key and carries no
      capabilities. */
  lemma SelfSignedHolds(key: Bytes, signature: Bytes)
    requires |key| == 32 && |signature| == 64
    ensures var cert := BuildCertificate(BuildTbs(key), signature);
            SpkiKey(cert) == Some(key) && Capabilities(cert) == None
  {
    var l := SelfLayout(key, signature);
    SelfSignedLaidOut(key, signature);
    KeyIsTheSpkiKey(l, 0x30, Ed25519Aid, 0x03, [0] + key, []);
    assert ([0] + key)[1..] == key;
    FindsSpki(l);
    ReadsBack(0x30, l.spki, l.tail);
  }
}
