/** The DER encoder the controller mints argo-server's certificate with (apps/stackd/src/tls.ts), and a
    strict reader for what it writes: definite lengths in the shortest form, single-octet tags
    (ITU-T X.690, sections 8.1 and 10.1). */
module Der {
  import opened Wrappers

  // ---- numbers in base 256 ----------------------------------------------------------------------------

  function Unsigned(b: seq<byte>): nat {
    if b == [] then 0 else Unsigned(b[..|b| - 1]) * 256 + b[|b| - 1]
  }

  function Octets(n: nat): seq<byte> {
    if n == 0 then [] else Octets(n / 256) + [n % 256]
  }

  lemma {:induction false} OctetsValue(n: nat)
    ensures Unsigned(Octets(n)) == n
    ensures n > 0 ==> Octets(n) != [] && Octets(n)[0] != 0
  {
    if n > 0 {
      OctetsValue(n / 256);
      assert Octets(n)[..|Octets(n)| - 1] == Octets(n / 256);
    }
  }

  /** Without a leading zero the octets are fixed by the number. */
  lemma {:induction false} OctetsOf(b: seq<byte>)
    requires b != [] ==> b[0] != 0
    ensures Octets(Unsigned(b)) == b
  {
    if b != [] {
      var front, last := b[..|b| - 1], b[|b| - 1];
      OctetsOf(front);
      OctetsStep(Unsigned(front), last);
      assert b == front + [last];
    }
  }

  lemma OctetsStep(u: nat, d: byte)
    ensures u * 256 + d > 0 ==> Octets(u * 256 + d) == Octets(u) + [d]
  {
    assert (u * 256 + d) / 256 == u && (u * 256 + d) % 256 == d;
  }

  lemma {:induction false} DropLeadingZero(b: seq<byte>)
    requires b != [] && b[0] == 0
    ensures Unsigned(b[1..]) == Unsigned(b)
  {
    if |b| > 1 {
      var front := b[..|b| - 1];
      DropLeadingZero(front);
      assert b[1..][..|b| - 2] == front[1..];
    }
  }

  // ---- lengths ------------------------------------------------------------------------------------------

  /** The first octet has room for the number of octets that follow; any buffer's length does. */
  predicate Fits(n: nat) {
    n < 128 || |Octets(n)| < 127
  }

  function LengthOctets(n: nat): seq<byte>
    requires Fits(n)
  {
    if n < 128 then [n] else [128 + |Octets(n)|] + Octets(n)
  }

  method Len(n: nat) returns (r: seq<byte>)
    requires Fits(n)
    ensures r == LengthOctets(n)
  {
    if n < 128 {
      return [n];
    }
    var bytes: seq<byte> := [];
    var v := n;
    while v > 0
      invariant Octets(v) + bytes == Octets(n)
    {
      bytes := [v % 256] + bytes;
      v := v / 256;
    }
    r := [128 + |bytes|] + bytes;
  }

  /** Strict: no indefinite form, no reserved first octet, nothing longer than needed. */
  function ReadLength(s: seq<byte>): (r: Option<(nat, seq<byte>)>)
    ensures r.Some? ==> |r.value.1| < |s|
  {
    if s == [] then None
    else if s[0] < 128 then Some((s[0], s[1..]))
    else
      var k := s[0] - 128;
      if k == 0 || k == 127 || |s| < 1 + k then None
      else
        var b := s[1..1 + k];
        if b[0] == 0 || Unsigned(b) < 128 then None else Some((Unsigned(b), s[1 + k..]))
  }

  lemma LengthReads(n: nat, rest: seq<byte>)
    requires Fits(n)
    ensures ReadLength(LengthOctets(n) + rest) == Some((n, rest))
  {
    if n >= 128 {
      OctetsValue(n);
      var s := LengthOctets(n) + rest;
      assert s[1..1 + |Octets(n)|] == Octets(n);
      assert s[1 + |Octets(n)|..] == rest;
    }
  }

  /** What is read is what would have been written: the form is unique. */
  lemma LengthUnique(s: seq<byte>)
    requires ReadLength(s).Some?
    ensures var (n, rest) := ReadLength(s).value; Fits(n) && s == LengthOctets(n) + rest
  {
    if s[0] >= 128 {
      var k := s[0] - 128;
      OctetsOf(s[1..1 + k]);
      assert s == [s[0]] + s[1..1 + k] + s[1 + k..];
    }
  }

  // ---- trees ----------------------------------------------------------------------------------------------

  datatype Node =
    | Prim(tag: byte, body: seq<byte>)
    | Cons(tag: byte, kids: seq<Node>)

  predicate Constructed(tag: byte) { tag / 32 % 2 == 1 }

  predicate SingleOctet(tag: byte) { tag % 32 != 31 }

  function Tlv(tag: byte, body: seq<byte>): seq<byte>
    requires Fits(|body|)
  {
    [tag] + LengthOctets(|body|) + body
  }

  /** Tags say what the nodes are, and every length can be written. */
  predicate WellFormed(t: Node)
    decreases t, 0
  {
    match t
    case Prim(tag, body) => SingleOctet(tag) && !Constructed(tag) && Fits(|body|)
    case Cons(tag, kids) =>
      && SingleOctet(tag) && Constructed(tag)
      && AllWellFormed(kids) && Fits(|EncodeAll(kids)|)
  }

  predicate AllWellFormed(ts: seq<Node>)
    decreases ts, 0
  {
    ts != [] ==> WellFormed(ts[0]) && AllWellFormed(ts[1..])
  }

  /** `seq`, `set` and `explicit` are this at a constructed tag, over the encodings of their parts. */
  function Encode(t: Node): (r: seq<byte>)
    requires WellFormed(t)
    ensures |r| >= 2
    decreases t, 1
  {
    match t
    case Prim(tag, body) => Tlv(tag, body)
    case Cons(tag, kids) => Tlv(tag, EncodeAll(kids))
  }

  function EncodeAll(ts: seq<Node>): seq<byte>
    requires AllWellFormed(ts)
    decreases ts, 1
  {
    if ts == [] then [] else Encode(ts[0]) + EncodeAll(ts[1..])
  }

  function Read(s: seq<byte>): (r: Option<(Node, seq<byte>)>)
    ensures r.Some? ==> |r.value.1| < |s|
    decreases |s|, 0
  {
    if s == [] || !SingleOctet(s[0]) then None
    else
      match ReadLength(s[1..])
      case None => None
      case Some((n, rest)) =>
        if |rest| < n then None
        else if !Constructed(s[0]) then Some((Prim(s[0], rest[..n]), rest[n..]))
        else
          match ReadAll(rest[..n])
          case None => None
          case Some(kids) => Some((Cons(s[0], kids), rest[n..]))
  }

  function ReadAll(s: seq<byte>): Option<seq<Node>>
    decreases |s|, 1
  {
    if s == [] then Some([])
    else
      match Read(s)
      case None => None
      case Some((t, rest)) =>
        match ReadAll(rest)
        case None => None
        case Some(ts) => Some([t] + ts)
  }

  lemma Regroup(a: seq<byte>, l: seq<byte>, b: seq<byte>, r: seq<byte>)
    ensures a + (l + (b + r)) == a + l + b + r
  {
  }

  lemma Split(b: seq<byte>, r: seq<byte>)
    ensures (b + r)[..|b|] == b && (b + r)[|b|..] == r
  {
  }

  lemma TlvReads(tag: byte, body: seq<byte>, suffix: seq<byte>)
    requires Fits(|body|)
    ensures var s := Tlv(tag, body) + suffix; s[0] == tag && ReadLength(s[1..]) == Some((|body|, body + suffix))
    ensures (body + suffix)[..|body|] == body && (body + suffix)[|body|..] == suffix
  {
    Regroup([tag], LengthOctets(|body|), body, suffix);
    Split([tag], LengthOctets(|body|) + (body + suffix));
    LengthReads(|body|, body + suffix);
    Split(body, suffix);
  }

  /** Round trip: reading an encoding followed by anything returns the tree and exactly the rest. */
  lemma {:induction false} EncodeReads(t: Node, suffix: seq<byte>)
    requires WellFormed(t)
    ensures Read(Encode(t) + suffix) == Some((t, suffix))
    decreases t, 1
  {
    match t
    case Prim(tag, body) =>
      TlvReads(tag, body, suffix);
    case Cons(tag, kids) =>
      TlvReads(tag, EncodeAll(kids), suffix);
      EncodeAllReads(kids);
  }

  lemma {:induction false} EncodeAllReads(ts: seq<Node>)
    requires AllWellFormed(ts)
    ensures ReadAll(EncodeAll(ts)) == Some(ts)
    decreases ts, 0
  {
    if ts != [] {
      EncodeReads(ts[0], EncodeAll(ts[1..]));
      EncodeAllReads(ts[1..]);
      assert ts == [ts[0]] + ts[1..];
    }
  }

  /** And the other way round: whatever the strict reader accepts is the encoding of what it returns, so
      a tree has one encoding. */
  lemma {:induction false} ReadEncodes(s: seq<byte>)
    requires Read(s).Some?
    ensures var (t, rest) := Read(s).value; WellFormed(t) && s == Encode(t) + rest
    decreases |s|, 0
  {
    var (n, rest) := ReadLength(s[1..]).value;
    if Constructed(s[0]) {
      ReadAllEncodes(rest[..n]);
    }
    TlvRead(s);
  }

  lemma TlvRead(s: seq<byte>)
    requires s != [] && ReadLength(s[1..]).Some?
    ensures var (n, rest) := ReadLength(s[1..]).value;
            Fits(n) && (n <= |rest| ==> s == Tlv(s[0], rest[..n]) + rest[n..])
  {
    LengthUnique(s[1..]);
    var (n, rest) := ReadLength(s[1..]).value;
    assert s == [s[0]] + s[1..];
    if n <= |rest| {
      assert rest == rest[..n] + rest[n..];
      Regroup([s[0]], LengthOctets(n), rest[..n], rest[n..]);
    }
  }

  lemma {:induction false} ReadAllEncodes(s: seq<byte>)
    requires ReadAll(s).Some?
    ensures AllWellFormed(ReadAll(s).value) && s == EncodeAll(ReadAll(s).value)
    decreases |s|, 1
  {
    if s != [] {
      ReadEncodes(s);
      ReadAllEncodes(Read(s).value.1);
    }
  }

  // ---- INTEGER (section 8.3 of X.690) ---------------------------------------------------------------------

  function Pow(k: nat): nat {
    if k == 0 then 1 else 256 * Pow(k - 1)
  }

  function TwosComplement(b: seq<byte>): int
    requires b != []
  {
    if b[0] < 128 then Unsigned(b) else Unsigned(b) - Pow(|b|)
  }

  /** Section 8.3.2: the first nine bits are neither all zero nor all one. */
  predicate Minimal(b: seq<byte>) {
    && b != []
    && (|b| > 1 ==> !(b[0] == 0 && b[1] < 128) && !(b[0] == 255 && b[1] >= 128))
  }

  lemma MulLe(a: int, b: int, p: nat)
    requires a <= b
    ensures a * p <= b * p
  {
  }

  lemma MulAssoc(a: int, p: int)
    ensures a * (256 * p) == (a * p) * 256
  {
  }

  lemma {:induction false} UnsignedBounds(b: seq<byte>)
    requires b != []
    ensures var d: int := b[0]; d * Pow(|b| - 1) <= Unsigned(b) < (d + 1) * Pow(|b| - 1)
  {
    var d: int := b[0];
    if |b| == 1 {
      assert b[..0] == [];
    } else {
      var front := b[..|b| - 1];
      UnsignedBounds(front);
      var p := Pow(|b| - 2);
      MulAssoc(d, p);
      MulAssoc(d + 1, p);
    }
  }

  lemma {:induction false} UnsignedInjective(b: seq<byte>, c: seq<byte>)
    requires |b| == |c| && Unsigned(b) == Unsigned(c)
    ensures b == c
  {
    if b != [] {
      UnsignedInjective(b[..|b| - 1], c[..|c| - 1]);
      assert b == b[..|b| - 1] + [b[|b| - 1]] && c == c[..|c| - 1] + [c[|c| - 1]];
    }
  }

  lemma {:induction false} PowGrows(j: nat, k: nat)
    requires j <= k
    ensures 0 < Pow(j) <= Pow(k)
  {
    if j < k {
      PowGrows(j, k - 1);
    } else if k > 0 {
      PowGrows(j - 1, k - 1);
    }
  }

  /** A minimal non-negative form of two or more octets needs them all. */
  lemma MinimalSize(b: seq<byte>)
    requires Minimal(b) && b[0] < 128
    ensures Unsigned(b) < 128 * Pow(|b| - 1)
    ensures |b| > 1 ==> 128 * Pow(|b| - 2) <= Unsigned(b)
  {
    UnsignedBounds(b);
    MulLe(b[0] as int + 1, 128, Pow(|b| - 1));
    if |b| > 1 {
      if b[0] == 0 {
        DropLeadingZero(b);
        UnsignedBounds(b[1..]);
        MulLe(128, b[1], Pow(|b| - 2));
      } else {
        MulLe(1, b[0], Pow(|b| - 1));
      }
    }
  }

  lemma MinimalLength(b: seq<byte>, c: seq<byte>)
    requires Minimal(b) && Minimal(c) && b[0] < 128 && c[0] < 128 && Unsigned(b) == Unsigned(c)
    ensures |b| <= |c|
  {
    MinimalSize(b);
    MinimalSize(c);
    if |b| > |c| {
      PowGrows(|c| - 1, |b| - 2);
    }
  }

  lemma SignOf(b: seq<byte>)
    requires b != []
    ensures TwosComplement(b) >= 0 <==> b[0] < 128
  {
    UnsignedBounds(b);
    MulLe(b[0] as int + 1, 256, Pow(|b| - 1));
  }

  /** Two minimal forms of one non-negative number are the same octets. */
  lemma MinimalUnique(b: seq<byte>, c: seq<byte>)
    requires Minimal(b) && Minimal(c) && TwosComplement(b) == TwosComplement(c) >= 0
    ensures b == c
  {
    SignOf(b);
    SignOf(c);
    MinimalLength(b, c);
    MinimalLength(c, b);
    UnsignedInjective(b, c);
  }

  /** `integer` before its tag and length: the minimal two's-complement form of the magnitude. */
  method IntegerBody(b: seq<byte>) returns (body: seq<byte>)
    requires b != []
    ensures Minimal(body) && TwosComplement(body) == Unsigned(b)
    ensures |body| <= |b| + 1
  {
    body := b;
    while |body| > 1 && body[0] == 0 && body[1] < 128
      invariant body != [] && |body| <= |b| && Unsigned(body) == Unsigned(b)
      decreases |body|
    {
      DropLeadingZero(body);
      body := body[1..];
    }
    if body[0] >= 128 {
      var positive := [0] + body;
      assert positive[1..] == body;
      DropLeadingZero(positive);
      body := positive;
    }
  }

  // ---- OBJECT IDENTIFIER (section 8.19 of X.690) ----------------------------------------------------------

  function Continued(v: nat): seq<byte> {
    if v == 0 then [] else Continued(v / 128) + [v % 128 + 128]
  }

  function Groups(p: nat): seq<byte> {
    Continued(p / 128) + [p % 128]
  }

  function AllGroups(arcs: seq<nat>): seq<byte> {
    if arcs == [] then [] else Groups(arcs[0]) + AllGroups(arcs[1..])
  }

  /** The first two arcs share one octet, taken modulo 256 as a Buffer takes it. */
  function OidBody(arcs: seq<nat>): seq<byte>
    requires |arcs| >= 2
  {
    [(40 * arcs[0] + arcs[1]) % 256] + AllGroups(arcs[2..])
  }

  method Oid(arcs: seq<nat>) returns (out: seq<byte>)
    requires |arcs| >= 2
    ensures out == OidBody(arcs)
  {
    out := [(40 * arcs[0] + arcs[1]) % 256];
    var parts := arcs[2..];
    var i := 0;
    while i < |parts|
      invariant 0 <= i <= |parts|
      invariant out + AllGroups(parts[i..]) == OidBody(arcs)
    {
      var p := parts[i];
      var stack: seq<byte> := [p % 128];
      var v := p / 128;
      while v > 0
        invariant Continued(v) + stack == Groups(p)
      {
        stack := [v % 128 + 128] + stack;
        v := v / 128;
      }
      assert stack == Groups(p);
      out := out + stack;
      i := i + 1;
    }
    assert parts[i..] == [];
  }

  /** Reads one subidentifier; a first octet of 0x80 would be padding (section 8.19.2). */
  function ReadArc(s: seq<byte>, acc: nat, first: bool): (r: Option<(nat, seq<byte>)>)
    ensures r.Some? ==> |r.value.1| < |s|
  {
    if s == [] || (first && s[0] == 128) then None
    else if s[0] < 128 then Some((acc * 128 + s[0], s[1..]))
    else ReadArc(s[1..], acc * 128 + s[0] - 128, false)
  }

  function ReadArcs(s: seq<byte>): Option<seq<nat>>
    decreases |s|
  {
    if s == [] then Some([])
    else
      match ReadArc(s, 0, true)
      case None => None
      case Some((v, rest)) =>
        match ReadArcs(rest)
        case None => None
        case Some(vs) => Some([v] + vs)
  }

  /** Section 8.19.4: the first subidentifier is 40 times the first arc, 0, 1 or 2, plus the second. */
  function ReadOid(s: seq<byte>): Option<seq<nat>> {
    match ReadArcs(s)
    case None => None
    case Some(vs) =>
      if vs == [] then None
      else
        var a := if vs[0] < 40 then 0 else if vs[0] < 80 then 1 else 2;
        Some([a, vs[0] - 40 * a] + vs[1..])
  }

  predicate IsOid(arcs: seq<nat>) {
    |arcs| >= 2 && arcs[0] <= 2 && (arcs[0] < 2 ==> arcs[1] < 40)
  }

  lemma {:induction false} ContinuedReads(v: nat, t: seq<byte>)
    ensures ReadArc(Continued(v) + t, 0, true) == ReadArc(t, v, v == 0)
  {
    if v == 0 {
      assert Continued(v) + t == t;
    } else {
      var t1 := [v % 128 + 128] + t;
      ContinuedReads(v / 128, t1);
      assert Continued(v) + t == Continued(v / 128) + t1;
      assert t1[1..] == t;
    }
  }

  lemma GroupsRead(p: nat, t: seq<byte>)
    ensures ReadArc(Groups(p) + t, 0, true) == Some((p, t))
  {
    var t1 := [p % 128] + t;
    ContinuedReads(p / 128, t1);
    assert Groups(p) + t == Continued(p / 128) + t1;
    assert t1[1..] == t;
  }

  lemma {:induction false} AllGroupsRead(arcs: seq<nat>)
    ensures ReadArcs(AllGroups(arcs)) == Some(arcs)
  {
    if arcs != [] {
      GroupsRead(arcs[0], AllGroups(arcs[1..]));
      AllGroupsRead(arcs[1..]);
      assert arcs == [arcs[0]] + arcs[1..];
    }
  }

  lemma {:induction false} ArcUnique(s: seq<byte>, acc: nat, first: bool)
    requires ReadArc(s, acc, first).Some? && (first <==> acc == 0)
    ensures var (v, rest) := ReadArc(s, acc, first).value; Continued(acc) + s == Groups(v) + rest
  {
    var (v, rest) := ReadArc(s, acc, first).value;
    assert s == [s[0]] + s[1..];
    if s[0] < 128 {
      assert v / 128 == acc && v % 128 == s[0];
    } else {
      var next := acc * 128 + s[0] - 128;
      assert next / 128 == acc && next % 128 == s[0] - 128;
      ArcUnique(s[1..], next, false);
      assert Continued(acc) + s == Continued(next) + s[1..];
    }
  }

  /** The groups are the only ones a strict reader takes: no shorter form exists. */
  lemma {:induction false} GroupsUnique(s: seq<byte>)
    requires ReadArcs(s).Some?
    ensures s == AllGroups(ReadArcs(s).value)
    decreases |s|
  {
    if s != [] {
      ArcUnique(s, 0, true);
      var (v, rest) := ReadArc(s, 0, true).value;
      assert Continued(0) + s == s;
      GroupsUnique(rest);
      assert ReadArcs(s).value[1..] == ReadArcs(rest).value;
    }
  }

  lemma OidArcs(s: seq<byte>, arcs: seq<nat>)
    requires ReadOid(s) == Some(arcs)
    ensures |arcs| >= 2 && ReadArcs(s) == Some([40 * arcs[0] + arcs[1]] + arcs[2..])
  {
  }

  lemma OneOctet(first: nat, b: byte, rest: seq<nat>)
    ensures AllGroups([first] + rest) == [b] + AllGroups(rest) <==> first == b < 128
  {
    assert ([first] + rest)[1..] == rest;
    assert first < 128 ==> Groups(first) == [first];
    assert first >= 128 ==> |Continued(first / 128)| >= 1;
    assert first >= 128 ==> |AllGroups([first] + rest)| > |[b] + AllGroups(rest)|;
    assert first < 128 ==> AllGroups([first] + rest)[0] == first;
    assert ([b] + AllGroups(rest))[0] == b;
  }

  lemma SmallOidReads(arcs: seq<nat>)
    requires IsOid(arcs) && 40 * arcs[0] + arcs[1] < 128
    ensures ReadOid(OidBody(arcs)) == Some(arcs)
  {
    hide ReadArcs, AllGroups;
    var first, rest := 40 * arcs[0] + arcs[1], arcs[2..];
    OneOctet(first, first % 256, rest);
    AllGroupsRead([first] + rest);
    assert arcs == [arcs[0], arcs[1]] + rest;
  }

  lemma ReadOidIsSmall(arcs: seq<nat>)
    requires IsOid(arcs) && ReadOid(OidBody(arcs)) == Some(arcs)
    ensures 40 * arcs[0] + arcs[1] < 128
  {
    hide ReadArcs, AllGroups, ReadOid;
    var first, rest := 40 * arcs[0] + arcs[1], arcs[2..];
    OneOctet(first, first % 256, rest);
    OidArcs(OidBody(arcs), arcs);
    GroupsUnique(OidBody(arcs));
  }

  /** An object identifier reads back exactly when its first two arcs fit one octet of seven bits:
      2.48 and beyond do not. */
  lemma OidReads(arcs: seq<nat>)
    requires IsOid(arcs)
    ensures ReadOid(OidBody(arcs)) == Some(arcs) <==> 40 * arcs[0] + arcs[1] < 128
  {
    hide ReadOid, OidBody;
    if 40 * arcs[0] + arcs[1] < 128 { SmallOidReads(arcs); }
    if ReadOid(OidBody(arcs)) == Some(arcs) { ReadOidIsSmall(arcs); }
  }

  // ---- the serial number and the validity times -------------------------------------------------------------

  /** `serial[0] = (serial[0] & 0x7f) | 0x01` over random octets. */
  function Serial(random: seq<byte>): seq<byte>
    requires random != []
  {
    var low := random[0] % 128;
    random[0 := if low % 2 == 0 then low + 1 else low]
  }

  /** The serial is positive, and `integer` writes it in exactly its octets (RFC 5280, section 4.1.2.2,
      allows twenty). */
  lemma SerialAsIs(random: seq<byte>, body: seq<byte>)
    requires random != []
    requires Minimal(body) && TwosComplement(body) == Unsigned(Serial(random))
    ensures TwosComplement(body) > 0 && body == Serial(random)
    // All but two of the random bits are in it: the top one is cleared, the last of the first octet set.
    ensures |body| == |random| && body[1..] == random[1..]
    ensures body[0] < 128 && body[0] % 2 == 1 && (body[0] / 2 == random[0] / 2 || body[0] / 2 == random[0] / 2 - 64)
  {
    var s := Serial(random);
    UnsignedBounds(s);
    PowGrows(0, |s| - 1);
    MulLe(1, s[0], Pow(|s| - 1));
    MinimalUnique(body, s);
  }

  datatype Instant = Instant(year: int, month: nat, day: nat, hour: nat, minute: nat, second: nat)

  predicate InCalendar(d: Instant) {
    1 <= d.month <= 12 && 1 <= d.day <= 31 && d.hour < 24 && d.minute < 60 && d.second < 60
  }

  function Digits(n: nat): seq<byte> {
    if n < 10 then [48 + n] else Digits(n / 10) + [48 + n % 10]
  }

  /** `String(n)` of an integer. */
  function Text(n: int): seq<byte> {
    if n < 0 then [45] + Digits(-n) else Digits(n)
  }

  /** `padStart(2, "0")` of it. */
  function Pad(n: int): seq<byte> {
    if |Text(n)| < 2 then [48] + Text(n) else Text(n)
  }

  /** `%` of JavaScript: the sign of the dividend. */
  function JsRem(n: int, m: nat): int
    requires m > 0
  {
    if n < 0 then -((-n) % m) else n % m
  }

  /** Two-digit fields side by side. */
  function Pads(ns: seq<int>): seq<byte> {
    if ns == [] then [] else Pad(ns[0]) + Pads(ns[1..])
  }

  function Rest(d: Instant): seq<int> {
    [d.month, d.day, d.hour, d.minute, d.second]
  }

  function TimeNode(d: Instant): Node {
    if d.year < 2050
    then Prim(0x17, Pads([JsRem(d.year, 100)] + Rest(d)) + [90])
    else Prim(0x18, Text(d.year) + Pads(Rest(d)) + [90])
  }

  /** Reads `k` two-digit fields. */
  function ReadPairs(b: seq<byte>, k: nat): (r: Option<(seq<nat>, seq<byte>)>)
    ensures r.Some? ==> |r.value.0| == k && forall i :: 0 <= i < k ==> r.value.0[i] < 100
  {
    if k == 0 then Some(([], b))
    else if |b| < 2 || !(48 <= b[0] <= 57) || !(48 <= b[1] <= 57) then None
    else
      match ReadPairs(b[2..], k - 1)
      case None => None
      case Some((ns, rest)) => Some(([10 * (b[0] as int - 48) + (b[1] as int - 48)] + ns, rest))
  }

  function Dated(year: int, ns: seq<nat>, rest: seq<byte>): Option<Instant>
    requires |ns| == 5
  {
    var d := Instant(year, ns[0], ns[1], ns[2], ns[3], ns[4]);
    if rest == [90] && InCalendar(d) then Some(d) else None
  }

  /** Section 4.1.2.5 of RFC 5280: YYMMDDHHMMSSZ, the years from 50 on in the twentieth century, or
      YYYYMMDDHHMMSSZ. */
  function ReadTime(t: Node): Option<Instant> {
    match t
    case Prim(0x17, b) =>
      (match ReadPairs(b, 6)
       case None => None
       case Some((ns, rest)) => Dated(if ns[0] >= 50 then 1900 + ns[0] else 2000 + ns[0], ns[1..], rest))
    case Prim(0x18, b) =>
      (match ReadPairs(b, 7)
       case None => None
       case Some((ns, rest)) => Dated(100 * ns[0] + ns[1], ns[2..], rest))
    case _ => None
  }

  lemma PadTwo(n: int)
    requires 0 <= n < 100
    ensures Pad(n) == [48 + n / 10, 48 + n % 10]
  {
    assert n >= 10 ==> Digits(n / 10) == [48 + n / 10];
  }

  lemma DigitsPair(a: nat, t: nat, u: nat)
    requires a >= 1 && t < 10 && u < 10
    ensures Digits(100 * a + 10 * t + u) == Digits(a) + [48 + t, 48 + u]
  {
    var front := 10 * a + t;
    assert front >= 10 && front / 10 == a && front % 10 == t;
    assert Digits(front) == Digits(a) + [48 + t];
    assert (10 * front + u) / 10 == front && (10 * front + u) % 10 == u;
  }

  lemma PadReads(n: int, r: seq<byte>)
    requires 0 <= n < 100
    ensures var b := Pad(n) + r;
            && |b| >= 2 && 48 <= b[0] <= 57 && 48 <= b[1] <= 57
            && 10 * (b[0] as int - 48) + (b[1] as int - 48) == n && b[2..] == r
  {
    PadTwo(n);
  }

  lemma Assoc(a: seq<byte>, b: seq<byte>, c: seq<byte>)
    ensures (a + b) + c == a + (b + c)
  {
  }

  lemma {:induction false} PairsRead(ns: seq<int>, rest: seq<byte>)
    requires forall i :: 0 <= i < |ns| ==> 0 <= ns[i] < 100
    ensures ReadPairs(Pads(ns) + rest, |ns|) == Some((ns, rest))
  {
    if ns == [] {
      assert Pads(ns) + rest == rest;
    } else {
      PairsRead(ns[1..], rest);
      Assoc(Pad(ns[0]), Pads(ns[1..]), rest);
      PadReads(ns[0], Pads(ns[1..]) + rest);
      assert ns == [ns[0]] + ns[1..];
    }
  }

  lemma UtcReads(d: Instant)
    requires InCalendar(d) && 1950 <= d.year < 2050
    ensures ReadTime(TimeNode(d)) == Some(d)
  {
    var ns := [d.year % 100] + Rest(d);
    PairsRead(ns, [90]);
    assert ns[1..] == Rest(d);
  }

  lemma GeneralizedReads(d: Instant)
    requires InCalendar(d) && 2050 <= d.year <= 9999
    ensures ReadTime(TimeNode(d)) == Some(d)
  {
    var ns := [d.year / 100, d.year % 100] + Rest(d);
    PairsRead(ns, [90]);
    YearPads(d.year, Rest(d));
    assert ns[2..] == Rest(d);
  }

  lemma PadsCons(n: int, ns: seq<int>)
    ensures Pads([n] + ns) == Pad(n) + Pads(ns)
  {
    assert ([n] + ns)[1..] == ns;
  }

  lemma YearText(y: nat)
    requires 1000 <= y < 10000
    ensures Pad(y / 100) + Pad(y % 100) == Text(y)
  {
    var c, r := y / 100, y % 100;
    DigitsPair(c, r / 10, r % 10);
    assert y == 100 * c + 10 * (r / 10) + r % 10;
    PadTwo(r);
    PadTwo(c);
    assert Pad(c) == Digits(c);
  }

  lemma YearPads(y: nat, ns: seq<int>)
    requires 1000 <= y < 10000
    ensures Pads([y / 100, y % 100] + ns) == Text(y) + Pads(ns)
  {
    YearText(y);
    PadsCons(y % 100, ns);
    PadsCons(y / 100, [y % 100] + ns);
    assert [y / 100, y % 100] + ns == [y / 100] + ([y % 100] + ns);
    Assoc(Pad(y / 100), Pad(y % 100), Pads(ns));
  }

  /** The reader knows only those centuries, whatever the digits. */
  lemma YearsRead(t: Node)
    ensures ReadTime(t).Some? && t.tag == 0x17 ==> 1950 <= ReadTime(t).value.year < 2050
    ensures ReadTime(t).Some? && t.tag == 0x18 ==> ReadTime(t).value.year <= 9999
  {
  }

  /** A time reads back to the same second exactly for the years 1950 to 9999. */
  lemma TimeReads(d: Instant)
    requires InCalendar(d)
    ensures ReadTime(TimeNode(d)) == Some(d) <==> 1950 <= d.year <= 9999
  {
    YearsRead(TimeNode(d));
    if 1950 <= d.year < 2050 {
      UtcReads(d);
    } else if 2050 <= d.year <= 9999 {
      GeneralizedReads(d);
    }
  }
}
