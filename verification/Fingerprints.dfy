/** The canonical JSON a rendered set is fingerprinted by (`canonical` and `fingerprint`,
    apps/stackd/src/manifests.ts): two documents have one text exactly when they mean the same, and
    two sets without a repeated reference one fingerprint exactly when they hold the same objects. */
module Fingerprints {
  import opened Wrappers
  import M = Manifests

  // A number is the text JSON.stringify gives a finite one; a member's value None is `undefined`.
  datatype Json =
    | Null
    | Bool(b: bool)
    | Num(text: string)
    | Str(s: string)
    | Arr(items: seq<Json>)
    | Obj(members: seq<Member>)
  datatype Member = Member(key: string, value: Option<Json>)

  /** What a document says: members in no order, undefined ones absent. */
  datatype Value =
    | VNull
    | VBool(b: bool)
    | VNum(text: string)
    | VStr(s: string)
    | VArr(items: seq<Value>)
    | VObj(members: map<string, Value>)

  predicate NumberText(t: string) {
    t != "" && (t[0] == '-' || '0' <= t[0] <= '9') && (forall i :: 0 <= i < |t| ==> NumberChar(t[i]))
  }

  predicate NumberChar(c: char) {
    '0' <= c <= '9' || c in "+-.e"
  }

  function Name(m: Member): string { m.key }

  predicate DistinctKeys<T>(s: seq<T>, key: T -> string) {
    forall i, j :: 0 <= i < j < |s| ==> key(s[i]) != key(s[j])
  }

  /** What a JavaScript value of these kinds always satisfies. */
  predicate WellFormed(j: Json) {
    match j
    case Num(t) => NumberText(t)
    case Arr(items) => forall i :: 0 <= i < |items| ==> WellFormed(items[i])
    case Obj(ms) =>
      && DistinctKeys(ms, Name)
      && (forall i :: 0 <= i < |ms| && ms[i].value.Some? ==> WellFormed(ms[i].value.value))
    case _ => true
  }

  function Meaning(j: Json): Value {
    match j
    case Null => VNull
    case Bool(b) => VBool(b)
    case Num(t) => VNum(t)
    case Str(s) => VStr(s)
    case Arr(items) => VArr(Meanings(items))
    case Obj(ms) => VObj(MapOf(ms))
  }

  function Meanings(items: seq<Json>): (r: seq<Value>)
    ensures |r| == |items|
  {
    if items == [] then [] else [Meaning(items[0])] + Meanings(items[1..])
  }

  function MapOf(ms: seq<Member>): map<string, Value> {
    if ms == [] then map[]
    else if ms[0].value.None? then MapOf(ms[1..])
    else MapOf(ms[1..])[ms[0].key := Meaning(ms[0].value.value)]
  }

  // ---- sorting ---------------------------------------------------------------------------------------

  type Order = (string, string) -> bool

  ghost predicate Total(le: Order) {
    && (forall a, b :: le(a, b) || le(b, a))
    && (forall a, b :: le(a, b) && le(b, a) ==> a == b)
    && (forall a, b, c :: le(a, b) && le(b, c) ==> le(a, c))
  }

  /** JavaScript compares strings by UTF-16 code unit: characters outside the basic plane, which begin
      with a surrogate, come before U+E000. */
  function Rank(c: char): int {
    if c < '\U{E000}' then c as int else if c < '\U{10000}' then c as int + 0x110000 else c as int
  }

  predicate JsLe(a: string, b: string) {
    a == "" || (b != "" && (Rank(a[0]) < Rank(b[0]) || (a[0] == b[0] && JsLe(a[1..], b[1..]))))
  }

  lemma {:induction false} JsLePair(a: string, b: string)
    ensures JsLe(a, b) || JsLe(b, a)
    ensures JsLe(a, b) && JsLe(b, a) ==> a == b
  {
    if a != "" && b != "" && a[0] == b[0] {
      JsLePair(a[1..], b[1..]);
      assert a == [a[0]] + a[1..] && b == [b[0]] + b[1..];
    }
  }

  lemma {:induction false} JsLeTrans(a: string, b: string, c: string)
    requires JsLe(a, b) && JsLe(b, c)
    ensures JsLe(a, c)
  {
    if a != "" && a[0] == b[0] == c[0] {
      JsLeTrans(a[1..], b[1..], c[1..]);
    }
  }

  lemma JsLeTotal()
    ensures Total(JsLe)
  {
    forall a, b ensures (JsLe(a, b) || JsLe(b, a)) && (JsLe(a, b) && JsLe(b, a) ==> a == b) {
      JsLePair(a, b);
    }
    forall a, b, c | JsLe(a, b) && JsLe(b, c) ensures JsLe(a, c) {
      JsLeTrans(a, b, c);
    }
  }

  function Insert<T>(x: T, s: seq<T>, key: T -> string, le: Order): seq<T> {
    if s == [] || le(key(x), key(s[0])) then [x] + s else [s[0]] + Insert(x, s[1..], key, le)
  }

  function Sort<T>(s: seq<T>, key: T -> string, le: Order): seq<T> {
    if s == [] then [] else Insert(s[0], Sort(s[1..], key, le), key, le)
  }

  predicate Ascending<T>(s: seq<T>, key: T -> string, le: Order) {
    forall i, j :: 0 <= i < j < |s| ==> le(key(s[i]), key(s[j]))
  }

  lemma {:induction false} InsertKeeps<T>(x: T, s: seq<T>, key: T -> string, le: Order)
    ensures multiset(Insert(x, s, key, le)) == multiset([x] + s)
  {
    if s != [] && !le(key(x), key(s[0])) {
      InsertKeeps(x, s[1..], key, le);
      assert s == [s[0]] + s[1..];
    }
  }

  lemma {:induction false} SortKeeps<T>(s: seq<T>, key: T -> string, le: Order)
    ensures multiset(Sort(s, key, le)) == multiset(s)
  {
    if s != [] {
      SortKeeps(s[1..], key, le);
      InsertKeeps(s[0], Sort(s[1..], key, le), key, le);
      assert s == [s[0]] + s[1..];
    }
  }

  lemma {:induction false} InsertAscending<T>(x: T, s: seq<T>, key: T -> string, le: Order)
    requires Total(le) && Ascending(s, key, le)
    ensures Ascending(Insert(x, s, key, le), key, le)
  {
    if s != [] && !le(key(x), key(s[0])) {
      var rest := Insert(x, s[1..], key, le);
      InsertAscending(x, s[1..], key, le);
      InsertKeeps(x, s[1..], key, le);
      forall j | 0 <= j < |rest| ensures le(key(s[0]), key(rest[j])) {
        assert rest[j] in multiset([x] + s[1..]);
        assert rest[j] in [x] + s[1..];
      }
    } else {
      forall j | 0 <= j < |s| ensures le(key(x), key(s[j])) {
        assert le(key(s[0]), key(s[j]));
      }
    }
  }

  lemma {:induction false} SortAscending<T>(s: seq<T>, key: T -> string, le: Order)
    requires Total(le)
    ensures Ascending(Sort(s, key, le), key, le)
  {
    if s != [] {
      SortAscending(s[1..], key, le);
      InsertAscending(s[0], Sort(s[1..], key, le), key, le);
    }
  }

  lemma LeastFirst<T>(s: seq<T>, x: T, key: T -> string, le: Order)
    requires Total(le) && Ascending(s, key, le) && x in multiset(s)
    ensures s != [] && le(key(s[0]), key(x))
  {
    var i :| 0 <= i < |s| && s[i] == x;
    assert le(key(x), key(x));
  }

  lemma RestOf<T>(s: seq<T>, key: T -> string, le: Order)
    requires s != [] && Ascending(s, key, le)
    ensures Ascending(s[1..], key, le) && multiset(s[1..]) == multiset(s) - multiset{s[0]}
  {
    assert s == [s[0]] + s[1..];
  }

  lemma SameKeySameElement<T>(s: seq<T>, x: T, y: T, key: T -> string)
    requires DistinctKeys(s, key) && x in multiset(s) && y in multiset(s) && key(x) == key(y)
    ensures x == y
  {
    var i :| 0 <= i < |s| && s[i] == x;
    var j :| 0 <= j < |s| && s[j] == y;
    assert !(i < j) && !(j < i);
  }

  lemma SameFirst<T>(s: seq<T>, t: seq<T>, key: T -> string, le: Order)
    requires Total(le) && Ascending(s, key, le) && Ascending(t, key, le)
    requires DistinctKeys(s, key) && multiset(s) == multiset(t) && s != []
    ensures t != [] && s[0] == t[0]
  {
    assert s[0] in multiset(s);
    LeastFirst(t, s[0], key, le);
    LeastFirst(s, t[0], key, le);
    SameKeySameElement(s, s[0], t[0], key);
  }

  /** Order and content fix a list whose keys are distinct: its least element comes first. */
  lemma {:induction false} AscendingUnique<T>(s: seq<T>, t: seq<T>, key: T -> string, le: Order)
    requires Total(le) && Ascending(s, key, le) && Ascending(t, key, le)
    requires DistinctKeys(s, key) && multiset(s) == multiset(t)
    ensures s == t
  {
    if s != [] {
      SameFirst(s, t, key, le);
      RestOf(s, key, le);
      RestOf(t, key, le);
      AscendingUnique(s[1..], t[1..], key, le);
      assert s == [s[0]] + s[1..] && t == [t[0]] + t[1..];
    }
  }

  lemma SortMember<T>(s: seq<T>, x: T, key: T -> string, le: Order)
    ensures x in Sort(s, key, le) <==> x in s
  {
    SortKeeps(s, key, le);
    assert x in Sort(s, key, le) <==> x in multiset(Sort(s, key, le));
  }

  lemma SortSame<T>(s: seq<T>, key: T -> string, le: Order)
    ensures forall x :: x in Sort(s, key, le) <==> x in s
  {
    forall x ensures x in Sort(s, key, le) <==> x in s {
      SortMember(s, x, key, le);
    }
  }

  lemma {:induction false} InsertDistinct<T>(x: T, s: seq<T>, key: T -> string, le: Order)
    requires DistinctKeys(s, key) && forall y :: y in s ==> key(y) != key(x)
    ensures DistinctKeys(Insert(x, s, key, le), key)
  {
    if s != [] && !le(key(x), key(s[0])) {
      InsertDistinct(x, s[1..], key, le);
      InsertKeeps(x, s[1..], key, le);
      var r := Insert(x, s[1..], key, le);
      forall i | 0 <= i < |r| ensures key(r[i]) != key(s[0]) {
        assert r[i] in multiset([x] + s[1..]);
        assert r[i] in [x] + s[1..];
      }
    }
  }

  lemma {:induction false} SortDistinct<T>(s: seq<T>, key: T -> string, le: Order)
    requires DistinctKeys(s, key)
    ensures DistinctKeys(Sort(s, key, le), key)
  {
    if s != [] {
      var rest := Sort(s[1..], key, le);
      SortDistinct(s[1..], key, le);
      forall y | y in rest ensures key(y) != key(s[0]) {
        SortMember(s[1..], y, key, le);
        var i :| 0 < i < |s| && s[i] == y;
      }
      InsertDistinct(s[0], rest, key, le);
    }
  }

  // ---- canonical -------------------------------------------------------------------------------------

  /** Undefined members dropped and the rest sorted, at every depth. */
  function Normal(j: Json): Json {
    match j
    case Arr(items) => Arr(NormalItems(items))
    case Obj(ms) => Obj(Sort(NormalMembers(ms), Name, JsLe))
    case _ => j
  }

  function NormalItems(items: seq<Json>): (r: seq<Json>) {
    if items == [] then [] else [Normal(items[0])] + NormalItems(items[1..])
  }

  function NormalMembers(ms: seq<Member>): (r: seq<Member>)
    ensures forall m :: m in r ==> m.value.Some? && exists n :: n in ms && n.key == m.key
  {
    if ms == [] then []
    else if ms[0].value.None? then NormalMembers(ms[1..])
    else [Member(ms[0].key, Some(Normal(ms[0].value.value)))] + NormalMembers(ms[1..])
  }

  predicate Printable(j: Json) {
    match j
    case Num(t) => NumberText(t)
    case Arr(items) => forall i :: 0 <= i < |items| ==> Printable(items[i])
    case Obj(ms) => forall i :: 0 <= i < |ms| ==> ms[i].value.Some? && Printable(ms[i].value.value)
    case _ => true
  }

  function Print(j: Json): string
    requires Printable(j)
  {
    match j
    case Null => "null"
    case Bool(b) => if b then "true" else "false"
    case Num(t) => t
    case Str(s) => Quote(s)
    case Arr(items) => "[" + PrintItems(items) + "]"
    case Obj(ms) => "{" + PrintMembers(ms) + "}"
  }

  function PrintItems(items: seq<Json>): string
    requires forall i :: 0 <= i < |items| ==> Printable(items[i])
  {
    if items == [] then ""
    else if |items| == 1 then Print(items[0])
    else Print(items[0]) + "," + PrintItems(items[1..])
  }

  function PrintMembers(ms: seq<Member>): string
    requires forall i :: 0 <= i < |ms| ==> ms[i].value.Some? && Printable(ms[i].value.value)
  {
    if ms == [] then ""
    else
      var first := Quote(ms[0].key) + ":" + Print(ms[0].value.value);
      if |ms| == 1 then first else first + "," + PrintMembers(ms[1..])
  }

  function Quote(s: string): string {
    "\"" + Escape(s) + "\""
  }

  function Escape(s: string): string {
    if s == "" then "" else EscapeChar(s[0]) + Escape(s[1..])
  }

  function Hex(n: int): char
    requires 0 <= n < 16
  {
    if n < 10 then (n + 48) as char else (n + 87) as char
  }

  function EscapeChar(c: char): string {
    if c == '\"' then "\\\""
    else if c == '\\' then "\\\\"
    else if c as int == 8 then "\\b"
    else if c as int == 9 then "\\t"
    else if c as int == 10 then "\\n"
    else if c as int == 12 then "\\f"
    else if c as int == 13 then "\\r"
    else if c as int < 32 then "\\u00" + [Hex(c as int / 16), Hex(c as int % 16)]
    else [c]
  }

  // ---- unique readability ----------------------------------------------------------------------------

  /** The same texts with what follows them in hand, so that reading is by first character. */
  function TextOn(j: Json, k: string): string
    requires Printable(j)
  {
    match j
    case Str(s) => ['\"'] + EscapedOn(s, k)
    case Arr(items) => ['['] + ItemsOn(items, k)
    case Obj(ms) => ['{'] + MembersOn(ms, k)
    case _ => Print(j) + k
  }

  function EscapedOn(s: string, k: string): string {
    if s == "" then ['\"'] + k else EscapeChar(s[0]) + EscapedOn(s[1..], k)
  }

  function ItemsOn(items: seq<Json>, k: string): string
    requires forall i :: 0 <= i < |items| ==> Printable(items[i])
  {
    if items == [] then [']'] + k
    else if |items| == 1 then TextOn(items[0], [']'] + k)
    else TextOn(items[0], [','] + ItemsOn(items[1..], k))
  }

  function MembersOn(ms: seq<Member>, k: string): string
    requires forall i :: 0 <= i < |ms| ==> ms[i].value.Some? && Printable(ms[i].value.value)
  {
    if ms == [] then ['}'] + k
    else
      var rest := if |ms| == 1 then ['}'] + k else [','] + MembersOn(ms[1..], k);
      ['\"'] + EscapedOn(ms[0].key, [':'] + TextOn(ms[0].value.value, rest))
  }

  lemma Assoc(a: string, b: string, c: string)
    ensures (a + b) + c == a + (b + c)
  {
  }

  lemma {:induction false} EscapedThen(s: string, k: string)
    ensures EscapedOn(s, k) == Escape(s) + (['\"'] + k)
  {
    if s != "" {
      EscapedThen(s[1..], k);
      Assoc(EscapeChar(s[0]), Escape(s[1..]), ['\"'] + k);
    }
  }

  /** One member's text, and what follows it. */
  lemma MemberThen(key: string, p: string, k: string)
    ensures ['\"'] + EscapedOn(key, [':'] + (p + k)) == (Quote(key) + ":" + p) + k
  {
    EscapedThen(key, [':'] + (p + k));
    Assoc(['\"'], Escape(key), ['\"'] + ([':'] + (p + k)));
    Assoc(['\"'] + Escape(key), ['\"'], [':'] + (p + k));
    Assoc(Quote(key), ":", p + k);
    Assoc(Quote(key) + ":", p, k);
  }

  lemma {:induction false} PrintThen(j: Json, k: string)
    requires Printable(j)
    ensures TextOn(j, k) == Print(j) + k
    decreases j, 1
  {
    match j
    case Str(s) => EscapedThen(s, k);
    case Arr(items) => ItemsThen(items, k);
    case Obj(ms) => MembersThen(ms, k);
    case _ =>
  }

  lemma {:induction false} ItemsThen(items: seq<Json>, k: string)
    requires forall i :: 0 <= i < |items| ==> Printable(items[i])
    ensures ItemsOn(items, k) == PrintItems(items) + ([']'] + k)
    decreases items, 0
  {
    if |items| == 1 {
      PrintThen(items[0], [']'] + k);
    } else if items != [] {
      ItemsThen(items[1..], k);
      PrintThen(items[0], [','] + ItemsOn(items[1..], k));
    }
  }

  lemma {:induction false} MembersThen(ms: seq<Member>, k: string)
    requires forall i :: 0 <= i < |ms| ==> ms[i].value.Some? && Printable(ms[i].value.value)
    ensures MembersOn(ms, k) == PrintMembers(ms) + (['}'] + k)
    decreases ms, 0
  {
    if ms != [] {
      var v := ms[0].value.value;
      var k1 := if |ms| == 1 then ['}'] + k else [','] + MembersOn(ms[1..], k);
      PrintThen(v, k1);
      MemberThen(ms[0].key, Print(v), k1);
      if |ms| > 1 {
        MembersThen(ms[1..], k);
        var first := Quote(ms[0].key) + ":" + Print(v);
        Assoc(first, ",", PrintMembers(ms[1..]) + (['}'] + k));
        Assoc(first + ",", PrintMembers(ms[1..]), ['}'] + k);
      }
    }
  }

  lemma EscapeCharReads(c: char, d: char, s: string, t: string)
    requires EscapeChar(c) + s == EscapeChar(d) + t
    ensures c == d && s == t
  {
    var e, f := EscapeChar(c), EscapeChar(d);
    assert (e + s)[0] == e[0] && (f + t)[0] == f[0];
    assert e[0] == f[0];
    if e[0] == '\\' {
      assert (e + s)[1] == e[1] && (f + t)[1] == f[1];
      assert e[1] == f[1];
      if e[1] == 'u' {
        assert (e + s)[4] == e[4] && (f + t)[4] == f[4];
        assert (e + s)[5] == e[5] && (f + t)[5] == f[5];
        assert e[4] == f[4] && e[5] == f[5];
      }
    }
    assert c == d;
    assert s == (e + s)[|e|..] && t == (f + t)[|f|..];
  }

  lemma CharReads(c: char, d: char, s: string, t: string)
    requires [c] + s == [d] + t
    ensures c == d && s == t
  {
    assert c == ([c] + s)[0] && d == ([d] + t)[0];
    assert s == ([c] + s)[1..] && t == ([d] + t)[1..];
  }

  lemma {:induction false} QuoteReads(a: string, b: string, s: string, t: string)
    requires EscapedOn(a, s) == EscapedOn(b, t)
    ensures a == b && s == t
  {
    if a == "" || b == "" {
      assert EscapedOn(a, s)[0] == EscapedOn(b, t)[0];
      CharReads('\"', '\"', s, t);
    } else {
      EscapeCharReads(a[0], b[0], EscapedOn(a[1..], s), EscapedOn(b[1..], t));
      QuoteReads(a[1..], b[1..], s, t);
      assert a == [a[0]] + a[1..] && b == [b[0]] + b[1..];
    }
  }

  /** Nothing that could continue a number follows. */
  predicate Ended(s: string) {
    s == "" || s[0] in ",]}"
  }

  lemma NumberGoesOn(b: string, n: nat, t: string)
    requires NumberText(b) && n < |b|
    ensures !Ended(b[n..] + t)
  {
    assert (b[n..] + t)[0] == b[n];
  }

  lemma NumberPrefix(a: string, b: string, s: string, t: string)
    requires NumberText(b) && Ended(s) && |a| <= |b|
    requires a + s == b + t
    ensures a == b && s == t
  {
    assert s == (a + s)[|a|..] == (b + t)[|a|..] == b[|a|..] + t;
    if |a| < |b| {
      NumberGoesOn(b, |a|, t);
    }
    assert a == (a + s)[..|a|] && b == (b + t)[..|b|];
  }

  lemma NumberReads(a: string, b: string, s: string, t: string)
    requires NumberText(a) && NumberText(b) && Ended(s) && Ended(t)
    requires a + s == b + t
    ensures a == b && s == t
  {
    if |a| <= |b| { NumberPrefix(a, b, s, t); } else { NumberPrefix(b, a, t, s); }
  }

  lemma FirstOf(j: Json, k: string)
    requires Printable(j)
    ensures TextOn(j, k) != ""
    ensures TextOn(j, k)[0] ==
      match j
      case Null => 'n'
      case Bool(b) => if b then 't' else 'f'
      case Num(t) => t[0]
      case Str(_) => '\"'
      case Arr(_) => '['
      case Obj(_) => '{'
  {
  }

  /** A printed document is told from whatever follows it. */
  lemma {:induction false} TextReads(x: Json, y: Json, s: string, t: string)
    requires Printable(x) && Printable(y) && Ended(s) && Ended(t)
    requires TextOn(x, s) == TextOn(y, t)
    ensures x == y && s == t
    decreases x, 1
  {
    FirstOf(x, s);
    FirstOf(y, t);
    match x
    case Num(a) => NumberReads(a, y.text, s, t);
    case Str(a) =>
      CharReads('\"', '\"', EscapedOn(a, s), EscapedOn(y.s, t));
      QuoteReads(a, y.s, s, t);
    case Arr(xs) =>
      CharReads('[', '[', ItemsOn(xs, s), ItemsOn(y.items, t));
      ItemsRead(xs, y.items, s, t);
    case Obj(ms) =>
      CharReads('{', '{', MembersOn(ms, s), MembersOn(y.members, t));
      MembersRead(ms, y.members, s, t);
    case _ =>
      assert x == y;
      assert s == (Print(x) + s)[|Print(x)|..] && t == (Print(y) + t)[|Print(y)|..];
  }

  lemma {:induction false} ItemsRead(xs: seq<Json>, ys: seq<Json>, s: string, t: string)
    requires forall i :: 0 <= i < |xs| ==> Printable(xs[i])
    requires forall i :: 0 <= i < |ys| ==> Printable(ys[i])
    requires ItemsOn(xs, s) == ItemsOn(ys, t)
    ensures xs == ys && s == t
    decreases xs, 0
  {
    var s1 := if |xs| <= 1 then [']'] + s else [','] + ItemsOn(xs[1..], s);
    var t1 := if |ys| <= 1 then [']'] + t else [','] + ItemsOn(ys[1..], t);
    if xs == [] || ys == [] {
      if xs != [] { FirstOf(xs[0], s1); }
      if ys != [] { FirstOf(ys[0], t1); }
      CharReads(']', ']', s, t);
    } else {
      TextReads(xs[0], ys[0], s1, t1);
      if |xs| == 1 || |ys| == 1 {
        assert s1[0] == t1[0];
        CharReads(']', ']', s, t);
      } else {
        CharReads(',', ',', ItemsOn(xs[1..], s), ItemsOn(ys[1..], t));
        ItemsRead(xs[1..], ys[1..], s, t);
        assert xs == [xs[0]] + xs[1..] && ys == [ys[0]] + ys[1..];
      }
    }
  }

  lemma {:induction false} MembersRead(xs: seq<Member>, ys: seq<Member>, s: string, t: string)
    requires forall i :: 0 <= i < |xs| ==> xs[i].value.Some? && Printable(xs[i].value.value)
    requires forall i :: 0 <= i < |ys| ==> ys[i].value.Some? && Printable(ys[i].value.value)
    requires MembersOn(xs, s) == MembersOn(ys, t)
    ensures xs == ys && s == t
    decreases xs, 0
  {
    assert MembersOn(xs, s)[0] == MembersOn(ys, t)[0];
    if xs == [] || ys == [] {
      CharReads('}', '}', s, t);
    } else {
      var x, y := xs[0].value.value, ys[0].value.value;
      var s1 := if |xs| == 1 then ['}'] + s else [','] + MembersOn(xs[1..], s);
      var t1 := if |ys| == 1 then ['}'] + t else [','] + MembersOn(ys[1..], t);
      var s2, t2 := [':'] + TextOn(x, s1), [':'] + TextOn(y, t1);
      CharReads('\"', '\"', EscapedOn(xs[0].key, s2), EscapedOn(ys[0].key, t2));
      QuoteReads(xs[0].key, ys[0].key, s2, t2);
      CharReads(':', ':', TextOn(x, s1), TextOn(y, t1));
      TextReads(x, y, s1, t1);
      if |xs| == 1 || |ys| == 1 {
        assert s1[0] == t1[0];
        CharReads('}', '}', s, t);
      } else {
        CharReads(',', ',', MembersOn(xs[1..], s), MembersOn(ys[1..], t));
        MembersRead(xs[1..], ys[1..], s, t);
        assert xs == [xs[0]] + xs[1..] && ys == [ys[0]] + ys[1..];
      }
    }
  }

  // ---- the normal form means the same ------------------------------------------------------------------

  /** No undefined member, names in strictly increasing order, at every depth. */
  predicate IsNormal(j: Json) {
    match j
    case Num(t) => NumberText(t)
    case Arr(items) => forall i :: 0 <= i < |items| ==> IsNormal(items[i])
    case Obj(ms) =>
      && NormalList(ms)
      && (forall i :: 0 <= i < |ms| ==> ms[i].value.Some? && IsNormal(ms[i].value.value))
    case _ => true
  }

  predicate NormalList(ms: seq<Member>) {
    Ascending(ms, Name, JsLe) && DistinctKeys(ms, Name)
  }

  lemma {:induction false} NormalPrints(j: Json)
    requires IsNormal(j)
    ensures Printable(j)
  {
    match j
    case Arr(items) =>
      forall i | 0 <= i < |items| ensures Printable(items[i]) { NormalPrints(items[i]); }
    case Obj(ms) =>
      forall i | 0 <= i < |ms| ensures Printable(ms[i].value.value) { NormalPrints(ms[i].value.value); }
    case _ =>
  }

  lemma {:induction false} MapOfInsert(m: Member, ms: seq<Member>)
    requires m.value.Some? && forall n :: n in ms ==> n.key != m.key
    ensures MapOf(Insert(m, ms, Name, JsLe)) == MapOf(ms)[m.key := Meaning(m.value.value)]
  {
    if ms != [] && !JsLe(m.key, ms[0].key) {
      MapOfInsert(m, ms[1..]);
    }
  }

  lemma {:induction false} MapOfSort(ms: seq<Member>)
    requires DistinctKeys(ms, Name) && forall m :: m in ms ==> m.value.Some?
    ensures MapOf(Sort(ms, Name, JsLe)) == MapOf(ms)
  {
    if ms != [] {
      MapOfSort(ms[1..]);
      SortSame(ms[1..], Name, JsLe);
      MapOfInsert(ms[0], Sort(ms[1..], Name, JsLe));
    }
  }

  lemma {:induction false} NormalMeans(j: Json)
    requires WellFormed(j)
    ensures IsNormal(Normal(j)) && Meaning(Normal(j)) == Meaning(j)
    decreases j, 1
  {
    match j
    case Arr(items) => NormalItemsMean(items);
    case Obj(ms) =>
      var ns := NormalMembers(ms);
      NormalMembersMean(ms);
      JsLeTotal();
      SortAscending(ns, Name, JsLe);
      SortDistinct(ns, Name, JsLe);
      SortSame(ns, Name, JsLe);
      MapOfSort(ns);
    case _ =>
  }

  lemma {:induction false} NormalItemsMean(items: seq<Json>)
    requires forall i :: 0 <= i < |items| ==> WellFormed(items[i])
    ensures forall n :: n in NormalItems(items) ==> IsNormal(n)
    ensures Meanings(NormalItems(items)) == Meanings(items)
    decreases items, 0
  {
    if items != [] {
      NormalMeans(items[0]);
      NormalItemsMean(items[1..]);
    }
  }

  lemma {:induction false} NormalMembersMean(ms: seq<Member>)
    requires DistinctKeys(ms, Name)
    requires forall i :: 0 <= i < |ms| && ms[i].value.Some? ==> WellFormed(ms[i].value.value)
    ensures forall m :: m in NormalMembers(ms) ==> m.value.Some? && IsNormal(m.value.value)
    ensures DistinctKeys(NormalMembers(ms), Name)
    ensures MapOf(NormalMembers(ms)) == MapOf(ms)
    decreases ms, 0
  {
    if ms != [] {
      NormalMembersMean(ms[1..]);
      if ms[0].value.Some? {
        NormalMeans(ms[0].value.value);
      }
    }
  }

  // ---- and is fixed by what it means -------------------------------------------------------------------

  lemma {:induction false} MapOfNames(ms: seq<Member>, k: string)
    requires forall i :: 0 <= i < |ms| ==> ms[i].value.Some?
    ensures k in MapOf(ms) <==> exists i :: 0 <= i < |ms| && ms[i].key == k
  {
    if ms != [] {
      MapOfNames(ms[1..], k);
      if i :| 0 <= i < |ms| && ms[i].key == k && i > 0 {
        assert ms[1..][i - 1].key == k;
      }
    }
  }

  lemma {:induction false} NormalFixed(x: Json, y: Json)
    requires IsNormal(x) && IsNormal(y) && Meaning(x) == Meaning(y)
    ensures x == y
    decreases x, 1
  {
    match x
    case Arr(xs) => ItemsFixed(xs, y.items);
    case Obj(ms) => MembersFixed(ms, y.members);
    case _ =>
  }

  lemma {:induction false} ItemsFixed(xs: seq<Json>, ys: seq<Json>)
    requires forall i :: 0 <= i < |xs| ==> IsNormal(xs[i])
    requires forall i :: 0 <= i < |ys| ==> IsNormal(ys[i])
    requires Meanings(xs) == Meanings(ys)
    ensures xs == ys
    decreases xs, 0
  {
    if xs != [] {
      assert Meanings(xs)[0] == Meanings(ys)[0];
      NormalFixed(xs[0], ys[0]);
      assert Meanings(xs)[1..] == Meanings(xs[1..]) && Meanings(ys)[1..] == Meanings(ys[1..]);
      ItemsFixed(xs[1..], ys[1..]);
      assert xs == [xs[0]] + xs[1..] && ys == [ys[0]] + ys[1..];
    }
  }

  lemma FirstName(xs: seq<Member>, ys: seq<Member>)
    requires NormalList(xs) && xs != [] && MapOf(xs) == MapOf(ys)
    requires forall i :: 0 <= i < |xs| ==> xs[i].value.Some?
    requires forall i :: 0 <= i < |ys| ==> ys[i].value.Some?
    ensures ys != []
    ensures JsLe(xs[0].key, ys[0].key)
  {
    MapOfNames(ys, xs[0].key);
    MapOfNames(xs, ys[0].key);
    var i :| 0 <= i < |xs| && xs[i].key == ys[0].key;
    JsLePair(xs[0].key, xs[0].key);
  }

  lemma RestOfList(xs: seq<Member>)
    requires NormalList(xs) && xs != []
    ensures NormalList(xs[1..]) && forall x :: x in xs[1..] ==> x.key != xs[0].key
  {
    assert forall i :: 0 <= i < |xs[1..]| ==> xs[1..][i] == xs[i + 1] && Name(xs[0]) != Name(xs[i + 1]);
  }

  lemma RestOfMap(xs: seq<Member>)
    requires xs != [] && forall i :: 0 <= i < |xs| ==> xs[i].value.Some?
    requires forall x :: x in xs[1..] ==> x.key != xs[0].key
    ensures xs[0].key in MapOf(xs) && MapOf(xs)[xs[0].key] == Meaning(xs[0].value.value)
    ensures MapOf(xs[1..]) == MapOf(xs) - {xs[0].key}
  {
    var k, rest := xs[0].key, MapOf(xs[1..]);
    MapOfNames(xs[1..], k);
    assert MapOf(xs) == rest[k := Meaning(xs[0].value.value)];
    AddRemove(rest, k, Meaning(xs[0].value.value));
  }

  lemma AddRemove(m: map<string, Value>, k: string, v: Value)
    requires k !in m
    ensures m[k := v] - {k} == m
  {
  }

  lemma {:induction false} MembersFixed(xs: seq<Member>, ys: seq<Member>)
    requires NormalList(xs) && NormalList(ys) && MapOf(xs) == MapOf(ys)
    requires forall i :: 0 <= i < |xs| ==> xs[i].value.Some? && IsNormal(xs[i].value.value)
    requires forall i :: 0 <= i < |ys| ==> ys[i].value.Some? && IsNormal(ys[i].value.value)
    ensures xs == ys
    decreases xs, 0
  {
    if xs == [] {
      MapOfNames(xs, "");
      if ys != [] {
        MapOfNames(ys, ys[0].key);
      }
    } else {
      FirstName(xs, ys);
      FirstName(ys, xs);
      var k := xs[0].key;
      JsLePair(k, ys[0].key);
      RestOfList(xs);
      RestOfList(ys);
      RestOfMap(xs);
      RestOfMap(ys);
      NormalFixed(xs[0].value.value, ys[0].value.value);
      MembersFixed(xs[1..], ys[1..]);
      assert xs == [xs[0]] + xs[1..] && ys == [ys[0]] + ys[1..];
    }
  }

  // ---- the results ---------------------------------------------------------------------------------------

  function Canonical(j: Json): string
    requires WellFormed(j)
  {
    NormalMeans(j);
    NormalPrints(Normal(j));
    Print(Normal(j))
  }

  /** One text exactly for one meaning: members in another order or undefined do not count, everything
      else does. */
  lemma CanonicalIsMeaning(a: Json, b: Json)
    requires WellFormed(a) && WellFormed(b)
    ensures Canonical(a) == Canonical(b) <==> Meaning(a) == Meaning(b)
  {
    NormalMeans(a);
    NormalMeans(b);
    NormalPrints(Normal(a));
    NormalPrints(Normal(b));
    if Canonical(a) == Canonical(b) {
      PrintThen(Normal(a), "");
      PrintThen(Normal(b), "");
      TextReads(Normal(a), Normal(b), "", "");
    }
    if Meaning(a) == Meaning(b) {
      NormalFixed(Normal(a), Normal(b));
    }
  }

  function StringField(v: Value, name: string): string {
    if v.VObj? && name in v.members && v.members[name].VStr? then v.members[name].s else ""
  }

  /** `refKey(refOf(o))` of a Kubernetes object. */
  function RefKeyOf(v: Value): string {
    var meta := if v.VObj? && "metadata" in v.members then v.members["metadata"] else VNull;
    M.RefKey(M.ObjectRef(StringField(v, "apiVersion"), StringField(v, "kind"), StringField(meta, "name"),
      StringField(meta, "namespace")))
  }

  function RefKeyOfJson(j: Json): string { RefKeyOf(Meaning(j)) }

  lemma SortedWellFormed(objs: seq<Json>, le: Order)
    requires forall i :: 0 <= i < |objs| ==> WellFormed(objs[i])
    ensures WellFormed(Arr(Sort(objs, RefKeyOfJson, le)))
  {
    SortSame(objs, RefKeyOfJson, le);
    var sorted := Sort(objs, RefKeyOfJson, le);
    forall i | 0 <= i < |sorted| ensures WellFormed(sorted[i]) {
      assert sorted[i] in objs;
    }
  }

  /** What `fingerprint` hashes; `le` is the order localeCompare puts reference keys in. */
  function FingerprintText(objs: seq<Json>, le: Order): string
    requires forall i :: 0 <= i < |objs| ==> WellFormed(objs[i])
  {
    SortedWellFormed(objs, le);
    Canonical(Arr(Sort(objs, RefKeyOfJson, le)))
  }

  lemma {:induction false} InsertMeanings(o: Json, objs: seq<Json>, le: Order)
    ensures Meanings(Insert(o, objs, RefKeyOfJson, le)) == Insert(Meaning(o), Meanings(objs), RefKeyOf, le)
  {
    if objs != [] && !le(RefKeyOfJson(o), RefKeyOfJson(objs[0])) {
      InsertMeanings(o, objs[1..], le);
      assert Meanings(objs)[1..] == Meanings(objs[1..]);
    } else {
      assert ([o] + objs)[1..] == objs;
    }
  }

  lemma {:induction false} SortMeanings(objs: seq<Json>, le: Order)
    ensures Meanings(Sort(objs, RefKeyOfJson, le)) == Sort(Meanings(objs), RefKeyOf, le)
  {
    if objs != [] {
      SortMeanings(objs[1..], le);
      InsertMeanings(objs[0], Sort(objs[1..], RefKeyOfJson, le), le);
      assert Meanings(objs)[1..] == Meanings(objs[1..]);
    }
  }

  /** Equal fingerprints mean the same objects. When no reference occurs twice, and localeCompare is a
      total order on the references, the same objects also have one fingerprint, however listed. */
  lemma FingerprintIsContent(a: seq<Json>, b: seq<Json>, le: Order)
    requires forall i :: 0 <= i < |a| ==> WellFormed(a[i])
    requires forall i :: 0 <= i < |b| ==> WellFormed(b[i])
    ensures FingerprintText(a, le) == FingerprintText(b, le) ==> multiset(Meanings(a)) == multiset(Meanings(b))
    ensures Total(le) && DistinctKeys(Meanings(a), RefKeyOf) && multiset(Meanings(a)) == multiset(Meanings(b)) ==>
      FingerprintText(a, le) == FingerprintText(b, le)
  {
    var va, vb := Meanings(a), Meanings(b);
    var sa, sb := Sort(va, RefKeyOf, le), Sort(vb, RefKeyOf, le);
    FingerprintBySorted(a, b, le);
    SortKeeps(va, RefKeyOf, le);
    SortKeeps(vb, RefKeyOf, le);
    if Total(le) && DistinctKeys(va, RefKeyOf) && multiset(va) == multiset(vb) {
      SortAscending(va, RefKeyOf, le);
      SortAscending(vb, RefKeyOf, le);
      SortDistinct(va, RefKeyOf, le);
      AscendingUnique(sa, sb, RefKeyOf, le);
    }
  }

  /** The document is of the object `r` names: a Kubernetes object's four fields, the namespace optional. */
  predicate IsAt(v: Value, r: M.ObjectRef) {
    && v.VObj? && "apiVersion" in v.members && v.members["apiVersion"] == VStr(r.apiVersion)
    && "kind" in v.members && v.members["kind"] == VStr(r.kind)
    && "metadata" in v.members && v.members["metadata"].VObj?
    && var meta := v.members["metadata"].members;
       && "name" in meta && meta["name"] == VStr(r.name)
       && (if "namespace" in meta then meta["namespace"] == VStr(r.ns) else r.ns == "")
  }

  /** So a set of objects of which no two have the same API group, kind, namespace and name has one
      fingerprint, however it is listed. */
  lemma OneFingerprint(a: seq<Json>, b: seq<Json>, refs: seq<M.ObjectRef>, le: Order)
    requires forall i :: 0 <= i < |a| ==> WellFormed(a[i])
    requires forall i :: 0 <= i < |b| ==> WellFormed(b[i])
    requires |refs| == |a| && forall i :: 0 <= i < |a| ==> IsAt(Meaning(a[i]), refs[i])
    requires forall i :: 0 <= i < |a| ==> '/' !in refs[i].kind && '/' !in refs[i].ns
    requires forall i, j :: 0 <= i < j < |a| ==>
      || M.GroupOf(refs[i].apiVersion) != M.GroupOf(refs[j].apiVersion)
      || refs[i].kind != refs[j].kind || refs[i].ns != refs[j].ns || refs[i].name != refs[j].name
    ensures Total(le) ==>
      (FingerprintText(a, le) == FingerprintText(b, le) <==> multiset(Meanings(a)) == multiset(Meanings(b)))
  {
    hide RefKeyOf, IsAt, FingerprintText, WellFormed, Total;
    var va := Meanings(a);
    forall i, j | 0 <= i < j < |a| ensures RefKeyOf(va[i]) != RefKeyOf(va[j]) {
      MeaningsAt(a, i);
      MeaningsAt(a, j);
      KeyAt(va[i], refs[i]);
      KeyAt(va[j], refs[j]);
      M.RefKeyIdentifies(refs[i], refs[j]);
    }
    FingerprintIsContent(a, b, le);
  }

  lemma {:induction false} MeaningsAt(items: seq<Json>, i: nat)
    requires i < |items|
    ensures Meanings(items)[i] == Meaning(items[i])
  {
    if i > 0 { MeaningsAt(items[1..], i - 1); }
  }

  lemma KeyAt(v: Value, r: M.ObjectRef)
    requires IsAt(v, r)
    ensures RefKeyOf(v) == M.RefKey(r)
  {
  }

  lemma FingerprintBySorted(a: seq<Json>, b: seq<Json>, le: Order)
    requires forall i :: 0 <= i < |a| ==> WellFormed(a[i])
    requires forall i :: 0 <= i < |b| ==> WellFormed(b[i])
    ensures FingerprintText(a, le) == FingerprintText(b, le) <==>
            Sort(Meanings(a), RefKeyOf, le) == Sort(Meanings(b), RefKeyOf, le)
  {
    SortedWellFormed(a, le);
    SortedWellFormed(b, le);
    CanonicalIsMeaning(Arr(Sort(a, RefKeyOfJson, le)), Arr(Sort(b, RefKeyOfJson, le)));
    SortMeanings(a, le);
    SortMeanings(b, le);
  }
}
