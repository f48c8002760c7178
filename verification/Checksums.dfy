/** The airgap bundle's checksum manifest (deploy/airgap/src/checksums.ts): its text, and the comparison
    of a tree with it. A tree maps the paths of regular files to their contents; `sha` is the digest. */
module Checksums {
  import opened Wrappers

  datatype Entry = Entry(digest: string, path: string)

  datatype Reason = DigestMismatch | MissingOnDisk | UnexpectedExtraFile

  datatype Mismatch = Mismatch(path: string, expected: Option<string>, actual: Option<string>, reason: Reason)

  type Tree = map<string, string>

  const EXCLUDED := ["CHECKSUMS.txt", "CHECKSUMS.txt.sig"]

  // ---- the text --------------------------------------------------------------------------------------------

  predicate HexDigest(s: string) {
    |s| == 64 && forall i :: 0 <= i < 64 ==> '0' <= s[i] <= '9' || 'a' <= s[i] <= 'f'
  }

  /** What `.+` matches to the end of a line. */
  predicate OneLine(s: string) {
    s != "" && forall c :: c in s ==> c !in "\n\r\U{2028}\U{2029}"
  }

  predicate IsSpace(c: char) {
    || c in " \t\n\U{0B}\U{0C}\r\U{A0}\U{1680}\U{2028}\U{2029}\U{202F}\U{205F}\U{3000}\U{FEFF}"
    || '\U{2000}' <= c <= '\U{200A}'
  }

  predicate Blank(line: string) {
    forall i :: 0 <= i < |line| ==> IsSpace(line[i])
  }

  predicate GoodEntry(e: Entry) { HexDigest(e.digest) && OneLine(e.path) }

  function LineOf(e: Entry): string { e.digest + "  " + e.path }

  function Join(lines: seq<string>): string {
    if lines == [] then "" else if |lines| == 1 then lines[0] else lines[0] + "\n" + Join(lines[1..])
  }

  function LinesOf(es: seq<Entry>): seq<string> {
    if es == [] then [] else [LineOf(es[0])] + LinesOf(es[1..])
  }

  function FormatChecksums(es: seq<Entry>): string {
    Join(LinesOf(es)) + "\n"
  }

  /** `split("\n")`. */
  function SplitLines(text: string): (r: seq<string>)
    ensures r != []
  {
    if text == "" then [""]
    else
      var rest := SplitLines(text[1..]);
      if text[0] == '\n' then [""] + rest else [[text[0]] + rest[0]] + rest[1..]
  }

  function ParseLine(line: string): (r: Option<Entry>)
    ensures r.Some? ==> GoodEntry(r.value) && line == LineOf(r.value)
  {
    if |line| > 66 && HexDigest(line[..64]) && line[64..66] == "  " && OneLine(line[66..])
    then Some(Entry(line[..64], line[66..]))
    else None
  }

  /** None is the thrown error; blank lines are passed over. */
  function ParseLines(lines: seq<string>): (r: Option<seq<Entry>>)
    ensures r.Some? ==> forall e :: e in r.value ==> GoodEntry(e)
  {
    if lines == [] then Some([])
    else if Blank(lines[0]) then ParseLines(lines[1..])
    else
      match ParseLine(lines[0])
      case None => None
      case Some(e) =>
        match ParseLines(lines[1..])
        case None => None
        case Some(es) => Some([e] + es)
  }

  function ParseChecksums(text: string): (r: Option<seq<Entry>>)
    ensures r.Some? ==> forall e :: e in r.value ==> GoodEntry(e)
  {
    ParseLines(SplitLines(text))
  }

  lemma {:induction false} SplitFirst(line: string, rest: string)
    requires '\n' !in line
    ensures SplitLines(line + "\n" + rest) == [line] + SplitLines(rest)
  {
    var text := line + "\n" + rest;
    if line == "" {
      assert text[1..] == rest;
    } else {
      assert text[1..] == line[1..] + "\n" + rest;
      SplitFirst(line[1..], rest);
      assert [text[0]] + line[1..] == line;
    }
  }

  lemma ParseLineOf(e: Entry)
    requires GoodEntry(e)
    ensures ParseLine(LineOf(e)) == Some(e) && !Blank(LineOf(e)) && '\n' !in LineOf(e)
  {
    var line := LineOf(e);
    assert line[..64] == e.digest && line[64..66] == "  " && line[66..] == e.path;
    assert line[0] == e.digest[0] && !IsSpace(line[0]);
    assert forall c :: c in line ==> c in e.digest || c == ' ' || c in e.path;
  }

  /** A line as `sha256sum` writes it: 64 hexadecimal digits, two spaces, the path to the end of the line. */
  lemma LineReads(digest: string, path: string)
    requires |digest| == 64 && forall i :: 0 <= i < 64 ==> digest[i] in "0123456789abcdef"
    requires path != "" && forall i :: 0 <= i < |path| ==> path[i] !in "\n\r\U{2028}\U{2029}"
    ensures ParseLine(digest + "  " + path) == Some(Entry(digest, path))
  {
    var line := digest + "  " + path;
    assert line[..64] == digest && line[64..66] == "  " && line[66..] == path;
  }

  /** A text is refused exactly for a line that is neither blank nor of that form. */
  lemma {:induction false} RefusedFor(lines: seq<string>)
    ensures ParseLines(lines).Some? <==> forall line :: line in lines ==> Blank(line) || ParseLine(line).Some?
  {
    if lines != [] {
      RefusedFor(lines[1..]);
      assert lines == [lines[0]] + lines[1..];
    }
  }

  /** Lines of blanks, tabs and carriage returns are passed over. */
  lemma BlankPassed(line: string, rest: string)
    requires forall i :: 0 <= i < |line| ==> line[i] in " \t\r"
    ensures ParseChecksums(line + "\n" + rest) == ParseChecksums(rest)
  {
    SplitFirst(line, rest);
    assert ([line] + SplitLines(rest))[1..] == SplitLines(rest);
  }

  lemma ParseFirst(e: Entry, rest: string)
    requires GoodEntry(e) && ParseChecksums(rest).Some?
    ensures ParseChecksums(LineOf(e) + "\n" + rest) == Some([e] + ParseChecksums(rest).value)
  {
    ParseLineOf(e);
    SplitFirst(LineOf(e), rest);
    assert ([LineOf(e)] + SplitLines(rest))[1..] == SplitLines(rest);
  }

  lemma NothingParses()
    ensures ParseChecksums("") == Some([]) && ParseChecksums("\n") == Some([])
  {
    assert ParseLines([""]) == Some([]);
    SplitFirst("", "");
    assert "" + "\n" + "" == "\n";
    assert SplitLines("\n") == ["", ""];
    assert ["", ""][1..] == [""];
  }

  lemma {:induction false} FormatParses(es: seq<Entry>)
    requires forall e :: e in es ==> GoodEntry(e)
    ensures ParseChecksums(FormatChecksums(es)) == Some(es)
  {
    NothingParses();
    if es == [] {
      assert FormatChecksums(es) == "\n";
    } else {
      if |es| > 1 {
        FormatParses(es[1..]);
      }
      FormatFirst(es);
      ParseFirst(es[0], AfterFirst(es));
      assert es == [es[0]] + es[1..];
    }
  }

  function AfterFirst(es: seq<Entry>): string
    requires es != []
  {
    if |es| == 1 then "" else FormatChecksums(es[1..])
  }

  lemma Assoc(a: string, b: string, c: string)
    ensures (a + b) + c == a + (b + c)
  {
  }

  lemma FormatFirst(es: seq<Entry>)
    requires es != []
    ensures FormatChecksums(es) == LineOf(es[0]) + "\n" + AfterFirst(es)
  {
    var line := LineOf(es[0]);
    if |es| == 1 {
      assert LinesOf(es) == [line];
    } else {
      assert LinesOf(es) == [line] + LinesOf(es[1..]);
      assert LinesOf(es)[1..] == LinesOf(es[1..]);
      Assoc(line + "\n", Join(LinesOf(es[1..])), "\n");
    }
  }

  /** A manifest reads back exactly when every digest is 64 lower-case hex digits and every path one
      non-empty line. */
  lemma FormatReadsBack(es: seq<Entry>)
    ensures ParseChecksums(FormatChecksums(es)) == Some(es) <==> forall e :: e in es ==> GoodEntry(e)
  {
    if forall e :: e in es ==> GoodEntry(e) {
      FormatParses(es);
    }
  }

  // ---- the tree ----------------------------------------------------------------------------------------------

  ghost predicate Lists(files: seq<string>, tree: Tree) {
    forall p :: p in files <==> p in tree
  }

  function Entries(sha: string -> string, tree: Tree, files: seq<string>): (r: seq<Entry>)
    requires forall p :: p in files ==> p in tree
    ensures forall e :: e in r <==> e.path in files && e.path !in EXCLUDED && e.digest == sha(tree[e.path])
  {
    if files == [] then []
    else if files[0] in EXCLUDED then Entries(sha, tree, files[1..])
    else [Entry(sha(tree[files[0]]), files[0])] + Entries(sha, tree, files[1..])
  }

  /** An entry for every file of the tree but the manifest and its signature. */
  method ComputeChecksums(sha: string -> string, tree: Tree, files: seq<string>) returns (entries: seq<Entry>)
    requires Lists(files, tree)
    ensures entries == Entries(sha, tree, files)
    ensures forall p :: p in tree ==> (Paths(entries, p) <==> p != "CHECKSUMS.txt" && p != "CHECKSUMS.txt.sig")
  {
    entries := [];
    var i := 0;
    while i < |files|
      invariant 0 <= i <= |files|
      invariant entries + Entries(sha, tree, files[i..]) == Entries(sha, tree, files)
    {
      if files[i] !in EXCLUDED {
        entries := entries + [Entry(sha(tree[files[i]]), files[i])];
      }
      i := i + 1;
    }
    assert files[i..] == [];
    forall p | p in tree && p !in EXCLUDED ensures Paths(entries, p) {
      assert Entry(sha(tree[p]), p) in entries;
    }
  }

  predicate Paths(es: seq<Entry>, p: string) {
    exists e :: e in es && e.path == p
  }

  /** Nothing to report: every entry's file is there with its digest, and no other file is. */
  predicate Clean(sha: string -> string, tree: Tree, expected: seq<Entry>) {
    && (forall e :: e in expected ==> e.path in tree && sha(tree[e.path]) == e.digest)
    && (forall p :: p in tree && p !in EXCLUDED ==> Paths(expected, p))
  }

  /** A report about one path, and when it is true. */
  predicate Justified(sha: string -> string, tree: Tree, expected: seq<Entry>, m: Mismatch) {
    match m.reason
    case MissingOnDisk => m.expected.Some? && Entry(m.expected.value, m.path) in expected && m.path !in tree
    case DigestMismatch =>
      && m.expected.Some? && Entry(m.expected.value, m.path) in expected && m.path in tree
      && m.actual == Some(sha(tree[m.path])) && m.actual != m.expected
    case UnexpectedExtraFile => m.path in tree && m.path !in EXCLUDED && !Paths(expected, m.path)
  }

  predicate Reported(ms: seq<Mismatch>, path: string, reason: Reason) {
    exists m :: m in ms && m.path == path && m.reason == reason
  }

  /** Every report is true and every difference is reported; so there is none exactly when all is clean. */
  method VerifyChecksums(sha: string -> string, tree: Tree, files: seq<string>, expected: seq<Entry>)
    returns (ms: seq<Mismatch>)
    requires Lists(files, tree)
    ensures forall m :: m in ms ==> Justified(sha, tree, expected, m)
    ensures forall e :: e in expected && e.path !in tree ==> Reported(ms, e.path, MissingOnDisk)
    ensures forall e :: e in expected && e.path in tree && sha(tree[e.path]) != e.digest ==>
      Reported(ms, e.path, DigestMismatch)
    ensures forall p :: p in tree && p !in EXCLUDED && !Paths(expected, p) ==> Reported(ms, p, UnexpectedExtraFile)
    ensures ms == [] <==> Clean(sha, tree, expected)
  {
    ms := CheckEntries(sha, tree, expected);
    var extra := CheckExtras(sha, tree, files, expected);
    ghost var all := ms + extra;
    forall p, r | Reported(ms, p, r) || Reported(extra, p, r) ensures Reported(all, p, r) {
      Carried(ms, extra, p, r);
    }
    ms := ms + extra;
    assert ms != [] ==> Justified(sha, tree, expected, ms[0]);
  }

  lemma Carried(a: seq<Mismatch>, b: seq<Mismatch>, p: string, r: Reason)
    requires Reported(a, p, r) || Reported(b, p, r)
    ensures Reported(a + b, p, r)
  {
    var m :| (m in a || m in b) && m.path == p && m.reason == r;
    assert m in a + b;
  }

  method CheckEntries(sha: string -> string, tree: Tree, expected: seq<Entry>) returns (ms: seq<Mismatch>)
    ensures forall m :: m in ms ==> Justified(sha, tree, expected, m)
    ensures forall e :: e in expected && e.path !in tree ==> Reported(ms, e.path, MissingOnDisk)
    ensures forall e :: e in expected && e.path in tree && sha(tree[e.path]) != e.digest ==>
      Reported(ms, e.path, DigestMismatch)
  {
    ms := [];
    for i := 0 to |expected|
      invariant forall m :: m in ms ==> Justified(sha, tree, expected, m)
      invariant forall j :: 0 <= j < i && expected[j].path !in tree ==> Reported(ms, expected[j].path, MissingOnDisk)
      invariant forall j ::
        0 <= j < i && expected[j].path in tree && sha(tree[expected[j].path]) != expected[j].digest ==>
          Reported(ms, expected[j].path, DigestMismatch)
    {
      var e := expected[i];
      var found := [];
      if e.path !in tree {
        found := [Mismatch(e.path, Some(e.digest), None, MissingOnDisk)];
      } else if sha(tree[e.path]) != e.digest {
        found := [Mismatch(e.path, Some(e.digest), Some(sha(tree[e.path])), DigestMismatch)];
      }
      forall p, r | Reported(ms, p, r) || Reported(found, p, r) ensures Reported(ms + found, p, r) {
        Carried(ms, found, p, r);
      }
      assert found != [] ==> Reported(found, e.path, found[0].reason);
      ms := ms + found;
    }
  }

  method CheckExtras(sha: string -> string, tree: Tree, files: seq<string>, expected: seq<Entry>)
    returns (ms: seq<Mismatch>)
    requires Lists(files, tree)
    ensures forall m :: m in ms ==> Justified(sha, tree, expected, m)
    ensures forall p :: p in tree && p !in EXCLUDED && !Paths(expected, p) ==> Reported(ms, p, UnexpectedExtraFile)
  {
    ms := [];
    for i := 0 to |files|
      invariant forall m :: m in ms ==> Justified(sha, tree, expected, m)
      invariant forall j :: 0 <= j < i && files[j] !in EXCLUDED && !Paths(expected, files[j]) ==>
        Reported(ms, files[j], UnexpectedExtraFile)
    {
      if files[i] !in EXCLUDED && !Paths(expected, files[i]) {
        var m := Mismatch(files[i], None, None, UnexpectedExtraFile);
        forall p, r | Reported(ms, p, r) || Reported([m], p, r) ensures Reported(ms + [m], p, r) {
          Carried(ms, [m], p, r);
        }
        assert m in [m];
        ms := ms + [m];
      }
    }
  }

  // ---- a bundle and what arrived ---------------------------------------------------------------------------

  /** The same files with the same contents, but for the manifest and its signature. */
  ghost predicate SameApart(a: Tree, b: Tree) {
    && (forall p :: p !in EXCLUDED ==> (p in a <==> p in b))
    && (forall p :: p !in EXCLUDED && p in a && p in b ==> a[p] == b[p])
  }

  /** No file arrived changed under the digest of the original. */
  ghost predicate NoCollision(sha: string -> string, a: Tree, b: Tree) {
    forall p :: p in a && p in b && sha(a[p]) == sha(b[p]) ==> a[p] == b[p]
  }

  lemma CleanIsSame(sha: string -> string, sent: Tree, files: seq<string>, arrived: Tree)
    requires Lists(files, sent) && NoCollision(sha, sent, arrived)
    ensures Clean(sha, arrived, Entries(sha, sent, files)) <==> SameApart(sent, arrived)
  {
    var es := Entries(sha, sent, files);
    forall p | p in sent && p !in EXCLUDED ensures Entry(sha(sent[p]), p) in es && Paths(es, p) {
      assert Entry(sha(sent[p]), p) in es;
    }
  }

  /** The whole way, through the text: writing the manifest of one tree, reading it back and verifying
      another against it finds nothing exactly when the two are the same. */
  lemma ManifestDecides(sha: string -> string, sent: Tree, files: seq<string>, arrived: Tree)
    requires Lists(files, sent) && NoCollision(sha, sent, arrived)
    requires forall content :: HexDigest(sha(content))
    requires forall p :: p in sent && p !in EXCLUDED ==> OneLine(p)
    ensures var read := ParseChecksums(FormatChecksums(Entries(sha, sent, files)));
            read.Some? && (Clean(sha, arrived, read.value) <==> SameApart(sent, arrived))
  {
    FormatReadsBack(Entries(sha, sent, files));
    CleanIsSame(sha, sent, files, arrived);
  }
}
