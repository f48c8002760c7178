/** The controller's Secrets (apps/stackd/src/state.ts): one cell for the state, numbered cells for
    the bytes of the last good set. Any call may fail; a failed write may or may not have happened. */
module Store {
  import opened Wrappers
  import opened Manifests
  import opened State

  type Chunks = map<nat, seq<byte>>

  // ---- chunking -----------------------------------------------------------------------------------

  /** The pieces the bytes are cut into: all of `size` but the last. */
  function Split(bytes: seq<byte>, size: nat): (parts: seq<seq<byte>>)
    requires size > 0
    ensures |parts| > 0
    ensures bytes != [] ==> forall p :: p in parts ==> p != []
  {
    if |bytes| <= size then [bytes] else [bytes[..size]] + Split(bytes[size..], size)
  }

  /** `Math.max(1, Math.ceil(length / size))` */
  function PieceCount(length: nat, size: nat): nat
    requires size > 0
  {
    if length == 0 then 1 else (length + size - 1) / size
  }

  lemma {:induction false} SplitCount(bytes: seq<byte>, size: nat)
    requires size > 0
    ensures |Split(bytes, size)| == PieceCount(|bytes|, size)
    ensures forall p :: p in Split(bytes, size) ==> |p| <= size
  {
    if |bytes| > size {
      SplitCount(bytes[size..], size);
      var n := |bytes| - 1;
      DivideUnique(n + size, size, n / size + 1, n % size);
    } else if bytes != [] {
      DivideUnique(|bytes| + size - 1, size, 1, |bytes| - 1);
    }
  }

  lemma DivideUnique(n: nat, size: nat, q: nat, r: nat)
    requires size > 0 && r < size && n == q * size + r
    ensures n / size == q
  {
    var d := n / size - q;
    assert d * size == r - n % size;
    assert d >= 1 ==> d * size >= size;
    assert d <= -1 ==> d * size <= -1 * size;
  }

  /** `subarray(start, start + size)`, clipped to the bytes there are. */
  function Subarray(bytes: seq<byte>, start: nat, size: nat): seq<byte> {
    if start > |bytes| then [] else if start + size > |bytes| then bytes[start..] else bytes[start..start + size]
  }

  /** The i-th piece is the one that starts at `i * size`. */
  lemma {:induction false} SplitAt(bytes: seq<byte>, size: nat, i: nat, start: nat)
    requires size > 0 && i < |Split(bytes, size)| && start == i * size
    ensures Split(bytes, size)[i] == Subarray(bytes, start, size)
  {
    if i > 0 {
      TimesLess(i, size);
      SplitAt(bytes[size..], size, i - 1, start - size);
      SubarrayShift(bytes, start, size);
    }
  }

  lemma TimesLess(i: nat, size: nat)
    requires i > 0
    ensures i * size - size == (i - 1) * size >= 0
  {
  }

  lemma SubarrayShift(bytes: seq<byte>, start: nat, size: nat)
    requires size <= start && size <= |bytes|
    ensures Subarray(bytes[size..], start - size, size) == Subarray(bytes, start, size)
  {
  }

  function Flatten(parts: seq<seq<byte>>): seq<byte> {
    if parts == [] then [] else parts[0] + Flatten(parts[1..])
  }

  lemma {:induction false} FlattenSplit(bytes: seq<byte>, size: nat)
    requires size > 0
    ensures Flatten(Split(bytes, size)) == bytes
  {
    if |bytes| > size {
      FlattenSplit(bytes[size..], size);
    }
  }

  lemma {:induction false} FlattenSnoc(parts: seq<seq<byte>>, last: seq<byte>)
    ensures Flatten(parts + [last]) == Flatten(parts) + last
  {
    if parts != [] {
      FlattenSnoc(parts[1..], last);
      assert (parts + [last])[1..] == parts[1..] + [last];
    } else {
      assert parts + [last] == [last];
    }
  }

  // ---- what the cells hold --------------------------------------------------------------------------

  /** A cell with no bytes reads as missing. */
  predicate Complete(chunks: Chunks, n: nat) {
    forall i :: 0 <= i < n ==> i in chunks && chunks[i] != []
  }

  function Joined(chunks: Chunks, n: nat): seq<byte>
    requires Complete(chunks, n)
  {
    if n == 0 then [] else Joined(chunks, n - 1) + chunks[n - 1]
  }

  ghost predicate Holds(chunks: Chunks, parts: seq<seq<byte>>) {
    forall i :: 0 <= i < |parts| ==> i in chunks && chunks[i] == parts[i]
  }

  lemma {:induction false} JoinedIsFlatten(chunks: Chunks, parts: seq<seq<byte>>)
    requires Holds(chunks, parts)
    requires forall p :: p in parts ==> p != []
    ensures Complete(chunks, |parts|) && Joined(chunks, |parts|) == Flatten(parts)
  {
    if parts != [] {
      var n := |parts| - 1;
      assert forall p :: p in parts[..n] ==> p in parts;
      assert parts[n] in parts;
      JoinedIsFlatten(chunks, parts[..n]);
      assert parts == parts[..n] + [parts[n]];
      FlattenSnoc(parts[..n], parts[n]);
    }
  }

  /** Every cell is one there was before, or a piece of the set being stored. */
  ghost predicate OldOrPiece(before: Chunks, chunks: Chunks, parts: seq<seq<byte>>) {
    forall i :: i in chunks ==> (i in before && chunks[i] == before[i]) || chunks[i] in parts
  }

  /** Reading back a stored set gives the bytes that were stored, whatever their length, the size of a
      cell and the cells of an earlier set. */
  lemma StoredReadsBack(chunks: Chunks, bytes: seq<byte>, size: nat)
    requires size > 0 && bytes != []
    requires Holds(chunks, Split(bytes, size))
    ensures var n := |Split(bytes, size)|; Complete(chunks, n) && Joined(chunks, n) == bytes
  {
    JoinedIsFlatten(chunks, Split(bytes, size));
    FlattenSplit(bytes, size);
  }

  class StateStore {
    const chunkBytes: nat
    const codec: Codec
    var cell: Option<BackendState>
    var chunks: Chunks

    constructor (codec: Codec, chunkBytes: nat)
      requires chunkBytes > 0 && Lawful(codec)
      ensures this.codec == codec && this.chunkBytes == chunkBytes
      ensures Valid() && cell == None && chunks == map[]
    {
      this.codec, this.chunkBytes := codec, chunkBytes;
      cell, chunks := None, map[];
    }

    ghost predicate Valid() {
      chunkBytes > 0 && Lawful(codec)
    }

    /** What a load reads: the empty state before the first save. */
    function Current(): BackendState
      reads this`cell
    {
      match cell
      case None => EMPTY_STATE
      case Some(s) => s
    }

    method Load() returns (ok: bool, s: BackendState)
      ensures ok ==> s == Current()
    {
      ok, s := *, Current();
    }

    method Save(s: BackendState) returns (ok: bool)
      modifies this`cell
      ensures cell == old(cell) || cell == Some(s)
      ensures ok ==> cell == Some(s)
    {
      var happened: bool := *;
      if happened { cell := Some(s); }
      ok := *;
      ok := ok && happened;
    }

    method PutChunk(i: nat, part: seq<byte>) returns (ok: bool)
      modifies this`chunks
      ensures chunks == old(chunks) || chunks == old(chunks)[i := part]
      ensures ok ==> chunks == old(chunks)[i := part]
    {
      var happened: bool := *;
      if happened { chunks := chunks[i := part]; }
      ok := *;
      ok := ok && happened;
    }

    method DeleteChunk(i: nat) returns (ok: bool)
      modifies this`chunks
      ensures chunks == old(chunks) || chunks == old(chunks) - {i}
      ensures ok ==> chunks == old(chunks) - {i}
    {
      var happened: bool := *;
      if happened { chunks := chunks - {i}; }
      ok := *;
      ok := ok && happened;
    }

    method PutPiece(gz: seq<byte>, i: nat) returns (ok: bool)
      requires chunkBytes > 0 && i < |Split(gz, chunkBytes)|
      modifies this`chunks
      ensures chunks == old(chunks) || chunks == old(chunks)[i := Split(gz, chunkBytes)[i]]
      ensures ok ==> chunks == old(chunks)[i := Split(gz, chunkBytes)[i]]
    {
      SplitAt(gz, chunkBytes, i, i * chunkBytes);
      ok := PutChunk(i, Subarray(gz, i * chunkBytes, chunkBytes));
    }

    /** Writes the pieces, then clears the tail. On success the cells hold exactly the pieces of the set
        and none of the `previous` ones past them; cut short, every cell is an old one or a new piece,
        or gone. */
    method SaveLastGood(objs: seq<KubeObject>, previous: nat) returns (ok: bool, count: nat, sha: Digest)
      requires Valid()
      modifies this`chunks
      ensures ok ==> sha == Sha256(codec.pack(objs))
      ensures ok ==> count == |Split(codec.pack(objs), chunkBytes)|
      ensures ok ==> Complete(chunks, count) && Joined(chunks, count) == codec.pack(objs)
      ensures ok ==> forall i :: count <= i < previous ==> i !in chunks
      ensures OldOrPiece(old(chunks), chunks, Split(codec.pack(objs), chunkBytes))
    {
      var gz := codec.pack(objs);
      ghost var parts := Split(gz, chunkBytes);
      count := PieceCount(|gz|, chunkBytes);
      sha := Sha256(gz);
      SplitCount(gz, chunkBytes);
      for i := 0 to count
        invariant Holds(chunks, parts[..i]) && OldOrPiece(old(chunks), chunks, parts)
      {
        ok := PutPiece(gz, i);
        if !ok { return; }
      }
      assert parts[..count] == parts;
      StoredReadsBack(chunks, gz, chunkBytes);
      ok := DeletePast(count, previous);
      StoredReadsBack(chunks, gz, chunkBytes);
    }

    /** Deletes the cells of a longer earlier set. */
    method DeletePast(count: nat, previous: nat) returns (ok: bool)
      modifies this`chunks
      ensures ok ==> forall i :: count <= i < previous ==> i !in chunks
      ensures forall i :: i in chunks ==> i in old(chunks) && chunks[i] == old(chunks)[i]
      ensures forall i :: i in old(chunks) && i < count ==> i in chunks
    {
      var i := count;
      while i < previous
        invariant count <= i
        invariant forall j :: count <= j < i ==> j !in chunks
        invariant forall j :: j in chunks ==> j in old(chunks) && chunks[j] == old(chunks)[j]
        invariant forall j :: j in old(chunks) && j < count ==> j in chunks
      {
        ok := DeleteChunk(i);
        if !ok { return; }
        i := i + 1;
      }
      ok := true;
    }

    /** Joins the cells and decodes them. Short of a failed read this yields a set exactly when no cell
        is missing and the bytes decode, and the digest is of the very bytes joined. */
    method LoadLastGood(count: nat) returns (fault: bool, loaded: Option<(seq<KubeObject>, Digest)>)
      ensures loaded.Some? ==>
        && Complete(chunks, count)
        && codec.unpack(Joined(chunks, count)) == Some(loaded.value.0)
        && loaded.value.1 == Sha256(Joined(chunks, count))
      ensures !fault ==> (loaded.Some? <==> Complete(chunks, count) && codec.unpack(Joined(chunks, count)).Some?)
    {
      fault, loaded := *, None;
      if fault { return; }
      var gz := [];
      for i := 0 to count
        invariant Complete(chunks, i) && gz == Joined(chunks, i)
      {
        if i !in chunks || chunks[i] == [] { return; }
        gz := gz + chunks[i];
      }
      match codec.unpack(gz) {
        case None =>
        case Some(objs) => loaded := Some((objs, Sha256(gz)));
      }
    }

    method DropLastGood(count: nat) returns (ok: bool)
      modifies this`chunks
      ensures ok ==> forall i :: 0 <= i < count ==> i !in chunks
      ensures forall i :: i in chunks ==> i in old(chunks) && chunks[i] == old(chunks)[i]
    {
      for i := 0 to count
        invariant forall j :: 0 <= j < i ==> j !in chunks
        invariant forall j :: j in chunks ==> j in old(chunks) && chunks[j] == old(chunks)[j]
      {
        ok := DeleteChunk(i);
        if !ok { return; }
      }
      ok := true;
    }
  }
}
