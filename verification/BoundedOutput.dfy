/** Bounded capture of process output (src/remote/agent-executor.ts): output arrives in chunks, at most
    `maxBytes` bytes are kept, and what is cut is announced by a marker inside the limit. */
module BoundedOutput {
  import JsonText

  type Byte = b: int | 0 <= b < 256
  type Bytes = seq<Byte>

  datatype Bounded = Bounded(value: Bytes, truncated: bool)

  function Min(a: int, b: int): int { if a < b then a else b }

  function Max(a: int, b: int): int { if a < b then b else a }

  /** `buffer.subarray(0, n)`, for a count that is not negative. */
  function First(b: Bytes, n: nat): Bytes { if n < |b| then b[..n] else b }

  function Flatten(chunks: seq<Bytes>): Bytes {
    if chunks == [] then [] else Flatten(chunks[..|chunks| - 1]) + chunks[|chunks| - 1]
  }

  function Zeros(n: nat): Bytes { seq(n, _ => 0) }

  /** `Buffer.concat(chunks, length)`: cut or padded with zeros to exactly `length` bytes. */
  function Concat(chunks: seq<Bytes>, length: nat): (r: Bytes)
    ensures |r| == length
  {
    var all := Flatten(chunks);
    if length <= |all| then all[..length] else all + Zeros(length - |all|)
  }

  function Ascii(s: string): (r: Bytes)
    requires forall i :: 0 <= i < |s| ==> s[i] < 128 as char
    ensures |r| == |s|
  {
    seq(|s|, i requires 0 <= i < |s| => s[i] as int)
  }

  function DecimalBytes(n: nat): Bytes {
    var digits := JsonText.Digits(n);
    seq(|digits|, i requires 0 <= i < |digits| => digits[i])
  }

  /** The text "\n[truncated after N bytes]\n". */
  function Marker(maxBytes: nat): Bytes {
    Ascii("\n[truncated after ") + DecimalBytes(maxBytes) + Ascii(" bytes]\n")
  }

  function WithMarker(b: Bytes, maxBytes: int): Bounded {
    if maxBytes <= 0 then Bounded([], true)
    else
      var marker := Marker(maxBytes);
      if |marker| >= maxBytes then Bounded(marker[..maxBytes], true)
      else Bounded(Concat([First(b, maxBytes - |marker|), marker], maxBytes), true)
  }

  function Truncated(b: Bytes, maxBytes: int): Bounded {
    if |b| <= maxBytes then Bounded(b, false) else WithMarker(b, maxBytes)
  }

  // ---------------------------------------------------------------------------------------------
  // Accumulating
  // ---------------------------------------------------------------------------------------------

  datatype Accumulated = Accumulated(bytes: nat, chunks: seq<Bytes>, truncated: bool)

  const NOTHING := Accumulated(0, [], false)

  function Appended(a: Accumulated, chunk: Bytes, maxBytes: int): Accumulated {
    if maxBytes <= 0 then a.(truncated := a.truncated || |chunk| > 0)
    else if maxBytes - a.bytes <= 0 then a.(truncated := true)
    else
      var slice := First(chunk, maxBytes - a.bytes);
      Accumulated(a.bytes + |slice|, a.chunks + [slice], a.truncated || |slice| != |chunk|)
  }

  function Finalized(a: Accumulated, maxBytes: int): Bounded {
    var value := Concat(a.chunks, a.bytes);
    if !a.truncated then Bounded(value, false) else WithMarker(value, maxBytes)
  }

  function Collected(chunks: seq<Bytes>, maxBytes: int): Accumulated {
    if chunks == [] then NOTHING
    else Appended(Collected(chunks[..|chunks| - 1], maxBytes), chunks[|chunks| - 1], maxBytes)
  }

  /** Exactly full, and then an empty chunk arrived. */
  predicate EmptyAfterFull(chunks: seq<Bytes>, maxBytes: int) {
    && maxBytes > 0 && |Flatten(chunks)| == maxBytes
    && chunks != [] && chunks[|chunks| - 1] == []
  }

  lemma FlattenAppend(chunks: seq<Bytes>, c: Bytes)
    ensures Flatten(chunks + [c]) == Flatten(chunks) + c
  {
    assert (chunks + [c])[..|chunks|] == chunks;
  }

  /** What has been kept: the first `maxBytes` bytes; the flag says whether anything was turned away. */
  lemma {:induction false} CollectedKeeps(chunks: seq<Bytes>, maxBytes: int)
    ensures var a := Collected(chunks, maxBytes); var all := Flatten(chunks);
            && Flatten(a.chunks) == First(all, Max(0, maxBytes))
            && a.bytes == |Flatten(a.chunks)|
            && (a.truncated <==> |all| > Max(0, maxBytes) || EmptyAfterFull(chunks, maxBytes))
  {
    if chunks != [] {
      var front := chunks[..|chunks| - 1];
      var last := chunks[|chunks| - 1];
      CollectedKeeps(front, maxBytes);
      var a := Collected(front, maxBytes);
      var all := Flatten(front);
      assert Flatten(chunks) == all + last && Collected(chunks, maxBytes) == Appended(a, last, maxBytes);
      hide Collected;
      if maxBytes > 0 && maxBytes - a.bytes > 0 {
        FlattenAppend(a.chunks, First(last, maxBytes - a.bytes));
        hide Flatten;
        FirstOfConcat(all, last, maxBytes);
      }
    }
  }

  /** Taking the first `n` bytes piece by piece. */
  lemma FirstOfConcat(a: Bytes, b: Bytes, n: nat)
    requires |First(a, n)| < n
    ensures First(a + b, n) == First(a, n) + First(b, n - |First(a, n)|)
  {
  }

  lemma ConcatExact(chunks: seq<Bytes>)
    ensures Concat(chunks, |Flatten(chunks)|) == Flatten(chunks)
  {
  }

  /** The marker replaces the tail, so only the bytes before it matter. */
  lemma MarkerSeesThePrefix(b: Bytes, maxBytes: int)
    ensures WithMarker(First(b, Max(0, maxBytes)), maxBytes) == WithMarker(b, maxBytes)
  {
    if maxBytes > 0 && |Marker(maxBytes)| < maxBytes {
      var n := maxBytes - |Marker(maxBytes)|;
      assert First(First(b, maxBytes), n) == First(b, n);
    }
  }

  /** Collecting chunk by chunk equals truncating the whole output at once, whatever the chunks, except
      exactly when an empty chunk followed a full buffer, or a negative limit met no output at all. */
  lemma ChunkingIndependence(chunks: seq<Bytes>, maxBytes: int)
    ensures Finalized(Collected(chunks, maxBytes), maxBytes) == Truncated(Flatten(chunks), maxBytes)
            <==> !EmptyAfterFull(chunks, maxBytes) && !(maxBytes < 0 && Flatten(chunks) == [])
  {
    CollectedKeeps(chunks, maxBytes);
    var a := Collected(chunks, maxBytes);
    ConcatExact(a.chunks);
    MarkerSeesThePrefix(Flatten(chunks), maxBytes);
    MarkerSetsFlag(Flatten(chunks), maxBytes);
  }

  lemma MarkerSetsFlag(b: Bytes, maxBytes: int)
    ensures WithMarker(b, maxBytes).truncated && |WithMarker(b, maxBytes).value| == Max(0, maxBytes)
  {
  }

  lemma NonEmptyChunksAreFine(chunks: seq<Bytes>, maxBytes: nat)
    requires forall i :: 0 <= i < |chunks| ==> chunks[i] != []
    ensures Finalized(Collected(chunks, maxBytes), maxBytes) == Truncated(Flatten(chunks), maxBytes)
  {
    ChunkingIndependence(chunks, maxBytes);
  }

  /** One empty chunk after an exactly full buffer marks a loss that never happened. */
  lemma EmptyChunkFlagsALoss()
    ensures Flatten([[7], []]) == [7]
    ensures Truncated([7], 1) == Bounded([7], false)
    ensures Finalized(Collected([[7], []], 1), 1).truncated
  {
    var chunks: seq<Bytes> := [[7], []];
    assert chunks[..1] == [[7]];
    assert chunks[..1][..0] == [];
    CollectedKeeps(chunks, 1);
  }

  /** The flag is set exactly when bytes were lost. An uncut result is the output itself; a cut one
      has exactly `maxBytes` bytes: a prefix of the output, then the marker, or as much of the marker
      as fits. */
  lemma TruncatedMeaning(b: Bytes, maxBytes: nat)
    ensures var r := Truncated(b, maxBytes);
            && (r.truncated <==> |b| > maxBytes)
            && (!r.truncated ==> r.value == b)
            && (r.truncated ==>
                  && |r.value| == maxBytes
                  && r.value == if |Marker(maxBytes)| < maxBytes
                                then b[..maxBytes - |Marker(maxBytes)|] + Marker(maxBytes)
                                else Marker(maxBytes)[..maxBytes])
  {
    if |b| > maxBytes && |Marker(maxBytes)| < maxBytes {
      var n := maxBytes - |Marker(maxBytes)|;
      var parts := [First(b, n), Marker(maxBytes)];
      FlattenAppend([First(b, n)], Marker(maxBytes));
      FlattenAppend([], First(b, n));
      assert [First(b, n)] + [Marker(maxBytes)] == parts;
      assert [] + [First(b, n)] == [First(b, n)];
      assert Flatten(parts) == First(b, n) + Marker(maxBytes);
    }
  }

  /** OutputAccumulator. */
  class OutputAccumulator {
    var bytes: nat
    var chunks: seq<Bytes>
    var truncated: bool

    function Value(): Accumulated
      reads this
    {
      Accumulated(bytes, chunks, truncated)
    }

    constructor ()
      ensures Value() == NOTHING
    {
      bytes, chunks, truncated := 0, [], false;
    }

    method Append(chunk: Bytes, maxBytes: int)
      modifies this
      ensures Value() == Appended(old(Value()), chunk, maxBytes)
    {
      if maxBytes <= 0 {
        truncated := truncated || |chunk| > 0;
        return;
      }
      var remaining := maxBytes - bytes;
      if remaining <= 0 {
        truncated := true;
        return;
      }
      var slice := First(chunk, remaining);
      chunks := chunks + [slice];
      bytes := bytes + |slice|;
      truncated := truncated || |slice| != |chunk|;
    }
  }
}
