/** Reading the last lines of a file (src/remote/agent-executor.ts): a chunked backward scan for
    newlines, then one bounded read.

    The file does not change during the scan. A read may return fewer bytes than asked for, but at
    least one while there are any. */
module TailScan {
  import opened BoundedOutput

  const NEWLINE: Byte := 0x0a
  const CHUNK_BYTES: nat := 64 * 1024
  const MAX_SCAN_BYTES: nat := 8 * 1024 * 1024

  // ---------------------------------------------------------------------------------------------
  // Lines
  // ---------------------------------------------------------------------------------------------

  /** The length of the first line, its newline included. */
  function FirstLine(s: Bytes): (k: nat)
    requires s != []
    ensures 0 < k <= |s|
    ensures forall i :: 0 <= i < k - 1 ==> s[i] != NEWLINE
    ensures k < |s| ==> s[k - 1] == NEWLINE
  {
    if s[0] == NEWLINE || |s| == 1 then 1 else 1 + FirstLine(s[1..])
  }

  /** The lines of a text; a final newline ends the last line and starts none. */
  function Lines(s: Bytes): seq<Bytes> {
    if s == [] then [] else [s[..FirstLine(s)]] + Lines(s[FirstLine(s)..])
  }

  lemma {:induction false} FlattenPrepend(c: Bytes, chunks: seq<Bytes>)
    ensures Flatten([c] + chunks) == c + Flatten(chunks)
  {
    if chunks == [] {
      assert [c] + chunks == [] + [c];
      FlattenAppend([], c);
    } else {
      var front := chunks[..|chunks| - 1];
      FlattenPrepend(c, front);
      assert [c] + chunks == ([c] + front) + [chunks[|chunks| - 1]];
      FlattenAppend([c] + front, chunks[|chunks| - 1]);
    }
  }

  lemma LinesFirst(s: Bytes)
    requires s != []
    ensures Lines(s) == [s[..FirstLine(s)]] + Lines(s[FirstLine(s)..])
  {
  }

  /** Joining the lines gives the text back. */
  lemma {:induction false} LinesRejoin(s: Bytes)
    ensures Flatten(Lines(s)) == s
    decreases |s|
  {
    if s != [] {
      var k := FirstLine(s);
      LinesRejoin(s[k..]);
      LinesFirst(s);
      hide Lines, Flatten, FirstLine;
      FlattenPrepend(s[..k], Lines(s[k..]));
      assert s == s[..k] + s[k..];
    }
  }

  ghost predicate EndsLine(s: Bytes) { s == [] || s[|s| - 1] == NEWLINE }

  lemma {:induction false} FirstLineConcat(a: Bytes, b: Bytes)
    requires a != [] && EndsLine(a)
    ensures FirstLine(a + b) == FirstLine(a)
  {
    if a[0] != NEWLINE {
      assert (a + b)[1..] == a[1..] + b;
      FirstLineConcat(a[1..], b);
    }
  }

  lemma {:induction false} LinesConcat(a: Bytes, b: Bytes)
    requires EndsLine(a)
    ensures Lines(a + b) == Lines(a) + Lines(b)
    decreases |a|
  {
    if a == [] {
      assert a + b == b;
    } else {
      var k := FirstLine(a);
      FirstLineConcat(a, b);
      assert (a + b)[..k] == a[..k] && (a + b)[k..] == a[k..] + b;
      LinesConcat(a[k..], b);
    }
  }

  function Newlines(s: Bytes): nat {
    if s == [] then 0 else (if s[0] == NEWLINE then 1 else 0) + Newlines(s[1..])
  }

  lemma {:induction false} NewlinesConcat(a: Bytes, b: Bytes)
    ensures Newlines(a + b) == Newlines(a) + Newlines(b)
  {
    if a == [] {
      assert a + b == b;
    } else {
      assert (a + b)[1..] == a[1..] + b;
      NewlinesConcat(a[1..], b);
    }
  }

  lemma {:induction false} NoNewlines(s: Bytes)
    requires forall i :: 0 <= i < |s| ==> s[i] != NEWLINE
    ensures Newlines(s) == 0
  {
    if s != [] {
      NoNewlines(s[1..]);
    }
  }

  /** A text that is not empty has one line more than newlines before its last byte. */
  lemma {:induction false} LineCount(s: Bytes)
    requires s != []
    ensures |Lines(s)| == 1 + Newlines(s[..|s| - 1])
    decreases |s|
  {
    var k := FirstLine(s);
    var rest := s[k..];
    NoNewlines(s[..k - 1]);
    if k == |s| {
      assert Lines(rest) == [];
    } else {
      LineCount(rest);
      assert s[..|s| - 1] == s[..k - 1] + [NEWLINE] + rest[..|rest| - 1];
      NewlinesConcat(s[..k - 1] + [NEWLINE], rest[..|rest| - 1]);
      NewlinesConcat(s[..k - 1], [NEWLINE]);
      assert Newlines([NEWLINE]) == 1;
    }
  }

  // ---------------------------------------------------------------------------------------------
  // The plain backward scan
  // ---------------------------------------------------------------------------------------------

  datatype TailStart = TailStart(offset: nat, scanTruncated: bool)

  function ScanBack(file: Bytes, position: nat, minimum: nat, lines: nat, maxLines: int): (r: TailStart)
    requires minimum <= position <= |file|
    ensures r.offset <= |file|
    decreases position
  {
    if position == minimum then TailStart(minimum, minimum > 0)
    else
      var i := position - 1;
      if file[i] != NEWLINE || i == |file| - 1 then ScanBack(file, i, minimum, lines, maxLines)
      else if lines >= maxLines then TailStart(i + 1, false)
      else ScanBack(file, i, minimum, lines + 1, maxLines)
  }

  function ScanLimit(size: nat, maxScanBytes: int): (m: nat)
    ensures m <= size
  {
    Max(0, size - Max(0, maxScanBytes))
  }

  function Tail(file: Bytes, maxLines: int, maxScanBytes: int): (r: TailStart)
    ensures r.offset <= |file|
  {
    if |file| == 0 || maxLines <= 0 then TailStart(|file|, false)
    else ScanBack(file, |file|, ScanLimit(|file|, maxScanBytes), 1, maxLines)
  }

  /** Newlines from `position` on, a final one not counted. */
  ghost function Seen(file: Bytes, position: nat): nat
    requires position <= |file|
  {
    if position == |file| then 0 else Newlines(file[position..|file| - 1])
  }

  lemma SeenOneMore(file: Bytes, i: nat)
    requires i < |file|
    ensures Seen(file, i) == Seen(file, i + 1) + if file[i] == NEWLINE && i != |file| - 1 then 1 else 0
  {
    if i == |file| - 1 {
      assert file[i..|file| - 1] == [];
    } else {
      assert file[i..|file| - 1][1..] == file[i + 1..|file| - 1];
    }
  }

  /** Where the scan ends: right after the newline that `maxLines` counted newlines make the last one
      wanted, or at the limit when there are not that many. */
  lemma {:induction false} ScanBackEnds(file: Bytes, position: nat, minimum: nat, lines: nat, maxLines: int)
    requires minimum <= position <= |file|
    requires lines == 1 + Seen(file, position) && lines <= maxLines
    ensures var r := ScanBack(file, position, minimum, lines, maxLines);
            if Seen(file, minimum) < maxLines then r == TailStart(minimum, minimum > 0)
            else
              && !r.scanTruncated && minimum < r.offset < |file|
              && file[r.offset - 1] == NEWLINE
              && Seen(file, r.offset) == maxLines - 1
    decreases position
  {
    if position > minimum {
      var i := position - 1;
      SeenOneMore(file, i);
      if file[i] != NEWLINE || i == |file| - 1 {
        ScanBackEnds(file, i, minimum, lines, maxLines);
      } else if lines >= maxLines {
        SeenGrows(file, minimum, i);
      } else {
        ScanBackEnds(file, i, minimum, lines + 1, maxLines);
      }
    }
  }

  lemma {:induction false} SeenGrows(file: Bytes, lower: nat, upper: nat)
    requires lower <= upper <= |file|
    ensures Seen(file, upper) <= Seen(file, lower)
    decreases upper - lower
  {
    if lower < upper {
      SeenOneMore(file, lower);
      SeenGrows(file, lower + 1, upper);
    }
  }

  lemma LinesFrom(file: Bytes, position: nat)
    requires position < |file|
    ensures |Lines(file[position..])| == 1 + Seen(file, position)
  {
    LineCount(file[position..]);
    var suffix := file[position..];
    assert suffix[..|suffix| - 1] == file[position..|file| - 1];
  }

  ghost function LastOf(lines: seq<Bytes>, n: nat): seq<Bytes> {
    if n < |lines| then lines[|lines| - n..] else lines
  }

  /** The tail start is where the last `maxLines` lines begin, when they fit within the scan limit;
      otherwise it is the scan limit, and the scan counts as truncated exactly when that is not the
      start of the file. */
  lemma TailMeaning(file: Bytes, maxLines: int, maxScanBytes: int)
    ensures var r := Tail(file, maxLines, maxScanBytes);
            && (!r.scanTruncated ==> Lines(file[r.offset..]) == LastOf(Lines(file), Max(0, maxLines)))
            && (r.scanTruncated ==>
                  && r.offset == |file| - Max(0, maxScanBytes) > 0
                  && |Lines(file[r.offset..])| <= maxLines)
  {
    assert Seen(file, |file|) == 0;
    hide ScanBack, Seen;
    var r := Tail(file, maxLines, maxScanBytes);
    if |file| == 0 || maxLines <= 0 {
      assert file[r.offset..] == [];
      assert LastOf(Lines(file), Max(0, maxLines)) == [];
    } else {
      var minimum := ScanLimit(|file|, maxScanBytes);
      ScanBackEnds(file, |file|, minimum, 1, maxLines);
      if Seen(file, minimum) < maxLines {
        LimitReached(file, minimum, maxLines);
      } else {
        TailLines(file, r.offset, maxLines);
      }
    }
  }

  /** Behind the newline that leaves `maxLines` lines, those are the last ones. */
  lemma TailLines(file: Bytes, offset: nat, maxLines: nat)
    requires 0 < offset < |file| && file[offset - 1] == NEWLINE && Seen(file, offset) == maxLines - 1
    ensures Lines(file[offset..]) == LastOf(Lines(file), maxLines)
  {
    hide Lines;
    LinesFrom(file, offset);
    assert file == file[..offset] + file[offset..];
    LinesConcat(file[..offset], file[offset..]);
  }

  lemma LimitReached(file: Bytes, minimum: nat, maxLines: nat)
    requires minimum <= |file| && Seen(file, minimum) < maxLines
    ensures |Lines(file[minimum..])| <= maxLines
    ensures minimum == 0 ==> Lines(file[minimum..]) == LastOf(Lines(file), maxLines)
  {
    if minimum < |file| {
      LinesFrom(file, minimum);
    } else {
      assert file[minimum..] == [];
    }
    assert minimum == 0 ==> file[minimum..] == file;
  }

  // ---------------------------------------------------------------------------------------------
  // The chunked scan over a file handle
  // ---------------------------------------------------------------------------------------------

  /** The bytes of the file in the range, as far as the file goes. */
  function Range(file: Bytes, start: nat, length: nat): Bytes {
    if start >= |file| then [] else file[start..Min(start + length, |file|)]
  }

  /** `file.read`: some of the bytes asked for, at least one unless none are left. */
  method ReadSome(file: Bytes, start: nat, length: nat) returns (got: Bytes)
    requires length > 0
    ensures got == Range(file, start, |got|) && |got| <= length
    ensures got == [] <==> start >= |file|
  {
    if start >= |file| {
      return [];
    }
    var available := Min(length, |file| - start);
    var n: nat :| 1 <= n <= available;
    got := file[start..start + n];
  }

  method ReadHandleRange(file: Bytes, start: nat, length: int) returns (buffer: Bytes)
    ensures buffer == Range(file, start, Max(0, length))
  {
    var wanted := Max(0, length);
    buffer := [];
    while |buffer| < wanted
      invariant |buffer| <= wanted
      invariant buffer == Range(file, start, |buffer|)
      decreases wanted - |buffer|
    {
      var got := ReadSome(file, start + |buffer|, wanted - |buffer|);
      if got == [] {
        break;
      }
      buffer := buffer + got;
    }
  }

  /** The plain scan from `position` on, with `lines` counted, finds `target`. */
  ghost predicate Finds(file: Bytes, position: nat, minimum: nat, lines: nat, maxLines: int, target: TailStart) {
    minimum <= position <= |file| && ScanBack(file, position, minimum, lines, maxLines) == target
  }

  lemma ScanBackStep(file: Bytes, i: nat, minimum: nat, lines: nat, maxLines: int, target: TailStart)
    requires minimum <= i < |file| && Finds(file, i + 1, minimum, lines, maxLines, target)
    ensures if file[i] != NEWLINE || i == |file| - 1 then Finds(file, i, minimum, lines, maxLines, target)
            else if lines >= maxLines then target == TailStart(i + 1, false)
            else Finds(file, i, minimum, lines + 1, maxLines, target)
  {
  }

  lemma ScanBackStart(file: Bytes, maxLines: int, maxScanBytes: int)
    requires |file| > 0 && maxLines > 0
    ensures Finds(file, |file|, ScanLimit(|file|, maxScanBytes), 1, maxLines, Tail(file, maxLines, maxScanBytes))
  {
    hide ScanBack;
  }

  method FindTailStart(file: Bytes, maxLines: int, maxScanBytes: int, chunkBytes: nat) returns (r: TailStart)
    requires chunkBytes > 0
    ensures r == Tail(file, maxLines, maxScanBytes)
  {
    var size := |file|;
    if size <= 0 || maxLines <= 0 {
      return TailStart(size, false);
    }
    var position: nat := size;
    var minimum := ScanLimit(size, maxScanBytes);
    var includedLines: nat := 1;
    ghost var target := Tail(file, maxLines, maxScanBytes);
    ScanBackStart(file, maxLines, maxScanBytes);
    hide Finds, ScanBack, Tail, ScanLimit;
    while position > minimum
      invariant minimum <= position <= size
      invariant Finds(file, position, minimum, includedLines, maxLines, target)
    {
      var chunkSize := Min(chunkBytes, position - minimum);
      position := position - chunkSize;
      var chunk := ReadHandleRange(file, position, chunkSize);
      assert chunk == file[position..position + chunkSize];
      var index := |chunk|;
      while index > 0
        invariant 0 <= index <= |chunk|
        invariant Finds(file, position + index, minimum, includedLines, maxLines, target)
      {
        index := index - 1;
        assert chunk[index] == file[position + index];
        ScanBackStep(file, position + index, minimum, includedLines, maxLines, target);
        if chunk[index] != NEWLINE || position + index == size - 1 {
          continue;
        }
        if includedLines >= maxLines {
          return TailStart(position + index + 1, false);
        }
        includedLines := includedLines + 1;
      }
    }
    ScanBackEnd(file, minimum, includedLines, maxLines, target);
    r := TailStart(minimum, minimum > 0);
  }

  lemma ScanBackEnd(file: Bytes, minimum: nat, lines: nat, maxLines: int, target: TailStart)
    requires Finds(file, minimum, minimum, lines, maxLines, target)
    ensures target == TailStart(minimum, minimum > 0)
  {
  }

  // ---------------------------------------------------------------------------------------------
  // The bounded tail
  // ---------------------------------------------------------------------------------------------

  /** Whether the scan or the cut loses anything is decided by the length of the last lines alone, as long
      as the scan may go further than the output may be long. */
  lemma TailFits(file: Bytes, maxLines: int, capped: nat)
    requires capped < MAX_SCAN_BYTES
    ensures var start := Tail(file, maxLines, ScanBytes(capped));
            start.scanTruncated || |file| - start.offset > capped
            <==> |Flatten(LastOf(Lines(file), Max(0, maxLines)))| > capped
  {
    var start := Tail(file, maxLines, ScanBytes(capped));
    TailMeaning(file, maxLines, ScanBytes(capped));
    if start.scanTruncated {
      WholeTailIsLonger(file, maxLines, ScanBytes(capped));
    } else {
      LinesRejoin(file[start.offset..]);
    }
  }

  /** Counting down from the end, the newline before the last `maxLines` lines is the first that makes
      them that many. */
  lemma StartsBefore(file: Bytes, maxLines: nat, minimum: nat, offset: nat)
    requires minimum <= |file| && Seen(file, minimum) < maxLines
    requires 0 < offset < |file| && file[offset - 1] == NEWLINE && Seen(file, offset) == maxLines - 1
    ensures offset <= minimum
  {
    SeenOneMore(file, offset - 1);
    hide Seen;
    if minimum < offset {
      SeenGrows(file, minimum, offset - 1);
    }
  }

  /** Where the last lines start, and where a limited scan for them ends. */
  lemma TailStarts(file: Bytes, maxLines: nat, scan: nat)
    requires file != [] && maxLines > 0
    ensures var (whole, r) := (Tail(file, maxLines, |file|), Tail(file, maxLines, scan));
            && (whole.offset == 0 || (0 < whole.offset < |file| && file[whole.offset - 1] == NEWLINE
                                      && Seen(file, whole.offset) == maxLines - 1))
            && !whole.scanTruncated
            && (r.scanTruncated ==> Seen(file, ScanLimit(|file|, scan)) < maxLines && ScanLimit(|file|, scan) == |file| - scan)
  {
    assert Seen(file, |file|) == 0;
    hide ScanBack, Seen;
    ScanBackEnds(file, |file|, ScanLimit(|file|, scan), 1, maxLines);
    ScanBackEnds(file, |file|, ScanLimit(|file|, |file|), 1, maxLines);
  }

  /** A scan that stopped at its limit had at least that much to go. */
  lemma WholeTailIsLonger(file: Bytes, maxLines: int, scan: nat)
    requires Tail(file, maxLines, scan).scanTruncated
    ensures |Flatten(LastOf(Lines(file), Max(0, maxLines)))| >= scan
  {
    var whole := Tail(file, maxLines, |file|);
    TailMeaning(file, maxLines, |file|);
    LinesRejoin(file[whole.offset..]);
    TailStarts(file, maxLines, scan);
    hide Lines, Flatten, LastOf, Tail, Seen;
    if whole.offset > 0 {
      StartsBefore(file, maxLines, ScanLimit(|file|, scan), whole.offset);
    }
  }

  /** The scan is cut short exactly when the file is longer than the scan may go and the last lines are
      at least that long. */
  lemma ScanTruncatedExactly(file: Bytes, maxLines: int, scan: nat)
    ensures Tail(file, maxLines, scan).scanTruncated
       <==> |file| > scan && maxLines > 0 && |Flatten(LastOf(Lines(file), Max(0, maxLines)))| >= scan
  {
    var r := Tail(file, maxLines, scan);
    TailMeaning(file, maxLines, scan);
    if r.scanTruncated {
      WholeTailIsLonger(file, maxLines, scan);
    } else if |file| > scan && maxLines > 0 {
      LinesRejoin(file[r.offset..]);
      PastTheLimit(file, maxLines, scan);
    }
  }

  lemma PastTheLimit(file: Bytes, maxLines: int, scan: nat)
    requires !Tail(file, maxLines, scan).scanTruncated && |file| > scan && maxLines > 0
    ensures Tail(file, maxLines, scan).offset > |file| - scan
  {
    assert Seen(file, |file|) == 0;
    hide ScanBack, Seen;
    ScanBackEnds(file, |file|, ScanLimit(|file|, scan), 1, maxLines);
  }

  method ReadFileBounded(file: Bytes, maxBytes: int) returns (r: Bounded)
    ensures r == Truncated(file, Max(0, maxBytes))
  {
    var capped: nat := Max(0, maxBytes);
    var buffer := ReadHandleRange(file, 0, capped + 1);
    assert buffer == First(file, capped + 1);
    CutEitherWay(file, capped);
    r := Truncated(buffer, capped);
  }

  function ScanBytes(capped: nat): nat { Max(CHUNK_BYTES, Min(MAX_SCAN_BYTES, capped * 4 + 1)) }

  method ReadFileTailBounded(file: Bytes, maxBytes: int, maxLines: int) returns (r: Bounded)
    ensures |r.value| <= Max(0, maxBytes)
    ensures var start := Tail(file, maxLines, Max(65536, Min(8388608, Max(0, maxBytes) * 4 + 1)));
            r.truncated <==> start.scanTruncated || |file| - start.offset > Max(0, maxBytes)
    ensures maxBytes < MAX_SCAN_BYTES ==>
              (r.truncated <==> |Flatten(LastOf(Lines(file), Max(0, maxLines)))| > Max(0, maxBytes))
    ensures !r.truncated ==> r.value == Flatten(LastOf(Lines(file), Max(0, maxLines)))
    ensures r.truncated && maxBytes < MAX_SCAN_BYTES ==>
              r == Truncated(file[Tail(file, maxLines, Max(65536, Min(8388608, Max(0, maxBytes) * 4 + 1))).offset..],
                             Max(0, maxBytes))
  {
    hide Tail, ScanBack, ScanLimit, Lines, Flatten, LastOf, Truncated, WithMarker, Marker, First, Range;
    var capped: nat := Max(0, maxBytes);
    var start := FindTailStart(file, maxLines, ScanBytes(capped), CHUNK_BYTES);
    TailMeaning(file, maxLines, ScanBytes(capped));
    var buffer := ReadHandleRange(file, start.offset, Min(|file| - start.offset, capped + 1));
    ghost var suffix := file[start.offset..];
    BufferIs(file, start.offset, capped);
    CutEitherWay(suffix, capped);
    LinesRejoin(suffix);
    TruncatedFlag(buffer, capped);
    MarkerSetsFlag(buffer, capped);
    if maxBytes < MAX_SCAN_BYTES {
      TailFits(file, maxLines, capped);
    }
    r := Truncated(buffer, capped);
    if start.scanTruncated && !r.truncated {
      r := WithMarker(r.value, capped);
    }
  }

  lemma BufferIs(file: Bytes, start: nat, capped: nat)
    requires start <= |file|
    ensures var buffer := Range(file, start, Min(|file| - start, capped + 1));
            buffer == First(file[start..], capped + 1)
            && |buffer| == Min(|file| - start, capped + 1)
            && (|buffer| <= capped ==> buffer == file[start..])
  {
  }

  lemma TruncatedFlag(b: Bytes, maxBytes: nat)
    ensures var r := Truncated(b, maxBytes);
            (r.truncated <==> |b| > maxBytes) && (!r.truncated ==> r.value == b) && (r.truncated ==> |r.value| == maxBytes)
  {
    TruncatedMeaning(b, maxBytes);
    hide Truncated;
  }

  /** One byte beyond the limit is enough to know what truncation gives. */
  lemma CutEitherWay(suffix: Bytes, capped: nat)
    ensures Truncated(First(suffix, capped + 1), capped) == Truncated(suffix, capped)
  {
    if |suffix| > capped {
      MarkerSeesThePrefix(suffix, capped);
      MarkerSeesThePrefix(First(suffix, capped + 1), capped);
      assert First(First(suffix, capped + 1), capped) == First(suffix, capped);
    }
  }
}
