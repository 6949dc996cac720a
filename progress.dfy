/** Streaming one response body into the open target file (download.py, the body of the
    `with open(filename, "wb")` block): either the whole body at once, or chunk by chunk
    with a 50-character progress bar after every chunk. */
module Progress {
  import opened Builtins
  import opened Host

  /** The bytes of the chunks, in order. */
  function Concat(chunks: seq<Bytes>): Bytes {
    if chunks == [] then [] else Concat(chunks[..|chunks| - 1]) + chunks[|chunks| - 1]
  }

  /** `done`, the number of '=' in the bar: int(50 * dl / total_length). */
  function Fill(dl: nat, total: int): int
    requires total != 0
  {
    TruncDiv(50 * dl, total)
  }

  /** The percentage shown after the bar: int(100 * dl / total_length). */
  function Percent(dl: nat, total: int): int
    requires total != 0
  {
    TruncDiv(100 * dl, total)
  }

  /** The text between the brackets of the bar. */
  function BarInterior(done: int): string {
    Repeat('=', done) + Repeat(' ', 50 - done)
  }

  function Bar(dl: nat, total: int): Event
    requires total != 0
  {
    ProgressBar(dl, Fill(dl, total), Percent(dl, total))
  }

  /** The bar written after each chunk, for chunks received so far. */
  function ProgressEvents(chunks: seq<Bytes>, total: int): seq<Event>
    requires total != 0
  {
    if chunks == [] then []
    else ProgressEvents(chunks[..|chunks| - 1], total) + [Bar(|Concat(chunks)|, total)]
  }

  /** What streaming a body does: the bytes the file receives, the bars written, and the
      exception that escapes, if any. */
  datatype Transfer = Transfer(written: Bytes, progress: seq<Event>, raised: Option<Exception>)

  /** Without Content-Length the body is written in one piece. With it, int() of the
      header must parse (ValueError otherwise); a length of 0 raises ZeroDivisionError
      when the bar is computed after the first chunk has already been written. */
  function BodyTransfer(contentLength: Option<string>, chunks: seq<Bytes>): Transfer {
    match contentLength
    case None => Transfer(Concat(chunks), [], None)
    case Some(header) =>
      match ParseInt(header)
      case None => Transfer([], [], Some(ValueError))
      case Some(total) => StreamTransfer(chunks, total)
  }

  /** The chunk loop for a parsed Content-Length `total`. */
  function StreamTransfer(chunks: seq<Bytes>, total: int): Transfer {
    if total == 0 then
      if chunks == [] then Transfer([], [], None) else Transfer(chunks[0], [], Some(ZeroDivisionError))
    else Transfer(Concat(chunks), ProgressEvents(chunks, total), None)
  }

  // ---- arithmetic of the bar ----

  lemma DivAtMost(a: nat, b: nat, n: nat)
    requires n > 0 && a <= b * n
    ensures a / n <= b
  {
    var q := a / n;
    assert q * n <= a;
    assert q * n <= b * n;
    assert (q - b) * n <= 0;
  }

  lemma DivBelow(a: nat, b: nat, n: nat)
    requires n > 0 && a < b * n
    ensures a / n < b
  {
    var q := a / n;
    assert q * n <= a;
    assert (q - b) * n < 0;
  }

  lemma DivMonotone(a: nat, b: nat, n: nat)
    requires n > 0 && a <= b
    ensures a / n <= b / n
  {
    var q := b / n;
    assert b < (q + 1) * n;
    assert a < (q + 1) * n;
    DivBelow(a, q + 1, n);
  }

  lemma MulMonotone(x: int, y: int, n: nat)
    requires x <= y
    ensures x * n <= y * n
  {
    assert y * n - x * n == (y - x) * n;
  }

  lemma DivAtLeast(a: nat, b: nat, n: nat)
    requires n > 0 && b * n <= a
    ensures b <= a / n
  {
    var q := a / n;
    assert a == q * n + a % n;
    if q < b {
      assert (q + 1) * n == q * n + n;
      MulMonotone(q + 1, b, n);
    }
  }

  /** int(k * dl / total) for 0 <= dl <= total lies in [0, k] and reaches k exactly when
      dl == total. */
  lemma ScaledShare(k: nat, dl: nat, total: nat)
    requires 0 < k && 0 < total && dl <= total
    ensures TruncDiv(k * dl, total) == (k * dl) / total
    ensures 0 <= (k * dl) / total <= k
    ensures (k * dl) / total == k <==> dl == total
  {
    var a := k * dl;
    var q := a / total;
    assert a <= k * total by {
      assert k * total - a == k * (total - dl);
    }
    DivAtMost(a, k, total);
    if dl < total {
      assert a < k * total by {
        assert k * total - a == k * (total - dl);
      }
      DivBelow(a, k, total);
    } else {
      DivAtLeast(a, k, total);
    }
  }

  /** While no more than Content-Length bytes have arrived, the fill is in [0, 50], the bar
      interior is exactly 50 characters, the percentage is in [0, 100], and the bar is full
      (and shows 100%) exactly when every byte has arrived. */
  lemma BarWithinBounds(dl: nat, total: int)
    requires 0 < total && dl <= total
    ensures 0 <= Fill(dl, total) <= 50 && |BarInterior(Fill(dl, total))| == 50
    ensures 0 <= Percent(dl, total) <= 100
    ensures Fill(dl, total) == 50 <==> dl == total
    ensures Percent(dl, total) == 100 <==> dl == total
  {
    ScaledShare(50, dl, total);
    ScaledShare(100, dl, total);
  }

  /** More bytes never shrink the bar or the percentage. */
  lemma BarMonotone(dl1: nat, dl2: nat, total: int)
    requires 0 < total && dl1 <= dl2
    ensures Fill(dl1, total) <= Fill(dl2, total)
    ensures Percent(dl1, total) <= Percent(dl2, total)
  {
    DivMonotone(50 * dl1, 50 * dl2, total);
    DivMonotone(100 * dl1, 100 * dl2, total);
  }

  // ---- the byte counter ----

  lemma {:induction false} ConcatPrefixLength(chunks: seq<Bytes>, j: nat, k: nat)
    requires j <= k <= |chunks|
    ensures |Concat(chunks[..j])| <= |Concat(chunks[..k])|
    decreases k - j
  {
    if j < k {
      ConcatPrefixLength(chunks, j, k - 1);
      assert chunks[..k][..k - 1] == chunks[..k - 1];
    }
  }

  /** One bar per chunk; the counter of the bar after chunk k is the number of bytes in
      chunks 0..k, so it never decreases and ends at the length of the whole body. */
  lemma {:induction false} ProgressCountsBytes(chunks: seq<Bytes>, total: int)
    requires total != 0
    ensures |ProgressEvents(chunks, total)| == |chunks|
    ensures forall k :: 0 <= k < |chunks| ==>
      ProgressEvents(chunks, total)[k] == Bar(|Concat(chunks[..k + 1])|, total)
    ensures forall j, k :: 0 <= j <= k < |chunks| ==>
      && ProgressEvents(chunks, total)[j].ProgressBar?
      && ProgressEvents(chunks, total)[k].ProgressBar?
      && ProgressEvents(chunks, total)[j].received <= ProgressEvents(chunks, total)[k].received
    ensures chunks != [] ==> ProgressEvents(chunks, total)[|chunks| - 1] == Bar(|Concat(chunks)|, total)
  {
    var p := ProgressEvents(chunks, total);
    ProgressCounters(chunks, total);
    forall j, k | 0 <= j <= k < |chunks|
      ensures p[j].received <= p[k].received
    {
      ConcatPrefixLength(chunks, j + 1, k + 1);
    }
    if chunks != [] {
      assert chunks[..|chunks|] == chunks;
    }
  }

  /** The bar after chunk k counts the bytes of chunks 0..k. */
  lemma {:induction false} ProgressCounters(chunks: seq<Bytes>, total: int)
    requires total != 0
    ensures |ProgressEvents(chunks, total)| == |chunks|
    ensures forall k :: 0 <= k < |chunks| ==>
      ProgressEvents(chunks, total)[k] == Bar(|Concat(chunks[..k + 1])|, total)
  {
    var p := ProgressEvents(chunks, total);
    if chunks != [] {
      var init := chunks[..|chunks| - 1];
      ProgressCounters(init, total);
      forall k | 0 <= k < |chunks|
        ensures p[k] == Bar(|Concat(chunks[..k + 1])|, total)
      {
        if k < |chunks| - 1 {
          assert init[..k + 1] == chunks[..k + 1];
        } else {
          assert chunks[..k + 1] == chunks;
        }
      }
    }
  }

  lemma ProgressBarsFit(chunks: seq<Bytes>, total: int)
    requires 0 < total && |Concat(chunks)| <= total
    ensures forall e :: e in ProgressEvents(chunks, total) ==>
      e.ProgressBar? && e.received <= total && 0 <= e.done <= 50 && |BarInterior(e.done)| == 50 && 0 <= e.percent <= 100
    ensures chunks != [] && |Concat(chunks)| == total ==>
      var p := ProgressEvents(chunks, total); p[|p| - 1] == ProgressBar(total, 50, 100)
  {
    var p := ProgressEvents(chunks, total);
    ProgressCountsBytes(chunks, total);
    forall e | e in p
      ensures e.ProgressBar? && e.received <= total && 0 <= e.done <= 50 && |BarInterior(e.done)| == 50 && 0 <= e.percent <= 100
    {
      var k :| 0 <= k < |p| && p[k] == e;
      ConcatPrefixLength(chunks, k + 1, |chunks|);
      assert chunks[..|chunks|] == chunks;
      BarWithinBounds(e.received, total);
    }
    if chunks != [] && |Concat(chunks)| == total {
      BarWithinBounds(total, total);
    }
  }

  /** The file receives the whole body, in order, whenever nothing escapes; what escapes,
      and what is left in the file when it does, follows from the header and the chunks. */
  lemma TransferOutcome(contentLength: Option<string>, chunks: seq<Bytes>)
    ensures var t := BodyTransfer(contentLength, chunks);
      && (t.raised == None ==> t.written == Concat(chunks))
      && (contentLength == None ==> t.raised == None && t.progress == [])
      && (t.raised == Some(ValueError) <==> contentLength.Some? && ParseInt(contentLength.value) == None)
      && (t.raised == Some(ZeroDivisionError) <==>
            contentLength.Some? && ParseInt(contentLength.value) == Some(0) && chunks != [])
      && (t.raised == Some(ZeroDivisionError) ==> t.written == chunks[0])
  {
  }

  lemma AppendTwice(m: map<Path, Bytes>, path: Path, first: Bytes, second: Bytes)
    requires path in m
    ensures m[path := m[path] + first][path := m[path] + first + second]
         == m[path := m[path] + (first + second)]
  {
    assert m[path] + first + second == m[path] + (first + second);
  }

  /** The body of the `with open(filename, "wb")` block after the GET: the file at `path`
      (already open) receives the body and the bars are written to the console. */
  method WriteBody(fs: FileSystem, con: Console, path: Path, contentLength: Option<string>, chunks: seq<Bytes>)
    returns (raised: Option<Exception>)
    requires path in fs.files
    modifies fs, con
    ensures var t := BodyTransfer(contentLength, chunks);
      && fs.files == old(fs.files)[path := old(fs.files)[path] + t.written]
      && con.events == old(con.events) + t.progress
      && raised == t.raised
  {
    if contentLength.None? {
      fs.Append(path, Concat(chunks));
      return None;
    }
    assert fs.files[path] + [] == fs.files[path] && fs.files[path := fs.files[path]] == fs.files;
    var parsed := ParseInt(contentLength.value);
    if parsed.None? {
      return Some(ValueError);
    }
    raised := StreamChunks(fs, con, path, chunks, parsed.value);
  }

  /** One more chunk, as the loop below sees it: the file `f` holding the earlier chunks
      receives this one, `dl` grows by its length, and its bar is the next one. */
  lemma StreamStep(m: map<Path, Bytes>, f: map<Path, Bytes>, path: Path, chunks: seq<Bytes>, k: nat, total: int)
    requires path in m && k < |chunks| && f == m[path := m[path] + Concat(chunks[..k])]
    ensures f[path := f[path] + chunks[k]] == m[path := m[path] + Concat(chunks[..k + 1])]
    ensures |Concat(chunks[..k + 1])| == |Concat(chunks[..k])| + |chunks[k]|
    ensures k == 0 ==> Concat(chunks[..k + 1]) == chunks[0]
    ensures total != 0 ==> ProgressEvents(chunks[..k + 1], total)
                           == ProgressEvents(chunks[..k], total) + [Bar(|Concat(chunks[..k])| + |chunks[k]|, total)]
  {
    assert chunks[..k + 1][..k] == chunks[..k];
    assert Concat(chunks[..k + 1]) == Concat(chunks[..k]) + chunks[k];
    AppendTwice(m, path, Concat(chunks[..k]), chunks[k]);
    if k == 0 {
      assert chunks[..0] == [];
    }
  }

  /** The body of the loop for one chunk `data`: count it, write it, then draw the bar,
      whose division raises ZeroDivisionError for a Content-Length of 0. */
  method WriteChunk(fs: FileSystem, con: Console, path: Path, data: Bytes, dl: int, total: int)
    returns (dl': int, raised: Option<Exception>)
    requires path in fs.files && dl >= 0
    modifies fs, con
    ensures dl' == dl + |data|
    ensures fs.files == old(fs.files)[path := old(fs.files)[path] + data]
    ensures total == 0 ==> raised == Some(ZeroDivisionError) && con.events == old(con.events)
    ensures total != 0 ==> raised.None? && con.events == old(con.events) + [Bar(dl', total)]
  {
    dl' := dl + |data|;
    fs.Append(path, data);
    if total == 0 {
      return dl', Some(ZeroDivisionError);
    }
    con.Emit(Bar(dl', total));
    raised := None;
  }

  /** The loop over response.iter_content(chunk_size=4096): add the chunk's length to `dl`,
      write the chunk, then draw the bar for `dl` of `total` bytes. */
  method StreamChunks(fs: FileSystem, con: Console, path: Path, chunks: seq<Bytes>, total: int)
    returns (raised: Option<Exception>)
    requires path in fs.files
    modifies fs, con
    ensures var t := StreamTransfer(chunks, total);
      && fs.files == old(fs.files)[path := old(fs.files)[path] + t.written]
      && con.events == old(con.events) + t.progress
      && raised == t.raised
  {
    ghost var files0, events0 := fs.files, con.events;
    var dl := 0;
    var k := 0;
    ghost var bars: seq<Event> := [];
    assert chunks[..0] == [];
    assert files0[path] + [] == files0[path] && files0[path := files0[path]] == files0;
    while k < |chunks|
      invariant 0 <= k <= |chunks|
      invariant total == 0 ==> k == 0
      invariant dl == |Concat(chunks[..k])|
      invariant fs.files == files0[path := files0[path] + Concat(chunks[..k])]
      invariant bars == if total == 0 then [] else ProgressEvents(chunks[..k], total)
      invariant con.events == events0 + bars
    {
      StreamStep(files0, fs.files, path, chunks, k, total);
      dl, raised := WriteChunk(fs, con, path, chunks[k], dl, total);
      if raised.Some? {
        assert k == 0 && StreamTransfer(chunks, total) == Transfer(chunks[0], [], Some(ZeroDivisionError));
        return;
      }
      Regroup(events0, bars, [Bar(dl, total)]);
      bars := bars + [Bar(dl, total)];
      k := k + 1;
    }
    assert chunks[..k] == chunks;
    assert total != 0 ==> StreamTransfer(chunks, total) == Transfer(Concat(chunks), ProgressEvents(chunks, total), None);
    raised := None;
  }
}
