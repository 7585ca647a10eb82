/** Reading a chunk from the model file, whatever short reads the kernel answers with. */
module Fetch {
  import opened Layout

  newtype Byte = x: int | 0 <= x < 256

  /** The kernel's answer to a read: interrupted, failed, or at most that many of the bytes wanted. */
  datatype Answer = Interrupted | Failed | Short(n: nat)

  datatype Outcome = Fetched | ReadFailed | UnexpectedEof | MisalignedTarget

  /** Byte `i` of the file, and zeros after its end. */
  function Padded(file: seq<Byte>, i: nat): Byte {
    if i < |file| then file[i] else 0
  }

  /** The bytes a read of `want` bytes at `off` delivers: none at the end of the file, else at least one. */
  function Delivered(file: seq<Byte>, off: nat, want: nat, n: nat): (d: nat)
    requires want > 0
    ensures d <= want && off + d <= (if off < |file| then |file| else off) && (d == 0 <==> off >= |file|)
  {
    if off >= |file| then 0
    else
      var most := if want <= |file| - off then want else |file| - off;
      if n == 0 then 1 else if n <= most then n else most
  }

  /** The pages of a chunk, widened to where its padding starts if the file ends before them. */
  function Low(chunk: Spec, fileSize: nat): nat {
    var start := AlignDown(chunk.fileOff);
    if 0 < fileSize < start then fileSize else start
  }

  function High(chunk: Spec): nat {
    AlignUp(chunk.fileOff + chunk.len)
  }

  ghost predicate Written(file: seq<Byte>, mem: seq<Byte>, from: nat, upTo: nat) {
    forall i :: from <= i < upTo && i < |mem| ==> mem[i] == Padded(file, i)
  }

  /** Outside the range nothing is written, and inside it nothing wrong. */
  ghost predicate OnlyRight(file: seq<Byte>, before: seq<Byte>, mem: seq<Byte>, low: nat, high: nat) {
    && |mem| == |before|
    && forall i :: 0 <= i < |mem| ==> mem[i] == before[i] || (low <= i < high && mem[i] == Padded(file, i))
  }

  ghost predicate NoFailure(script: seq<Answer>) {
    forall k :: 0 <= k < |script| ==> !script[k].Failed?
  }

  /** One read loop: from `from` up to `upTo`, following `script` from answer `used` on and delivering in
      full once it is exhausted. */
  method ReadRange(mem: array<Byte>, file: seq<Byte>, from: nat, upTo: nat, script: seq<Answer>, used: nat)
    returns (r: Outcome, next: nat)
    requires upTo <= mem.Length && used <= |script|
    modifies mem
    ensures r == Fetched || r == ReadFailed || r == UnexpectedEof
    ensures used <= next <= |script|
    ensures OnlyRight(file, old(mem[..]), mem[..], from, upTo)
    ensures r == Fetched ==> from <= upTo ==> Written(file, mem[..], from, upTo)
    ensures r == UnexpectedEof ==> upTo > |file| && from < upTo
    ensures r == Fetched && from < upTo ==> upTo <= |file|
    ensures r == ReadFailed <==> !NoFailure(script[used..next])
  {
    var off := from;
    next := used;
    while off < upTo
      invariant from <= off && (from <= upTo ==> off <= upTo) && used <= next <= |script|
      invariant OnlyRight(file, old(mem[..]), mem[..], from, upTo) && Written(file, mem[..], from, off)
      invariant off > from ==> off <= |file|
      invariant NoFailure(script[used..next])
      decreases upTo - off, |script| - next
    {
      var want := upTo - off;
      var answer := Short(want);
      ghost var before := next;
      if next < |script| {
        answer := script[next];
        next := next + 1;
        assert script[used..next] == script[used..before] + [answer];
      }
      match answer
      case Interrupted =>
      case Failed => return ReadFailed, next;
      case Short(k) =>
        var n := Delivered(file, off, want, k);
        if n == 0 {
          return UnexpectedEof, next;
        }
        forall i | off <= i < off + n {
          mem[i] := file[i];
        }
        off := off + n;
    }
    r := Fetched;
  }

  /** Where the chunk's pages start and end, where the part that is read directly ends and the tail begins,
      and where the tail ends: there is one only if the file ends inside the pages. */
  method Split(chunk: Spec, fileSize: nat) returns (start: nat, end: nat, directEnd: nat, tailEnd: nat)
    requires chunk.len > 0
    ensures start == AlignDown(chunk.fileOff) <= chunk.fileOff && chunk.fileOff + chunk.len <= end == High(chunk)
    ensures start % ALIGN == 0 && start <= directEnd <= end
    ensures fileSize == 0 || end <= fileSize ==> directEnd == tailEnd == end
    ensures 0 < fileSize < end ==> tailEnd == fileSize && directEnd == if start < AlignDown(fileSize) then AlignDown(fileSize) else start
    ensures 0 < fileSize < end ==> directEnd <= if start < fileSize then fileSize else start
  {
    start, end := AlignDown(chunk.fileOff), AlignUp(chunk.fileOff + chunk.len);
    Alignment(chunk.fileOff);
    Alignment(chunk.fileOff + chunk.len);
    AlignMonotone(chunk.fileOff, chunk.fileOff + chunk.len);
    directEnd, tailEnd := end, end;
    if fileSize != 0 && end > fileSize {
      var lastAligned := AlignDown(fileSize);
      Alignment(fileSize);
      directEnd := if lastAligned > start then lastAligned else start;
      tailEnd := fileSize;
    }
  }

  /** Fetching a chunk: the page-aligned part that lies in the file, the sub-page tail, and zeros after it.
      A failed read is fatal; a size of 0 means the file's size could not be determined. */
  method FetchRead(mem: array<Byte>, file: seq<Byte>, chunk: Spec, fileSize: nat, script: seq<Answer>)
    returns (r: Outcome, used: nat)
    requires chunk.fileOff == chunk.regionOff && chunk.len > 0 && High(chunk) <= mem.Length
    requires fileSize == 0 || fileSize == |file|
    modifies mem
    ensures r != MisalignedTarget
    ensures OnlyRight(file, old(mem[..]), mem[..], Low(chunk, fileSize), High(chunk))
    ensures r == Fetched ==> Written(file, mem[..], AlignDown(chunk.fileOff), High(chunk))
    ensures r == Fetched ==> forall i :: chunk.fileOff <= i < chunk.fileOff + chunk.len ==> mem[i] == if i < |file| then file[i] else 0
    ensures r == UnexpectedEof ==> fileSize == 0
    ensures used <= |script| && (r == ReadFailed <==> !NoFailure(script[..used]))
    ensures NoFailure(script) ==> (r == Fetched <==> fileSize > 0 || High(chunk) <= |file|)
  {
    hide AlignDown, AlignUp;
    used := 0;
    var start, end, directEnd, tailEnd := Split(chunk, fileSize);
    var slack := chunk.fileOff - start;
    if (chunk.regionOff - slack) % ALIGN != 0 {
      return MisalignedTarget, used;
    }
    var tailStart := directEnd;
    if fileSize != 0 && end > fileSize {
      forall i | fileSize <= i < end {
        mem[i] := 0;
      }
    }
    r, used := ReadRange(mem, file, start, directEnd, script, 0);
    assert script[0..used] == script[..used];
    if r == Fetched {
      ghost var first := used;
      r, used := ReadRange(mem, file, tailStart, tailEnd, script, used);
      assert script[..used] == script[..first] + script[first..used];
    }
  }

  // ---- what a fetch may touch ----

  /** Every byte a fetch writes lies inside the chunk exactly when the chunk begins and ends on a page and
      the file, if its size is known, reaches its start. */
  lemma WritesInside(chunk: Spec, fileSize: nat)
    requires chunk.len > 0
    ensures (chunk.fileOff <= Low(chunk, fileSize) && High(chunk) <= chunk.fileOff + chunk.len) <==>
              chunk.fileOff % ALIGN == 0 && (chunk.fileOff + chunk.len) % ALIGN == 0 && (fileSize == 0 || chunk.fileOff <= fileSize)
  {
    Alignment(chunk.fileOff);
    Alignment(chunk.fileOff + chunk.len);
    Rounded(chunk.fileOff + chunk.len);
  }

  /** In a table that tiles the pages of the file no fetch writes outside its chunk. */
  lemma TableWritesInside(chunks: seq<Spec>, fileSize: nat, c: nat)
    requires Tiles(chunks, AlignUp(fileSize)) && c < |chunks|
    ensures Low(chunks[c], fileSize) == chunks[c].fileOff && High(chunks[c]) == chunks[c].fileOff + chunks[c].len <= AlignUp(fileSize)
  {
    var chunk, regionLen := chunks[c], AlignUp(fileSize);
    Alignment(fileSize);
    UniqueCover(chunks, regionLen, chunk.regionOff);
    assert Covers(chunk, chunk.regionOff);
    if chunk.regionOff >= fileSize {
      PageAbove(chunk.regionOff, fileSize);
    }
    if c + 1 < |chunks| {
      assert chunks[c + 1].regionOff % ALIGN == 0;
      UniqueCover(chunks, regionLen, chunks[c + 1].regionOff);
      assert Covers(chunks[c + 1], chunks[c + 1].regionOff);
    }
    WritesInside(chunk, fileSize);
    Alignment(chunk.fileOff);
    Alignment(chunk.fileOff + chunk.len);
  }

  /** A page that starts at or after the size starts at or after the rounded-up size. */
  lemma PageAbove(off: nat, size: nat)
    requires off % ALIGN == 0 && off >= size
    ensures AlignUp(size) <= off
  {
    AlignMonotone(size + ALIGN - 1, off + ALIGN - 1);
    assert off + ALIGN - 1 == (off / ALIGN) * ALIGN + (ALIGN - 1);
    assert (off + ALIGN - 1) % ALIGN == ALIGN - 1;
  }

  // ---- fetching chunk after chunk ----

  ghost predicate Holds(file: seq<Byte>, mem: seq<Byte>, chunk: Spec) {
    Written(file, mem, chunk.regionOff, chunk.regionOff + chunk.len)
  }

  ghost predicate Unchanged(before: seq<Byte>, mem: seq<Byte>, chunk: Spec) {
    |mem| == |before| && forall i: nat :: i < |mem| && Covers(chunk, i) ==> mem[i] == before[i]
  }

  /** A fetch leaves the other chunks as they were, and what they hold in place. */
  lemma OthersKept(file: seq<Byte>, before: seq<Byte>, mem: seq<Byte>, chunks: seq<Spec>, fetched: nat, c: nat)
    requires Tiles(chunks, AlignUp(|file|)) && fetched < |chunks| && c < |chunks| && |file| > 0
    requires OnlyRight(file, before, mem, Low(chunks[fetched], |file|), High(chunks[fetched]))
    ensures Holds(file, before, chunks[c]) ==> Holds(file, mem, chunks[c])
    ensures c != fetched ==> Unchanged(before, mem, chunks[c])
  {
    TableWritesInside(chunks, |file|, fetched);
    if c != fetched {
      forall i: nat | i < |mem| && Covers(chunks[c], i) ensures mem[i] == before[i] {
        UniqueCover(chunks, AlignUp(|file|), i);
        assert !Covers(chunks[fetched], i);
      }
    }
  }

  /** Chunks fetched one after the other, in any order and repeatedly: each holds its part of the file,
      zero-filled past the end, whatever is fetched after it; and chunks not fetched are untouched. */
  method FetchAll(mem: array<Byte>, file: seq<Byte>, chunks: seq<Spec>, order: seq<nat>, scripts: seq<seq<Answer>>) returns (r: Outcome)
    requires |file| > 0 && Tiles(chunks, AlignUp(|file|)) && mem.Length == AlignUp(|file|)
    requires |scripts| == |order| && forall k :: 0 <= k < |order| ==> order[k] < |chunks| && NoFailure(scripts[k])
    modifies mem
    ensures r == Fetched
    ensures forall c :: c in order && c < |chunks| ==> Holds(file, mem[..], chunks[c])
    ensures forall c :: 0 <= c < |chunks| && c !in order ==> Unchanged(old(mem[..]), mem[..], chunks[c])
  {
    r := Fetched;
    for k := 0 to |order|
      invariant r == Fetched
      invariant forall c :: c in order[..k] && c < |chunks| ==> Holds(file, mem[..], chunks[c])
      invariant forall c :: 0 <= c < |chunks| && c !in order[..k] ==> Unchanged(old(mem[..]), mem[..], chunks[c])
    {
      var d := order[k];
      TableWritesInside(chunks, |file|, d);
      ghost var before := mem[..];
      var used;
      r, used := FetchRead(mem, file, chunks[d], |file|, scripts[k]);
      ghost var after := mem[..];
      assert order[..k + 1] == order[..k] + [d];
      forall c | 0 <= c < |chunks|
        ensures Holds(file, before, chunks[c]) || c == d ==> Holds(file, after, chunks[c])
        ensures c != d && Unchanged(old(mem[..]), before, chunks[c]) ==> Unchanged(old(mem[..]), after, chunks[c])
      {
        OthersKept(file, before, after, chunks, d, c);
      }
    }
    assert order[..|order|] == order;
  }
}
