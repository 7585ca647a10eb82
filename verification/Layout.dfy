/** From a model's tensors to a chunk table that tiles the region, and back from an offset to its chunk. */
module Layout {
  import opened Chunks
  import opened Arithmetic
  import opened Finite

  const ALIGN := 4096
  const U64 := 0x1_0000_0000_0000_0000

  function AlignDown(v: nat): nat {
    v - v % ALIGN
  }

  function AlignUp(v: nat): nat {
    AlignDown(v + ALIGN - 1)
  }

  lemma Alignment(v: nat)
    ensures AlignDown(v) <= v < AlignDown(v) + ALIGN && AlignDown(v) % ALIGN == 0
    ensures v <= AlignUp(v) < v + ALIGN && AlignUp(v) % ALIGN == 0
  {
    var q, w := v / ALIGN, (v + ALIGN - 1) / ALIGN;
    assert v == q * ALIGN + v % ALIGN && (q * ALIGN) % ALIGN == 0;
    assert v + ALIGN - 1 == w * ALIGN + (v + ALIGN - 1) % ALIGN && (w * ALIGN) % ALIGN == 0;
  }

  lemma AlignMonotone(v: nat, w: nat)
    requires v <= w
    ensures AlignDown(v) <= AlignDown(w)
    ensures v < w ==> AlignDown(v) < AlignUp(w)
  {
    assert v / ALIGN <= w / ALIGN;
    assert v == (v / ALIGN) * ALIGN + v % ALIGN && w == (w / ALIGN) * ALIGN + w % ALIGN;
    Alignment(v);
    Alignment(w);
  }

  // ---- chunk boundaries ----

  const HEADER := -1000

  datatype Tensor = Tensor(fileOff: nat, size: nat, group: int)

  ghost predicate Sorted(srt: seq<Tensor>) {
    forall i, j :: 0 <= i <= j < |srt| ==> srt[i].fileOff <= srt[j].fileOff
  }

  /** Tensor `i` begins a run of tensors of one group. */
  predicate StartsRun(srt: seq<Tensor>, i: nat)
    requires i < |srt|
  {
    i == 0 || srt[i].group != srt[i - 1].group
  }

  /** Tensor `i` is the first of all, or of another group than the one before it, and lies on page `b`. */
  predicate BeginsAt(srt: seq<Tensor>, i: nat, b: nat)
    requires i < |srt|
  {
    (i == 0 || srt[i].group != srt[i - 1].group) && AlignDown(srt[i].fileOff) == b
  }

  /** `b` is where the region starts, or the page on which one of the first `n` tensors begins a run. */
  ghost predicate Boundary(srt: seq<Tensor>, n: nat, b: nat)
    requires n <= |srt|
  {
    b == 0 || exists i :: 0 <= i < n && StartsRun(srt, i) && AlignDown(srt[i].fileOff) == b
  }

  ghost predicate Increasing(bnd: seq<nat>) {
    forall c, d :: 0 <= c < d < |bnd| ==> bnd[c] < bnd[d]
  }

  ghost predicate AllBoundaries(srt: seq<Tensor>, n: nat, bnd: seq<nat>)
    requires n <= |srt|
  {
    && |bnd| > 0 && bnd[0] == 0 && Increasing(bnd)
    && forall b: nat :: b in bnd <==> Boundary(srt, n, b)
  }

  /** A boundary's label: that of a tensor that begins a run on its page, or the header's. */
  ghost predicate Labelled(srt: seq<Tensor>, n: nat, b: nat, g: int)
    requires n <= |srt|
  {
    || (b == 0 && g == HEADER)
    || exists i :: 0 <= i < n && StartsRun(srt, i) && AlignDown(srt[i].fileOff) == b && srt[i].group == g
  }

  lemma LastIsMost(bnd: seq<nat>, b: nat)
    requires Increasing(bnd) && b in bnd
    ensures b <= bnd[|bnd| - 1]
  {
  }

  /** One more tensor may add its page. */
  lemma OneMore(srt: seq<Tensor>, n: nat, x: nat)
    requires n < |srt|
    ensures Boundary(srt, n + 1, x) <==> Boundary(srt, n, x) || (StartsRun(srt, n) && x == AlignDown(srt[n].fileOff))
  {
    hide AlignDown;
    if StartsRun(srt, n) && x == AlignDown(srt[n].fileOff) {
      assert n < n + 1;
    }
  }

  lemma LastBehind(srt: seq<Tensor>, n: nat, last: nat)
    requires Sorted(srt) && n < |srt| && Boundary(srt, n, last)
    ensures last <= AlignDown(srt[n].fileOff)
  {
    hide AlignDown;
    if last != 0 {
      var i :| 0 <= i < n && StartsRun(srt, i) && AlignDown(srt[i].fileOff) == last;
      AlignMonotone(srt[i].fileOff, srt[n].fileOff);
    }
  }

  /** One more tensor: a boundary is added exactly if it begins a run on a later page. */
  lemma BoundaryAdded(srt: seq<Tensor>, n: nat, bnd: seq<nat>)
    requires Sorted(srt) && n < |srt| && AllBoundaries(srt, n, bnd)
    ensures var b, last := AlignDown(srt[n].fileOff), bnd[|bnd| - 1];
            && last <= b && (!StartsRun(srt, n) || b == last ==> AllBoundaries(srt, n + 1, bnd))
            && (StartsRun(srt, n) && b > last ==> AllBoundaries(srt, n + 1, bnd + [b]))
  {
    hide AlignDown, Boundary, StartsRun;
    var b, last := AlignDown(srt[n].fileOff), bnd[|bnd| - 1];
    assert last in bnd;
    LastBehind(srt, n, last);
    forall x: nat ensures Boundary(srt, n + 1, x) <==> x in bnd || (StartsRun(srt, n) && x == b) {
      OneMore(srt, n, x);
    }
    if StartsRun(srt, n) && b > last {
      assert forall x :: x in bnd + [b] <==> x in bnd || x == b;
      forall x | x in bnd ensures x < b {
        LastIsMost(bnd, x);
      }
    }
  }

  /** The first tensor adds its own page to the start of the region. */
  lemma FirstPage(srt: seq<Tensor>)
    requires |srt| > 0
    ensures var b := AlignDown(srt[0].fileOff);
            && (forall x: nat :: Boundary(srt, 1, x) <==> x == 0 || x == b)
            && Labelled(srt, 1, 0, HEADER) && Labelled(srt, 1, b, srt[0].group)
  {
    hide AlignDown;
    assert StartsRun(srt, 0);
  }

  /** Labels stay, and a tensor that begins a run labels its page. */
  lemma LabelsStay(srt: seq<Tensor>, n: nat)
    requires 0 < n < |srt|
    ensures forall x: nat, g :: Labelled(srt, n, x, g) ==> Labelled(srt, n + 1, x, g)
    ensures StartsRun(srt, n) <==> srt[n].group != srt[n - 1].group
    ensures StartsRun(srt, n) ==> Labelled(srt, n + 1, AlignDown(srt[n].fileOff), srt[n].group)
  {
    hide AlignDown;
  }

  /** The chunk boundaries of a non-empty tensor list in file order: every page on which a run of one
      group begins, and the start of the region, each once and in order. */
  method Boundaries(srt: seq<Tensor>) returns (bnd: seq<nat>, grp: seq<int>)
    requires |srt| > 0 && Sorted(srt)
    ensures AllBoundaries(srt, |srt|, bnd) && |grp| == |bnd|
    ensures forall b :: b in bnd ==> b == 0 || exists i :: 0 <= i < |srt| && BeginsAt(srt, i, b)
    ensures forall i, b: nat :: 0 <= i < |srt| && BeginsAt(srt, i, b) ==> b in bnd
    ensures forall c :: 0 <= c < |bnd| ==> Labelled(srt, |srt|, bnd[c], grp[c])
    ensures grp[0] == HEADER <==> AlignDown(srt[0].fileOff) > 0 || srt[0].group == HEADER
  {
    hide AlignDown, Boundary, Labelled, StartsRun;
    bnd, grp := [0], [HEADER];
    var b := AlignDown(srt[0].fileOff);
    FirstPage(srt);
    if b == 0 {
      grp := [srt[0].group];
    } else {
      bnd, grp := bnd + [b], grp + [srt[0].group];
    }
    assert AllBoundaries(srt, 1, bnd);
    var cur := srt[0].group;
    for i := 1 to |srt|
      invariant cur == srt[i - 1].group && |grp| == |bnd| && AllBoundaries(srt, i, bnd)
      invariant forall c :: 0 <= c < |bnd| ==> Labelled(srt, i, bnd[c], grp[c])
      invariant grp[0] == if b == 0 then srt[0].group else HEADER
    {
      BoundaryAdded(srt, i, bnd);
      LabelsStay(srt, i);
      if srt[i].group != cur {
        cur := srt[i].group;
        var at := AlignDown(srt[i].fileOff);
        if at > bnd[|bnd| - 1] {
          bnd, grp := bnd + [at], grp + [cur];
        }
      }
    }
    PagesOfRuns(srt, bnd);
  }

  lemma PagesOfRuns(srt: seq<Tensor>, bnd: seq<nat>)
    requires AllBoundaries(srt, |srt|, bnd)
    ensures forall b :: b in bnd ==> b == 0 || exists i :: 0 <= i < |srt| && BeginsAt(srt, i, b)
    ensures forall i, b: nat :: 0 <= i < |srt| && BeginsAt(srt, i, b) ==> b in bnd
  {
    hide AlignDown;
    forall b | b in bnd && b != 0 ensures exists i :: 0 <= i < |srt| && BeginsAt(srt, i, b) {
      var i :| 0 <= i < |srt| && StartsRun(srt, i) && AlignDown(srt[i].fileOff) == b;
      assert BeginsAt(srt, i, b);
    }
    forall i, b: nat | 0 <= i < |srt| && BeginsAt(srt, i, b) ensures b in bnd {
      assert StartsRun(srt, i);
      assert Boundary(srt, |srt|, b);
    }
  }

  // ---- chunk specs, and their validation ----

  datatype Spec = Spec(fileOff: nat, regionOff: nat, len: nat)

  /** The chunks between successive boundaries, the last one running to the end of the region; lengths are
      64-bit differences. */
  function Specs(bnd: seq<nat>, regionLen: nat): (specs: seq<Spec>)
    ensures |specs| == |bnd|
  {
    seq(|bnd|, c requires 0 <= c < |bnd| =>
      Spec(bnd[c], bnd[c], ((if c + 1 < |bnd| then bnd[c + 1] else regionLen) - bnd[c]) % U64))
  }

  /** Where chunk `i` should start: after all the chunks before it. */
  function Ends(specs: seq<Spec>, i: nat): nat
    requires i <= |specs|
  {
    if i == 0 then 0 else Ends(specs, i - 1) + specs[i - 1].len
  }

  datatype Check = NoChunks | Misplaced | NotIdentity | Empty | Misaligned | Ragged | WrongTotal

  datatype Table = Table(chunks: seq<Spec>) | Rejected(check: Check, i: nat)

  predicate Fails(specs: seq<Spec>, i: nat, check: Check)
    requires i < |specs|
  {
    match check
    case Misplaced => specs[i].regionOff != Ends(specs, i) % U64
    case NotIdentity => specs[i].fileOff != specs[i].regionOff
    case Empty => specs[i].len == 0
    case Misaligned => specs[i].regionOff % ALIGN != 0
    case Ragged => i + 1 < |specs| && specs[i].len % ALIGN != 0
    case _ => false
  }

  predicate Passes(specs: seq<Spec>, i: nat)
    requires i < |specs|
  {
    && !Fails(specs, i, Misplaced) && !Fails(specs, i, NotIdentity) && !Fails(specs, i, Empty)
    && !Fails(specs, i, Misaligned) && !Fails(specs, i, Ragged)
  }

  ghost predicate Accepted(specs: seq<Spec>, regionLen: nat) {
    |specs| > 0 && (forall i :: 0 <= i < |specs| ==> Passes(specs, i)) && Ends(specs, |specs|) % U64 == regionLen
  }

  /** Explicit chunks are accepted exactly when every one passes every check and they add up, modulo 2^64,
      to the region; otherwise the first chunk that fails is named. */
  method BuildExplicit(specs: seq<Spec>, regionLen: nat) returns (table: Table)
    requires forall i :: 0 <= i < |specs| ==> specs[i].len < U64
    ensures table.Table? <==> Accepted(specs, regionLen)
    ensures table.Table? ==> table.chunks == specs
    ensures table.Rejected? && table.i < |specs| ==>
              Fails(specs, table.i, table.check) && forall j :: 0 <= j < table.i ==> Passes(specs, j)
    ensures table.Rejected? && table.i >= |specs| ==>
              table.check == if |specs| == 0 then NoChunks else WrongTotal
  {
    if |specs| == 0 {
      return Rejected(NoChunks, 0);
    }
    var chunks: seq<Spec> := [];
    var expectOff := 0;
    for i := 0 to |specs|
      invariant expectOff == Ends(specs, i) % U64 && chunks == specs[..i]
      invariant forall j :: 0 <= j < i ==> Passes(specs, j)
    {
      if specs[i].regionOff != expectOff {
        assert Fails(specs, i, Misplaced) && !Passes(specs, i);
        return Rejected(Misplaced, i);
      }
      if specs[i].fileOff != specs[i].regionOff {
        assert Fails(specs, i, NotIdentity) && !Passes(specs, i);
        return Rejected(NotIdentity, i);
      }
      if specs[i].len == 0 {
        assert Fails(specs, i, Empty) && !Passes(specs, i);
        return Rejected(Empty, i);
      }
      if specs[i].regionOff % ALIGN != 0 {
        assert Fails(specs, i, Misaligned) && !Passes(specs, i);
        return Rejected(Misaligned, i);
      }
      if i + 1 < |specs| && specs[i].len % ALIGN != 0 {
        assert Fails(specs, i, Ragged) && !Passes(specs, i);
        return Rejected(Ragged, i);
      }
      chunks := chunks + [specs[i]];
      WrapAdds(Ends(specs, i), specs[i].len);
      expectOff := (expectOff + specs[i].len) % U64;
    }
    if expectOff != regionLen {
      return Rejected(WrongTotal, |specs|);
    }
    assert chunks == specs;
    return Table(chunks);
  }

  lemma WrapAdds(a: nat, b: nat)
    ensures (a % U64 + b) % U64 == (a + b) % U64
  {
    var q := a / U64;
    assert a + b == a % U64 + b + q * U64;
    WrapMultiple(a % U64 + b, q);
  }

  lemma {:induction false} WrapMultiple(a: nat, q: nat)
    ensures (a + q * U64) % U64 == a % U64
  {
    if q > 0 {
      WrapMultiple(a, q - 1);
      assert a + q * U64 == a + (q - 1) * U64 + U64;
    }
  }

  /** Chunks that follow one another without gap or overlap from 0 to `regionLen`, page by page. */
  ghost predicate Tiles(chunks: seq<Spec>, regionLen: nat) {
    && |chunks| > 0 && chunks[0].regionOff == 0
    && chunks[|chunks| - 1].regionOff + chunks[|chunks| - 1].len == regionLen
    && (forall i :: 0 <= i < |chunks| - 1 ==> chunks[i].regionOff + chunks[i].len == chunks[i + 1].regionOff)
    && (forall i :: 0 <= i < |chunks| ==>
          chunks[i].len > 0 && chunks[i].regionOff % ALIGN == 0 && chunks[i].fileOff == chunks[i].regionOff)
  }

  // ---- when the table built from the tensors is accepted, and when it tiles ----

  lemma {:induction false} SpecsEnds(bnd: seq<nat>, regionLen: nat, c: nat)
    requires Increasing(bnd) && c < |bnd| && bnd[0] == 0 && bnd[|bnd| - 1] < U64
    ensures Ends(Specs(bnd, regionLen), c) == bnd[c]
  {
    if c > 0 {
      SpecsEnds(bnd, regionLen, c - 1);
      assert bnd[c] <= bnd[|bnd| - 1];
    }
  }

  lemma LastLength(last: nat, regionLen: nat)
    requires last < U64 && regionLen < U64
    ensures (last + (regionLen - last) % U64) % U64 == regionLen
    ensures (regionLen - last) % U64 > 0 <==> last != regionLen
    ensures last < regionLen ==> (regionLen - last) % U64 == regionLen - last
    ensures last > regionLen ==> (regionLen - last) % U64 == regionLen - last + U64
  {
  }

  lemma FirstBoundary(srt: seq<Tensor>, bnd: seq<nat>)
    requires AllBoundaries(srt, |srt|, bnd)
    ensures |bnd| > 0 && bnd[0] == 0 && Increasing(bnd)
  {
  }

  /** Between boundaries the length of a chunk does not wrap. */
  lemma SpecAt(bnd: seq<nat>, regionLen: nat, c: nat)
    requires Increasing(bnd) && c < |bnd| && bnd[|bnd| - 1] < U64
    ensures Specs(bnd, regionLen)[c].fileOff == Specs(bnd, regionLen)[c].regionOff == bnd[c]
    ensures c + 1 < |bnd| ==> bnd[c] < bnd[c + 1] && Specs(bnd, regionLen)[c].len == bnd[c + 1] - bnd[c]
    ensures c + 1 == |bnd| ==> Specs(bnd, regionLen)[c].len == (regionLen - bnd[c]) % U64
  {
    if c + 1 < |bnd| {
      assert bnd[c] < bnd[c + 1] <= bnd[|bnd| - 1];
    }
  }

  lemma BoundaryAligned(srt: seq<Tensor>, bnd: seq<nat>, c: nat)
    requires AllBoundaries(srt, |srt|, bnd) && c < |bnd|
    ensures bnd[c] % ALIGN == 0
  {
    assert bnd[c] in bnd;
    if bnd[c] != 0 {
      var i :| 0 <= i < |srt| && StartsRun(srt, i) && AlignDown(srt[i].fileOff) == bnd[c];
      Alignment(srt[i].fileOff);
    }
  }

  lemma GapAligned(a: nat, b: nat)
    requires a <= b && a % ALIGN == 0 && b % ALIGN == 0
    ensures (b - a) % ALIGN == 0
  {
    assert b - a == (b / ALIGN - a / ALIGN) * ALIGN;
  }

  /** Every chunk but the last passes every check, whatever the region; the last one unless it is empty. */
  lemma SpecPasses(srt: seq<Tensor>, bnd: seq<nat>, regionLen: nat, c: nat)
    requires AllBoundaries(srt, |srt|, bnd) && bnd[|bnd| - 1] < U64 && regionLen < U64 && c < |bnd|
    ensures Passes(Specs(bnd, regionLen), c) <==> c + 1 < |bnd| || bnd[c] != regionLen
  {
    hide AllBoundaries, Specs, Ends;
    FirstBoundary(srt, bnd);
    SpecsEnds(bnd, regionLen, c);
    SpecAt(bnd, regionLen, c);
    BoundaryAligned(srt, bnd, c);
    assert bnd[c] <= bnd[|bnd| - 1];
    if c + 1 < |bnd| {
      BoundaryAligned(srt, bnd, c + 1);
      GapAligned(bnd[c], bnd[c + 1]);
    } else {
      LastLength(bnd[c], regionLen);
    }
  }

  lemma TableAccepted(srt: seq<Tensor>, bnd: seq<nat>, regionLen: nat)
    requires AllBoundaries(srt, |srt|, bnd) && bnd[|bnd| - 1] < U64 && regionLen < U64
    ensures Accepted(Specs(bnd, regionLen), regionLen) <==> bnd[|bnd| - 1] != regionLen
  {
    hide AllBoundaries, Passes;
    var specs, n := Specs(bnd, regionLen), |bnd|;
    forall c | 0 <= c < n ensures Passes(specs, c) <==> c + 1 < n || bnd[c] != regionLen {
      SpecPasses(srt, bnd, regionLen, c);
    }
    FirstBoundary(srt, bnd);
    SpecsEnds(bnd, regionLen, n - 1);
    LastLength(bnd[n - 1], regionLen);
  }

  lemma TableTiles(srt: seq<Tensor>, bnd: seq<nat>, regionLen: nat)
    requires AllBoundaries(srt, |srt|, bnd) && bnd[|bnd| - 1] < U64 && regionLen < U64
    ensures Tiles(Specs(bnd, regionLen), regionLen) <==> bnd[|bnd| - 1] < regionLen
  {
    hide AllBoundaries, Specs;
    var specs, n := Specs(bnd, regionLen), |bnd|;
    FirstBoundary(srt, bnd);
    LastLength(bnd[n - 1], regionLen);
    forall c | 0 <= c < n ensures specs[c].regionOff % ALIGN == 0 && specs[c].fileOff == specs[c].regionOff == bnd[c] {
      BoundaryAligned(srt, bnd, c);
      SpecAt(bnd, regionLen, c);
    }
    forall c | 0 <= c < n - 1 ensures specs[c].regionOff + specs[c].len == specs[c + 1].regionOff && specs[c].len > 0 {
      SpecAt(bnd, regionLen, c);
    }
    SpecAt(bnd, regionLen, n - 1);
  }

  /** The table built from a tensor list is accepted exactly unless its last chunk is empty; and it tiles
      the region exactly if the last boundary lies inside it, as it does when all tensors begin inside the
      file. (A last boundary beyond the region is accepted: the length wraps, and so does the sum.) */
  lemma TensorTable(srt: seq<Tensor>, bnd: seq<nat>, regionLen: nat)
    requires |srt| > 0 && AllBoundaries(srt, |srt|, bnd) && bnd[|bnd| - 1] < U64 && regionLen < U64
    ensures Accepted(Specs(bnd, regionLen), regionLen) <==> bnd[|bnd| - 1] != regionLen
    ensures Tiles(Specs(bnd, regionLen), regionLen) <==> bnd[|bnd| - 1] < regionLen
  {
    hide *;
    TableAccepted(srt, bnd, regionLen);
    TableTiles(srt, bnd, regionLen);
  }

  /** All tensors begin inside the file, so the table never fails and tiles the region. */
  lemma TensorsInsideFile(srt: seq<Tensor>, bnd: seq<nat>, fileSize: nat)
    requires |srt| > 0 && AllBoundaries(srt, |srt|, bnd) && AlignUp(fileSize) < U64
    requires forall i :: 0 <= i < |srt| ==> srt[i].fileOff < fileSize
    ensures Accepted(Specs(bnd, AlignUp(fileSize)), AlignUp(fileSize)) && Tiles(Specs(bnd, AlignUp(fileSize)), AlignUp(fileSize))
  {
    var last := bnd[|bnd| - 1];
    assert last in bnd;
    Alignment(fileSize);
    assert srt[0].fileOff < fileSize;
    if last != 0 {
      var i :| 0 <= i < |srt| && StartsRun(srt, i) && AlignDown(srt[i].fileOff) == last;
      AlignMonotone(srt[i].fileOff, fileSize);
    }
    TensorTable(srt, bnd, AlignUp(fileSize));
  }

  /** The table of a model: cut where the tensors' groups change, then validated.  It never fails for
      tensors that begin inside the file, and then every chunk begins where a run begins. */
  method BuildInventoryAndTable(srt: seq<Tensor>, fileSize: nat) returns (table: Table, grp: seq<int>)
    requires |srt| > 0 && Sorted(srt) && AlignUp(fileSize) < U64
    requires forall i :: 0 <= i < |srt| ==> srt[i].fileOff < fileSize
    ensures table.Table? && Tiles(table.chunks, AlignUp(fileSize)) && |grp| == |table.chunks|
    ensures forall c :: 0 <= c < |table.chunks| ==> Boundary(srt, |srt|, table.chunks[c].regionOff)
    ensures forall c :: 0 <= c < |table.chunks| ==> Labelled(srt, |srt|, table.chunks[c].regionOff, grp[c])
  {
    var bnd: seq<nat>;
    bnd, grp := Boundaries(srt);
    TensorsInsideFile(srt, bnd, fileSize);
    table := BuildExplicit(Specs(bnd, AlignUp(fileSize)), AlignUp(fileSize));
    forall c | 0 <= c < |bnd| ensures Boundary(srt, |srt|, bnd[c]) {
      assert bnd[c] in bnd;
    }
  }

  // ---- the uniform table ----

  /** Chunks of one page-aligned size, the last one shorter if the region is not a multiple of it. */
  method BuildUniform(regionLen: nat, requested: nat) returns (table: Table)
    ensures table.Table? <==> requested > 0 && regionLen > 0
    ensures table.Table? ==> Tiles(table.chunks, regionLen)
    ensures table.Table? ==> forall i :: 0 <= i < |table.chunks| ==>
              table.chunks[i].len <= AlignUp(requested) && (i + 1 < |table.chunks| ==> table.chunks[i].len == AlignUp(requested))
  {
    hide UniformAt, AlignUp;
    var size := requested;
    if size % ALIGN != 0 {
      size := (size / ALIGN + 1) * ALIGN;
    }
    if size == 0 {
      return Rejected(Empty, 0);
    }
    Rounded(requested);
    assert size == AlignUp(requested);
    var n := (regionLen + size - 1) / size;
    CeilingBounds(regionLen, size);
    if n == 0 {
      return Rejected(NoChunks, 0);
    }
    var chunks: seq<Spec> := [];
    for i := 0 to n
      invariant |chunks| == i && forall j :: 0 <= j < i ==> UniformAt(chunks[j], j, n, size, regionLen)
    {
      var off, len := i * size, size;
      UniformChunk(i, n, size, regionLen);
      if off + len > regionLen {
        len := regionLen - off;
      }
      chunks := chunks + [Spec(off, off, len)];
    }
    UniformTiles(chunks, n, size, regionLen);
    return Table(chunks);
  }

  predicate UniformAt(chunk: Spec, i: nat, n: nat, size: nat, regionLen: nat) {
    chunk.fileOff == chunk.regionOff == i * size && chunk.len == if i + 1 < n then size else regionLen - i * size
  }

  lemma UniformTiles(chunks: seq<Spec>, n: nat, size: nat, regionLen: nat)
    requires |chunks| == n > 0 && size > 0 && size % ALIGN == 0 && n * size >= regionLen && (n - 1) * size < regionLen
    requires forall j :: 0 <= j < n ==> UniformAt(chunks[j], j, n, size, regionLen)
    ensures Tiles(chunks, regionLen)
    ensures forall i :: 0 <= i < n ==> chunks[i].len <= size && (i + 1 < n ==> chunks[i].len == size)
  {
    forall i | 0 <= i < n
      ensures 0 < chunks[i].len <= size && chunks[i].regionOff % ALIGN == 0 && chunks[i].fileOff == chunks[i].regionOff
      ensures i + 1 < n ==> chunks[i].regionOff + chunks[i].len == chunks[i + 1].regionOff && chunks[i].len == size
      ensures i + 1 == n ==> chunks[i].regionOff + chunks[i].len == regionLen
    {
      assert UniformAt(chunks[i], i, n, size, regionLen);
      assert i + 1 < n ==> UniformAt(chunks[i + 1], i + 1, n, size, regionLen);
      UniformChunk(i, n, size, regionLen);
      AlignedMultiple(i, size);
    }
    assert UniformAt(chunks[0], 0, n, size, regionLen);
  }

  lemma Rounded(v: nat)
    ensures AlignUp(v) == (if v % ALIGN != 0 then (v / ALIGN + 1) * ALIGN else v) && AlignUp(v) % ALIGN == 0
  {
    Alignment(v);
    assert v == (v / ALIGN) * ALIGN + v % ALIGN;
  }

  /** `n` chunks of `size` cover the region, and `n - 1` do not. */
  lemma CeilingBounds(regionLen: nat, size: nat)
    requires size > 0
    ensures var n := (regionLen + size - 1) / size;
            (n == 0 <==> regionLen == 0) && n * size >= regionLen && (n > 0 ==> (n - 1) * size < regionLen)
  {
    var n := (regionLen + size - 1) / size;
    assert regionLen + size - 1 == n * size + (regionLen + size - 1) % size;
    if n > 0 {
      assert (n - 1) * size == n * size - size;
    }
  }

  lemma UniformChunk(i: nat, n: nat, size: nat, regionLen: nat)
    requires i < n && size > 0 && n * size >= regionLen && (n - 1) * size < regionLen
    ensures var off := i * size;
            off < regionLen && UniformAt(Spec(off, off, if off + size > regionLen then regionLen - off else size), i, n, size, regionLen)
  {
    if i + 1 < n {
      Multiples(i, n - 1, size);
    }
  }

  lemma AlignedMultiple(i: nat, size: nat)
    requires size % ALIGN == 0
    ensures (i * size) % ALIGN == 0
  {
    assert size == (size / ALIGN) * ALIGN;
    assert i * size == (i * (size / ALIGN)) * ALIGN;
  }

  // ---- lookup ----

  predicate Covers(chunk: Spec, rel: nat) {
    chunk.regionOff <= rel < chunk.regionOff + chunk.len
  }

  ghost predicate Ordered(chunks: seq<Spec>) {
    forall i, j :: 0 <= i < j < |chunks| ==> chunks[i].regionOff + chunks[i].len <= chunks[j].regionOff
  }

  lemma {:induction false} TilesBetween(chunks: seq<Spec>, regionLen: nat, i: nat, j: nat)
    requires Tiles(chunks, regionLen) && i < j < |chunks|
    ensures chunks[i].regionOff + chunks[i].len <= chunks[j].regionOff
  {
    if i + 1 < j {
      TilesBetween(chunks, regionLen, i, j - 1);
    }
  }

  lemma {:induction false} TilesCover(chunks: seq<Spec>, regionLen: nat, n: nat, rel: nat)
    requires Tiles(chunks, regionLen) && n < |chunks| && rel < chunks[n].regionOff + chunks[n].len
    ensures exists i :: 0 <= i <= n && Covers(chunks[i], rel)
  {
    if rel >= chunks[n].regionOff {
      assert Covers(chunks[n], rel);
    } else if n > 0 {
      TilesCover(chunks, regionLen, n - 1, rel);
    }
  }

  /** Every offset of a tiled region has exactly one covering chunk, and no other offset has one. */
  lemma UniqueCover(chunks: seq<Spec>, regionLen: nat, rel: nat)
    requires Tiles(chunks, regionLen)
    ensures Ordered(chunks)
    ensures rel < regionLen <==> exists i :: 0 <= i < |chunks| && Covers(chunks[i], rel)
    ensures forall i, j :: 0 <= i < |chunks| && 0 <= j < |chunks| && Covers(chunks[i], rel) && Covers(chunks[j], rel) ==> i == j
  {
    forall i, j | 0 <= i < j < |chunks| ensures chunks[i].regionOff + chunks[i].len <= chunks[j].regionOff {
      TilesBetween(chunks, regionLen, i, j);
    }
    if rel < regionLen {
      TilesCover(chunks, regionLen, |chunks| - 1, rel);
    }
  }

  /** Binary search for the chunk that covers an offset; -1 if none does. */
  method Lookup(chunks: seq<Spec>, rel: nat) returns (i: int)
    requires Ordered(chunks)
    ensures -1 <= i < |chunks|
    ensures i >= 0 ==> Covers(chunks[i], rel)
    ensures i < 0 ==> forall j :: 0 <= j < |chunks| ==> !Covers(chunks[j], rel)
  {
    var lo, hi := 0, |chunks|;
    while lo < hi
      invariant 0 <= lo <= hi <= |chunks|
      invariant forall j :: 0 <= j < |chunks| && Covers(chunks[j], rel) ==> lo <= j < hi
    {
      var mid := lo + (hi - lo) / 2;
      if rel < chunks[mid].regionOff {
        hi := mid;
      } else if rel >= chunks[mid].regionOff + chunks[mid].len {
        lo := mid + 1;
      } else {
        return mid;
      }
    }
    return -1;
  }

  /** In a tiled region every fault finds its chunk, and exactly that. */
  method LookupTiled(chunks: seq<Spec>, regionLen: nat, rel: nat) returns (i: int)
    requires Tiles(chunks, regionLen)
    ensures i >= 0 <==> rel < regionLen
    ensures i >= 0 ==> i < |chunks| && forall j :: 0 <= j < |chunks| ==> (Covers(chunks[j], rel) <==> j == i)
  {
    UniqueCover(chunks, regionLen, rel);
    i := Lookup(chunks, rel);
  }

  // ---- the declared access sequence ----

  const EMBD := -1
  const OUTPUT := -2
  const OUTNORM := -3
  const MAX_CHUNKS_PER_LAYER := 6

  /** The last of the first `n` chunks of group `g`; none is CHUNK_NONE. */
  function LastOf(groups: seq<int>, g: int, n: nat): nat
    requires n <= |groups|
  {
    if n == 0 then CHUNK_NONE else if groups[n - 1] == g then n - 1 else LastOf(groups, g, n - 1)
  }

  function CountOf(groups: seq<int>, g: int, n: nat): nat
    requires n <= |groups|
  {
    if n == 0 then 0 else CountOf(groups, g, n - 1) + if groups[n - 1] == g then 1 else 0
  }

  /** The chunks of a layer among the first `n`, in order, up to six. */
  function LayerChunks(groups: seq<int>, layer: nat, n: nat): seq<nat>
    requires n <= |groups|
  {
    if n == 0 then []
    else
      var r := LayerChunks(groups, layer, n - 1);
      if groups[n - 1] == layer && |r| < MAX_CHUNKS_PER_LAYER then r + [n - 1] else r
  }

  function Layers(groups: seq<int>, layers: nat): seq<nat> {
    if layers == 0 then [] else Layers(groups, layers - 1) + LayerChunks(groups, layers - 1, |groups|)
  }

  function Known(c: nat): seq<nat> {
    if c != CHUNK_NONE then [c] else []
  }

  /** One token's accesses: the embedding, the layers in order, the output norm, the output. */
  function Declared(groups: seq<int>, layers: nat): seq<nat> {
    Known(LastOf(groups, EMBD, |groups|)) + Layers(groups, layers)
    + Known(LastOf(groups, OUTNORM, |groups|)) + Known(LastOf(groups, OUTPUT, |groups|))
  }

  /** The chunks of every layer. */
  method LayerLists(groups: seq<int>, layers: nat) returns (lists: seq<seq<nat>>)
    ensures |lists| == layers && forall l :: 0 <= l < layers ==> lists[l] == LayerChunks(groups, l, |groups|)
  {
    lists := seq(layers, _ => []);
    for c := 0 to |groups|
      invariant |lists| == layers && forall l :: 0 <= l < layers ==> lists[l] == LayerChunks(groups, l, c)
    {
      var l := groups[c];
      if 0 <= l < layers && |lists[l]| < MAX_CHUNKS_PER_LAYER {
        lists := lists[l := lists[l] + [c]];
      }
    }
  }

  method DeclaredSequence(groups: seq<int>, layers: nat) returns (ids: seq<nat>)
    requires |groups| <= CHUNK_NONE
    ensures ids == Declared(groups, layers) && InAccessOrder(groups, layers, ids)
  {
    hide LayerChunks;
    var n := |groups|;
    var embd, output, outnorm := CHUNK_NONE, CHUNK_NONE, CHUNK_NONE;
    for c := 0 to n
      invariant embd == LastOf(groups, EMBD, c) && output == LastOf(groups, OUTPUT, c) && outnorm == LastOf(groups, OUTNORM, c)
    {
      if groups[c] == EMBD {
        embd := c;
      } else if groups[c] == OUTPUT {
        output := c;
      } else if groups[c] == OUTNORM {
        outnorm := c;
      }
    }
    LastOfGroup(groups, EMBD, n);
    LastOfGroup(groups, OUTPUT, n);
    LastOfGroup(groups, OUTNORM, n);
    ghost var ownOutput, ownNorm := output, outnorm;
    if output == CHUNK_NONE {
      output := embd;
    }
    if outnorm == CHUNK_NONE {
      outnorm := embd;
    }
    var lists := LayerLists(groups, layers);
    ids := Known(embd);
    for l := 0 to layers
      invariant ids == Known(embd) + Layers(groups, l)
    {
      ids := ids + lists[l];
    }
    if outnorm != CHUNK_NONE && outnorm != embd {
      ids := ids + [outnorm];
    }
    assert ids == Known(embd) + Layers(groups, layers) + Known(ownNorm);
    if output != CHUNK_NONE && output != embd && output != outnorm {
      ids := ids + [output];
    }
    DeclaredOrder(groups, layers);
  }

  /** Where a group's turn comes in one token's accesses. */
  function Turn(group: int, layers: nat): int {
    if group == EMBD then -1 else if group == OUTNORM then layers else if group == OUTPUT then layers + 1 else group
  }

  /** The ids are in the order of their groups' turns, and within one group ascending. */
  ghost predicate InAccessOrder(groups: seq<int>, layers: nat, ids: seq<nat>) {
    && (forall i :: 0 <= i < |ids| ==> ids[i] < |groups|)
    && forall i, j :: 0 <= i < j < |ids| ==>
         || Turn(groups[ids[i]], layers) < Turn(groups[ids[j]], layers)
         || (groups[ids[i]] == groups[ids[j]] && ids[i] < ids[j])
  }

  /** All ids have their turn from `low` up to `high`. */
  ghost predicate TurnsWithin(groups: seq<int>, layers: nat, ids: seq<nat>, low: int, high: int) {
    forall i :: 0 <= i < |ids| ==> ids[i] < |groups| && low <= Turn(groups[ids[i]], layers) < high
  }

  lemma OrderJoins(groups: seq<int>, layers: nat, a: seq<nat>, b: seq<nat>, low: int, mid: int, high: int)
    requires InAccessOrder(groups, layers, a) && InAccessOrder(groups, layers, b) && low <= mid <= high
    requires TurnsWithin(groups, layers, a, low, mid) && TurnsWithin(groups, layers, b, mid, high)
    ensures InAccessOrder(groups, layers, a + b) && TurnsWithin(groups, layers, a + b, low, high)
  {
    hide Turn;
  }

  lemma {:induction false} LayerOrder(groups: seq<int>, layers: nat, layer: nat, n: nat)
    requires layer < layers && n <= |groups|
    ensures InAccessOrder(groups, layers, LayerChunks(groups, layer, n))
    ensures TurnsWithin(groups, layers, LayerChunks(groups, layer, n), layer, layer + 1)
    ensures forall c :: c in LayerChunks(groups, layer, n) ==> c < n && groups[c] == layer
  {
    assert Turn(layer, layers) == layer;
    hide Turn;
    if n > 0 {
      LayerOrder(groups, layers, layer, n - 1);
    }
  }

  lemma {:induction false} LayersOrder(groups: seq<int>, layers: nat, n: nat)
    requires n <= layers
    ensures InAccessOrder(groups, layers, Layers(groups, n)) && TurnsWithin(groups, layers, Layers(groups, n), 0, n)
  {
    if n > 0 {
      LayersOrder(groups, layers, n - 1);
      LayerOrder(groups, layers, n - 1, |groups|);
      OrderJoins(groups, layers, Layers(groups, n - 1), LayerChunks(groups, n - 1, |groups|), 0, n - 1, n);
    }
  }

  lemma KnownOrder(groups: seq<int>, layers: nat, g: int)
    requires |groups| <= CHUNK_NONE
    ensures var ids, turn := Known(LastOf(groups, g, |groups|)), Turn(g, layers);
            InAccessOrder(groups, layers, ids) && TurnsWithin(groups, layers, ids, turn, turn + 1)
  {
    hide LastOf, Turn;
    LastOfGroup(groups, g, |groups|);
  }

  /** The embedding comes first, then the layers from the first to the last, the output norm, the output. */
  lemma DeclaredOrder(groups: seq<int>, layers: nat)
    requires |groups| <= CHUNK_NONE
    ensures InAccessOrder(groups, layers, Declared(groups, layers))
  {
    var n := |groups|;
    var embd, norm, out := Known(LastOf(groups, EMBD, n)), Known(LastOf(groups, OUTNORM, n)), Known(LastOf(groups, OUTPUT, n));
    KnownOrder(groups, layers, EMBD);
    LayersOrder(groups, layers, layers);
    OrderJoins(groups, layers, embd, Layers(groups, layers), -1, 0, layers);
    KnownOrder(groups, layers, OUTNORM);
    OrderJoins(groups, layers, embd + Layers(groups, layers), norm, -1, layers, layers + 1);
    KnownOrder(groups, layers, OUTPUT);
    OrderJoins(groups, layers, embd + Layers(groups, layers) + norm, out, -1, layers + 1, layers + 2);
  }

  lemma {:induction false} LastOfGroup(groups: seq<int>, g: int, n: nat)
    requires n <= |groups| <= CHUNK_NONE
    ensures var c := LastOf(groups, g, n);
            if c == CHUNK_NONE then forall j :: 0 <= j < n ==> groups[j] != g
            else c < n && groups[c] == g && forall j :: c < j < n ==> groups[j] != g
  {
    if n > 0 && groups[n - 1] != g {
      LastOfGroup(groups, g, n - 1);
    }
  }

  lemma {:induction false} LayerChunksExact(groups: seq<int>, layer: nat, n: nat)
    requires n <= |groups|
    ensures var count := CountOf(groups, layer, n);
            |LayerChunks(groups, layer, n)| == if count < MAX_CHUNKS_PER_LAYER then count else MAX_CHUNKS_PER_LAYER
    ensures NoDuplicates(LayerChunks(groups, layer, n))
    ensures forall c: nat :: c in LayerChunks(groups, layer, n) <==>
              c < n && groups[c] == layer && CountOf(groups, layer, c) < MAX_CHUNKS_PER_LAYER
  {
    if n > 0 {
      LayerChunksExact(groups, layer, n - 1);
    }
  }

  lemma Joined(a: seq<nat>, b: seq<nat>)
    requires NoDuplicates(a) && NoDuplicates(b) && forall x :: x in a ==> x !in b
    ensures NoDuplicates(a + b) && forall x :: x in a + b <==> x in a || x in b
  {
    forall i, j | 0 <= i < j < |a + b| ensures (a + b)[i] != (a + b)[j] {
      if i < |a| <= j {
        assert a[i] in a && b[j - |a|] in b;
      }
    }
  }

  lemma {:induction false} LayersExact(groups: seq<int>, layers: nat)
    ensures NoDuplicates(Layers(groups, layers))
    ensures forall c: nat :: c in Layers(groups, layers) <==>
              c < |groups| && 0 <= groups[c] < layers && CountOf(groups, groups[c], c) < MAX_CHUNKS_PER_LAYER
  {
    if layers > 0 {
      LayersExact(groups, layers - 1);
      LayerChunksExact(groups, layers - 1, |groups|);
      Joined(Layers(groups, layers - 1), LayerChunks(groups, layers - 1, |groups|));
    }
  }

  /** The declared ids are chunks of the table, none twice; and a chunk is declared exactly if it is the
      last embedding, output-norm or output chunk, or among the first six of its layer. */
  lemma DeclaredExact(groups: seq<int>, layers: nat)
    requires |groups| <= CHUNK_NONE
    ensures NoDuplicates(Declared(groups, layers))
    ensures forall c: nat :: c in Declared(groups, layers) <==>
              && c < |groups|
              && (|| (groups[c] in {EMBD, OUTNORM, OUTPUT} && forall j :: c < j < |groups| ==> groups[j] != groups[c])
                  || (0 <= groups[c] < layers && CountOf(groups, groups[c], c) < MAX_CHUNKS_PER_LAYER))
  {
    var n := |groups|;
    LayersExact(groups, layers);
    LastOfGroup(groups, EMBD, n);
    LastOfGroup(groups, OUTPUT, n);
    LastOfGroup(groups, OUTNORM, n);
    var embd, all := Known(LastOf(groups, EMBD, n)), Layers(groups, layers);
    var norm, output := Known(LastOf(groups, OUTNORM, n)), Known(LastOf(groups, OUTPUT, n));
    hide LastOf, Layers, CountOf, NoDuplicates;
    SingleKnown(LastOf(groups, EMBD, n));
    SingleKnown(LastOf(groups, OUTNORM, n));
    SingleKnown(LastOf(groups, OUTPUT, n));
    Joined(embd, all);
    Joined(embd + all, norm);
    Joined(embd + all + norm, output);
  }

  lemma SingleKnown(c: nat)
    ensures NoDuplicates(Known(c)) && forall x :: x in Known(c) <==> x == c != CHUNK_NONE
  {
  }
}
