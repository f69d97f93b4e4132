/**
 The frame allocator as an abstract machine: regions of frames, first-fit allocation, release,
 and what every sequence of requests keeps. Class `FrameAllocator.Allocator` is proved against these
 functions, down to the bits in memory.
 */
module FrameSpec {
  import opened Wrappers

  const FRAME_SIZE: nat := 4096

  /** A contiguous run of physical frames. */
  datatype FrameRange = FrameRange(start: nat, count: nat)

  datatype AllocError = OutOfMemory | NotInitialized

  datatype AllocResult = Ok(frames: FrameRange) | Err(error: AllocError)

  /** A region of frames with one bit per frame, true meaning used. */
  datatype Region = Region(start: nat, bits: seq<bool>)

  predicate Aligned(addr: nat) { addr % FRAME_SIZE == 0 }

  function EndOf(f: FrameRange): nat { f.start + f.count * FRAME_SIZE }

  function RegionEnd(r: Region): nat { r.start + |r.bits| * FRAME_SIZE }

  /** Page-aligned and disjoint regions, as the boot protocol promises. */
  predicate WellPlaced(rs: seq<Region>)
  {
    && (forall i :: 0 <= i < |rs| ==> Aligned(rs[i].start))
    && (forall i, j :: 0 <= i < |rs| && 0 <= j < |rs| && i != j ==>
          RegionEnd(rs[i]) <= rs[j].start || RegionEnd(rs[j]) <= rs[i].start)
  }

  // ---------------------------------------------------------------- first fit

  /** `n` consecutive free frames from index `i` on. */
  predicate Window(bits: seq<bool>, i: nat, n: nat)
  {
    i + n <= |bits| && forall k :: i <= k < i + n ==> !bits[k]
  }

  /** The lowest window of `n` frames at or after `from`. */
  function FirstWindow(bits: seq<bool>, n: nat, from: nat): (r: Option<nat>)
    requires from <= |bits|
    ensures r.Some? ==> from <= r.value && Window(bits, r.value, n)
    ensures r.Some? ==> forall i :: from <= i < r.value ==> !Window(bits, i, n)
    ensures r.None? ==> forall i :: from <= i <= |bits| ==> !Window(bits, i, n)
    decreases |bits| - from
  {
    if Window(bits, from, n) then Some(from)
    else if from == |bits| then None
    else FirstWindow(bits, n, from + 1)
  }

  function Fill(bits: seq<bool>, i: nat, n: nat, used: bool): (r: seq<bool>)
    ensures |r| == |bits|
    ensures forall k :: 0 <= k < |bits| ==> r[k] == if i <= k < i + n then used else bits[k]
  {
    seq(|bits|, k requires 0 <= k < |bits| => if i <= k < i + n then used else bits[k])
  }

  function Marked(rs: seq<Region>, r: nat, i: nat, n: nat, used: bool): seq<Region>
    requires r < |rs|
  {
    rs[r := rs[r].(bits := Fill(rs[r].bits, i, n, used))]
  }

  /** The lowest window for a request; there is none for a request for no frames. */
  function WindowFor(bits: seq<bool>, count: nat): (r: Option<nat>)
    ensures r.Some? ==> count >= 1 && Window(bits, r.value, count)
  {
    if count == 0 then None else FirstWindow(bits, count, 0)
  }

  /** A place found by the search: `count` frames of region `region` from `index` on. */
  datatype Claim = Claim(region: nat, index: nat, count: nat)

  /** The lowest window in the lowest-numbered region, from region `from` on, that has one. A
      request for no frames finds nothing. */
  function FirstFit(rs: seq<Region>, count: nat, from: nat): (c: Option<Claim>)
    requires from <= |rs|
    ensures c.Some? ==> from <= c.value.region < |rs| && c.value.count == count >= 1
    ensures c.Some? ==> Window(rs[c.value.region].bits, c.value.index, count)
    decreases |rs| - from
  {
    if from == |rs| then None
    else
      var w := WindowFor(rs[from].bits, count);
      if w.Some? then Some(Claim(from, w.value, count)) else FirstFit(rs, count, from + 1)
  }

  /** First-fit exactness, for every request: something is found if and only if at least one frame
      is asked for and some region has a window for it, and what is found is the lowest window of
      the lowest-numbered such region. */
  lemma {:induction false} FirstFitExact(rs: seq<Region>, count: nat, from: nat)
    requires from <= |rs|
    ensures FirstFit(rs, count, from).Some?
            <==> count >= 1 && exists r: nat, i: nat :: from <= r < |rs| && Window(rs[r].bits, i, count)
    ensures var c := FirstFit(rs, count, from);
            c.Some? ==>
              && Window(rs[c.value.region].bits, c.value.index, count)
              && (forall i :: 0 <= i < c.value.index ==> !Window(rs[c.value.region].bits, i, count))
              && (forall r, i :: from <= r < c.value.region && 0 <= i ==> !Window(rs[r].bits, i, count))
    decreases |rs| - from
  {
    if from < |rs| && WindowFor(rs[from].bits, count).None? {
      FirstFitExact(rs, count, from + 1);
      if count >= 1 {
        forall i | 0 <= i ensures !Window(rs[from].bits, i, count) {}
      }
    }
  }

  /** Nothing is asked for, or no region has room for it. */
  ghost predicate NoRoom(rs: seq<Region>, count: nat)
  {
    count == 0 || forall r: nat, i: nat :: r < |rs| ==> !Window(rs[r].bits, i, count)
  }

  /** The answer itself: `OutOfMemory` if and only if nothing is asked for or no region has a window,
      and never `NotInitialized`. */
  lemma RefusedExactly(rs: seq<Region>, count: nat)
    ensures AllocSpec(rs, count).0 == Err(OutOfMemory)
            <==> NoRoom(rs, count)
    ensures AllocSpec(rs, count).0 != Err(NotInitialized)
    ensures AllocSpec(rs, count).0.Err? ==> AllocSpec(rs, count).1 == rs
  {
    FirstFitExact(rs, count, 0);
  }

  /** ... and otherwise the lowest window of the lowest-numbered region that has one: its address
      and length are returned, and exactly its frames become used. */
  lemma GrantedExactly(rs: seq<Region>, count: nat) returns (r: nat, i: nat)
    requires AllocSpec(rs, count).0.Ok?
    ensures count >= 1 && r < |rs| && Window(rs[r].bits, i, count)
    ensures forall j :: 0 <= j < i ==> !Window(rs[r].bits, j, count)
    ensures forall q, j :: 0 <= q < r && 0 <= j ==> !Window(rs[q].bits, j, count)
    ensures AllocSpec(rs, count).0.frames == FrameRange(rs[r].start + i * 4096, count)
    ensures var rs' := AllocSpec(rs, count).1;
            && SameLayout(rs, rs')
            && forall q, k :: 0 <= q < |rs| && 0 <= k < |rs[q].bits| ==>
                 rs'[q].bits[k] == (rs[q].bits[k] || (q == r && i <= k < i + count))
  {
    FirstFitExact(rs, count, 0);
    var c := FirstFit(rs, count, 0).value;
    r, i := c.region, c.index;
    MarkedLayout(rs, r, i, count, true);
  }

  /** The failing input: a request for no frames is refused, although every region has room for it. */
  lemma NothingIsRefused(rs: seq<Region>)
    ensures AllocSpec(rs, 0) == (Err(OutOfMemory), rs)
    ensures forall r :: 0 <= r < |rs| ==> Window(rs[r].bits, 0, 0)
  {
    FirstFitExact(rs, 0, 0);
  }

  function RangeOf(rs: seq<Region>, c: Claim): FrameRange
    requires c.region < |rs|
  {
    FrameRange(rs[c.region].start + c.index * FRAME_SIZE, c.count)
  }

  function AllocSpec(rs: seq<Region>, count: nat): (AllocResult, seq<Region>)
  {
    var c := FirstFit(rs, count, 0);
    if c.None? then (Err(OutOfMemory), rs)
    else (Ok(RangeOf(rs, c.value)), Marked(rs, c.value.region, c.value.index, count, true))
  }

  // ---------------------------------------------------------------- release

  predicate Contains(r: Region, addr: nat) { r.start <= addr < RegionEnd(r) }

  /** The first region that contains the address. */
  function Locate(rs: seq<Region>, addr: nat, from: nat): (r: Option<nat>)
    requires from <= |rs|
    ensures r.Some? ==> from <= r.value < |rs| && Contains(rs[r.value], addr)
    ensures r.Some? ==> forall i :: from <= i < r.value ==> !Contains(rs[i], addr)
    ensures r.None? ==> forall i :: from <= i < |rs| ==> !Contains(rs[i], addr)
    decreases |rs| - from
  {
    if from == |rs| then None
    else if Contains(rs[from], addr) then Some(from)
    else Locate(rs, addr, from + 1)
  }

  /** Releasing an address outside every region does nothing. */
  function DeallocSpec(rs: seq<Region>, f: FrameRange): seq<Region>
  {
    var r := Locate(rs, f.start, 0);
    if r.None? then rs
    else Marked(rs, r.value, (f.start - rs[r.value].start) / FRAME_SIZE, f.count, false)
  }

  // ---------------------------------------------------------------- runs

  /** The allocator together with who owns what: `claims[0]` is the allocator's own metadata,
      the others are the ranges handed out and not yet returned. */
  datatype World = World(regions: seq<Region>, claims: seq<Claim>)

  datatype Request = Alloc(count: nat) | Dealloc(claim: nat)

  predicate Possible(w: World, q: Request)
  {
    q.Dealloc? ==> 1 <= q.claim < |w.claims| && w.claims[q.claim].region < |w.regions|
  }

  function Without(claims: seq<Claim>, k: nat): seq<Claim>
    requires k < |claims|
  {
    claims[..k] + claims[k + 1..]
  }

  function Serve(w: World, q: Request): World
    requires Possible(w, q)
  {
    match q
    case Alloc(count) =>
      var c := FirstFit(w.regions, count, 0);
      World(AllocSpec(w.regions, count).1, if c.None? then w.claims else w.claims + [c.value])
    case Dealloc(k) =>
      World(DeallocSpec(w.regions, RangeOf(w.regions, w.claims[k])), Without(w.claims, k))
  }

  ghost predicate CanServe(w: World, qs: seq<Request>)
    decreases |qs|
  {
    qs == [] || (Possible(w, qs[0]) && CanServe(Serve(w, qs[0]), qs[1..]))
  }

  ghost function Served(w: World, qs: seq<Request>): World
    requires CanServe(w, qs)
    decreases |qs|
  {
    if qs == [] then w else Served(Serve(w, qs[0]), qs[1..])
  }

  // ---------------------------------------------------------------- ownership

  predicate Fits(rs: seq<Region>, c: Claim)
  {
    c.region < |rs| && c.count >= 1 && c.index + c.count <= |rs[c.region].bits|
  }

  predicate Covers(c: Claim, r: nat, i: nat)
  {
    c.region == r && c.index <= i < c.index + c.count
  }

  /** A frame is marked used exactly when somebody owns it, and nobody owns it twice. */
  ghost predicate Owned(w: World)
  {
    && WellPlaced(w.regions)
    && (forall k :: 0 <= k < |w.claims| ==> Fits(w.regions, w.claims[k]))
    && (forall r: nat, i: nat :: r < |w.regions| && i < |w.regions[r].bits| ==>
          (w.regions[r].bits[i] <==> exists k :: 0 <= k < |w.claims| && Covers(w.claims[k], r, i)))
    && (forall j, k, r: nat, i: nat ::
          0 <= j < |w.claims| && 0 <= k < |w.claims| && Covers(w.claims[j], r, i) && Covers(w.claims[k], r, i)
          ==> j == k)
  }

  predicate SameLayout(rs: seq<Region>, rs': seq<Region>)
  {
    && |rs'| == |rs|
    && forall i :: 0 <= i < |rs| ==> rs'[i].start == rs[i].start && |rs'[i].bits| == |rs[i].bits|
  }

  lemma MarkedLayout(rs: seq<Region>, r: nat, i: nat, n: nat, used: bool)
    requires r < |rs|
    ensures SameLayout(rs, Marked(rs, r, i, n, used))
    ensures WellPlaced(rs) ==> WellPlaced(Marked(rs, r, i, n, used))
  {
    var rs' := Marked(rs, r, i, n, used);
    forall k | 0 <= k < |rs| ensures rs'[k].start == rs[k].start && RegionEnd(rs'[k]) == RegionEnd(rs[k]) {
    }
  }

  /** The address of an owned range leads back to where it was taken. */
  lemma LocateClaim(rs: seq<Region>, c: Claim)
    requires WellPlaced(rs) && Fits(rs, c)
    ensures Locate(rs, RangeOf(rs, c).start, 0) == Some(c.region)
    ensures (RangeOf(rs, c).start - rs[c.region].start) / FRAME_SIZE == c.index
  {
    assert Contains(rs[c.region], RangeOf(rs, c).start);
  }

  lemma AllocKeepsOwned(w: World, count: nat)
    requires Owned(w)
    ensures Owned(Serve(w, Alloc(count))) && SameLayout(w.regions, Serve(w, Alloc(count)).regions)
  {
    var c := FirstFit(w.regions, count, 0);
    if c.Some? {
      MarkedLayout(w.regions, c.value.region, c.value.index, count, true);
      NewClaimOwned(w, c.value);
    }
  }

  lemma NewClaimOwned(w: World, c: Claim)
    requires Owned(w) && Fits(w.regions, c) && Window(w.regions[c.region].bits, c.index, c.count)
    ensures Owned(World(Marked(w.regions, c.region, c.index, c.count, true), w.claims + [c]))
  {
    var w' := World(Marked(w.regions, c.region, c.index, c.count, true), w.claims + [c]);
    MarkedLayout(w.regions, c.region, c.index, c.count, true);
    var n := |w.claims|;
    assert w'.claims[n] == c;
    forall j, r: nat, i: nat | 0 <= j < n && Covers(w.claims[j], r, i) ensures !Covers(c, r, i) {
      assert Fits(w.regions, w.claims[j]) && w.regions[r].bits[i];
    }
    forall r: nat, i: nat | r < |w'.regions| && i < |w'.regions[r].bits|
      ensures w'.regions[r].bits[i] <==> exists k :: 0 <= k < |w'.claims| && Covers(w'.claims[k], r, i)
    {
      if Covers(c, r, i) {
        assert Covers(w'.claims[n], r, i);
      } else if w.regions[r].bits[i] {
        var k :| 0 <= k < n && Covers(w.claims[k], r, i);
        assert Covers(w'.claims[k], r, i);
      }
    }
  }

  lemma DeallocMarks(w: World, k: nat)
    requires Owned(w) && 1 <= k < |w.claims|
    ensures var c := w.claims[k];
            Serve(w, Dealloc(k)) == World(Marked(w.regions, c.region, c.index, c.count, false), Without(w.claims, k))
  {
    LocateClaim(w.regions, w.claims[k]);
  }

  lemma WithoutAt(claims: seq<Claim>, k: nat, j: nat)
    requires k < |claims| && j < |claims| - 1
    ensures Without(claims, k)[j] == claims[if j < k then j else j + 1]
  {
  }

  lemma WithoutCovers(claims: seq<Claim>, k: nat, r: nat, i: nat)
    requires k < |claims|
    ensures (exists j :: 0 <= j < |Without(claims, k)| && Covers(Without(claims, k)[j], r, i))
            <==> exists j :: 0 <= j < |claims| && j != k && Covers(claims[j], r, i)
  {
    var rest := Without(claims, k);
    if j :| 0 <= j < |claims| && j != k && Covers(claims[j], r, i) {
      var j' := if j < k then j else j - 1;
      WithoutAt(claims, k, j');
      assert Covers(rest[j'], r, i);
    }
    if j :| 0 <= j < |rest| && Covers(rest[j], r, i) {
      WithoutAt(claims, k, j);
      assert Covers(claims[if j < k then j else j + 1], r, i);
    }
  }

  lemma OldClaimReleased(w: World, k: nat)
    requires Owned(w) && k < |w.claims|
    ensures var c := w.claims[k];
            Owned(World(Marked(w.regions, c.region, c.index, c.count, false), Without(w.claims, k)))
  {
    var c := w.claims[k];
    var w' := World(Marked(w.regions, c.region, c.index, c.count, false), Without(w.claims, k));
    MarkedLayout(w.regions, c.region, c.index, c.count, false);
    forall j | 0 <= j < |w'.claims| ensures w'.claims[j] == w.claims[if j < k then j else j + 1] {
      WithoutAt(w.claims, k, j);
    }
    forall r: nat, i: nat | r < |w'.regions| && i < |w'.regions[r].bits|
      ensures w'.regions[r].bits[i] <==> exists j :: 0 <= j < |w'.claims| && Covers(w'.claims[j], r, i)
    {
      WithoutCovers(w.claims, k, r, i);
      assert w'.regions[r].bits[i] <==> w.regions[r].bits[i] && !Covers(c, r, i);
    }
  }

  lemma ServeKeepsOwned(w: World, q: Request)
    requires Owned(w) && Possible(w, q)
    ensures Owned(Serve(w, q)) && SameLayout(w.regions, Serve(w, q).regions)
    ensures |w.claims| >= 1 ==> |Serve(w, q).claims| >= 1 && Serve(w, q).claims[0] == w.claims[0]
  {
    if q.Alloc? {
      AllocKeepsOwned(w, q.count);
    } else {
      var c := w.claims[q.claim];
      DeallocMarks(w, q.claim);
      OldClaimReleased(w, q.claim);
      MarkedLayout(w.regions, c.region, c.index, c.count, false);
    }
  }

  /** Ownership safety: over every sequence of requests, used frames are exactly the owned ones,
      each with one owner, and the metadata frames keep theirs. */
  lemma {:induction false} OwnershipSafety(w: World, qs: seq<Request>)
    requires Owned(w) && |w.claims| >= 1 && CanServe(w, qs)
    ensures var w' := Served(w, qs);
            Owned(w') && SameLayout(w.regions, w'.regions) && |w'.claims| >= 1 && w'.claims[0] == w.claims[0]
    decreases |qs|
  {
    if qs != [] {
      ServeKeepsOwned(w, qs[0]);
      OwnershipSafety(Serve(w, qs[0]), qs[1..]);
    }
  }

  /** In addresses: owned ranges are aligned, lie inside one region and never overlap. */
  lemma RangesDisjoint(w: World, j: nat, k: nat)
    requires Owned(w) && j < |w.claims| && k < |w.claims| && j != k
    ensures var a, b := RangeOf(w.regions, w.claims[j]), RangeOf(w.regions, w.claims[k]);
            EndOf(a) <= b.start || EndOf(b) <= a.start
  {
    var c, d := w.claims[j], w.claims[k];
    if c.region == d.region {
      var i := if c.index <= d.index then d.index else c.index;
      assert !(Covers(c, c.region, i) && Covers(d, c.region, i));
    } else {
      RangeInRegion(w.regions, c);
      RangeInRegion(w.regions, d);
    }
  }

  lemma RangeInRegion(rs: seq<Region>, c: Claim)
    requires WellPlaced(rs) && Fits(rs, c)
    ensures var f, r := RangeOf(rs, c), rs[c.region];
            Aligned(f.start) && r.start <= f.start && EndOf(f) <= RegionEnd(r)
  {
  }

  // ---------------------------------------------------------------- accounting

  function FreeIn(bits: seq<bool>): (n: nat)
    ensures n <= |bits|
  {
    if bits == [] then 0 else FreeIn(bits[..|bits| - 1]) + (if bits[|bits| - 1] then 0 else 1)
  }

  function FreeFrames(rs: seq<Region>): nat
  {
    if rs == [] then 0 else FreeFrames(rs[..|rs| - 1]) + FreeIn(rs[|rs| - 1].bits)
  }

  function TotalFrames(rs: seq<Region>): nat
  {
    if rs == [] then 0 else TotalFrames(rs[..|rs| - 1]) + |rs[|rs| - 1].bits|
  }

  function OwnedFrames(claims: seq<Claim>): nat
  {
    if claims == [] then 0 else OwnedFrames(claims[..|claims| - 1]) + claims[|claims| - 1].count
  }

  lemma FillFront(bits: seq<bool>, i: nat, n: nat, used: bool)
    requires 0 < n && i + n <= |bits|
    ensures var m := |bits| - 1;
            Fill(bits, i, n, used)[..m] == Fill(bits[..m], i, if i + n <= m then n else n - 1, used)
  {
  }

  /** All frames, or the free ones, as pairs of region and index. */
  ghost function FrameSet(rs: seq<Region>, all: bool): set<(nat, nat)>
  {
    set r: nat, i: nat | r < |rs| && i < |rs[r].bits| && (all || !rs[r].bits[i]) :: (r, i)
  }

  /** The clear bits among the first `n` of region `r`, or all of them. */
  ghost function RowSet(r: nat, bits: seq<bool>, n: nat, all: bool): set<(nat, nat)>
    requires n <= |bits|
  {
    set i: nat | i < n && (all || !bits[i]) :: (r, i)
  }

  lemma {:induction false} RowCount(r: nat, bits: seq<bool>, n: nat, all: bool)
    requires n <= |bits|
    ensures |RowSet(r, bits, n, all)| == if all then n else FreeIn(bits[..n])
  {
    if n == 0 {
      assert RowSet(r, bits, n, all) == {};
    } else {
      var m := n - 1;
      RowCount(r, bits, m, all);
      assert bits[..n][..m] == bits[..m];
      var last: set<(nat, nat)> := if all || !bits[m] then {(r, m)} else {};
      assert RowSet(r, bits, n, all) == RowSet(r, bits, m, all) + last;
    }
  }

  lemma FrameSetSplit(rs: seq<Region>, all: bool)
    requires rs != []
    ensures var m := |rs| - 1;
            FrameSet(rs, all) == FrameSet(rs[..m], all) + RowSet(m, rs[m].bits, |rs[m].bits|, all)
  {
  }

  lemma FrameSetCount(rs: seq<Region>, all: bool)
    requires rs != []
    ensures var m := |rs| - 1;
            |FrameSet(rs, all)| == |FrameSet(rs[..m], all)| + |RowSet(m, rs[m].bits, |rs[m].bits|, all)|
  {
    FrameSetSplit(rs, all);
    var m := |rs| - 1;
    assert FrameSet(rs[..m], all) !! RowSet(m, rs[m].bits, |rs[m].bits|, all);
  }

  /** Totals count frames: `TotalFrames` all of them, `FreeFrames` the free ones. */
  lemma {:induction false} CountsFrames(rs: seq<Region>)
    ensures TotalFrames(rs) == |FrameSet(rs, true)|
    ensures FreeFrames(rs) == |FrameSet(rs, false)|
  {
    if rs == [] {
      assert FrameSet(rs, true) == {} && FrameSet(rs, false) == {};
    } else {
      var m := |rs| - 1;
      var bits := rs[m].bits;
      CountsFrames(rs[..m]);
      FrameSetCount(rs, true);
      FrameSetCount(rs, false);
      RowCount(m, bits, |bits|, true);
      RowCount(m, bits, |bits|, false);
      assert bits[..|bits|] == bits;
    }
  }

  /** Using up free frames counts them. */
  lemma {:induction false} FillCounts(bits: seq<bool>, i: nat, n: nat, used: bool)
    requires i + n <= |bits| && forall k :: i <= k < i + n ==> bits[k] != used
    ensures FreeIn(Fill(bits, i, n, used)) == if used then FreeIn(bits) - n else FreeIn(bits) + n
  {
    if n == 0 {
      assert Fill(bits, i, 0, used) == bits;
    } else {
      var m := |bits| - 1;
      FillFront(bits, i, n, used);
      FillCounts(bits[..m], i, if i + n <= m then n else n - 1, used);
    }
  }

  lemma {:induction false} FreeFramesUpdate(rs: seq<Region>, r: nat, x: Region)
    requires r < |rs| && |x.bits| == |rs[r].bits|
    ensures FreeFrames(rs[r := x]) + FreeIn(rs[r].bits) == FreeFrames(rs) + FreeIn(x.bits)
    ensures TotalFrames(rs[r := x]) == TotalFrames(rs)
  {
    var m := |rs| - 1;
    if r == m {
      assert rs[r := x][..m] == rs[..m];
    } else {
      assert rs[r := x][..m] == rs[..m][r := x];
      FreeFramesUpdate(rs[..m], r, x);
    }
  }

  lemma {:induction false} OwnedFramesWithout(claims: seq<Claim>, k: nat)
    requires k < |claims|
    ensures OwnedFrames(Without(claims, k)) + claims[k].count == OwnedFrames(claims)
  {
    var m := |claims| - 1;
    if k == m {
      assert Without(claims, k) == claims[..m];
    } else {
      assert Without(claims, k)[..m - 1] == Without(claims[..m], k);
      OwnedFramesWithout(claims[..m], k);
    }
  }

  ghost predicate Accounted(w: World)
  {
    FreeFrames(w.regions) + OwnedFrames(w.claims) == TotalFrames(w.regions)
  }

  lemma ServeKeepsAccount(w: World, q: Request)
    requires Owned(w) && Accounted(w) && Possible(w, q)
    ensures Accounted(Serve(w, q))
  {
    if q.Alloc? {
      var c := FirstFit(w.regions, q.count, 0);
      if c.Some? {
        var bits := w.regions[c.value.region].bits;
        FillCounts(bits, c.value.index, q.count, true);
        var bits' := Fill(bits, c.value.index, q.count, true);
        FreeFramesUpdate(w.regions, c.value.region, w.regions[c.value.region].(bits := bits'));
        assert (w.claims + [c.value])[..|w.claims|] == w.claims;
      }
    } else {
      var c := w.claims[q.claim];
      var bits := w.regions[c.region].bits;
      DeallocMarks(w, q.claim);
      forall i | c.index <= i < c.index + c.count ensures bits[i] { assert Covers(w.claims[q.claim], c.region, i); }
      FillCounts(bits, c.index, c.count, false);
      FreeFramesUpdate(w.regions, c.region, w.regions[c.region].(bits := Fill(bits, c.index, c.count, false)));
      OwnedFramesWithout(w.claims, q.claim);
    }
  }

  /** Frame accounting: after every sequence of requests, free frames, metadata frames and
      outstanding frames add up to all frames. */
  lemma {:induction false} FrameAccounting(w: World, qs: seq<Request>)
    requires Owned(w) && Accounted(w) && CanServe(w, qs)
    ensures Accounted(Served(w, qs))
    decreases |qs|
  {
    if qs != [] {
      ServeKeepsOwned(w, qs[0]);
      ServeKeepsAccount(w, qs[0]);
      FrameAccounting(Serve(w, qs[0]), qs[1..]);
    }
  }

  // ---------------------------------------------------------------- reversal

  /** Who owns what determines every bit. */
  lemma OwnersDetermineBits(w: World, w': World)
    requires Owned(w) && Owned(w') && SameLayout(w.regions, w'.regions) && w.claims == w'.claims
    ensures w.regions == w'.regions
  {
    forall r | 0 <= r < |w.regions| ensures w.regions[r] == w'.regions[r] {
      forall i | 0 <= i < |w.regions[r].bits| ensures w.regions[r].bits[i] == w'.regions[r].bits[i] {
      }
    }
  }

  /** No leaks: whenever the same ranges are outstanding as at some earlier time, in particular
      when everything has been returned, every bitmap is as it was then. */
  lemma NoLeaks(w: World, qs: seq<Request>)
    requires Owned(w) && |w.claims| >= 1 && CanServe(w, qs) && Served(w, qs).claims == w.claims
    ensures Served(w, qs) == w
  {
    OwnershipSafety(w, qs);
    OwnersDetermineBits(w, Served(w, qs));
  }

  /** Releasing this range would clear no used frame. */
  predicate FreesNothing(rs: seq<Region>, f: FrameRange)
  {
    var r := Locate(rs, f.start, 0);
    r.Some? ==>
      var bits, i := rs[r.value].bits, (f.start - rs[r.value].start) / FRAME_SIZE;
      forall k :: i <= k < i + f.count && k < |bits| ==> !bits[k]
  }

  /** Why only outstanding ranges may be released: a release that gives up no claim keeps ownership
      right if and only if it frees nothing. */
  lemma StrayRelease(w: World, f: FrameRange)
    requires Owned(w)
    ensures Owned(World(DeallocSpec(w.regions, f), w.claims)) <==> FreesNothing(w.regions, f)
  {
    ReleaseOfNothing(w.regions, f);
    if Owned(World(DeallocSpec(w.regions, f), w.claims)) {
      OwnersDetermineBits(w, World(DeallocSpec(w.regions, f), w.claims));
    }
  }

  lemma ReleaseOfNothing(rs: seq<Region>, f: FrameRange)
    ensures DeallocSpec(rs, f) == rs <==> FreesNothing(rs, f)
    ensures SameLayout(rs, DeallocSpec(rs, f))
  {
    var r := Locate(rs, f.start, 0);
    if r.Some? {
      var i := (f.start - rs[r.value].start) / FRAME_SIZE;
      MarkedLayout(rs, r.value, i, f.count, false);
      FillNothing(rs[r.value].bits, i, f.count);
      assert DeallocSpec(rs, f)[r.value].bits == Fill(rs[r.value].bits, i, f.count, false);
      if FreesNothing(rs, f) {
        assert DeallocSpec(rs, f) == rs[r.value := rs[r.value]];
      }
    }
  }

  lemma FillNothing(bits: seq<bool>, i: nat, n: nat)
    ensures Fill(bits, i, n, false) == bits <==> forall k :: i <= k < i + n && k < |bits| ==> !bits[k]
  {
    var r := Fill(bits, i, n, false);
    if r == bits {
      forall k | i <= k < i + n && k < |bits| ensures !bits[k] { assert !r[k]; }
    } else {
      var k :| 0 <= k < |bits| && r[k] != bits[k];
    }
  }

  // ---------------------------------------------------------------- the ranges handed out

  /** The owned ranges as their owners know them, the metadata first. */
  function Ranges(w: World): (fs: seq<FrameRange>)
    requires AllFit(w.regions, w.claims)
    ensures |fs| == |w.claims|
  {
    seq(|w.claims|, k requires 0 <= k < |w.claims| && Fits(w.regions, w.claims[k]) => RangeOf(w.regions, w.claims[k]))
  }

  predicate AllFit(rs: seq<Region>, claims: seq<Claim>)
  {
    forall k :: 0 <= k < |claims| ==> Fits(rs, claims[k])
  }

  /** Ranges depend only on the claims and on where the regions are. */
  lemma RangesSameLayout(rs: seq<Region>, rs': seq<Region>, claims: seq<Claim>)
    requires SameLayout(rs, rs') && AllFit(rs, claims)
    ensures AllFit(rs', claims) && Ranges(World(rs', claims)) == Ranges(World(rs, claims))
  {
    forall k | 0 <= k < |claims| ensures Fits(rs', claims[k]) && RangeOf(rs', claims[k]) == RangeOf(rs, claims[k]) {}
  }

  lemma RangesWithout(rs: seq<Region>, claims: seq<Claim>, k: nat)
    requires AllFit(rs, claims) && k < |claims|
    ensures AllFit(rs, Without(claims, k))
    ensures var fs := Ranges(World(rs, claims)); Ranges(World(rs, Without(claims, k))) == fs[..k] + fs[k + 1..]
  {
    forall j | 0 <= j < |claims| - 1 ensures Without(claims, k)[j] == claims[if j < k then j else j + 1] {
      WithoutAt(claims, k, j);
    }
  }

  /** A request for frames adds the range that is returned, if any. */
  lemma RangesAlloc(w: World, count: nat)
    requires Owned(w)
    ensures Owned(Serve(w, Alloc(count)))
    ensures var c := FirstFit(w.regions, count, 0);
            Ranges(Serve(w, Alloc(count)))
            == Ranges(w) + if c.None? then [] else [RangeOf(w.regions, c.value)]
  {
    AllocKeepsOwned(w, count);
    var w' := Serve(w, Alloc(count));
    RangesSameLayout(w'.regions, w.regions, w'.claims);
  }

  /** Giving a range back takes it away. */
  lemma RangesDealloc(w: World, k: nat)
    requires Owned(w) && Possible(w, Dealloc(k))
    ensures Owned(Serve(w, Dealloc(k)))
    ensures Ranges(Serve(w, Dealloc(k))) == Ranges(w)[..k] + Ranges(w)[k + 1..]
  {
    ServeKeepsOwned(w, Dealloc(k));
    RangesWithout(w.regions, w.claims, k);
    RangesSameLayout(w.regions, Serve(w, Dealloc(k)).regions, Without(w.claims, k));
  }

  /** Pairwise disjoint, aligned ranges. */
  ghost predicate RangesApart(fs: seq<FrameRange>)
  {
    && (forall k :: 0 <= k < |fs| ==> Aligned(fs[k].start))
    && (forall j, k :: 0 <= j < |fs| && 0 <= k < |fs| && j != k ==>
          EndOf(fs[j]) <= fs[k].start || EndOf(fs[k]) <= fs[j].start)
  }

  lemma OwnedRangesApart(w: World)
    requires Owned(w)
    ensures RangesApart(Ranges(w))
  {
    forall k | 0 <= k < |w.claims| ensures Aligned(Ranges(w)[k].start) { RangeInRegion(w.regions, w.claims[k]); }
    forall j, k | 0 <= j < |w.claims| && 0 <= k < |w.claims| && j != k
      ensures EndOf(Ranges(w)[j]) <= Ranges(w)[k].start || EndOf(Ranges(w)[k]) <= Ranges(w)[j].start
    {
      RangesDisjoint(w, j, k);
    }
  }

  lemma ReleaseLast(w: World, claims: seq<Claim>, c: Claim)
    requires Owned(w) && w.claims == claims + [c] && |claims| >= 1
    ensures Possible(w, Dealloc(|claims|))
    ensures var w' := Serve(w, Dealloc(|claims|));
            && Owned(w') && SameLayout(w.regions, w'.regions) && w'.claims == claims
            && w'.regions == DeallocSpec(w.regions, RangeOf(w.regions, c))
  {
    assert w.claims[|claims|] == c && Fits(w.regions, w.claims[|claims|]);
    assert Without(w.claims, |claims|) == claims;
    ServeKeepsOwned(w, Dealloc(|claims|));
  }

  lemma SameLayoutTwice(a: seq<Region>, b: seq<Region>, c: seq<Region>, claim: Claim)
    requires SameLayout(a, b) && SameLayout(b, c) && claim.region < |a|
    ensures SameLayout(a, c) && RangeOf(a, claim) == RangeOf(b, claim)
  {
  }

  /** Releasing a range right after allocating it restores every bitmap exactly. */
  lemma DeallocUndoesAlloc(w: World, count: nat)
    requires Owned(w) && |w.claims| >= 1
    ensures var (r, regions) := AllocSpec(w.regions, count); r.Ok? ==> DeallocSpec(regions, r.frames) == w.regions
  {
    var c := FirstFit(w.regions, count, 0);
    if c.Some? {
      var w1 := Serve(w, Alloc(count));
      AllocKeepsOwned(w, count);
      ReleaseLast(w1, w.claims, c.value);
      var w2 := Serve(w1, Dealloc(|w.claims|));
      SameLayoutTwice(w.regions, w1.regions, w2.regions, c.value);
      OwnersDetermineBits(w, w2);
    }
  }
}
