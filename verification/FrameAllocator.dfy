/** The allocator object: the operations of the source on top of the bitmaps in memory. */
module FrameAllocator {
  import opened Wrappers
  import opened FrameSpec
  import opened Bitmap
  import opened RegionTable
  import opened MetadataLayout

  // ---------------------------------------------------------------- initialization

  /** Regions with nothing used yet. */
  function AllFree(us: seq<Entry>): (rs: seq<Region>)
    ensures |rs| == |us|
  {
    seq(|us|, k requires 0 <= k < |us| => Region(us[k].base, seq(FramesIn(us[k]), _ => false)))
  }

  /** What `init` produces: everything free but the metadata frames at the start of the host. */
  function InitialWorld(us: seq<Entry>, h: nat): World
    requires h < |us|
  {
    World(Marked(AllFree(us), h, 0, FramesNeeded(us), true), [Claim(h, 0, FramesNeeded(us))])
  }

  lemma {:induction false} AllFreeCounts(bits: seq<bool>)
    requires forall i :: 0 <= i < |bits| ==> !bits[i]
    ensures FreeIn(bits) == |bits|
  {
    if bits != [] {
      AllFreeCounts(bits[..|bits| - 1]);
    }
  }

  lemma {:induction false} AllFreeTotals(rs: seq<Region>)
    requires forall r, i :: 0 <= r < |rs| && 0 <= i < |rs[r].bits| ==> !rs[r].bits[i]
    ensures FreeFrames(rs) == TotalFrames(rs)
  {
    if rs != [] {
      AllFreeTotals(rs[..|rs| - 1]);
      AllFreeCounts(rs[|rs| - 1].bits);
    }
  }

  lemma AllFreeOwned(us: seq<Entry>, ramSize: nat)
    requires GoodEntries(us, ramSize)
    ensures Owned(World(AllFree(us), []))
    ensures FreeFrames(AllFree(us)) == TotalFrames(AllFree(us))
  {
    AllFreeTotals(AllFree(us));
  }

  /** Claiming frames `0..n` of one region of an otherwise free machine keeps the account. */
  lemma FirstClaimAccounted(rs: seq<Region>, h: nat, n: nat)
    requires h < |rs| && n <= |rs[h].bits| && FreeFrames(rs) == TotalFrames(rs)
    requires forall i :: 0 <= i < |rs[h].bits| ==> !rs[h].bits[i]
    ensures Accounted(World(Marked(rs, h, 0, n, true), [Claim(h, 0, n)]))
  {
    var c := Claim(h, 0, n);
    FillCounts(rs[h].bits, 0, n, true);
    FreeFramesUpdate(rs, h, rs[h].(bits := Fill(rs[h].bits, 0, n, true)));
    assert [c][..0] == [];
    assert OwnedFrames([c]) == n;
  }

  /** The runs of `FrameSpec` start from a state in which ownership and account are right. */
  lemma InitialOwned(us: seq<Entry>, h: nat, ramSize: nat)
    requires GoodEntries(us, ramSize) && h < |us| && us[h].length >= MetadataSize(us)
    ensures Owned(InitialWorld(us, h)) && Accounted(InitialWorld(us, h))
  {
    HostFits(us, h);
    AllFreeOwned(us, ramSize);
    NewClaimOwned(World(AllFree(us), []), Claim(h, 0, FramesNeeded(us)));
    assert [] + [Claim(h, 0, FramesNeeded(us))] == [Claim(h, 0, FramesNeeded(us))];
    FirstClaimAccounted(AllFree(us), h, FramesNeeded(us));
  }

  /** One usable entry of ten frames: 42 bytes of metadata, so the first frame is reserved and the
      second is the first to be handed out. */
  lemma TenFrames()
    ensures var us := [Entry(0x100000, 0xA000, true)];
            && MetadataSize(us) == 42
            && AllocSpec(InitialWorld(us, 0).regions, 1).0 == Ok(FrameRange(0x101000, 1))
  {
    var us := [Entry(0x100000, 0xA000, true)];
    assert us[..0] == [];
    var bits := InitialWorld(us, 0).regions[0].bits;
    assert |bits| == 10 && bits[0] && !bits[1];
    assert !Window(bits, 0, 1) && Window(bits, 1, 1);
    assert FirstWindow(bits, 1, 0) == Some(1);
  }

  /** From initialization on, whatever is requested and returned: used frames are exactly the owned
      ones, the books balance, and no range handed out touches the frames of the metadata. */
  lemma MetadataNeverHandedOut(us: seq<Entry>, h: nat, ramSize: nat, qs: seq<Request>, k: nat)
    requires GoodEntries(us, ramSize) && h < |us| && us[h].length >= MetadataSize(us)
    requires CanServe(InitialWorld(us, h), qs) && 1 <= k < |Served(InitialWorld(us, h), qs).claims|
    ensures var w := Served(InitialWorld(us, h), qs);
            && Owned(w) && Accounted(w)
            && var f := RangeOf(w.regions, w.claims[k]);
            EndOf(f) <= us[h].base || us[h].base + FramesNeeded(us) * FRAME_SIZE <= f.start
  {
    var w0 := InitialWorld(us, h);
    InitialOwned(us, h, ramSize);
    OwnershipSafety(w0, qs);
    FrameAccounting(w0, qs);
    RangesDisjoint(Served(w0, qs), 0, k);
    assert w0.regions[h].start == us[h].base;
  }

  /** No bitmap byte lies in a range that avoids the metadata frames. */
  lemma ForeignBits(us: seq<Entry>, h: nat, ram: seq<bv8>, ram': seq<bv8>, f: FrameRange, k: nat)
    requires h < |us| && k < |us| && LayoutOk(Placed(us, us[h].base), |ram|) && |ram'| == |ram|
    requires EndOf(f) <= us[h].base || us[h].base + FramesNeeded(us) * FRAME_SIZE <= f.start
    requires forall a :: 0 <= a < |ram| && !(f.start <= a < EndOf(f)) ==> ram'[a] == ram[a]
    ensures var v := Placed(us, us[h].base)[k].bitmap; BitsOf(ram', v) == BitsOf(ram, v)
  {
    var v := Placed(us, us[h].base)[k].bitmap;
    LayoutDisjoint(us, us[h].base, k, k);
    forall i | 0 <= i < v.size ensures IsSet(ram', v, i) == IsSet(ram, v, i) {
      assert v.at <= v.at + i / 8 < EndAt(v);
    }
  }

  /** What reserving the metadata frames is for: from initialization on, whoever owns a range may
      write anything there, and every bitmap still says what it said. */
  lemma OwnersCannotCorrupt(us: seq<Entry>, h: nat, qs: seq<Request>, k: nat, ram: seq<bv8>, ram': seq<bv8>)
    requires GoodEntries(us, |ram|) && h < |us| && us[h].length >= MetadataSize(us) && |ram'| == |ram|
    requires CanServe(InitialWorld(us, h), qs) && 1 <= k < |Served(InitialWorld(us, h), qs).claims|
    requires var w := Served(InitialWorld(us, h), qs);
             && w.claims[k].region < |w.regions|
             && var f := RangeOf(w.regions, w.claims[k]);
             forall a :: 0 <= a < |ram| && !(f.start <= a < EndOf(f)) ==> ram'[a] == ram[a]
    ensures LayoutOk(Placed(us, us[h].base), |ram|)
    ensures RegionsOf(ram', Placed(us, us[h].base)) == RegionsOf(ram, Placed(us, us[h].base))
  {
    PlacedOk(us, h, |ram|);
    MetadataNeverHandedOut(us, h, |ram|, qs, k);
    var w := Served(InitialWorld(us, h), qs);
    forall i | 0 <= i < |us|
      ensures RegionsOf(ram', Placed(us, us[h].base))[i] == RegionsOf(ram, Placed(us, us[h].base))[i]
    {
      ForeignBits(us, h, ram, ram', RangeOf(w.regions, w.claims[k]), i);
    }
  }

  lemma MeasureStep(entries: seq<Entry>, i: nat)
    requires i < |entries|
    ensures var us, us' := Usable(entries[..i]), Usable(entries[..i + 1]);
            if entries[i].usable
            then BitmapBytes(us') == BitmapBytes(us) + BytesFor(FramesIn(entries[i])) && |us'| == |us| + 1
            else us' == us
  {
    NextUsable(entries, i);
    var us := Usable(entries[..i]);
    assert (us + [entries[i]])[..|us|] == us && us + [] == us;
  }

  /** First pass of `init`: how many bytes of metadata, for how many regions. */
  method Measure(entries: seq<Entry>) returns (size: nat, regions: nat)
    ensures size == MetadataSize(Usable(entries)) && regions == |Usable(entries)|
  {
    size, regions := 0, 0;
    for i := 0 to |entries|
      invariant size == BitmapBytes(Usable(entries[..i])) && regions == |Usable(entries[..i])|
    {
      MeasureStep(entries, i);
      if entries[i].usable {
        size := size + BytesFor(FramesIn(entries[i]));
        regions := regions + 1;
      }
    }
    assert entries[..|entries|] == entries;
    size := size + regions * RECORD_SIZE;
  }

  /** One step of the search for the host. */
  lemma HostStep(entries: seq<Entry>, i: nat, size: nat)
    requires i < |entries|
    ensures var us, n, n' := Usable(entries), |Usable(entries[..i])|, |Usable(entries[..i + 1])|;
            && n <= |us| && n' == (if entries[i].usable then n + 1 else n) <= |us|
            && if entries[i].usable && entries[i].length >= size
               then us[n] == entries[i] && HostOf(us, size, n) == Some(n)
               else HostOf(us, size, n) == HostOf(us, size, n')
  {
    NextUsable(entries, i);
  }

  /** The first usable entry of at least this size, with its number among the usable ones. */
  method FindHost(entries: seq<Entry>, size: nat) returns (host: Option<(Entry, nat)>)
    ensures var us := Usable(entries);
            var h := HostOf(us, size, 0);
            host == if h.None? then None else Some((us[h.value], h.value))
  {
    var ri := 0;
    for i := 0 to |entries|
      invariant ri == |Usable(entries[..i])| <= |Usable(entries)|
      invariant HostOf(Usable(entries), size, 0) == HostOf(Usable(entries), size, ri)
    {
      HostStep(entries, i, size);
      if entries[i].usable {
        if entries[i].length >= size {
          return Some((entries[i], ri));
        }
        ri := ri + 1;
      }
    }
    assert entries[..|entries|] == entries;
    return None;
  }

  /** Lays the records and bitmaps out from address `base` on. */
  method Build(entries: seq<Entry>, base: nat, regions: nat) returns (ms: seq<MemoryRegion>)
    requires regions == |Usable(entries)|
    ensures ms == Placed(Usable(entries), base)
  {
    ghost var us := Usable(entries);
    var regionAddr := base;
    var bitmapAddr := base + regions * RECORD_SIZE;
    ms := [];
    for i := 0 to |entries|
      invariant |ms| == |Usable(entries[..i])| <= |us|
      invariant forall k :: 0 <= k < |ms| ==> ms[k] == PlacedRegion(us, base, k)
      invariant regionAddr == base + |ms| * RECORD_SIZE
      invariant bitmapAddr == base + regions * RECORD_SIZE + BitmapBytes(us[..|ms|])
    {
      NextUsable(entries, i);
      if entries[i].usable {
        var e := entries[i];
        ghost var k := |ms|;
        assert us[..k + 1][..k] == us[..k];
        ms := ms + [MemoryRegion(e.base, e.base + e.length, BitmapView(FramesIn(e), bitmapAddr), regionAddr)];
        regionAddr := regionAddr + RECORD_SIZE;
        bitmapAddr := bitmapAddr + BytesFor(FramesIn(e));
      }
    }
    assert entries[..|entries|] == entries;
  }

  lemma ZeroedIsAllFree(ram: seq<bv8>, us: seq<Entry>, base: nat)
    requires LayoutOk(Placed(us, base), |ram|)
    requires forall k, i :: 0 <= k < |us| && 0 <= i < FramesIn(us[k]) ==> !RegionsOf(ram, Placed(us, base))[k].bits[i]
    ensures RegionsOf(ram, Placed(us, base)) == AllFree(us)
  {
    var rs := RegionsOf(ram, Placed(us, base));
    forall k | 0 <= k < |us| ensures rs[k] == AllFree(us)[k] {
      assert rs[k].bits == seq(FramesIn(us[k]), _ => false);
    }
  }

  method ZeroBitmaps(ram: array<bv8>, ms: seq<MemoryRegion>)
    requires LayoutOk(ms, ram.Length)
    modifies ram
    ensures forall k, i :: 0 <= k < |ms| && 0 <= i < ms[k].bitmap.size ==> !RegionsOf(ram[..], ms)[k].bits[i]
    ensures OnlyBitmaps(ms, old(ram[..]), ram[..])
  {
    for k := 0 to |ms|
      invariant forall j, i :: 0 <= j < k && 0 <= i < ms[j].bitmap.size ==> !RegionsOf(ram[..], ms)[j].bits[i]
      invariant OnlyBitmaps(ms, old(ram[..]), ram[..])
    {
      ghost var before := ram[..];
      ZeroBits(ram, ms[k].bitmap);
      RegionsUpdate(before, ram[..], ms, k);
      OneBitmap(ms, k, before, ram[..]);
    }
  }

  /** A request makes sense to a client that holds these ranges. */
  predicate Askable(rs: seq<Region>, held: seq<FrameRange>, q: Request)
  {
    q.Dealloc? ==> q.claim < |held| && Releasable(rs, held[q.claim])
  }

  /** What such a client sees: regions and ranges held, before and after. */
  predicate Answered(rs: seq<Region>, held: seq<FrameRange>, q: Request, rs': seq<Region>, held': seq<FrameRange>)
    requires Askable(rs, held, q)
  {
    match q
    case Alloc(count) =>
      var (r, regions) := AllocSpec(rs, count);
      rs' == regions && held' == held + if r.Ok? then [r.frames] else []
    case Dealloc(k) =>
      rs' == DeallocSpec(rs, held[k]) && held' == held[..k] + held[k + 1..]
  }

  /** In a run of requests, what clients see is what the run prescribes, and no release panics. */
  lemma AnswersFollowRun(w: World, q: Request)
    requires Owned(w) && Possible(w, q)
    ensures Askable(w.regions, Ranges(w), q)
    ensures var w' := Serve(w, q); Owned(w') && Answered(w.regions, Ranges(w), q, w'.regions, Ranges(w'))
  {
    if q.Alloc? {
      RangesAlloc(w, q.count);
    } else {
      RangesDealloc(w, q.claim);
      OutstandingIsReleasable(w, q.claim);
    }
  }

  class Allocator {
    const ram: array<bv8>
    var inner: Option<seq<MemoryRegion>>

    constructor (ram: array<bv8>)
      ensures Valid() && this.ram == ram && inner == None
    {
      this.ram := ram;
      inner := None;
    }

    ghost predicate Valid()
      reads this
    {
      inner.Some? ==> LayoutOk(inner.value, ram.Length)
    }

    ghost function Regions(): seq<Region>
      requires Valid() && inner.Some?
      reads this, ram
    {
      RegionsOf(ram[..], inner.value)
    }

    /** Builds the metadata in the first usable entry that can host it; `false` is one of two
        panics: there is none, or the allocator was initialized before. The second comes late, when
        the metadata has already been built anew. */
    method Init(entries: seq<Entry>) returns (ok: bool)
      requires Valid() && GoodEntries(Usable(entries), ram.Length)
      modifies this`inner, ram
      ensures Valid()
      ensures var us := Usable(entries);
              var h := HostOf(us, MetadataSize(us), 0);
              && ok == (h.Some? && old(inner).None?)
              && (h.Some? <==> exists k :: 0 <= k < |us| && us[k].length >= MetadataSize(us))
              && inner == (if ok then Some(Placed(us, us[h.value].base)) else old(inner))
              && (ok ==> Regions() == InitialWorld(us, h.value).regions)
              && (if h.None? then ram[..] == old(ram[..])
                  else OnlyBitmaps(Placed(us, us[h.value].base), old(ram[..]), ram[..]))
    {
      var size, regions := Measure(entries);
      var framesNeeded := (size + FRAME_SIZE - 1) / FRAME_SIZE;
      var ri := FindHost(entries, size);
      if ri.None? {
        return false;
      }
      ok := Install(entries, ri.value.0, regions, framesNeeded, ri.value.1);
    }

    /** The part of `init` that runs once the host is found. */
    method Install(entries: seq<Entry>, host: Entry, regions: nat, framesNeeded: nat, ri: nat) returns (ok: bool)
      requires Valid() && GoodEntries(Usable(entries), ram.Length) && regions == |Usable(entries)|
      requires ri < regions && Usable(entries)[ri] == host && host.length >= MetadataSize(Usable(entries))
      requires framesNeeded == FramesNeeded(Usable(entries))
      modifies this`inner, ram
      ensures Valid() && ok == old(inner).None?
      ensures inner == if ok then Some(Placed(Usable(entries), host.base)) else old(inner)
      ensures ok ==> Regions() == InitialWorld(Usable(entries), ri).regions
      ensures OnlyBitmaps(Placed(Usable(entries), host.base), old(ram[..]), ram[..])
    {
      ghost var us := Usable(entries);
      var ms := Build(entries, host.base, regions);
      PlacedOk(us, ri, ram.Length);
      HostFits(us, ri);
      ZeroBitmaps(ram, ms);
      ZeroedIsAllFree(ram[..], us, host.base);
      ghost var before := ram[..];
      var reserved := Reserve(ram, ms[ri], FrameRange(host.base, framesNeeded));
      assert reserved;
      RegionsUpdate(before, ram[..], ms, ri);
      OneBitmap(ms, ri, before, ram[..]);
      if inner.Some? {
        return false;
      }
      inner := Some(ms);
      return true;
    }

    method Alloc(count: nat) returns (r: AllocResult)
      requires Valid()
      modifies ram
      ensures Valid() && inner == old(inner)
      ensures inner.None? ==> r == Err(NotInitialized) && ram[..] == old(ram[..])
      ensures inner.Some? ==> (r, Regions()) == AllocSpec(old(Regions()), count)
      ensures inner.Some? ==> r != Err(NotInitialized) && (r == Err(OutOfMemory) <==> NoRoom(old(Regions()), count))
      ensures inner.Some? ==> OnlyBitmaps(inner.value, old(ram[..]), ram[..])
    {
      if inner.None? {
        return Err(NotInitialized);
      }
      RefusedExactly(Regions(), count);
      r := AllocIn(ram, inner.value, count);
    }

    /** Releases frames. Only the start address decides which region is asked, and an address outside
        every region is ignored; `false` is the panic on a range that runs over the bitmap bytes of
        its region. */
    method Dealloc(frames: FrameRange) returns (ok: bool)
      requires Valid()
      modifies ram
      ensures Valid() && inner == old(inner)
      ensures inner.None? ==> ok && ram[..] == old(ram[..])
      ensures inner.Some? ==> ok == Releasable(old(Regions()), frames)
      ensures inner.Some? ==> Regions() == DeallocSpec(old(Regions()), frames)
      ensures inner.Some? ==> OnlyBitmaps(inner.value, old(ram[..]), ram[..])
    {
      if inner.None? {
        return true;
      }
      ok := DeallocIn(ram, inner.value, frames);
    }

    method AllocOne() returns (r: AllocResult)
      requires Valid()
      modifies ram
      ensures Valid() && inner == old(inner)
      ensures inner.None? ==> r == Err(NotInitialized) && ram[..] == old(ram[..])
      ensures inner.Some? ==> (r, Regions()) == AllocSpec(old(Regions()), 1)
      ensures inner.Some? ==> r != Err(NotInitialized) && (r == Err(OutOfMemory) <==> NoRoom(old(Regions()), 1))
      ensures r.Ok? ==> Aligned(r.frames.start) && r.frames.count == 1
    {
      r := Alloc(1);
      if r.Ok? {
        ghost var c := FirstFit(old(Regions()), 1, 0).value;
        RangeInRegion(old(Regions()), c);
      }
    }

    /** One request of a client that knows the ranges it holds. */
    method ServeOne(q: Request, held: seq<FrameRange>) returns (held': seq<FrameRange>)
      requires Valid() && inner.Some? && Askable(Regions(), held, q)
      modifies ram
      ensures Valid() && inner == old(inner)
      ensures Answered(old(Regions()), held, q, Regions(), held')
      ensures OnlyBitmaps(inner.value, old(ram[..]), ram[..])
    {
      if q.Alloc? {
        var r := Alloc(q.count);
        held' := held + if r.Ok? then [r.frames] else [];
      } else {
        var ok := Dealloc(held[q.claim]);
        assert ok;
        held' := held[..q.claim] + held[q.claim + 1..];
      }
    }

    /** Any run of requests in memory: the bitmaps follow the run of `FrameSpec`, the ranges held by
        clients stay aligned and disjoint, from each other and from the metadata, no release panics
        and nothing but bitmap bytes is written. */
    method ServeAll(qs: seq<Request>, held: seq<FrameRange>, ghost w: World) returns (held': seq<FrameRange>)
      requires Valid() && inner.Some? && Regions() == w.regions && Owned(w)
      requires CanServe(w, qs) && held == Ranges(w)
      modifies ram
      ensures Valid() && inner == old(inner) && Owned(Served(w, qs))
      ensures Regions() == Served(w, qs).regions && held' == Ranges(Served(w, qs)) && RangesApart(held')
      ensures OnlyBitmaps(inner.value, old(ram[..]), ram[..])
    {
      held' := held;
      ghost var now := w;
      assert qs[0..] == qs;
      for i := 0 to |qs|
        invariant inner == old(inner) && Valid() && Regions() == now.regions && Owned(now)
        invariant held' == Ranges(now)
        invariant CanServe(now, qs[i..]) && Served(now, qs[i..]) == Served(w, qs)
        invariant OnlyBitmaps(inner.value, old(ram[..]), ram[..])
      {
        assert qs[i..][0] == qs[i] && qs[i..][1..] == qs[i + 1..];
        AnswersFollowRun(now, qs[i]);
        held' := ServeOne(qs[i], held');
        now := Serve(now, qs[i]);
      }
      OwnedRangesApart(now);
    }

    method Total() returns (n: nat)
      requires Valid()
      ensures n == if inner.None? then 0 else TotalFrames(Regions())
      ensures inner.Some? ==> n == |FrameSet(Regions(), true)|
    {
      n := 0;
      if inner.None? {
        return;
      }
      ghost var rs := Regions();
      for k := 0 to |inner.value|
        invariant n == TotalFrames(rs[..k])
      {
        assert rs[..k + 1][..k] == rs[..k];
        n := n + inner.value[k].bitmap.size;
      }
      assert rs[..|rs|] == rs;
      CountsFrames(rs);
    }

    method Free() returns (n: nat)
      requires Valid()
      ensures n == if inner.None? then 0 else FreeFrames(Regions())
      ensures inner.Some? ==> n == |FrameSet(Regions(), false)|
    {
      n := 0;
      if inner.None? {
        return;
      }
      ghost var rs := Regions();
      for k := 0 to |inner.value|
        invariant n == FreeFrames(rs[..k])
      {
        assert rs[..k + 1][..k] == rs[..k];
        var f := FreeInRegion(ram, inner.value[k]);
        n := n + f;
      }
      assert rs[..|rs|] == rs;
      CountsFrames(rs);
    }
  }
}
