/** Several regions sharing one memory: what their bitmaps say together. */
module RegionTable {
  import opened Wrappers
  import opened FrameSpec
  import opened Bitmap

  /** Regions that can live side by side: bitmaps in different bytes, frames in different places. */
  predicate LayoutOk(ms: seq<MemoryRegion>, ramSize: nat)
  {
    && (forall i :: 0 <= i < |ms| ==> WellSized(ms[i], ramSize))
    && (forall i, j :: 0 <= i < |ms| && 0 <= j < |ms| && i != j ==> Apart(ms[i].bitmap, ms[j].bitmap))
    && (forall i, j :: 0 <= i < |ms| && 0 <= j < |ms| && i != j ==>
          ms[i].end <= ms[j].start || ms[j].end <= ms[i].start)
  }

  function RegionsOf(ram: seq<bv8>, ms: seq<MemoryRegion>): (rs: seq<Region>)
    requires LayoutOk(ms, |ram|)
    ensures |rs| == |ms| && WellPlaced(rs)
  {
    seq(|ms|, i requires 0 <= i < |ms| => RegionOf(ram, ms[i]))
  }

  /** Working on one region's bitmap changes one region. */
  lemma RegionsUpdate(ram: seq<bv8>, ram': seq<bv8>, ms: seq<MemoryRegion>, k: nat)
    requires LayoutOk(ms, |ram|) && k < |ms| && OnlyIn(ms[k].bitmap, ram, ram')
    ensures RegionsOf(ram', ms) == RegionsOf(ram, ms)[k := RegionOf(ram', ms[k])]
  {
    forall i | 0 <= i < |ms| && i != k ensures BitsOf(ram', ms[i].bitmap) == BitsOf(ram, ms[i].bitmap) {
      ApartBits(ms[i].bitmap, ms[k].bitmap, ram, ram');
    }
  }

  predicate InBitmap(ms: seq<MemoryRegion>, a: nat)
  {
    exists i :: 0 <= i < |ms| && ms[i].bitmap.at <= a < EndAt(ms[i].bitmap)
  }

  /** Memory outside the bitmaps, the region records included, is untouched. */
  ghost predicate OnlyBitmaps(ms: seq<MemoryRegion>, ram: seq<bv8>, ram': seq<bv8>)
  {
    |ram'| == |ram| && forall a :: 0 <= a < |ram| && !InBitmap(ms, a) ==> ram'[a] == ram[a]
  }

  lemma OneBitmap(ms: seq<MemoryRegion>, k: nat, ram: seq<bv8>, ram': seq<bv8>)
    requires k < |ms| && OnlyIn(ms[k].bitmap, ram, ram')
    ensures OnlyBitmaps(ms, ram, ram')
  {
  }

  /** One region's answer, in terms of the search from that region on. */
  lemma AnswerInSearch(ram: seq<bv8>, ram': seq<bv8>, ms: seq<MemoryRegion>, k: nat, count: nat, w: Option<nat>)
    requires LayoutOk(ms, |ram|) && k < |ms| && OnlyIn(ms[k].bitmap, ram, ram')
    requires w == WindowFor(BitsOf(ram, ms[k].bitmap), count)
    requires w.Some? ==> BitsOf(ram', ms[k].bitmap) == Fill(BitsOf(ram, ms[k].bitmap), w.value, count, true)
    ensures var rs := RegionsOf(ram, ms);
            && FirstFit(rs, count, k)
               == (if w.Some? then Some(Claim(k, w.value, count)) else FirstFit(rs, count, k + 1))
            && (w.Some? ==> RegionsOf(ram', ms) == Marked(rs, k, w.value, count, true))
  {
    RegionsUpdate(ram, ram', ms, k);
  }

  /** The loop body: region `k` is asked. */
  method AllocAt(ram: array<bv8>, ms: seq<MemoryRegion>, k: nat, count: nat) returns (frames: Option<FrameRange>)
    requires LayoutOk(ms, ram.Length) && k < |ms|
    modifies ram
    ensures var rs := old(RegionsOf(ram[..], ms));
            var c := FirstFit(rs, count, k);
            if frames.None? then ram[..] == old(ram[..]) && c == FirstFit(rs, count, k + 1)
            else
              && c.Some? && frames.value == RangeOf(rs, c.value)
              && RegionsOf(ram[..], ms) == Marked(rs, c.value.region, c.value.index, count, true)
    ensures OnlyBitmaps(ms, old(ram[..]), ram[..])
  {
    ghost var before := ram[..];
    ghost var w := WindowFor(BitsOf(before, ms[k].bitmap), count);
    frames := RegionAlloc(ram, ms[k], count);
    AnswerInSearch(before, ram[..], ms, k, count, w);
    OneBitmap(ms, k, before, ram[..]);
  }

  /** First fit over all regions. */
  method AllocIn(ram: array<bv8>, ms: seq<MemoryRegion>, count: nat) returns (r: AllocResult)
    requires LayoutOk(ms, ram.Length)
    modifies ram
    ensures (r, RegionsOf(ram[..], ms)) == AllocSpec(old(RegionsOf(ram[..], ms)), count)
    ensures OnlyBitmaps(ms, old(ram[..]), ram[..])
  {
    ghost var rs := RegionsOf(ram[..], ms);
    for k := 0 to |ms|
      invariant ram[..] == old(ram[..])
      invariant FirstFit(rs, count, 0) == FirstFit(rs, count, k)
    {
      var frames := AllocAt(ram, ms, k, count);
      if frames.Some? {
        return Ok(frames.value);
      }
    }
    return Err(OutOfMemory);
  }

  /** Released frames do not run over the bitmap bytes of their region. */
  predicate Releasable(rs: seq<Region>, f: FrameRange)
  {
    var r := Locate(rs, f.start, 0);
    r.Some? ==>
      f.count == 0 || (f.start - rs[r.value].start) / FRAME_SIZE + f.count <= 8 * BytesFor(|rs[r.value].bits|)
  }

  lemma DeallocHit(ram: seq<bv8>, ram': seq<bv8>, ms: seq<MemoryRegion>, k: nat, f: FrameRange)
    requires LayoutOk(ms, |ram|) && k < |ms| && OnlyIn(ms[k].bitmap, ram, ram')
    requires ms[k].start <= f.start < ms[k].end
    requires Locate(RegionsOf(ram, ms), f.start, 0) == Locate(RegionsOf(ram, ms), f.start, k)
    requires BitsOf(ram', ms[k].bitmap)
             == Fill(BitsOf(ram, ms[k].bitmap), (f.start - ms[k].start) / FRAME_SIZE, f.count, false)
    ensures RegionsOf(ram', ms) == DeallocSpec(RegionsOf(ram, ms), f)
    ensures Releasable(RegionsOf(ram, ms), f)
            == InBytes(ms[k].bitmap, (f.start - ms[k].start) / FRAME_SIZE, f.count)
  {
    assert Contains(RegionsOf(ram, ms)[k], f.start);
    RegionsUpdate(ram, ram', ms, k);
  }

  lemma DeallocMiss(ram: seq<bv8>, ms: seq<MemoryRegion>, k: nat, addr: nat)
    requires LayoutOk(ms, |ram|) && k < |ms| && !(ms[k].start <= addr < ms[k].end)
    ensures Locate(RegionsOf(ram, ms), addr, k) == Locate(RegionsOf(ram, ms), addr, k + 1)
  {
    assert !Contains(RegionsOf(ram, ms)[k], addr);
  }

  /** Release in the first region that contains the start address. */
  method DeallocIn(ram: array<bv8>, ms: seq<MemoryRegion>, frames: FrameRange) returns (ok: bool)
    requires LayoutOk(ms, ram.Length)
    modifies ram
    ensures ok == Releasable(old(RegionsOf(ram[..], ms)), frames)
    ensures RegionsOf(ram[..], ms) == DeallocSpec(old(RegionsOf(ram[..], ms)), frames)
    ensures OnlyBitmaps(ms, old(ram[..]), ram[..])
  {
    ghost var before := ram[..];
    for k := 0 to |ms|
      invariant ram[..] == before
      invariant Locate(RegionsOf(before, ms), frames.start, 0) == Locate(RegionsOf(before, ms), frames.start, k)
    {
      if ms[k].start <= frames.start < ms[k].end {
        ok := RegionDealloc(ram, ms[k], frames);
        OneBitmap(ms, k, before, ram[..]);
        DeallocHit(before, ram[..], ms, k, frames);
        return ok;
      }
      DeallocMiss(before, ms, k, frames.start);
    }
    return true;
  }

  /** An outstanding range can be released. */
  lemma OutstandingIsReleasable(w: World, k: nat)
    requires Owned(w) && k < |w.claims|
    ensures Releasable(w.regions, RangeOf(w.regions, w.claims[k]))
  {
    LocateClaim(w.regions, w.claims[k]);
  }
}
