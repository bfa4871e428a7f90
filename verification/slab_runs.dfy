/** The allocator's calls, and what holds after any number of them. */
module SlabRuns {
  import opened SlabLayout
  import opened Seqs
  import opened Slab

  /** The chunks that are handed out. */
  function Outs(z: Zone): set<Addr> {
    set a | a in z.owner && z.owner[a] == Out
  }

  // _cache_fill

  /** Only the first listed page may be all free. */
  ghost predicate ThinButFirst(z: Zone) {
    forall b | b in z.pages :: z.pages[b].count < PerPage(z) || (z.list != [] && b == z.list[0])
  }

  predicate CanTake(z: Zone, c: CacheId) {
    c in z.caches && z.list != [] && z.list[0] in z.pages && z.pages[z.list[0]].count <= z.freeChunks
  }

  /** The loop of `_cache_fill`, when it has taken `chunks` chunks so far. */
  function FillLoop(z: Zone, c: CacheId, chunks: nat): Zone
    decreases |z.list|
  {
    if !CanTake(z, c) then z
    else
      var more := chunks + z.pages[z.list[0]].count;
      if more >= PerPage(z) then TakePage(z, c) else FillLoop(TakePage(z, c), c, more)
  }

  function Fill(z: Zone, c: CacheId, base: Addr): Zone {
    FillLoop(if z.freeChunks < PerPage(z) then PageAlloc(z, base) else z, c, 0)
  }

  lemma TakePageThin(z: Zone, c: CacheId)
    requires CanTake(z, c) && ThinButFirst(z) && PerPage(z) > 0
    ensures Thin(TakePage(z, c)) && ThinButFirst(TakePage(z, c))
  {
  }

  lemma TakePageGain(z: Zone, c: CacheId)
    requires Sound(z) && CanTake(z, c)
    ensures |TakePage(z, c).caches[c]| == |z.caches[c]| + z.pages[z.list[0]].count
    ensures TakePage(z, c).caches.Keys == z.caches.Keys
    ensures Outs(TakePage(z, c)) == Outs(z)
  {
    SoundPage(z, z.list[0]);
    hide Sound;
  }

  lemma FreeIsTotal(z: Zone)
    requires Sound(z)
    ensures z.freeChunks == Total(z.list, z.pages) && (z.list == [] ==> z.freeChunks == 0)
    ensures PerPage(z) >= 2
  {
    SoundParts(z);
    TwoAtLeast(z.size);
  }

  /** The loop keeps the zone sound, leaves no full page, and moves as many chunks as are
      there, or at least a page's worth. */
  lemma {:induction false} FillLoopRight(z: Zone, c: CacheId, chunks: nat)
    requires Sound(z) && ThinButFirst(z) && c in z.caches && chunks < PerPage(z)
    requires z.list == [] ==> Thin(z)
    ensures Inv(FillLoop(z, c, chunks)) && FillLoop(z, c, chunks).caches.Keys == z.caches.Keys
    ensures Outs(FillLoop(z, c, chunks)) == Outs(z)
    ensures |FillLoop(z, c, chunks).caches[c]| >= |z.caches[c]| + if chunks + z.freeChunks >= PerPage(z) then PerPage(z) - chunks else z.freeChunks
    decreases |z.list|
  {
    FreeIsTotal(z);
    hide Sound, Total, Outs, PerPage;
    if z.list != [] {
      TakePageSound(z, c);
      TakePageThin(z, c);
      TakePageGain(z, c);
      var z' := TakePage(z, c);
      var more := chunks + z.pages[z.list[0]].count;
      SamePerPage(z, c);
      if more < PerPage(z) {
        FillLoopRight(z', c, more);
      }
    }
  }

  lemma SamePerPage(z: Zone, c: CacheId)
    requires CanTake(z, c)
    ensures PerPage(TakePage(z, c)) == PerPage(z)
  {
  }

  lemma PageAllocOuts(z: Zone, base: Addr)
    requires Sound(z) && Fresh(z, base)
    ensures Outs(PageAlloc(z, base)) == Outs(z)
  {
    SoundParts(z);
    PageAllocKnown(z, base);
    hide Sound, Chunks, Carved, OwnersRight, PageOf;
  }

  lemma PageAllocThin(z: Zone, base: Addr)
    requires Thin(z) && Fresh(z, base)
    ensures ThinButFirst(PageAlloc(z, base)) && PerPage(PageAlloc(z, base)) == PerPage(z)
  {
    hide Chunks, Carved;
  }

  /** `_cache_fill` leaves at least a page's worth of chunks in the cache: the second
      `queue_get` of `_cache_malloc` finds one. */
  lemma FillRight(z: Zone, c: CacheId, base: Addr)
    requires Inv(z) && c in z.caches && Fresh(z, base)
    ensures var z' := Fill(z, c, base);
            && Inv(z') && z'.caches.Keys == z.caches.Keys && Outs(z') == Outs(z)
            && |z'.caches[c]| >= |z.caches[c]| + PerPage(z) && PerPage(z) >= 2
  {
    FreeIsTotal(z);
    if z.freeChunks < PerPage(z) {
      PageAllocSound(z, base);
      PageAllocThin(z, base);
      PageAllocOuts(z, base);
      hide Sound, Outs;
      FillLoopRight(PageAlloc(z, base), c, 0);
    } else {
      hide Sound, Outs;
      FillLoopRight(z, c, 0);
    }
  }

  // _cache_malloc, _cache_free

  /** `_cache_malloc`; base: what `posix_memalign` returns if it is called. */
  function Malloc(z: Zone, c: CacheId, base: Addr): Zone
    requires c in z.caches
  {
    var filled := if z.caches[c] == [] then Fill(z, c, base) else z;
    if c in filled.caches && filled.caches[c] != [] then Pop(filled, c) else filled
  }

  /** What it returns. */
  function Chunk(z: Zone, c: CacheId, base: Addr): Addr
    requires c in z.caches
  {
    var filled := if z.caches[c] == [] then Fill(z, c, base) else z;
    if c in filled.caches && filled.caches[c] != [] then filled.caches[c][0] else 0
  }

  lemma PopOuts(z: Zone, c: CacheId)
    requires Sound(z) && Thin(z) && c in z.caches && z.caches[c] != []
    ensures Inv(Pop(z, c)) && Outs(Pop(z, c)) == Outs(z) + {z.caches[c][0]} && z.caches[c][0] !in Outs(z)
    ensures Known(z, z.caches[c][0])
  {
    PopSound(z, c);
    SoundParts(z);
    hide Sound, Known;
  }

  /** Every allocation gives a chunk that was not handed out, of a live page. */
  lemma MallocRight(z: Zone, c: CacheId, base: Addr)
    requires Inv(z) && c in z.caches && Fresh(z, base)
    ensures var z', a := Malloc(z, c, base), Chunk(z, c, base);
            && Inv(z') && z'.caches.Keys == z.caches.Keys
            && a !in Outs(z) && Outs(z') == Outs(z) + {a} && Known(z', a)
  {
    hide Sound, Thin, Fill, Outs, Known;
    if z.caches[c] == [] {
      FillRight(z, c, base);
      PopOuts(Fill(z, c, base), c);
      SameKnown(Fill(z, c, base), c);
    } else {
      PopOuts(z, c);
      SameKnown(z, c);
    }
  }

  lemma SameKnown(z: Zone, c: CacheId)
    requires c in z.caches && z.caches[c] != []
    ensures forall a :: Known(Pop(z, c), a) <==> Known(z, a)
  {
  }

  lemma ReleaseRight(z: Zone, c: CacheId, a: Addr)
    requires Inv(z) && c in z.caches && a in Outs(z)
    ensures Inv(Push(z, c, a)) && Outs(Push(z, c, a)) == Outs(z) - {a} && Push(z, c, a).caches.Keys == z.caches.Keys
  {
    PushSound(z, c, a);
    hide Sound;
  }

  /** Warm memory on top of the stack: what was freed last is allocated next. */
  lemma FreeThenMalloc(z: Zone, c: CacheId, a: Addr, base: Addr)
    requires Inv(z) && c in z.caches && a in Outs(z)
    ensures Chunk(Push(z, c, a), c, base) == a && Malloc(Push(z, c, a), c, base) == z
  {
    hide Inv;
    var z' := Pop(Push(z, c, a), c);
    assert z'.caches == z.caches;
    assert z'.owner == z.owner;
  }

  // cache_drain

  /** One turn of the loop in `cache_drain`. */
  function DrainOne(z: Zone, c: CacheId): Zone
    requires CanGiveBack(z, c)
  {
    var b := PageOf(z.caches[c][0]);
    var back := GiveBack(z, c);
    if back.pages[b].count == PerPage(z) && CanFree(back, b) then PageFree(back, b) else back
  }

  function Drain(z: Zone, c: CacheId): Zone
    decreases if c in z.caches then |z.caches[c]| else 0
  {
    if CanGiveBack(z, c) then Drain(DrainOne(z, c), c) else z
  }

  lemma GiveBackOuts(z: Zone, c: CacheId)
    requires Sound(z) && c in z.caches && z.caches[c] != []
    ensures CanGiveBack(z, c) && Outs(GiveBack(z, c)) == Outs(z)
  {
    CachedKnown(z, c);
    SoundCache(z, c);
    assert z.caches[c][0] in z.caches[c];
    hide Sound, PageOf;
  }

  lemma PageFreeOuts(z: Zone, b: Addr)
    requires Sound(z) && CanFree(z, b) && z.pages[b].count == PerPage(z)
    ensures Outs(PageFree(z, b)) == Outs(z)
  {
    PageCount(z, b);
    hide Sound, PageOf;
  }

  lemma GiveBackThin(z: Zone, c: CacheId)
    requires Thin(z) && CanGiveBack(z, c)
    ensures var back := GiveBack(z, c); PerPage(back) == PerPage(z) && forall x | x in back.pages && x != PageOf(z.caches[c][0]) :: back.pages[x].count < PerPage(z)
  {
    hide PageOf;
  }

  /** The abort of `page_free` is out of reach: a page is freed when all its chunks are
      free, and then none is anywhere else. */
  lemma DrainOneRight(z: Zone, c: CacheId)
    requires Inv(z) && c in z.caches && z.caches[c] != []
    ensures CanGiveBack(z, c)
    ensures var z' := DrainOne(z, c);
            && Inv(z') && Outs(z') == Outs(z) && z'.caches == z.caches[c := z.caches[c][1..]]
  {
    GiveBackSound(z, c);
    GiveBackOuts(z, c);
    GiveBackThin(z, c);
    var b := PageOf(z.caches[c][0]);
    var back := GiveBack(z, c);
    PageCount(back, b);
    hide Sound, Outs, PageOf, PerPage;
    if back.pages[b].count == PerPage(z) {
      PageFreeSound(back, b);
      PageFreeOuts(back, b);
    }
  }

  lemma {:induction false} DrainRight(z: Zone, c: CacheId)
    requires Inv(z) && c in z.caches
    ensures Inv(Drain(z, c)) && Outs(Drain(z, c)) == Outs(z) && Drain(z, c).caches == z.caches[c := []]
    decreases |z.caches[c]|
  {
    hide Inv, Outs, DrainOne;
    if z.caches[c] != [] {
      DrainOneRight(z, c);
      DrainRight(DrainOne(z, c), c);
    } else {
      assert z.caches[c := []] == z.caches;
      assert !CanGiveBack(z, c);
    }
  }

  predicate AllDrained(z: Zone) {
    forall c | c in z.caches :: z.caches[c] == []
  }

  /** `zone_free` meets none of its aborts. */
  predicate FreesQuietly(z: Zone) {
    z.list == [] && z.freedPages == z.allocPages && z.freeChunks == 0
  }

  /** With all caches drained, every live page has a chunk handed out. */
  lemma PageHasOut(z: Zone, b: Addr)
    requires Inv(z) && AllDrained(z) && b in z.pages
    ensures exists a :: a in Outs(z) && PageOf(a) == b
  {
    SoundParts(z);
    SoundPage(z, b);
    ChunksOf(z.size, b, PerPage(z));
    var chunks, free := Chunks(z.size, b, PerPage(z)), z.pages[b].free;
    var inFree := set a | a in free;
    SetOfSeq(free, inFree);
    assert |inFree| < |chunks|;
    hide SizeOk, ListRight, Chunks;
    if chunks <= inFree {
      SubsetSize(chunks, inFree);
    }
    var a :| a in chunks && a !in inFree;
    assert Known(z, a) && a in z.owner && z.owner[a] != InPage;
    NotCached(z, a);
    assert a in Outs(z);
  }

  lemma {:induction false} SetOfSeq(s: seq<Addr>, t: set<Addr>)
    requires forall a | a in t :: a in s
    ensures |t| <= |s|
  {
    if s != [] {
      SetOfSeq(s[1..], t - {s[0]});
    } else {
      assert t == {};
    }
  }

  lemma NotCached(z: Zone, a: Addr)
    requires Inv(z) && AllDrained(z) && a in z.owner
    ensures !z.owner[a].InCache?
  {
    SoundParts(z);
    if z.owner[a].InCache? {
      SoundCache(z, z.owner[a].c);
    }
  }

  lemma {:induction false} ImageSize(s: set<Addr>, t: set<Addr>)
    requires forall b | b in t :: exists a :: a in s && PageOf(a) == b
    ensures |t| <= |s|
  {
    if s != {} {
      var a :| a in s;
      var s', t' := s - {a}, t - {PageOf(a)};
      hide PageOf;
      forall b | b in t' ensures exists x :: x in s' && PageOf(x) == b {
        var x :| x in s && PageOf(x) == b;
        assert x in s';
      }
      ImageSize(s', t');
      assert t <= t' + {PageOf(a)};
      SubsetSize(t, t' + {PageOf(a)});
    } else {
      assert t == {};
    }
  }

  /** With all caches drained there are at most as many pages as chunks handed out. */
  lemma PagesBound(z: Zone)
    requires Inv(z) && AllDrained(z)
    ensures |z.pages| <= |Outs(z)|
  {
    forall b | b in z.pages.Keys ensures exists a :: a in Outs(z) && PageOf(a) == b {
      PageHasOut(z, b);
    }
    hide Inv, Outs, AllDrained, PageOf;
    ImageSize(Outs(z), z.pages.Keys);
    assert |z.pages| == |z.pages.Keys|;
  }

  const COUNTER_RANGE := 0x1_0000_0000

  /** `zone_used_bytes`: the counters are 32 bits wide. */
  function UsedBytes(z: Zone): nat {
    (z.allocPages % COUNTER_RANGE - z.freedPages % COUNTER_RANGE) % COUNTER_RANGE * PAGE_SIZE
  }

  /** Collected memory: once the caches are drained, at most a page for each chunk that is
      still handed out, whatever the counters have wrapped to. */
  lemma UsedBytesBound(z: Zone)
    requires Inv(z) && AllDrained(z)
    ensures UsedBytes(z) <= PAGE_SIZE * |Outs(z)|
    ensures |Outs(z)| < COUNTER_RANGE ==> UsedBytes(z) == PAGE_SIZE * |z.pages|
  {
    PagesBound(z);
    SoundParts(z);
    hide Inv, Outs;
    WordDifference(z.allocPages, z.freedPages);
  }

  /** The difference of the wrapped counters is the number of pages. */
  lemma UsedBytesExact(z: Zone)
    requires Inv(z)
    ensures |z.pages| < COUNTER_RANGE ==> UsedBytes(z) == PAGE_SIZE * |z.pages|
  {
    SoundParts(z);
    hide Inv;
    WordDifference(z.allocPages, z.freedPages);
  }

  lemma WordDifference(a: nat, b: nat)
    requires a >= b
    ensures (a % COUNTER_RANGE - b % COUNTER_RANGE) % COUNTER_RANGE == (a - b) % COUNTER_RANGE <= a - b
    ensures a - b < COUNTER_RANGE ==> (a - b) % COUNTER_RANGE == a - b
  {
  }

  /** A zone whose caches are drained can be freed just when nothing is handed out. */
  lemma ZoneFreeIff(z: Zone)
    requires Inv(z) && AllDrained(z)
    ensures FreesQuietly(z) <==> Outs(z) == {}
  {
    PagesBound(z);
    SoundParts(z);
    FreeIsTotal(z);
    if Outs(z) == {} {
      assert forall b :: b !in z.pages by { NoKeys(z.pages); }
      EmptyList(z.list);
    } else {
      var a :| a in Outs(z);
      assert Known(z, a) && PageOf(a) in z.pages;
    }
  }

  lemma NoKeys(pages: map<Addr, Page>)
    requires |pages| == 0
    ensures forall b :: b !in pages
  {
    assert |pages.Keys| == 0;
  }

  lemma EmptyList(list: seq<Addr>)
    ensures list == [] || exists b :: b in list
  {
    if list != [] {
      assert list[0] in list;
    }
  }

  /** Two chunks of live pages do not overlap. */
  lemma KnownApart(z: Zone, a: Addr, b: Addr)
    requires Sound(z) && Known(z, a) && Known(z, b) && a < b
    ensures a + z.size <= b
  {
    SoundParts(z);
    SoundPage(z, PageOf(a));
    SoundPage(z, PageOf(b));
    hide Sound, ListRight, OwnersRight, FreeRight, PageOf;
    var p, q := PageOf(a), PageOf(b);
    var i :| 0 <= i < PerPage(z) && ChunkAt(p, z.size, i) == a;
    var j :| 0 <= j < PerPage(z) && ChunkAt(q, z.size, j) == b;
    ChunkInPage(p, z.size, i);
    ChunkInPage(q, z.size, j);
    if p == q {
      if i < j { ChunksApart(p, z.size, i, j); } else if j < i { ChunksApart(p, z.size, j, i); }
    } else {
      PagesApart(p, q, a, b);
    }
  }

  lemma PagesApart(p: Addr, q: Addr, a: Addr, b: Addr)
    requires p % PAGE_SIZE == 0 && q % PAGE_SIZE == 0 && p != q && p <= a < p + PAGE_SIZE && q <= b < q + PAGE_SIZE && a < b
    ensures p + PAGE_SIZE <= q
  {
  }

  // Whole runs

  datatype Call = NewCache(c: CacheId) | Alloc(c: CacheId, base: Addr) | Release(c: CacheId, a: Addr) | Collect(c: CacheId)

  /** A chunk is released once, and `posix_memalign` gives no page that is in use. */
  predicate Legal(z: Zone, call: Call) {
    match call
    case NewCache(c) => c !in z.caches
    case Alloc(c, base) => c in z.caches && Fresh(z, base)
    case Release(c, a) => c in z.caches && a in Outs(z)
    case Collect(c) => c in z.caches
  }

  function Do(z: Zone, call: Call): Zone
    requires Legal(z, call)
  {
    match call
    case NewCache(c) => AddCache(z, c)
    case Alloc(c, base) => Malloc(z, c, base)
    case Release(c, a) => Push(z, c, a)
    case Collect(c) => Drain(z, c)
  }

  /** What the user has, by what the calls returned and took. */
  function Held(z: Zone, held: set<Addr>, call: Call): set<Addr>
    requires Legal(z, call)
  {
    match call
    case Alloc(c, base) => held + {Chunk(z, c, base)}
    case Release(_, a) => held - {a}
    case _ => held
  }

  predicate LegalAll(z: Zone, calls: seq<Call>)
    decreases |calls|
  {
    calls == [] || (Legal(z, calls[0]) && LegalAll(Do(z, calls[0]), calls[1..]))
  }

  function DoAll(z: Zone, calls: seq<Call>): Zone
    requires LegalAll(z, calls)
    decreases |calls|
  {
    if calls == [] then z else DoAll(Do(z, calls[0]), calls[1..])
  }

  function HeldAll(z: Zone, held: set<Addr>, calls: seq<Call>): set<Addr>
    requires LegalAll(z, calls)
    decreases |calls|
  {
    if calls == [] then held else HeldAll(Do(z, calls[0]), Held(z, held, calls[0]), calls[1..])
  }

  lemma DoRight(z: Zone, call: Call)
    requires Inv(z) && Legal(z, call)
    ensures Inv(Do(z, call)) && Outs(Do(z, call)) == Held(z, Outs(z), call)
    ensures call.Alloc? ==> Chunk(z, call.c, call.base) !in Outs(z)
  {
    hide Inv, Malloc, Drain, Chunk;
    match call {
      case NewCache(c) => assert Inv(AddCache(z, c)) by { NewCacheInv(z, c); }
      case Alloc(c, base) => MallocRight(z, c, base);
      case Release(c, a) => ReleaseRight(z, c, a);
      case Collect(c) => DrainRight(z, c);
    }
  }

  lemma NewCacheInv(z: Zone, c: CacheId)
    requires Inv(z) && c !in z.caches
    ensures Inv(AddCache(z, c))
  {
    AddCacheSound(z, c);
    hide Sound;
  }

  /** After any run the allocator accounts for every chunk, and has handed out just the
      chunks that the user has. */
  lemma {:induction false} RunRight(z: Zone, calls: seq<Call>)
    requires Inv(z) && LegalAll(z, calls)
    ensures Inv(DoAll(z, calls)) && Outs(DoAll(z, calls)) == HeldAll(z, Outs(z), calls)
    decreases |calls|
  {
    hide Inv, Outs, Do, Legal, Held;
    if calls != [] {
      DoRight(z, calls[0]);
      RunRight(Do(z, calls[0]), calls[1..]);
    }
  }

  /** A user that has given everything back, with all caches drained, has no page left and
      can free the zone; one that has not, cannot. */
  lemma NothingLeaks(size: nat, calls: seq<Call>)
    requires SizeOk(size) && LegalAll(New(size), calls) && AllDrained(DoAll(New(size), calls))
    ensures FreesQuietly(DoAll(New(size), calls)) <==> HeldAll(New(size), {}, calls) == {}
    ensures UsedBytes(DoAll(New(size), calls)) <= PAGE_SIZE * |HeldAll(New(size), {}, calls)|
  {
    NewInv(size);
    assert Outs(New(size)) == {};
    hide Inv, FreesQuietly, UsedBytes;
    RunRight(New(size), calls);
    ZoneFreeIff(DoAll(New(size), calls));
    UsedBytesBound(DoAll(New(size), calls));
  }
}
