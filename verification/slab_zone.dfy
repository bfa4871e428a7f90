/** The allocator's methods, on the zone and its caches in place. */
module SlabZone {
  import opened SlabLayout
  import opened Seqs
  import opened Slab
  import opened SlabRuns
  import opened SlabPages

  class Allocator {
    const chunkSize: nat
    const alignedChunkSize: nat
    const chunksPerPage: nat
    var allocPages: nat
    var freedPages: nat
    var freeChunks: nat
    var listOfPages: seq<Addr>
    var pages: map<Addr, Page>
    var caches: map<CacheId, seq<Addr>>
    ghost var owner: map<Addr, Owner>

    ghost function View(): Zone
      reads this
    {
      Zone(chunkSize, allocPages, freedPages, freeChunks, listOfPages, pages, caches, owner)
    }

    /** The sizes are those of the layout. */
    predicate Sized() {
      SizeOk(chunkSize) && alignedChunkSize == CachelineAlign(chunkSize) && chunksPerPage == ChunksPerPage(chunkSize)
    }

    /** `init_mem_zone`; it aborts for other sizes. */
    constructor (chunkSize: nat)
      requires SizeOk(chunkSize)
      ensures Sized() && View() == New(chunkSize) && Inv(View())
    {
      this.chunkSize := chunkSize;
      alignedChunkSize := CachelineAlign(chunkSize);
      chunksPerPage := (PAGE_SIZE - CachelineAlign(PAGE_HEADER_SIZE)) / CachelineAlign(chunkSize);
      allocPages, freedPages, freeChunks, listOfPages, pages, caches, owner := 0, 0, 0, [], map[], map[], map[];
      new;
      NewInv(chunkSize);
    }

    /** The loop of `page_alloc`. */
    method Carve(base: Addr) returns (free: seq<Addr>)
      requires Sized()
      ensures free == Carved(chunkSize, base, chunksPerPage)
    {
      var chunkPtr := base + CachelineAlign(PAGE_HEADER_SIZE);
      free := [];
      var i := 0;
      while i < chunksPerPage
        invariant 0 <= i <= chunksPerPage
        invariant chunkPtr == ChunkAt(base, chunkSize, i)
        invariant free == Carved(chunkSize, base, i)
      {
        NextChunk(base, chunkSize, i);
        free := [chunkPtr] + free;
        chunkPtr := chunkPtr + alignedChunkSize;
        i := i + 1;
      }
    }

    /** `page_alloc` on the page that `posix_memalign` returned. */
    method AllocPage(base: Addr)
      requires Sized()
      modifies this
      ensures caches == old(caches) && View() == PageAlloc(old(View()), base)
    {
      var free := Carve(base);
      listOfPages := [base] + listOfPages;
      pages := pages[base := Page(free, chunksPerPage)];
      freeChunks := freeChunks + chunksPerPage;
      allocPages := allocPages + 1;
      owner := owner + map a | a in Chunks(chunkSize, base, chunksPerPage) :: InPage;
    }

    /** `_cache_fill`; base: what `posix_memalign` returns if it is called. */
    method CacheFill(c: CacheId, base: Addr)
      requires Sized() && Inv(View()) && c in caches && Fresh(View(), base)
      modifies this
      ensures Inv(View()) && View() == Fill(old(View()), c, base)
      ensures c in caches && |caches[c]| >= |old(caches[c])| + chunksPerPage
      ensures PagesGain(old(View()), View(), if old(freeChunks) < chunksPerPage then {base} else {})
      ensures old(freeChunks) >= chunksPerPage ==> UsedBytes(View()) == UsedBytes(old(View()))
      ensures var z := Stocked(old(View()), base);
              exists n :: Took(z, View(), c, n) && Fewest(z, n, chunksPerPage)
    {
      FillRight(View(), c, base);
      FillPages(View(), c, base);
      ghost var n := FillTakes(View(), c, base);
      FreeIsTotal(View());
      assert Sound(View()) && ThinButFirst(View());
      hide Inv, PerPage, Took, Fewest, UsedBytes, Stocked, PagesGain;
      if freeChunks < chunksPerPage {
        PageAllocSound(View(), base);
        PageAllocThin(View(), base);
        AllocPage(base);
      }
      TakePages(c);
    }

    /** The loop of `_cache_fill`. */
    method TakePages(c: CacheId)
      requires Sized() && Sound(View()) && c in caches
      modifies this
      ensures View() == FillLoop(old(View()), c, 0)
    {
      hide Sound, TakePage;
      var chunks: nat := 0;
      while listOfPages != []
        invariant Sound(View()) && c in caches
        invariant FillLoop(View(), c, chunks) == FillLoop(old(View()), c, 0)
        decreases |listOfPages|
      {
        TakePageSound(View(), c);
        chunks := chunks + pages[listOfPages[0]].count;
        TakeFirst(c);
        if chunks >= chunksPerPage {
          return;
        }
      }
    }

    /** The body of that loop. */
    method TakeFirst(c: CacheId)
      requires CanTake(View(), c)
      modifies this
      ensures View() == TakePage(old(View()), c)
      ensures c in caches && listOfPages == old(listOfPages)[1..]
    {
      var b := listOfPages[0];
      var page := pages[b];
      owner := map a | a in owner :: if a in page.free then InCache(c) else owner[a];
      caches := caches[c := caches[c] + page.free];
      listOfPages := listOfPages[1..];
      freeChunks := freeChunks - page.count;
      pages := pages[b := Page([], 0)];
    }

    /** `cache_drain` */
    method CacheDrain(c: CacheId)
      requires Sized() && Inv(View()) && c in caches
      modifies this
      ensures Inv(View()) && View() == Drain(old(View()), c)
      ensures caches == old(caches)[c := []] && Outs(View()) == Outs(old(View()))
      ensures allocPages == old(allocPages) && pages.Keys <= old(pages).Keys
      ensures forall b | b in pages :: pages[b].free == Returned(old(caches[c]), b) + old(pages)[b].free
      ensures listOfPages == Still(ListedAfter(old(caches[c]), old(listOfPages)), pages.Keys)
    {
      DrainRight(View(), c);
      DrainPages(View(), c);
      DrainList(View(), c);
      hide Inv, DrainOne, Outs, Returned, ListedAfter, Still;
      while caches[c] != []
        invariant Inv(View()) && c in caches && Drain(View(), c) == Drain(old(View()), c)
        decreases |caches[c]|
      {
        DrainOneRight(View(), c);
        DrainFirst(c);
      }
      assert !CanGiveBack(View(), c);
    }

    /** The body of its loop: a chunk goes back to its page, and the page is freed when it
        is complete. */
    method DrainFirst(c: CacheId)
      requires Sized() && Inv(View()) && CanGiveBack(View(), c)
      modifies this
      ensures View() == DrainOne(old(View()), c)
    {
      GiveBackSound(View(), c);
      hide Inv, Sound, GiveBack, PageFree;
      var b := PageOf(caches[c][0]);
      GiveFirst(c);
      if pages[b].count == chunksPerPage {
        PageFreeSound(View(), b);
        FreePage(b);
      }
    }

    method GiveFirst(c: CacheId)
      requires CanGiveBack(View(), c)
      modifies this
      ensures View() == GiveBack(old(View()), c)
      ensures PageOf(old(caches[c][0])) in pages
    {
      var chunk := caches[c][0];
      caches := caches[c := caches[c][1..]];
      var b := PageOf(chunk);
      hide PageOf;
      var page := pages[b];
      if page.count == 0 {
        listOfPages := [b] + listOfPages;
      }
      pages := pages[b := Page([chunk] + page.free, page.count + 1)];
      freeChunks := freeChunks + 1;
      owner := owner[chunk := InPage];
    }

    /** `page_free`; its abort is out of reach, as its caller has made sure. */
    method FreePage(b: Addr)
      requires CanFree(View(), b) && pages[b].count == chunksPerPage
      modifies this
      ensures View() == PageFree(old(View()), b)
    {
      freeChunks := freeChunks - pages[b].count;
      listOfPages := Without(listOfPages, b);
      pages := pages - {b};
      freedPages := freedPages + 1;
      owner := map a | a in owner && PageOf(a) != b :: owner[a];
    }

    /** `_cache_malloc`: always finds a chunk, one that was not handed out. */
    method CacheMalloc(c: CacheId, base: Addr) returns (chunk: Addr)
      requires Sized() && Inv(View()) && c in caches && Fresh(View(), base)
      modifies this
      ensures Inv(View()) && View() == Malloc(old(View()), c, base) && chunk == Chunk(old(View()), c, base)
      ensures chunk !in Outs(old(View())) && Outs(View()) == Outs(old(View())) + {chunk} && Known(View(), chunk)
      ensures PagesGain(old(View()), View(), if old(caches[c]) == [] && old(freeChunks) < chunksPerPage then {base} else {})
    {
      MallocRight(View(), c, base);
      MallocPages(View(), c, base);
      SomePerPage();
      hide Inv, Fill, Outs, PerPage, Known, Pop, Sized, PagesGain, UsedBytes, Stocked;
      if caches[c] == [] {
        CacheFill(c, base);
      }
      chunk := TakeChunk(c);
    }

    lemma SomePerPage()
      requires Sized() && Inv(View())
      ensures chunksPerPage >= 2
    {
      TwoAtLeast(chunkSize);
    }

    /** `queue_get` on a cache */
    method TakeChunk(c: CacheId) returns (chunk: Addr)
      requires c in caches && caches[c] != []
      modifies this
      ensures View() == Pop(old(View()), c) && chunk == old(caches[c][0])
    {
      chunk := caches[c][0];
      caches := caches[c := caches[c][1..]];
      owner := owner[chunk := Out];
    }

    /** `_cache_free` */
    method CacheFree(c: CacheId, chunk: Addr)
      requires Inv(View()) && c in caches && chunk in Outs(View())
      modifies this
      ensures Inv(View()) && View() == Push(old(View()), c, chunk) && Outs(View()) == Outs(old(View())) - {chunk}
    {
      ReleaseRight(View(), c, chunk);
      hide Inv, Outs;
      caches := caches[c := [chunk] + caches[c]];
      owner := owner[chunk := InCache(c)];
    }

    /** `zone_used_bytes` */
    method ZoneUsedBytes() returns (bytes: nat)
      ensures bytes == UsedBytes(View())
      ensures Inv(View()) && |pages| < COUNTER_RANGE ==> bytes == PAGE_SIZE * |pages|
      ensures Inv(View()) && AllDrained(View()) ==> bytes <= PAGE_SIZE * |Outs(View())|
    {
      if Inv(View()) {
        UsedBytesExact(View());
        if AllDrained(View()) {
          UsedBytesBound(View());
        }
      }
      hide Inv, AllDrained, Outs;
      var used := (allocPages % COUNTER_RANGE - freedPages % COUNTER_RANGE) % COUNTER_RANGE;
      bytes := used * PAGE_SIZE;
    }

    /** `zone_free`: false stands for its aborts. */
    method ZoneFree() returns (ok: bool)
      requires Inv(View())
      ensures ok <==> FreesQuietly(View())
      ensures AllDrained(View()) ==> (ok <==> Outs(View()) == {})
    {
      if AllDrained(View()) {
        ZoneFreeIff(View());
      }
      if listOfPages != [] {
        return false;
      }
      if freedPages != allocPages {
        return false;
      }
      if freeChunks != 0 {
        return false;
      }
      return true;
    }
  }

  lemma NextChunk(base: Addr, size: nat, i: nat)
    ensures ChunkAt(base, size, i + 1) == ChunkAt(base, size, i) + CachelineAlign(size)
  {
    var al := CachelineAlign(size);
    assert (i + 1) * al == i * al + al;
  }
}
