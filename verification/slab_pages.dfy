/** When the allocator takes a page, how many pages a fill empties, and in which order chunks
    go and come back. */
module SlabPages {
  import opened SlabLayout
  import opened Seqs
  import opened Slab
  import opened SlabRuns

  /** The free chunks of these pages, page by page. */
  function FreeOf(list: seq<Addr>, pages: map<Addr, Page>): seq<Addr> {
    if list == [] then []
    else (if list[0] in pages then pages[list[0]].free else []) + FreeOf(list[1..], pages)
  }

  /** From z to z' the first n listed pages have given cache c all their free chunks; no page
      has come or gone. */
  ghost predicate Took(z: Zone, z': Zone, c: CacheId, n: nat) {
    && c in z.caches && n <= |z.list|
    && z'.list == z.list[n..]
    && z'.caches == z.caches[c := z.caches[c] + FreeOf(z.list[..n], z.pages)]
    && z'.pages.Keys == z.pages.Keys
    && (forall b | b in z.pages :: z'.pages[b] == if b in z.list[..n] then Page([], 0) else z.pages[b])
    && z'.size == z.size && z'.allocPages == z.allocPages && z'.freedPages == z.freedPages
  }

  /** The first n listed pages have as many free chunks as wanted, or are all, and no fewer
      pages would do. */
  ghost predicate Fewest(z: Zone, n: nat, wanted: int) {
    && n <= |z.list|
    && (n == |z.list| || Total(z.list[..n], z.pages) >= wanted)
    && forall k | 0 <= k < n :: Total(z.list[..k], z.pages) < wanted
  }

  lemma TookOne(z: Zone, c: CacheId)
    requires CanTake(z, c)
    ensures Took(z, TakePage(z, c), c, 1)
  {
    var b := z.list[0];
    assert z.list[..1] == [b];
    assert [b][1..] == [];
    assert FreeOf([b], z.pages) == z.pages[b].free;
  }

  lemma {:induction false} FreeOfSame(list: seq<Addr>, pages: map<Addr, Page>, pages': map<Addr, Page>)
    requires forall b | b in list :: b in pages && b in pages' && pages'[b] == pages[b]
    ensures FreeOf(list, pages') == FreeOf(list, pages)
  {
    if list != [] {
      FreeOfSame(list[1..], pages, pages');
    }
  }

  lemma TookMore(z: Zone, c: CacheId, z': Zone, n: nat)
    requires CanTake(z, c) && NoDup(z.list) && (forall b | b in z.list :: b in z.pages) && Took(TakePage(z, c), z', c, n)
    ensures Took(z, z', c, n + 1)
  {
    hide NoDup, FreeOf;
    var mid, b := TakePage(z, c), z.list[0];
    FirstOnly(z.list);
    assert z.list[..n + 1] == [b] + mid.list[..n];
    FreeOfMore(z, c, n);
    assert z.caches[c] + FreeOf(z.list[..n + 1], z.pages) == mid.caches[c] + FreeOf(mid.list[..n], mid.pages);
  }

  lemma FreeOfMore(z: Zone, c: CacheId, n: nat)
    requires CanTake(z, c) && z.list[0] !in z.list[1..] && (forall b | b in z.list :: b in z.pages) && n < |z.list|
    ensures FreeOf(z.list[..n + 1], z.pages) == z.pages[z.list[0]].free + FreeOf(z.list[1..][..n], TakePage(z, c).pages)
  {
    FreeOfSame(z.list[1..][..n], z.pages, TakePage(z, c).pages);
    assert z.list[..n + 1][1..] == z.list[1..][..n];
  }

  lemma FewestMore(z: Zone, c: CacheId, n: nat, wanted: int)
    requires CanTake(z, c) && NoDup(z.list) && (forall b | b in z.list :: b in z.pages) && wanted > 0
    requires Fewest(TakePage(z, c), n, wanted - z.pages[z.list[0]].count)
    ensures Fewest(z, n + 1, wanted)
  {
    var mid, b := TakePage(z, c), z.list[0];
    FirstOnly(z.list);
    hide NoDup;
    forall k | 0 <= k <= n ensures Total(z.list[..k + 1], z.pages) == z.pages[b].count + Total(mid.list[..k], mid.pages) {
      assert z.list[..k + 1] == [b] + mid.list[..k] && ([b] + mid.list[..k])[1..] == mid.list[..k];
      TotalSame(mid.list[..k], z.pages, mid.pages);
    }
    forall k | 0 <= k < n + 1 ensures Total(z.list[..k], z.pages) < wanted {
      if k > 0 {
        assert Total(mid.list[..k - 1], mid.pages) < wanted - z.pages[b].count;
      }
    }
  }

  /** The loop of `_cache_fill` empties the first listed pages, and no more of them than it
      takes. */
  lemma {:induction false} LoopTakes(z: Zone, c: CacheId, chunks: nat) returns (n: nat)
    requires Sound(z) && c in z.caches && chunks < PerPage(z)
    ensures Took(z, FillLoop(z, c, chunks), c, n) && Fewest(z, n, PerPage(z) - chunks)
    decreases |z.list|
  {
    hide Sound, Took, Fewest, PerPage, NoDup, TakePage, Total, FillLoop, CanTake;
    assert NoDup(z.list) && forall b | b in z.list :: b in z.pages by { SoundParts(z); }
    LoopTurn(z, c, chunks);
    if z.list == [] {
      n := 0;
      TookNone(z, c, PerPage(z) - chunks);
    } else {
      TakePageSound(z, c);
      SamePerPage(z, c);
      var z' := TakePage(z, c);
      var more := chunks + z.pages[z.list[0]].count;
      if more < PerPage(z) {
        var rest := LoopTakes(z', c, more);
        TookMore(z, c, FillLoop(z', c, more), rest);
        FewestMore(z, c, rest, PerPage(z) - chunks);
        n := rest + 1;
      } else {
        n := 1;
        TookOne(z, c);
        OneIsEnough(z, PerPage(z) - chunks);
      }
    }
  }

  lemma LoopTurn(z: Zone, c: CacheId, chunks: nat)
    requires Sound(z) && c in z.caches
    ensures z.list == [] ==> FillLoop(z, c, chunks) == z
    ensures z.list != [] ==> CanTake(z, c) && TakePage(z, c).list == z.list[1..] && c in TakePage(z, c).caches
    ensures z.list != [] ==>
              var more := chunks + z.pages[z.list[0]].count;
              FillLoop(z, c, chunks) == if more >= PerPage(z) then TakePage(z, c) else FillLoop(TakePage(z, c), c, more)
  {
    SoundParts(z);
    if z.list != [] {
      FirstCounts(z);
    }
    hide Sound, PerPage;
  }

  lemma TookNone(z: Zone, c: CacheId, wanted: int)
    requires z.list == [] && c in z.caches
    ensures Took(z, z, c, 0) && Fewest(z, 0, wanted)
  {
    assert z.caches[c] + FreeOf(z.list[..0], z.pages) == z.caches[c];
  }

  lemma OneIsEnough(z: Zone, wanted: int)
    requires z.list != [] && z.list[0] in z.pages && 0 < wanted <= z.pages[z.list[0]].count
    ensures Fewest(z, 1, wanted)
  {
    assert z.list[..1] == [z.list[0]];
    assert [z.list[0]][1..] == [];
  }

  /** Fewer chunks are free in the zone than a page has. */
  predicate Short(z: Zone) {
    z.freeChunks < PerPage(z)
  }

  /** The zone a fill takes its chunks from. */
  function Stocked(z: Zone, base: Addr): Zone {
    if Short(z) then PageAlloc(z, base) else z
  }

  /** The pages, counted and by address, are what they were, but for a new one. */
  ghost predicate PagesGain(z: Zone, z': Zone, more: set<Addr>) {
    && z'.pages.Keys == z.pages.Keys + more && more !! z.pages.Keys
    && z'.allocPages == z.allocPages + |more| && z'.freedPages == z.freedPages
  }

  /** Of the pages that are then listed a fill empties the first ones, as few as give a
      page's worth of chunks. */
  lemma FillTakes(z: Zone, c: CacheId, base: Addr) returns (n: nat)
    requires Inv(z) && c in z.caches && Fresh(z, base)
    ensures Took(Stocked(z, base), Fill(z, c, base), c, n) && Fewest(Stocked(z, base), n, PerPage(z))
    ensures Total(Stocked(z, base).list[..n], Stocked(z, base).pages) >= PerPage(z)
  {
    var s := Stocked(z, base);
    StockedEnough(z, c, base);
    hide Sound, PerPage, Took, Fewest, Thin, Stocked, PageAlloc, FillLoop, Fresh, Total;
    n := LoopTakes(s, c, 0);
    EnoughTaken(s, n, PerPage(z));
  }

  lemma StockedEnough(z: Zone, c: CacheId, base: Addr)
    requires Inv(z) && c in z.caches && Fresh(z, base)
    ensures var s := Stocked(z, base);
            && Sound(s) && c in s.caches && PerPage(s) == PerPage(z) > 0 && Total(s.list, s.pages) >= PerPage(z)
            && Fill(z, c, base) == FillLoop(s, c, 0)
  {
    FreeIsTotal(z);
    if z.freeChunks < PerPage(z) {
      PageAllocSound(z, base);
      PageAllocThin(z, base);
    }
    FreeIsTotal(Stocked(z, base));
    hide Sound, Thin, Total, PerPage, Carved, Chunks;
  }

  /** `_cache_fill` takes a page from the system just when fewer than a page's worth of
      chunks are free in the zone. */
  lemma FillPages(z: Zone, c: CacheId, base: Addr)
    requires Inv(z) && c in z.caches && Fresh(z, base)
    ensures PagesGain(z, Fill(z, c, base), if Short(z) then {base} else {})
    ensures !Short(z) ==> UsedBytes(Fill(z, c, base)) == UsedBytes(z)
  {
    hide Inv, Took, Fewest, Fill, Stocked, Fresh, Short, Total, UsedBytes;
    var n := FillTakes(z, c, base);
    GainOf(z, base, Fill(z, c, base), c, n);
    if !Short(z) {
      NothingGained(z, Fill(z, c, base));
    }
  }

  lemma EnoughTaken(z: Zone, n: nat, wanted: int)
    requires Fewest(z, n, wanted) && Total(z.list, z.pages) >= wanted
    ensures Total(z.list[..n], z.pages) >= wanted
  {
    assert n == |z.list| ==> z.list[..n] == z.list;
  }

  lemma GainOf(z: Zone, base: Addr, z': Zone, c: CacheId, n: nat)
    requires Fresh(z, base) && Took(Stocked(z, base), z', c, n)
    ensures PagesGain(z, z', if Short(z) then {base} else {})
  {
    TookPages(Stocked(z, base), z', c, n);
    hide PerPage, Carved, Chunks, Took;
  }

  lemma TookPages(z: Zone, z': Zone, c: CacheId, n: nat)
    requires Took(z, z', c, n)
    ensures z'.pages.Keys == z.pages.Keys && z'.allocPages == z.allocPages && z'.freedPages == z.freedPages
  {
  }

  /** An allocation that takes a page: its cache is empty, and the zone is short. */
  predicate TakesPage(z: Zone, call: Call)
    requires Legal(z, call)
  {
    call.Alloc? && z.caches[call.c] == [] && Short(z)
  }

  lemma MallocPages(z: Zone, c: CacheId, base: Addr)
    requires Inv(z) && c in z.caches && Fresh(z, base)
    ensures PagesGain(z, Malloc(z, c, base), if z.caches[c] == [] && Short(z) then {base} else {})
    ensures z.caches[c] != [] || !Short(z) ==> UsedBytes(Malloc(z, c, base)) == UsedBytes(z)
  {
    hide Inv, Fill, Short, UsedBytes;
    var z' := Malloc(z, c, base);
    if z.caches[c] == [] {
      FillPages(z, c, base);
    }
    var filled := if z.caches[c] == [] then Fill(z, c, base) else z;
    assert z'.pages == filled.pages && z'.allocPages == filled.allocPages && z'.freedPages == filled.freedPages;
    hide Malloc;
    if z.caches[c] != [] || !Short(z) {
      NothingGained(z, z');
    }
  }

  lemma NothingGained(z: Zone, z': Zone)
    requires PagesGain(z, z', {})
    ensures UsedBytes(z') == UsedBytes(z)
  {
  }

  /** The chunks of page b in a cache, the last one first. */
  function Returned(cache: seq<Addr>, b: Addr): seq<Addr> {
    if cache == [] then [] else Returned(cache[1..], b) + if PageOf(cache[0]) == b then [cache[0]] else []
  }

  lemma DrainOnePages(z: Zone, c: CacheId)
    requires Inv(z) && c in z.caches && z.caches[c] != []
    ensures CanGiveBack(z, c)
    ensures var z' := DrainOne(z, c);
            && z'.pages.Keys <= z.pages.Keys && z'.allocPages == z.allocPages
            && forall b | b in z'.pages :: z'.pages[b].free == (if PageOf(z.caches[c][0]) == b then [z.caches[c][0]] else []) + z.pages[b].free
  {
    CachedKnown(z, c);
    hide Inv, PageOf;
  }

  /** Draining takes no page, and a page that stays has its chunks back in front. */
  lemma {:induction false} DrainPages(z: Zone, c: CacheId)
    requires Inv(z) && c in z.caches
    ensures var z' := Drain(z, c);
            && z'.pages.Keys <= z.pages.Keys && z'.allocPages == z.allocPages
            && forall b | b in z'.pages :: z'.pages[b].free == Returned(z.caches[c], b) + z.pages[b].free
    decreases |z.caches[c]|
  {
    hide Inv, DrainOne, PageOf;
    if z.caches[c] != [] {
      DrainOneRight(z, c);
      DrainOnePages(z, c);
      DrainPages(DrainOne(z, c), c);
      assert DrainOne(z, c).caches[c] == z.caches[c][1..];
    } else {
      assert !CanGiveBack(z, c);
    }
  }

  /** The list of pages, with each page that a chunk of the cache comes back to put first
      when it is not listed. */
  function ListedAfter(cache: seq<Addr>, list: seq<Addr>): seq<Addr> {
    if cache == [] then list
    else ListedAfter(cache[1..], if PageOf(cache[0]) in list then list else [PageOf(cache[0])] + list)
  }

  /** Those of the listed pages that are still there. */
  function Still(list: seq<Addr>, pages: set<Addr>): seq<Addr> {
    if list == [] then [] else (if list[0] in pages then [list[0]] else []) + Still(list[1..], pages)
  }

  lemma {:induction false} StillIn(list: seq<Addr>, pages: set<Addr>)
    ensures forall b :: b in Still(list, pages) <==> b in list && b in pages
    ensures (forall b | b in list :: b in pages) ==> Still(list, pages) == list
  {
    if list != [] {
      StillIn(list[1..], pages);
    }
  }

  lemma {:induction false} StillWithout(list: seq<Addr>, b: Addr, pages: set<Addr>)
    requires b !in pages
    ensures Still(Without(list, b), pages) == Still(list, pages)
  {
    if list != [] {
      StillWithout(list[1..], b, pages);
    }
  }

  lemma StillCons(b: Addr, list: seq<Addr>, pages: set<Addr>)
    ensures Still([b] + list, pages) == (if b in pages then [b] else []) + Still(list, pages)
  {
    assert ([b] + list)[1..] == list;
  }

  /** Lists that agree on what stays still do after chunks have come back. */
  lemma {:induction false} ListedAgree(cache: seq<Addr>, l: seq<Addr>, l': seq<Addr>, pages: set<Addr>)
    requires Still(l, pages) == Still(l', pages)
    ensures Still(ListedAfter(cache, l), pages) == Still(ListedAfter(cache, l'), pages)
    decreases |cache|
  {
    hide PageOf;
    if cache != [] {
      var b := PageOf(cache[0]);
      StillIn(l, pages);
      StillIn(l', pages);
      StillCons(b, l, pages);
      StillCons(b, l', pages);
      hide Still;
      ListedAgree(cache[1..], if b in l then l else [b] + l, if b in l' then l' else [b] + l', pages);
    }
  }

  lemma DrainOneList(z: Zone, c: CacheId)
    requires Inv(z) && c in z.caches && z.caches[c] != []
    ensures CanGiveBack(z, c)
    ensures var z', b := DrainOne(z, c), PageOf(z.caches[c][0]);
            var listed := if b in z.list then z.list else [b] + z.list;
            if b in z'.pages then z'.list == listed else z'.list == Without(listed, b)
  {
    CachedKnown(z, c);
    SoundPage(z, PageOf(z.caches[c][0]));
    hide Inv, PageOf, PerPage, FreeRight, NoDup;
  }

  /** The pages that get listed by draining come first, the last of them foremost, and the
      others behind them as they were. */
  lemma {:induction false} DrainList(z: Zone, c: CacheId)
    requires Inv(z) && c in z.caches
    ensures Drain(z, c).list == Still(ListedAfter(z.caches[c], z.list), Drain(z, c).pages.Keys)
    decreases |z.caches[c]|
  {
    hide Inv, DrainOne, PageOf, Still, ListedAfter;
    if z.caches[c] != [] {
      DrainOneRight(z, c);
      var z1, b := DrainOne(z, c), PageOf(z.caches[c][0]);
      DrainOneList(z, c);
      DrainList(z1, c);
      DrainPages(z1, c);
      var pages := Drain(z1, c).pages.Keys;
      var listed := if b in z.list then z.list else [b] + z.list;
      assert ListedAfter(z.caches[c], z.list) == ListedAfter(z.caches[c][1..], listed) by { ListedFirst(z.caches[c], z.list); }
      if b !in z1.pages {
        StillWithout(listed, b, pages);
      }
      ListedAgree(z1.caches[c], z1.list, listed, pages);
    } else {
      assert !CanGiveBack(z, c);
      ListKnown(z);
      StillIn(z.list, z.pages.Keys);
      assert ListedAfter([], z.list) == z.list by { ListedFirst([], z.list); }
    }
  }

  lemma ListedFirst(cache: seq<Addr>, list: seq<Addr>)
    ensures cache == [] ==> ListedAfter(cache, list) == list
    ensures cache != [] ==> ListedAfter(cache, list) == ListedAfter(cache[1..], if PageOf(cache[0]) in list then list else [PageOf(cache[0])] + list)
  {
    hide PageOf;
  }

  lemma ListKnown(z: Zone)
    requires Inv(z)
    ensures forall b | b in z.list :: b in z.pages
  {
    SoundParts(z);
  }

  lemma DoPages(z: Zone, call: Call)
    requires Inv(z) && Legal(z, call)
    ensures Do(z, call).allocPages == z.allocPages + if TakesPage(z, call) then 1 else 0
    ensures Do(z, call).pages.Keys <= z.pages.Keys + if TakesPage(z, call) then {call.base} else {}
  {
    hide Inv, Malloc, Drain, PerPage;
    match call {
      case NewCache(c) =>
      case Alloc(c, base) => MallocPages(z, c, base);
      case Release(c, a) =>
      case Collect(c) => DrainPages(z, c);
    }
  }

  /** How many calls of a run take a page. */
  function PagesTaken(z: Zone, calls: seq<Call>): nat
    requires LegalAll(z, calls)
    decreases |calls|
  {
    if calls == [] then 0 else (if TakesPage(z, calls[0]) then 1 else 0) + PagesTaken(Do(z, calls[0]), calls[1..])
  }

  /** Over every run: pages are taken from the system only by allocations that find their
      cache empty and less than a page's worth of chunks free in the zone, one by each. */
  lemma {:induction false} RunPages(z: Zone, calls: seq<Call>)
    requires Inv(z) && LegalAll(z, calls)
    ensures DoAll(z, calls).allocPages == z.allocPages + PagesTaken(z, calls)
    ensures |DoAll(z, calls).pages| + DoAll(z, calls).freedPages == |z.pages| + z.freedPages + PagesTaken(z, calls)
    decreases |calls|
  {
    hide Do, Legal, TakesPage, Sound, Thin;
    if calls != [] {
      DoPages(z, calls[0]);
      DoRight(z, calls[0]);
      RunPages(Do(z, calls[0]), calls[1..]);
      SoundParts(z);
      SoundParts(Do(z, calls[0]));
    }
  }
}
