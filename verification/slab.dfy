/** The slab allocator: a zone of pages, and caches that take free chunks from it and give
    them back.  A chunk may be allocated through one cache and freed through another. */
module Slab {
  import opened SlabLayout
  import opened Seqs

  type CacheId = nat

  /** A page's queue of free chunks and its `free_chunks`. */
  datatype Page = Page(free: seq<Addr>, count: nat)

  /** Where a chunk is. */
  datatype Owner = InPage | InCache(c: CacheId) | Out

  /** `struct mem_zone` for chunks of `size` bytes, with its pages and caches by address
      and number; `owner`: where every chunk of every page is. */
  datatype Zone = Zone(size: nat, allocPages: nat, freedPages: nat, freeChunks: nat, list: seq<Addr>,
                       pages: map<Addr, Page>, caches: map<CacheId, seq<Addr>>, owner: map<Addr, Owner>)

  function PerPage(z: Zone): nat {
    if z.size > 0 then ChunksPerPage(z.size) else 0
  }

  /** The chunks of a page. */
  function Chunks(size: nat, base: Addr, n: nat): set<Addr> {
    set i | 0 <= i < n :: ChunkAt(base, size, i)
  }

  /** The last chunk of a page comes first in its queue. */
  function Carved(size: nat, base: Addr, n: nat): seq<Addr> {
    if n == 0 then [] else [ChunkAt(base, size, n - 1)] + Carved(size, base, n - 1)
  }

  function Total(list: seq<Addr>, pages: map<Addr, Page>): nat {
    if list == [] then 0
    else (if list[0] in pages then pages[list[0]].count else 0) + Total(list[1..], pages)
  }

  ghost predicate PageRight(z: Zone, b: Addr)
    requires b in z.pages
  {
    && b % PAGE_SIZE == 0
    && z.pages[b].count == |z.pages[b].free|
    && NoDup(z.pages[b].free)
    && (b in z.list <==> z.pages[b].count > 0)
  }

  ghost predicate ListRight(z: Zone) {
    && NoDup(z.list)
    && (forall b | b in z.list :: b in z.pages)
    && z.freeChunks == Total(z.list, z.pages)
    && z.allocPages == z.freedPages + |z.pages|
  }

  /** Is this a chunk of a live page? */
  predicate Known(z: Zone, a: Addr) {
    PageOf(a) in z.pages && a in Chunks(z.size, PageOf(a), PerPage(z))
  }

  ghost predicate OwnersRight(z: Zone) {
    && (forall a :: a in z.owner <==> Known(z, a))
    && (forall a | a in z.owner && z.owner[a].InCache? :: z.owner[a].c in z.caches)
  }

  ghost predicate FreeRight(z: Zone, b: Addr)
    requires b in z.pages
  {
    forall a :: a in z.pages[b].free <==> a in z.owner && z.owner[a] == InPage && PageOf(a) == b
  }

  ghost predicate CacheRight(z: Zone, c: CacheId)
    requires c in z.caches
  {
    NoDup(z.caches[c]) && forall a :: a in z.caches[c] <==> a in z.owner && z.owner[a] == InCache(c)
  }

  /** Every chunk of every live page is in one place: free in its page, in one cache, or
      handed out. */
  ghost predicate Sound(z: Zone) {
    && SizeOk(z.size)
    && ListRight(z)
    && OwnersRight(z)
    && (forall b | b in z.pages :: PageRight(z, b) && FreeRight(z, b))
    && (forall c | c in z.caches :: CacheRight(z, c))
  }

  /** No page is all free; so a page is listed just when it has a free chunk and not all
      of them are. */
  ghost predicate Thin(z: Zone) {
    forall b | b in z.pages :: z.pages[b].count < PerPage(z)
  }

  ghost predicate Inv(z: Zone) {
    Sound(z) && Thin(z)
  }

  lemma ChunksOf(size: nat, base: Addr, n: nat)
    requires size > 0 && base % PAGE_SIZE == 0 && n <= ChunksPerPage(size)
    ensures |Chunks(size, base, n)| == n && forall a | a in Chunks(size, base, n) :: PageOf(a) == base
  {
    forall i | 0 <= i < n ensures PageOf(ChunkAt(base, size, i)) == base {
      ChunkInPage(base, size, i);
    }
    CountChunks(size, base, n);
  }

  lemma {:induction false} CountChunks(size: nat, base: Addr, n: nat)
    requires size > 0
    ensures |Chunks(size, base, n)| == n
  {
    if n > 0 {
      CountChunks(size, base, n - 1);
      forall i | 0 <= i < n - 1 ensures ChunkAt(base, size, i) != ChunkAt(base, size, n - 1) {
        ChunksApart(base, size, i, n - 1);
      }
      hide ChunkAt;
      assert Chunks(size, base, n) == Chunks(size, base, n - 1) + {ChunkAt(base, size, n - 1)};
    }
  }

  /** What `page_alloc` carves: every chunk once. */
  lemma {:induction false} CarvedFacts(size: nat, base: Addr, n: nat)
    requires size > 0
    ensures |Carved(size, base, n)| == n && NoDup(Carved(size, base, n))
    ensures forall a :: a in Carved(size, base, n) <==> a in Chunks(size, base, n)
  {
    if n > 0 {
      CarvedFacts(size, base, n - 1);
      forall i | 0 <= i < n - 1 ensures ChunkAt(base, size, i) != ChunkAt(base, size, n - 1) {
        ChunksApart(base, size, i, n - 1);
      }
      hide ChunkAt;
      assert Chunks(size, base, n) == Chunks(size, base, n - 1) + {ChunkAt(base, size, n - 1)};
    }
  }

  lemma {:induction false} NoDupCount(s: seq<Addr>, t: set<Addr>)
    requires NoDup(s) && forall a | a in s :: a in t
    ensures |s| <= |t| && (|s| == |t| ==> forall a | a in t :: a in s)
  {
    if s != [] {
      var last := s[|s| - 1];
      NoDupCount(s[..|s| - 1], t - {last});
      assert s == s[..|s| - 1] + [last];
    }
  }

  // The operations

  /** `page_alloc`, base being what `posix_memalign` returned. */
  predicate Fresh(z: Zone, base: Addr) {
    base % PAGE_SIZE == 0 && base !in z.pages
  }

  function PageAlloc(z: Zone, base: Addr): Zone {
    z.(list := [base] + z.list,
       pages := z.pages[base := Page(Carved(z.size, base, PerPage(z)), PerPage(z))],
       freeChunks := z.freeChunks + PerPage(z),
       allocPages := z.allocPages + 1,
       owner := z.owner + map a | a in Chunks(z.size, base, PerPage(z)) :: InPage)
  }

  /** One turn of the loop in `_cache_fill`: the first listed page gives all it has. */
  function TakePage(z: Zone, c: CacheId): Zone
    requires c in z.caches && z.list != [] && z.list[0] in z.pages && z.pages[z.list[0]].count <= z.freeChunks
  {
    var b := z.list[0];
    var page := z.pages[b];
    z.(caches := z.caches[c := z.caches[c] + page.free],
       list := z.list[1..],
       freeChunks := z.freeChunks - page.count,
       pages := z.pages[b := Page([], 0)],
       owner := map a | a in z.owner :: if a in page.free then InCache(c) else z.owner[a])
  }

  /** One turn of the loop in `cache_drain`, up to the last test: a chunk goes back to its page. */
  function GiveBack(z: Zone, c: CacheId): Zone
    requires c in z.caches && z.caches[c] != [] && PageOf(z.caches[c][0]) in z.pages
  {
    var a := z.caches[c][0];
    var b := PageOf(a);
    var page := z.pages[b];
    z.(caches := z.caches[c := z.caches[c][1..]],
       list := if page.count == 0 then [b] + z.list else z.list,
       pages := z.pages[b := Page([a] + page.free, page.count + 1)],
       freeChunks := z.freeChunks + 1,
       owner := z.owner[a := InPage])
  }

  /** `page_free`, past its abort */
  function PageFree(z: Zone, b: Addr): Zone
    requires b in z.pages && z.pages[b].count <= z.freeChunks
  {
    z.(list := Without(z.list, b),
       pages := z.pages - {b},
       freeChunks := z.freeChunks - z.pages[b].count,
       freedPages := z.freedPages + 1,
       owner := map a | a in z.owner && PageOf(a) != b :: z.owner[a])
  }

  /** `_cache_malloc` from a cache that is not empty */
  function Pop(z: Zone, c: CacheId): Zone
    requires c in z.caches && z.caches[c] != []
  {
    z.(caches := z.caches[c := z.caches[c][1..]], owner := z.owner[z.caches[c][0] := Out])
  }

  /** `_cache_free` */
  function Push(z: Zone, c: CacheId, a: Addr): Zone
    requires c in z.caches
  {
    z.(caches := z.caches[c := [a] + z.caches[c]], owner := z.owner[a := InCache(c)])
  }

  /** `init_mem_cache` */
  function AddCache(z: Zone, c: CacheId): Zone {
    z.(caches := z.caches[c := []])
  }

  function New(size: nat): Zone {
    Zone(size, 0, 0, 0, [], map[], map[], map[])
  }

  lemma NewInv(size: nat)
    requires SizeOk(size)
    ensures Inv(New(size))
  {
  }

  lemma SoundParts(z: Zone)
    requires Sound(z)
    ensures SizeOk(z.size) && ListRight(z) && OwnersRight(z)
  {
  }

  lemma SoundPage(z: Zone, b: Addr)
    requires Sound(z) && b in z.pages
    ensures PageRight(z, b) && FreeRight(z, b)
  {
  }

  lemma SoundCache(z: Zone, c: CacheId)
    requires Sound(z) && c in z.caches
    ensures CacheRight(z, c)
  {
  }

  lemma SoundFrom(z: Zone)
    requires SizeOk(z.size) && ListRight(z) && OwnersRight(z)
    requires forall b | b in z.pages :: PageRight(z, b) && FreeRight(z, b)
    requires forall c | c in z.caches :: CacheRight(z, c)
    ensures Sound(z)
  {
  }

  /** The zone's own part is as it was. */
  predicate SameZone(z: Zone, z': Zone) {
    && z'.size == z.size && z'.list == z.list && z'.pages == z.pages
    && z'.freeChunks == z.freeChunks && z'.allocPages == z.allocPages && z'.freedPages == z.freedPages
  }

  lemma SameZoneRight(z: Zone, z': Zone)
    requires Sound(z) && SameZone(z, z') && z'.owner.Keys == z.owner.Keys
    requires forall a | a in z'.owner && z'.owner[a].InCache? :: z'.owner[a].c in z'.caches
    requires forall a | a in z.owner :: z'.owner[a] == InPage <==> z.owner[a] == InPage
    requires forall c | c in z'.caches :: CacheRight(z', c)
    ensures Sound(z')
  {
    SoundParts(z);
    hide CacheRight;
    assert forall a :: Known(z', a) <==> Known(z, a);
    hide Sound, Known;
    assert ListRight(z') && OwnersRight(z');
    hide ListRight, OwnersRight, NoDup;
    forall b | b in z'.pages ensures PageRight(z', b) && FreeRight(z', b) {
      SoundPage(z, b);
    }
    SoundFrom(z');
  }

  lemma PopCache(z: Zone, c: CacheId, d: CacheId)
    requires c in z.caches && z.caches[c] != [] && d in z.caches
    requires CacheRight(z, c) && CacheRight(z, d)
    ensures CacheRight(Pop(z, c), d)
  {
    assert z.caches[c][0] in z.caches[c];
    FirstOnly(z.caches[c]);
    hide NoDup;
  }

  /** `_cache_malloc` and `_cache_free` leave the zone alone. */
  lemma PopSound(z: Zone, c: CacheId)
    requires Sound(z) && c in z.caches && z.caches[c] != []
    ensures Sound(Pop(z, c))
    ensures z.caches[c][0] in z.owner && z.owner[z.caches[c][0]] == InCache(c)
  {
    var z' := Pop(z, c);
    var a := z.caches[c][0];
    SoundCache(z, c);
    assert a in z.caches[c] && a in z.owner;
    assert OwnersRight(z) by { SoundParts(z); }
    hide Sound, CacheRight;
    forall d | d in z'.caches ensures CacheRight(z', d) {
      SoundCache(z, d);
      PopCache(z, c, d);
    }
    SameZoneRight(z, z');
  }

  lemma PushCache(z: Zone, c: CacheId, a: Addr, d: CacheId)
    requires c in z.caches && d in z.caches && a in z.owner && z.owner[a] == Out && CacheRight(z, d)
    ensures CacheRight(Push(z, c, a), d)
  {
    if d == c {
      ConsNoDup(a, z.caches[c]);
    }
    hide NoDup;
  }

  lemma PushSound(z: Zone, c: CacheId, a: Addr)
    requires Sound(z) && c in z.caches && a in z.owner && z.owner[a] == Out
    ensures Sound(Push(z, c, a))
  {
    var z' := Push(z, c, a);
    assert OwnersRight(z) by { SoundParts(z); }
    hide Sound, CacheRight;
    forall d | d in z'.caches ensures CacheRight(z', d) {
      SoundCache(z, d);
      PushCache(z, c, a, d);
    }
    SameZoneRight(z, z');
  }

  lemma AddCacheSound(z: Zone, c: CacheId)
    requires Sound(z) && c !in z.caches
    ensures Sound(AddCache(z, c))
  {
    var z' := AddCache(z, c);
    SoundParts(z);
    forall d | d in z'.caches ensures CacheRight(z', d) {
      if d != c { SoundCache(z, d); }
    }
    SameZoneRight(z, z');
  }

  lemma {:induction false} TotalSame(list: seq<Addr>, pages: map<Addr, Page>, pages': map<Addr, Page>)
    requires forall b | b in list :: b in pages && b in pages' && pages'[b].count == pages[b].count
    ensures Total(list, pages') == Total(list, pages)
  {
    if list != [] {
      TotalSame(list[1..], pages, pages');
    }
  }

  /** The first listed page has no more free chunks than the zone. */
  lemma FirstCounts(z: Zone)
    requires ListRight(z) && z.list != []
    ensures z.list[0] in z.pages && z.pages[z.list[0]].count <= z.freeChunks
  {
    assert z.list[0] in z.list;
  }

  lemma TakePageList(z: Zone, c: CacheId)
    requires ListRight(z) && c in z.caches && z.list != [] && z.list[0] in z.pages && z.pages[z.list[0]].count <= z.freeChunks
    ensures ListRight(TakePage(z, c))
  {
    var z' := TakePage(z, c);
    FirstOnly(z.list);
    hide NoDup;
    TotalSame(z.list[1..], z.pages, z'.pages);
    assert z'.pages.Keys == z.pages.Keys;
    assert |z'.pages| == |z.pages| by { SameSize(z.pages, z'.pages); }
  }

  lemma SameSize<K, V>(m: map<K, V>, m': map<K, V>)
    requires m.Keys == m'.Keys
    ensures |m| == |m'|
  {
    assert |m| == |m.Keys| && |m'| == |m'.Keys|;
  }

  lemma TakePageOwners(z: Zone, c: CacheId)
    requires OwnersRight(z) && c in z.caches && z.list != [] && z.list[0] in z.pages && z.pages[z.list[0]].count <= z.freeChunks
    ensures OwnersRight(TakePage(z, c))
  {
    var z' := TakePage(z, c);
    assert z'.pages.Keys == z.pages.Keys;
    forall a ensures Known(z', a) <==> Known(z, a) {
    }
    hide Known;
  }

  lemma TakePagePage(z: Zone, c: CacheId, b: Addr)
    requires ListRight(z) && c in z.caches && z.list != [] && z.list[0] in z.pages && z.pages[z.list[0]].count <= z.freeChunks
    requires FreeRight(z, z.list[0]) && b in z.pages && PageRight(z, b) && FreeRight(z, b)
    ensures PageRight(TakePage(z, c), b) && FreeRight(TakePage(z, c), b)
  {
    FirstOnly(z.list);
    hide NoDup, ListRight;
  }

  lemma TakePageCache(z: Zone, c: CacheId, d: CacheId)
    requires ListRight(z) && c in z.caches && z.list != [] && z.list[0] in z.pages && z.pages[z.list[0]].count <= z.freeChunks
    requires PageRight(z, z.list[0]) && FreeRight(z, z.list[0]) && d in z.caches && CacheRight(z, d)
    ensures CacheRight(TakePage(z, c), d)
  {
    var free := z.pages[z.list[0]].free;
    if d == c {
      JoinNoDup(z.caches[c], free);
    }
    hide NoDup, ListRight;
  }

  lemma TakePageSound(z: Zone, c: CacheId)
    requires Sound(z) && c in z.caches && z.list != []
    ensures z.list[0] in z.pages && z.pages[z.list[0]].count <= z.freeChunks && Sound(TakePage(z, c))
  {
    SoundParts(z);
    FirstCounts(z);
    SoundPage(z, z.list[0]);
    hide Sound, ListRight, OwnersRight, PageRight, FreeRight, CacheRight;
    var z' := TakePage(z, c);
    TakePageList(z, c);
    TakePageOwners(z, c);
    forall b | b in z'.pages ensures PageRight(z', b) && FreeRight(z', b) {
      SoundPage(z, b);
      TakePagePage(z, c, b);
    }
    forall d | d in z'.caches ensures CacheRight(z', d) {
      SoundCache(z, d);
      TakePageCache(z, c, d);
    }
    SoundFrom(z');
  }

  // page_alloc

  lemma PageAllocKnown(z: Zone, base: Addr)
    requires SizeOk(z.size) && OwnersRight(z) && Fresh(z, base)
    ensures OwnersRight(PageAlloc(z, base))
    ensures forall a | a in Chunks(z.size, base, PerPage(z)) :: a !in z.owner && PageOf(a) == base
  {
    var z' := PageAlloc(z, base);
    ChunksOf(z.size, base, PerPage(z));
    hide Chunks, PageOf, SizeOk;
  }

  lemma PageAllocTotal(z: Zone, base: Addr)
    requires ListRight(z) && Fresh(z, base)
    ensures Total(PageAlloc(z, base).list, PageAlloc(z, base).pages) == PageAlloc(z, base).freeChunks
  {
    var z' := PageAlloc(z, base);
    hide Carved, Chunks, PerPage, NoDup;
    assert z'.list[1..] == z.list;
    TotalSame(z.list, z.pages, z'.pages);
  }

  lemma OneMorePage(pages: map<Addr, Page>, b: Addr, page: Page)
    requires b !in pages
    ensures |pages[b := page]| == |pages| + 1
  {
    assert pages[b := page].Keys == pages.Keys + {b};
    assert |pages[b := page]| == |pages[b := page].Keys| && |pages| == |pages.Keys|;
  }

  lemma PageAllocList(z: Zone, base: Addr)
    requires ListRight(z) && Fresh(z, base)
    ensures ListRight(PageAlloc(z, base))
  {
    PageAllocTotal(z, base);
    OneMorePage(z.pages, base, Page(Carved(z.size, base, PerPage(z)), PerPage(z)));
    ConsNoDup(base, z.list);
    hide NoDup, Carved, Chunks, Total, PerPage;
  }

  lemma PageAllocPage(z: Zone, base: Addr, b: Addr)
    requires SizeOk(z.size) && OwnersRight(z) && Fresh(z, base)
    requires b == base || (b in z.pages && PageRight(z, b) && FreeRight(z, b))
    ensures PageRight(PageAlloc(z, base), b) && FreeRight(PageAlloc(z, base), b)
  {
    PageAllocKnown(z, base);
    CarvedFacts(z.size, base, PerPage(z));
    hide Chunks, NoDup, Carved, PageOf, Known;
  }

  lemma PageAllocSound(z: Zone, base: Addr)
    requires Sound(z) && Fresh(z, base)
    ensures Sound(PageAlloc(z, base))
  {
    var z' := PageAlloc(z, base);
    SoundParts(z);
    PageAllocKnown(z, base);
    PageAllocList(z, base);
    hide Sound, ListRight, OwnersRight, PageRight, FreeRight, Carved, Chunks;
    forall b | b in z'.pages ensures PageRight(z', b) && FreeRight(z', b) {
      if b != base { SoundPage(z, b); }
      PageAllocPage(z, base, b);
    }
    forall d | d in z'.caches ensures CacheRight(z', d) {
      SoundCache(z, d);
    }
    SoundFrom(z');
  }

  // cache_drain

  predicate CanGiveBack(z: Zone, c: CacheId) {
    c in z.caches && z.caches[c] != [] && PageOf(z.caches[c][0]) in z.pages
  }

  lemma GiveBackList(z: Zone, c: CacheId)
    requires ListRight(z) && CanGiveBack(z, c) && PageRight(z, PageOf(z.caches[c][0]))
    ensures ListRight(GiveBack(z, c))
  {
    var z' := GiveBack(z, c);
    var b := PageOf(z.caches[c][0]);
    hide PageOf;
    assert z'.pages.Keys == z.pages.Keys;
    SameSize(z.pages, z'.pages);
    if z.pages[b].count == 0 {
      ConsNoDup(b, z.list);
      assert z'.list[1..] == z.list;
      TotalSame(z.list, z.pages, z'.pages);
    } else {
      TotalOneMore(z.list, z.pages, b, z'.pages[b]);
    }
  }

  lemma {:induction false} TotalOneMore(list: seq<Addr>, pages: map<Addr, Page>, b: Addr, page: Page)
    requires NoDup(list) && b in pages && page.count == pages[b].count + 1
    ensures Total(list, pages[b := page]) == Total(list, pages) + if b in list then 1 else 0
  {
    if list != [] {
      FirstOnly(list);
      TotalOneMore(list[1..], pages, b, page);
    }
  }

  lemma GiveBackOwners(z: Zone, c: CacheId)
    requires OwnersRight(z) && CanGiveBack(z, c) && z.caches[c][0] in z.owner
    ensures OwnersRight(GiveBack(z, c))
  {
    var z' := GiveBack(z, c);
    assert z'.pages.Keys == z.pages.Keys;
    forall a ensures Known(z', a) <==> Known(z, a) {
    }
    hide Known, PageOf;
  }

  lemma GiveBackPage(z: Zone, c: CacheId, b: Addr)
    requires CanGiveBack(z, c) && CacheRight(z, c) && b in z.pages && PageRight(z, b) && FreeRight(z, b)
    requires PageRight(z, PageOf(z.caches[c][0]))
    ensures PageRight(GiveBack(z, c), b) && FreeRight(GiveBack(z, c), b)
  {
    var a := z.caches[c][0];
    assert a in z.caches[c];
    if b == PageOf(a) {
      ConsNoDup(a, z.pages[b].free);
    }
    hide NoDup, PageOf;
  }

  lemma GiveBackCache(z: Zone, c: CacheId, d: CacheId)
    requires CanGiveBack(z, c) && CacheRight(z, c) && d in z.caches && CacheRight(z, d)
    ensures CacheRight(GiveBack(z, c), d)
  {
    assert z.caches[c][0] in z.caches[c];
    FirstOnly(z.caches[c]);
    hide NoDup, PageOf;
  }

  lemma CachedKnown(z: Zone, c: CacheId)
    requires Sound(z) && c in z.caches && z.caches[c] != []
    ensures CanGiveBack(z, c) && z.caches[c][0] in z.owner
  {
    SoundCache(z, c);
    SoundParts(z);
    assert z.caches[c][0] in z.caches[c];
    assert Known(z, z.caches[c][0]);
  }

  lemma GiveBackSound(z: Zone, c: CacheId)
    requires Sound(z) && c in z.caches && z.caches[c] != []
    ensures CanGiveBack(z, c) && Sound(GiveBack(z, c))
  {
    SoundParts(z);
    CachedKnown(z, c);
    SoundCache(z, c);
    SoundPage(z, PageOf(z.caches[c][0]));
    hide Sound, ListRight, OwnersRight, PageRight, FreeRight, CacheRight, PageOf;
    var z' := GiveBack(z, c);
    GiveBackList(z, c);
    GiveBackOwners(z, c);
    forall b | b in z'.pages ensures PageRight(z', b) && FreeRight(z', b) {
      SoundPage(z, b);
      GiveBackPage(z, c, b);
    }
    forall d | d in z'.caches ensures CacheRight(z', d) {
      SoundCache(z, d);
      GiveBackCache(z, c, d);
    }
    SoundFrom(z');
  }

  // page_free

  /** A page never has more free chunks than it has chunks; when it has as many, all its
      chunks are free. */
  lemma PageCount(z: Zone, b: Addr)
    requires Sound(z) && b in z.pages
    ensures z.pages[b].count <= PerPage(z)
    ensures z.pages[b].count == PerPage(z) ==> forall a | a in z.owner && PageOf(a) == b :: z.owner[a] == InPage
  {
    SoundParts(z);
    SoundPage(z, b);
    ChunksOf(z.size, b, PerPage(z));
    hide Sound, Chunks, SizeOk, ListRight, PageOf;
    var free := z.pages[b].free;
    forall a | a in free ensures a in Chunks(z.size, b, PerPage(z)) {
      assert Known(z, a);
    }
    NoDupCount(free, Chunks(z.size, b, PerPage(z)));
    forall a | a in z.owner && PageOf(a) == b && z.pages[b].count == PerPage(z) ensures z.owner[a] == InPage {
      assert Known(z, a) && a in free;
    }
  }

  lemma {:induction false} TotalWithout(list: seq<Addr>, pages: map<Addr, Page>, b: Addr)
    requires NoDup(list) && b in pages && forall x | x in list :: x in pages
    ensures Total(Without(list, b), pages - {b}) + (if b in list then pages[b].count else 0) == Total(list, pages)
  {
    if list != [] {
      FirstOnly(list);
      if list[0] == b {
        TotalSame(list[1..], pages, pages - {b});
      } else {
        TotalWithout(list[1..], pages, b);
      }
    }
  }

  predicate CanFree(z: Zone, b: Addr) {
    b in z.pages && z.pages[b].count <= z.freeChunks
  }

  lemma PageFreeList(z: Zone, b: Addr)
    requires ListRight(z) && b in z.pages && b in z.list
    ensures CanFree(z, b) && ListRight(PageFree(z, b))
  {
    TotalWithout(z.list, z.pages, b);
    WithoutFacts(z.list, b);
    hide NoDup;
    var z' := PageFree(z, b);
    assert z'.pages.Keys == z.pages.Keys - {b};
    assert |z'.pages| == |z'.pages.Keys| && |z.pages| == |z.pages.Keys|;
  }

  lemma PageFreeOwners(z: Zone, b: Addr)
    requires OwnersRight(z) && CanFree(z, b)
    ensures OwnersRight(PageFree(z, b))
  {
    var z' := PageFree(z, b);
    forall a ensures Known(z', a) <==> Known(z, a) && PageOf(a) != b {
    }
    hide Known, PageOf;
  }

  lemma PageFreePage(z: Zone, b: Addr, x: Addr)
    requires CanFree(z, b) && NoDup(z.list) && x in z.pages && x != b && PageRight(z, x) && FreeRight(z, x)
    ensures PageRight(PageFree(z, b), x) && FreeRight(PageFree(z, b), x)
  {
    WithoutFacts(z.list, b);
    hide NoDup, PageOf, Without;
  }

  lemma PageFreeSound(z: Zone, b: Addr)
    requires Sound(z) && b in z.pages && z.pages[b].count == PerPage(z)
    ensures CanFree(z, b) && Sound(PageFree(z, b))
  {
    SoundParts(z);
    SoundPage(z, b);
    PageCount(z, b);
    TwoAtLeast(z.size);
    hide SizeOk, PageOf, Known;
    assert b in z.list && NoDup(z.list);
    PageFreeList(z, b);
    PageFreeOwners(z, b);
    hide Sound, ListRight, OwnersRight, PageRight, FreeRight;
    var z' := PageFree(z, b);
    forall x | x in z'.pages ensures PageRight(z', x) && FreeRight(z', x) {
      SoundPage(z, x);
      PageFreePage(z, b, x);
    }
    forall d | d in z'.caches ensures CacheRight(z', d) {
      SoundCache(z, d);
    }
    SoundFrom(z');
  }

  lemma TwoAtLeast(size: nat)
    requires SizeOk(size)
    ensures size > 0 && ChunksPerPage(size) >= 2
  {
  }
}
