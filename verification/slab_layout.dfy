/** Where the chunks of a slab page lie. */
module SlabLayout {
  type Addr = nat

  const PAGE_SIZE := 4096
  const CACHELINE_SIZE := 64
  const PAGE_HEADER_SIZE := 40
  const CHUNK_HEADER_SIZE := 8

  /** `cacheline_align` */
  function CachelineAlign(n: nat): nat {
    (n + (CACHELINE_SIZE - 1)) / CACHELINE_SIZE * CACHELINE_SIZE
  }

  function HeaderSize(): (r: nat)
    ensures r == 64
  {
    CachelineAlign(PAGE_HEADER_SIZE)
  }

  lemma AlignFacts(n: nat)
    ensures CachelineAlign(n) % CACHELINE_SIZE == 0
    ensures n <= CachelineAlign(n) < n + CACHELINE_SIZE
  {
  }

  /** `chunks_per_page` */
  function ChunksPerPage(chunkSize: nat): nat
    requires chunkSize > 0
  {
    AlignFacts(chunkSize);
    (PAGE_SIZE - HeaderSize()) / CachelineAlign(chunkSize)
  }

  /** `init_mem_zone` goes on. */
  predicate SizeOk(chunkSize: nat) {
    chunkSize >= CHUNK_HEADER_SIZE && ChunksPerPage(chunkSize) >= 2
  }

  /** `_page_from_chunk` */
  function PageOf(a: Addr): Addr {
    a - a % PAGE_SIZE
  }

  /** The mask of the source clears what the remainder takes off. */
  lemma PageMask(a: bv64)
    ensures a & !(0x1000 - 1) == a - a % 0x1000
  {
  }

  /** The i-th chunk that `page_alloc` carves. */
  function ChunkAt(base: Addr, size: nat, i: nat): Addr {
    base + HeaderSize() + i * CachelineAlign(size)
  }

  lemma Fits(size: nat, i: nat)
    requires size > 0 && i < ChunksPerPage(size)
    ensures HeaderSize() + i * CachelineAlign(size) + CachelineAlign(size) <= PAGE_SIZE
  {
    var al, n := CachelineAlign(size), ChunksPerPage(size);
    AlignFacts(size);
    DivMul(PAGE_SIZE - HeaderSize(), al);
    assert (i + 1) * al <= n * al by { MulMono(i + 1, n, al); }
  }

  lemma DivMul(a: nat, b: nat)
    requires b > 0
    ensures a / b * b <= a
  {
  }

  lemma MulMono(a: nat, b: nat, c: nat)
    requires a <= b
    ensures a * c <= b * c
  {
  }

  /** A chunk lies inside its page, behind the header, starts a cache line, and leads back
      to its page. */
  lemma ChunkInPage(base: Addr, size: nat, i: nat)
    requires size > 0 && i < ChunksPerPage(size) && base % PAGE_SIZE == 0
    ensures var a := ChunkAt(base, size, i);
            && base + PAGE_HEADER_SIZE <= a && a + size <= base + PAGE_SIZE
            && a % CACHELINE_SIZE == 0
            && PageOf(a) == base
  {
    var al := CachelineAlign(size);
    AlignFacts(size);
    Fits(size, i);
    ModMul(i, al);
    hide CachelineAlign, ChunksPerPage;
    var off := HeaderSize() + i * al;
    assert off % CACHELINE_SIZE == 0 by { hide PageOf; }
    ModSum(base, off);
    ModIn(base, off);
  }

  lemma ModMul(i: nat, al: nat)
    requires al % CACHELINE_SIZE == 0
    ensures (i * al) % CACHELINE_SIZE == 0
  {
    var q := al / CACHELINE_SIZE;
    assert i * al == (i * q) * CACHELINE_SIZE;
  }

  lemma ModSum(base: nat, off: nat)
    requires base % PAGE_SIZE == 0 && off % CACHELINE_SIZE == 0
    ensures (base + off) % CACHELINE_SIZE == 0
  {
  }

  lemma ModIn(base: nat, off: nat)
    requires base % PAGE_SIZE == 0 && off < PAGE_SIZE
    ensures (base + off) % PAGE_SIZE == off
  {
  }

  /** Two chunks of a page do not overlap. */
  lemma ChunksApart(base: Addr, size: nat, i: nat, j: nat)
    requires size > 0 && i < j
    ensures ChunkAt(base, size, i) + size <= ChunkAt(base, size, j)
  {
    var al := CachelineAlign(size);
    AlignFacts(size);
    assert (i + 1) * al <= j * al by { MulMono(i + 1, j, al); }
    assert (i + 1) * al == i * al + al;
  }
}
