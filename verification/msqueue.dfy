/** msqueue.h: the lock-free queue of domains, one shared read, write or
    compare-and-swap per step, any number of threads.

    The header admits that the algorithm is exposed to the ABA problem.  Every
    shared word therefore carries a stamp that counts the writes to it, a thread
    remembers the stamp of what it read, and the steps of the model leave out
    just one thing: a compare-and-swap that succeeds although the word was
    written since it was read. */
module MsQueue {
  import opened Seqs

  type Node = nat
  type Tid = nat

  /** `root->divider` */
  const DIVIDER: Node := 0

  datatype Link = Null | Poison | To(node: Node)

  datatype Cell = Cell(value: Link, stamp: nat)

  /** `root->head` or `root->tail` */
  datatype Ref = Ref(node: Node, stamp: nat)

  /** Shared memory.  `chain` is what the model knows of it: the nodes from `head` on. */
  datatype Mem = Mem(head: Ref, tail: Ref, next: map<Node, Cell>, chain: seq<Node>)

  function CellOf(m: Mem, n: Node): Cell {
    if n in m.next then m.next[n] else Cell(Poison, 0)
  }

  function Write(m: Mem, n: Node, value: Link): Mem {
    m.(next := m.next[n := Cell(value, CellOf(m, n).stamp + 1)])
  }

  /** Where a thread is.  `refill`: the put is that of the divider, inside a get; `alone`:
      there was one node on the chain when the get read the successor of the head. */
  datatype Pc =
    | Idle
    | PutStart(new_: Node, refill: bool)
    | PutClear(new_: Node, refill: bool, n: Link, ns: nat)
    | PutTail(new_: Node, refill: bool)
    | PutNext(new_: Node, refill: bool, t: Node, ts: nat)
    | PutCheck(new_: Node, refill: bool, t: Node, ts: nat, n: Link, ns: nat)
    | PutAct(new_: Node, refill: bool, t: Node, ts: nat, n: Link, ns: nat)
    | PutSwing(new_: Node, refill: bool, t: Node, ts: nat)
    | GetHead
    | GetTail(h: Node, hs: nat)
    | GetNext(h: Node, hs: nat, t: Node, ts: nat)
    | GetCheck(h: Node, hs: nat, t: Node, ts: nat, n: Link, ns: nat, alone: bool)
    | GetAct(h: Node, hs: nat, t: Node, ts: nat, n: Link, ns: nat)
    | GetPoison(h: Node, n: Link, ns: nat)
    | Aborted

  /** The node that a thread has to itself, if any. */
  function Held(pc: Pc): set<Node> {
    match pc
    case PutStart(x, _) => {x}
    case PutClear(x, _, _, _) => {x}
    case PutTail(x, _) => {x}
    case PutNext(x, _, _, _) => {x}
    case PutCheck(x, _, _, _, _, _) => {x}
    case PutAct(x, _, _, _, _, _) => {x}
    case GetPoison(h, _, _) => {h}
    case _ => {}
  }

  /** The chain from `head` is NULL-terminated and `tail` is on it. */
  ghost predicate ChainOk(m: Mem) {
    && m.chain != [] && NoDup(m.chain)
    && m.head.node == m.chain[0] && m.tail.node in m.chain
    && (forall i | 0 <= i < |m.chain| - 1 :: CellOf(m, m.chain[i]).value == To(m.chain[i + 1]))
    && CellOf(m, m.chain[|m.chain| - 1]).value == Null
  }

  ghost predicate IsLast(m: Mem, n: Node) {
    m.chain != [] && m.chain[|m.chain| - 1] == n
  }

  ghost predicate TailSeen(m: Mem, t: Node, ts: nat) {
    ts <= m.tail.stamp && (m.tail.stamp == ts ==> m.tail.node == t)
  }

  ghost predicate HeadSeen(m: Mem, h: Node, hs: nat) {
    hs <= m.head.stamp && (m.head.stamp == hs ==> m.head.node == h)
  }

  ghost predicate NextSeen(m: Mem, x: Node, n: Link, ns: nat) {
    ns <= CellOf(m, x).stamp && (CellOf(m, x).stamp == ns ==> CellOf(m, x).value == n)
  }

  /** As long as x is the tail the thread saw, a successor it saw is still the successor. */
  ghost predicate NextOfTail(m: Mem, t: Node, ts: nat, n: Link) {
    m.tail.stamp == ts && n != Null ==> CellOf(m, t).value == n
  }

  /** As long as h is the head the thread saw, so is the link it read from it. */
  ghost predicate NextOfHead(m: Mem, h: Node, hs: nat, n: Link, ns: nat) {
    m.head.stamp == hs && n != Null ==> CellOf(m, h) == Cell(n, ns)
  }

  /** The tail does not fall back to a head that it was seen past. */
  ghost predicate TailAhead(m: Mem, h: Node, hs: nat, t: Node) {
    m.head.stamp == hs && t != h ==> m.tail.node != h
  }

  /** What a thread may rely on at each point. */
  ghost predicate ThreadOk(m: Mem, pc: Pc) {
    match pc
    case Idle => true
    case PutStart(x, refill) => refill == (x == DIVIDER) && CellOf(m, x).value != Null
    case PutClear(x, refill, n, ns) => refill == (x == DIVIDER) && CellOf(m, x) == Cell(n, ns) && n != Null
    case PutTail(x, refill) => refill == (x == DIVIDER) && CellOf(m, x).value == Null
    case PutNext(x, refill, t, ts) => refill == (x == DIVIDER) && CellOf(m, x).value == Null && TailSeen(m, t, ts)
    case PutCheck(x, refill, t, ts, n, ns) =>
      refill == (x == DIVIDER) && CellOf(m, x).value == Null
      && TailSeen(m, t, ts) && NextSeen(m, t, n, ns) && NextOfTail(m, t, ts, n)
    case PutAct(x, refill, t, ts, n, ns) =>
      refill == (x == DIVIDER) && CellOf(m, x).value == Null
      && TailSeen(m, t, ts) && NextSeen(m, t, n, ns) && NextOfTail(m, t, ts, n)
      && (CellOf(m, t).stamp == ns && n == Null ==> IsLast(m, t))
    case PutSwing(x, refill, t, ts) => TailSeen(m, t, ts) && NextOfTail(m, t, ts, To(x))
    case GetHead => true
    case GetTail(h, hs) => HeadSeen(m, h, hs)
    case GetNext(h, hs, t, ts) => HeadSeen(m, h, hs) && TailSeen(m, t, ts) && TailAhead(m, h, hs, t)
    case GetCheck(h, hs, t, ts, n, ns, alone) =>
      HeadSeen(m, h, hs) && TailSeen(m, t, ts) && TailAhead(m, h, hs, t)
      && NextSeen(m, h, n, ns) && NextOfHead(m, h, hs, n, ns) && (h == t ==> NextOfTail(m, t, ts, n))
      && (m.head.stamp == hs && t != h ==> n != Null)
      && (m.head.stamp == hs && n == Null ==> alone)
    case GetAct(h, hs, t, ts, n, ns) =>
      HeadSeen(m, h, hs) && TailSeen(m, t, ts) && TailAhead(m, h, hs, t)
      && NextSeen(m, h, n, ns) && NextOfHead(m, h, hs, n, ns) && (h == t ==> NextOfTail(m, t, ts, n))
      && (m.head.stamp == hs && t != h ==> n != Null)
    case GetPoison(h, n, ns) => h != DIVIDER && CellOf(m, h) == Cell(n, ns) && n.To?
    case Aborted => false
  }

  /** A write to a node that is neither on the chain nor held by this thread. */
  lemma WriteKeeps(m: Mem, y: Node, value: Link, pc: Pc)
    requires ChainOk(m) && ThreadOk(m, pc) && y !in m.chain && y !in Held(pc)
    ensures ThreadOk(Write(m, y, value), pc)
  {
  }

  lemma WriteChain(m: Mem, y: Node, value: Link)
    requires ChainOk(m) && y !in m.chain
    ensures ChainOk(Write(m, y, value))
  {
  }

  /** The successful compare-and-swap of `tail->next` from NULL to x. */
  function LinkAt(m: Mem, t: Node, x: Node): Mem {
    Write(m, t, To(x)).(chain := m.chain + [x])
  }

  lemma LinkKeeps(m: Mem, t: Node, x: Node, pc: Pc)
    requires ChainOk(m) && ThreadOk(m, pc) && IsLast(m, t) && x !in m.chain && Held(pc) !! {x} && t !in Held(pc)
    ensures ThreadOk(LinkAt(m, t, x), pc)
  {
  }

  lemma LinkChain(m: Mem, t: Node, x: Node)
    requires ChainOk(m) && IsLast(m, t) && x !in m.chain && CellOf(m, x).value == Null
    ensures ChainOk(LinkAt(m, t, x))
  {
  }

  lemma LinkEffects(m: Mem, t: Node, x: Node)
    requires ChainOk(m) && IsLast(m, t) && x !in m.chain
    ensures t in m.chain && t != x
    ensures forall y :: y in LinkAt(m, t, x).chain <==> y in m.chain || y == x
  {
  }

  function Swing(m: Mem, n: Node): Mem {
    m.(tail := Ref(n, m.tail.stamp + 1))
  }

  /** The successor of a node on the chain is on it too, and is not the first. */
  lemma Successor(m: Mem, x: Node, n: Node)
    requires ChainOk(m) && x in m.chain && CellOf(m, x).value == To(n)
    ensures n in m.chain[1..] && n != m.chain[0] && |m.chain| >= 2 && (x == m.chain[0] ==> n == m.chain[1])
  {
    var i :| 0 <= i < |m.chain| && m.chain[i] == x;
    assert i < |m.chain| - 1 && m.chain[i + 1] == n;
    assert m.chain[1..][i] == n;
  }

  lemma SwingKeeps(m: Mem, n: Node, pc: Pc)
    requires ChainOk(m) && ThreadOk(m, pc) && CellOf(m, m.tail.node).value == To(n)
    ensures ThreadOk(Swing(m, n), pc)
  {
    Successor(m, m.tail.node, n);
  }

  lemma SwingChain(m: Mem, n: Node)
    requires ChainOk(m) && CellOf(m, m.tail.node).value == To(n)
    ensures ChainOk(Swing(m, n))
  {
    Successor(m, m.tail.node, n);
  }

  /** The successful compare-and-swap of `root->head`. */
  function Unlink(m: Mem, n: Node): Mem
    requires m.chain != []
  {
    m.(head := Ref(n, m.head.stamp + 1), chain := m.chain[1..])
  }

  lemma UnlinkOk(m: Mem, n: Node)
    requires ChainOk(m) && CellOf(m, m.head.node).value == To(n) && m.tail.node != m.head.node
    ensures ChainOk(Unlink(m, n)) && forall x :: IsLast(m, x) ==> IsLast(Unlink(m, n), x)
  {
    Successor(m, m.head.node, n);
    FirstOnly(m.chain);
    hide NoDup;
    var chain := m.chain[1..];
    forall i | 0 <= i < |chain| - 1 ensures CellOf(m, chain[i]).value == To(chain[i + 1]) {
      assert chain[i] == m.chain[i + 1] && chain[i + 1] == m.chain[i + 2];
    }
  }

  lemma UnlinkChain(m: Mem, n: Node)
    requires ChainOk(m) && CellOf(m, m.head.node).value == To(n) && m.tail.node != m.head.node
    ensures ChainOk(Unlink(m, n))
    ensures forall x :: IsLast(m, x) ==> IsLast(Unlink(m, n), x)
    ensures m.head.node !in Unlink(m, n).chain
    ensures forall x :: x in m.chain <==> x in Unlink(m, n).chain || x == m.head.node
    ensures Items(m.chain) == if m.head.node == DIVIDER then Items(m.chain[1..]) else [m.head.node] + Items(m.chain[1..])
  {
    UnlinkOk(m, n);
    FirstOnly(m.chain);
    hide IsLast, NoDup;
  }

  lemma UnlinkKeeps(m: Mem, n: Node, pc: Pc)
    requires ChainOk(m) && ThreadOk(m, pc) && CellOf(m, m.head.node).value == To(n) && m.tail.node != m.head.node
    ensures ThreadOk(Unlink(m, n), pc)
  {
    UnlinkOk(m, n);
    hide ChainOk, IsLast, NoDup;
  }

  /** The queue, its threads, and its history: the items in the order in which they
      were linked in, and in the order in which they were taken out. */
  datatype Queue = Queue(m: Mem, pc: map<Tid, Pc>, put: seq<Node>, got: seq<Node>)

  function PcOf(q: Queue, tid: Tid): Pc {
    if tid in q.pc then q.pc[tid] else Idle
  }

  function Init(): Queue {
    Queue(Mem(Ref(DIVIDER, 0), Ref(DIVIDER, 0), map[DIVIDER := Cell(Null, 0)], [DIVIDER]), map[], [], [])
  }

  datatype Action = BeginPut(tid: Tid, item: Node) | BeginGet(tid: Tid) | Advance(tid: Tid)

  /** Items only: the divider is not one. */
  function Items(chain: seq<Node>): seq<Node> {
    if chain == [] then []
    else if chain[0] == DIVIDER then Items(chain[1..])
    else [chain[0]] + Items(chain[1..])
  }

  /** `msqueue_is_enqueued`: 1 for an item that is in no queue. */
  predicate IsEnqueued(m: Mem, n: Node) {
    CellOf(m, n).value == Poison
  }

  /** The hypothesis: the compare-and-swap this thread is about to perform does not
      succeed on a word that was written since its value was read. */
  predicate NoAba(m: Mem, pc: Pc) {
    match pc
    case PutClear(x, _, n, ns) => CellOf(m, x).value == n ==> CellOf(m, x).stamp == ns
    case PutAct(_, _, t, ts, n, ns) =>
      if n == Null then CellOf(m, t).value == Null ==> CellOf(m, t).stamp == ns
      else m.tail.node == t ==> m.tail.stamp == ts
    case PutSwing(_, _, t, ts) => m.tail.node == t ==> m.tail.stamp == ts
    case GetAct(h, hs, t, ts, n, _) =>
      if h == t then n != Null && m.tail.node == t ==> m.tail.stamp == ts
      else m.head.node == h ==> m.head.stamp == hs
    case GetPoison(h, n, ns) => CellOf(m, h).value == n ==> CellOf(m, h).stamp == ns
    case _ => true
  }

  /** A user puts an item that is in no queue and in nobody's hands. */
  ghost predicate Enabled(q: Queue, a: Action) {
    match a
    case BeginPut(tid, x) =>
      PcOf(q, tid) == Idle && x != DIVIDER && IsEnqueued(q.m, x) && forall u :: x !in Held(PcOf(q, u))
    case BeginGet(tid) => PcOf(q, tid) == Idle
    case Advance(tid) => PcOf(q, tid) != Idle && NoAba(q.m, PcOf(q, tid))
  }

  function At(q: Queue, tid: Tid, pc: Pc): Queue {
    q.(pc := q.pc[tid := pc])
  }

  /** One step of `msqueue_put`. */
  function PutStep(q: Queue, tid: Tid): Queue {
    var m := q.m;
    match PcOf(q, tid)
    case PutStart(x, g) => At(q, tid, PutClear(x, g, CellOf(m, x).value, CellOf(m, x).stamp))
    case PutClear(x, g, n, _) =>
      if CellOf(m, x).value == n then At(q.(m := Write(m, x, Null)), tid, PutTail(x, g))
      else At(q, tid, Aborted)
    case PutTail(x, g) => At(q, tid, PutNext(x, g, m.tail.node, m.tail.stamp))
    case PutNext(x, g, t, ts) => At(q, tid, PutCheck(x, g, t, ts, CellOf(m, t).value, CellOf(m, t).stamp))
    case PutCheck(x, g, t, ts, n, ns) =>
      if t != m.tail.node then At(q, tid, PutTail(x, g)) else At(q, tid, PutAct(x, g, t, ts, n, ns))
    case PutAct(x, g, t, ts, n, _) =>
      if n == Null then
        if CellOf(m, t).value == Null
        then At(q.(m := LinkAt(m, t, x), put := if g then q.put else q.put + [x]), tid, PutSwing(x, g, t, ts))
        else At(q, tid, PutTail(x, g))
      else if m.tail.node != t then At(q, tid, PutTail(x, g))
      else if n.To? then At(q.(m := Swing(m, n.node)), tid, PutTail(x, g))
      else At(q, tid, Aborted)
    case PutSwing(x, g, t, _) =>
      At(if m.tail.node == t then q.(m := Swing(m, x)) else q, tid, if g then GetHead else Idle)
    case _ => q
  }

  /** One step of `msqueue_get`. */
  function GetStep(q: Queue, tid: Tid): Queue {
    var m := q.m;
    match PcOf(q, tid)
    case GetHead => At(q, tid, GetTail(m.head.node, m.head.stamp))
    case GetTail(h, hs) => At(q, tid, GetNext(h, hs, m.tail.node, m.tail.stamp))
    case GetNext(h, hs, t, ts) => At(q, tid, GetCheck(h, hs, t, ts, CellOf(m, h).value, CellOf(m, h).stamp, |m.chain| == 1))
    case GetCheck(h, hs, t, ts, n, ns, alone) =>
      if h != m.head.node then At(q, tid, GetHead) else At(q, tid, GetAct(h, hs, t, ts, n, ns))
    case GetAct(h, hs, t, ts, n, ns) =>
      if h == t then
        if n == Null then At(q, tid, Idle)
        else if m.tail.node != t then At(q, tid, GetHead)
        else if n.To? then At(q.(m := Swing(m, n.node)), tid, GetHead)
        else At(q, tid, Aborted)
      else if m.head.node != h then At(q, tid, GetHead)
      else if n.To? && m.chain != [] then
        if h == DIVIDER then At(q.(m := Unlink(m, n.node)), tid, PutStart(DIVIDER, true))
        else At(q.(m := Unlink(m, n.node), got := q.got + [h]), tid, GetPoison(h, n, ns))
      else At(q, tid, Aborted)
    case GetPoison(h, n, _) =>
      if CellOf(m, h).value == n then At(q.(m := Write(m, h, Poison)), tid, Idle) else At(q, tid, Aborted)
    case _ => q
  }

  function Step(q: Queue, a: Action): Queue {
    match a
    case BeginPut(tid, x) => At(q, tid, PutStart(x, false))
    case BeginGet(tid) => At(q, tid, GetHead)
    case Advance(tid) =>
      match PcOf(q, tid)
      case PutStart(_, _) => PutStep(q, tid)
      case PutClear(_, _, _, _) => PutStep(q, tid)
      case PutTail(_, _) => PutStep(q, tid)
      case PutNext(_, _, _, _) => PutStep(q, tid)
      case PutCheck(_, _, _, _, _, _) => PutStep(q, tid)
      case PutAct(_, _, _, _, _, _) => PutStep(q, tid)
      case PutSwing(_, _, _, _) => PutStep(q, tid)
      case _ => GetStep(q, tid)
  }

  ghost predicate IsHeld(q: Queue, x: Node) {
    exists u :: u in q.pc && x in Held(q.pc[u])
  }

  /** No two threads hold the same node, and nobody holds one of the chain. */
  ghost predicate Exclusive(q: Queue) {
    && (forall u, v | u in q.pc && v in q.pc && u != v :: Held(q.pc[u]) !! Held(q.pc[v]))
    && (forall u, x | u in q.pc && x in Held(q.pc[u]) :: x !in q.m.chain)
  }

  /** The divider is on the chain or in the hands of a thread; any other node that is
      neither says that it is in no queue. */
  ghost predicate Accounted(q: Queue) {
    && (DIVIDER in q.m.chain || IsHeld(q, DIVIDER))
    && (forall x | x !in q.m.chain && !IsEnqueued(q.m, x) :: IsHeld(q, x))
  }

  ghost predicate ThreadsOk(q: Queue) {
    forall u | u in q.pc :: ThreadOk(q.m, q.pc[u])
  }

  ghost predicate Inv(q: Queue) {
    ChainOk(q.m) && ThreadsOk(q) && Exclusive(q) && Accounted(q) && q.put == q.got + Items(q.m.chain)
  }

  lemma InitInv()
    ensures Inv(Init())
  {
    assert Items([DIVIDER]) == Items([]) by {
      assert [DIVIDER][1..] == [];
    }
  }

  lemma {:induction false} ItemsSnoc(chain: seq<Node>, x: Node)
    ensures Items(chain + [x]) == if x == DIVIDER then Items(chain) else Items(chain) + [x]
  {
    if chain == [] {
      assert (chain + [x])[1..] == [];
    } else {
      assert (chain + [x])[1..] == chain[1..] + [x];
      ItemsSnoc(chain[1..], x);
    }
  }

  /** A node stays held as long as its holder keeps it. */
  lemma StillHeld(q: Queue, q': Queue, tid: Tid, x: Node)
    requires IsHeld(q, x) && tid in q'.pc && (x in Held(PcOf(q, tid)) ==> x in Held(q'.pc[tid]))
    requires forall u | u in q.pc && u != tid :: u in q'.pc && q'.pc[u] == q.pc[u]
    ensures IsHeld(q', x)
  {
    var u :| u in q.pc && x in Held(q.pc[u]);
    assert u in q'.pc && x in Held(q'.pc[u]);
  }

  /** On the chain, or in the hands of thread `tid`. */
  predicate Mine(q: Queue, tid: Tid, x: Node) {
    x in q.m.chain || x in Held(PcOf(q, tid))
  }

  /** A step of one thread that moves nodes between its hands and the chain, or lets go
      of a poisoned item, keeps the books. */
  lemma HandOver(q: Queue, q': Queue, tid: Tid)
    requires Exclusive(q) && Accounted(q) && tid in q'.pc && q'.pc == q.pc[tid := q'.pc[tid]]
    requires forall x | Mine(q', tid, x) :: Mine(q, tid, x)
    requires forall x | Mine(q, tid, x) :: Mine(q', tid, x) || (x != DIVIDER && IsEnqueued(q'.m, x))
    requires forall x | x in Held(q'.pc[tid]) :: x !in q'.m.chain
    requires forall x | !Mine(q, tid, x) :: CellOf(q'.m, x) == CellOf(q.m, x)
    ensures Exclusive(q') && Accounted(q')
  {
    forall u, x | u in q'.pc && u != tid && x in Held(q'.pc[u]) ensures !Mine(q, tid, x) && !Mine(q', tid, x) {
      assert u in q.pc && q'.pc[u] == q.pc[u];
      assert tid in q.pc ==> Held(q.pc[u]) !! Held(q.pc[tid]);
    }
    forall u, v | u in q'.pc && v in q'.pc && u != v ensures Held(q'.pc[u]) !! Held(q'.pc[v]) {
      forall x | x in Held(q'.pc[u]) && x in Held(q'.pc[v]) ensures false {
        if u == tid {
          assert Mine(q', tid, x);
        } else if v == tid {
          assert Mine(q', tid, x);
        }
      }
    }
    forall u, x | u in q'.pc && x in Held(q'.pc[u]) ensures x !in q'.m.chain {
      if u != tid {
        assert !Mine(q', tid, x);
      }
    }
    forall x | x !in q'.m.chain && (x == DIVIDER || !IsEnqueued(q'.m, x)) ensures IsHeld(q', x) {
      if x in Held(q'.pc[tid]) {
        assert tid in q'.pc;
      } else {
        assert !Mine(q, tid, x);
        StillHeld(q, q', tid, x);
      }
    }
  }

  /** A step that only moves a thread on. */
  lemma QuietInv(q: Queue, tid: Tid, pc: Pc)
    requires Inv(q) && ThreadOk(q.m, pc) && Held(pc) == Held(PcOf(q, tid))
    ensures Inv(At(q, tid, pc))
  {
    hide ThreadOk, ChainOk, Items;
    HandOver(q, At(q, tid, pc), tid);
  }

  /** The owner of y writes its link, and keeps y or, having poisoned it, lets it go. */
  lemma WriteInv(q: Queue, tid: Tid, y: Node, value: Link, pc: Pc)
    requires Inv(q) && Held(PcOf(q, tid)) == {y}
    requires Held(pc) == {y} || (Held(pc) == {} && value == Poison && y != DIVIDER)
    requires ThreadOk(Write(q.m, y, value), pc)
    ensures Inv(At(q.(m := Write(q.m, y, value)), tid, pc))
  {
    hide ThreadOk, ChainOk, Items;
    var q' := At(q.(m := Write(q.m, y, value)), tid, pc);
    assert y in Held(PcOf(q, tid));
    WriteChain(q.m, y, value);
    forall u | u in q'.pc ensures ThreadOk(q'.m, q'.pc[u]) {
      if u != tid {
        WriteKeeps(q.m, y, value, q.pc[u]);
      }
    }
    HandOver(q, q', tid);
  }

  /** The owner of x links it in behind the last node. */
  lemma LinkInv(q: Queue, tid: Tid, t: Node, x: Node, put: seq<Node>, pc: Pc)
    requires Inv(q) && Held(PcOf(q, tid)) == {x} && Held(pc) == {}
    requires IsLast(q.m, t) && CellOf(q.m, x).value == Null && ThreadOk(LinkAt(q.m, t, x), pc)
    requires put == if x == DIVIDER then q.put else q.put + [x]
    ensures Inv(At(q.(m := LinkAt(q.m, t, x), put := put), tid, pc))
  {
    hide ThreadOk, ChainOk, Items, IsLast;
    var q' := At(q.(m := LinkAt(q.m, t, x), put := put), tid, pc);
    assert x in Held(PcOf(q, tid));
    LinkEffects(q.m, t, x);
    LinkChain(q.m, t, x);
    ItemsSnoc(q.m.chain, x);
    forall u | u in q'.pc ensures ThreadOk(q'.m, q'.pc[u]) {
      if u != tid {
        LinkKeeps(q.m, t, x, q.pc[u]);
      }
    }
    HandOver(q, q', tid);
  }

  lemma SwingInv(q: Queue, tid: Tid, n: Node, pc: Pc)
    requires Inv(q) && Held(PcOf(q, tid)) == Held(pc) && CellOf(q.m, q.m.tail.node).value == To(n)
    requires ThreadOk(Swing(q.m, n), pc)
    ensures Inv(At(q.(m := Swing(q.m, n)), tid, pc))
  {
    hide ThreadOk, ChainOk, Items;
    var q' := At(q.(m := Swing(q.m, n)), tid, pc);
    SwingChain(q.m, n);
    forall u | u in q'.pc ensures ThreadOk(q'.m, q'.pc[u]) {
      if u != tid {
        SwingKeeps(q.m, n, q.pc[u]);
      }
    }
    HandOver(q, q', tid);
  }

  /** The first node leaves the chain, into the hands of the thread that took it. */
  lemma UnlinkInv(q: Queue, tid: Tid, n: Node, got: seq<Node>, pc: Pc)
    requires Inv(q) && Held(PcOf(q, tid)) == {} && Held(pc) == {q.m.head.node}
    requires CellOf(q.m, q.m.head.node).value == To(n) && q.m.tail.node != q.m.head.node && q.m.chain != []
    requires ThreadOk(Unlink(q.m, n), pc)
    requires got == if q.m.head.node == DIVIDER then q.got else q.got + [q.m.head.node]
    ensures Inv(At(q.(m := Unlink(q.m, n), got := got), tid, pc))
  {
    hide ThreadOk, ChainOk, Items;
    var q' := At(q.(m := Unlink(q.m, n), got := got), tid, pc);
    UnlinkChain(q.m, n);
    forall u | u in q'.pc ensures ThreadOk(q'.m, q'.pc[u]) {
      if u != tid {
        UnlinkKeeps(q.m, n, q.pc[u]);
      }
    }
    HandOver(q, q', tid);
  }

  lemma PcThreadOk(q: Queue, tid: Tid)
    requires Inv(q)
    ensures ThreadOk(q.m, PcOf(q, tid))
  {
  }

  /** Every step of `msqueue_put` keeps the invariant. */
  lemma PutStepInv(q: Queue, tid: Tid)
    requires Inv(q) && NoAba(q.m, PcOf(q, tid))
    ensures Inv(PutStep(q, tid))
  {
    PcThreadOk(q, tid);
    hide Inv, ChainOk;
    var m, pc := q.m, PcOf(q, tid);
    match pc {
      case PutStart(x, g) =>
        QuietInv(q, tid, PutClear(x, g, CellOf(m, x).value, CellOf(m, x).stamp));
      case PutClear(x, g, n, ns) =>
        WriteInv(q, tid, x, Null, PutTail(x, g));
      case PutTail(x, g) =>
        QuietInv(q, tid, PutNext(x, g, m.tail.node, m.tail.stamp));
      case PutNext(x, g, t, ts) =>
        QuietInv(q, tid, PutCheck(x, g, t, ts, CellOf(m, t).value, CellOf(m, t).stamp));
      case PutCheck(x, g, t, ts, n, ns) =>
        if t != m.tail.node {
          QuietInv(q, tid, PutTail(x, g));
        } else {
          TailIsLast(q, t);
          QuietInv(q, tid, PutAct(x, g, t, ts, n, ns));
        }
      case PutAct(x, g, t, ts, n, ns) =>
        PutActInv(q, tid);
      case PutSwing(x, g, t, ts) =>
        var pc' := if g then GetHead else Idle;
        if m.tail.node == t {
          SwingInv(q, tid, x, pc');
        } else {
          QuietInv(q, tid, pc');
        }
      case _ =>
    }
  }

  /** A tail without a successor is the last node. */
  lemma TailIsLast(q: Queue, t: Node)
    requires Inv(q) && q.m.tail.node == t
    ensures CellOf(q.m, t).value == Null ==> IsLast(q.m, t)
    ensures CellOf(q.m, t).value != Poison
  {
    var i :| 0 <= i < |q.m.chain| && q.m.chain[i] == t;
    assert i < |q.m.chain| - 1 ==> CellOf(q.m, q.m.chain[i]).value == To(q.m.chain[i + 1]);
  }

  lemma PutActInv(q: Queue, tid: Tid)
    requires Inv(q) && NoAba(q.m, PcOf(q, tid)) && PcOf(q, tid).PutAct?
    ensures Inv(PutStep(q, tid))
  {
    PcThreadOk(q, tid);
    var m := q.m;
    var PutAct(x, g, t, ts, n, ns) := PcOf(q, tid);
    if m.tail.node == t {
      TailIsLast(q, t);
    }
    hide Inv, ChainOk;
    if n == Null && CellOf(m, t).value == Null {
      LinkSeen(q, tid, x, t, ts);
      LinkInv(q, tid, t, x, if g then q.put else q.put + [x], PutSwing(x, g, t, ts));
    } else if n == Null || m.tail.node != t {
      QuietInv(q, tid, PutTail(x, g));
    } else {
      SwungSeen(q, tid, x, n.node);
      SwingInv(q, tid, n.node, PutTail(x, g));
    }
  }

  lemma LinkSeen(q: Queue, tid: Tid, x: Node, t: Node, ts: nat)
    requires Inv(q) && IsLast(q.m, t) && x in Held(PcOf(q, tid)) && TailSeen(q.m, t, ts)
    ensures TailSeen(LinkAt(q.m, t, x), t, ts) && NextOfTail(LinkAt(q.m, t, x), t, ts, To(x))
  {
  }

  lemma SwungSeen(q: Queue, tid: Tid, x: Node, n: Node)
    requires CellOf(q.m, x).value == Null
    ensures CellOf(Swing(q.m, n), x).value == Null
  {
  }

  /** Every step of `msqueue_get` keeps the invariant. */
  lemma GetStepInv(q: Queue, tid: Tid)
    requires Inv(q) && NoAba(q.m, PcOf(q, tid))
    ensures Inv(GetStep(q, tid))
  {
    PcThreadOk(q, tid);
    var m, pc := q.m, PcOf(q, tid);
    HeadFacts(q);
    hide Inv, ChainOk;
    match pc {
      case GetHead =>
        QuietInv(q, tid, GetTail(m.head.node, m.head.stamp));
      case GetTail(h, hs) =>
        QuietInv(q, tid, GetNext(h, hs, m.tail.node, m.tail.stamp));
      case GetNext(h, hs, t, ts) =>
        QuietInv(q, tid, GetCheck(h, hs, t, ts, CellOf(m, h).value, CellOf(m, h).stamp, |m.chain| == 1));
      case GetCheck(h, hs, t, ts, n, ns, alone) =>
        QuietInv(q, tid, if h != m.head.node then GetHead else GetAct(h, hs, t, ts, n, ns));
      case GetAct(h, hs, t, ts, n, ns) =>
        GetActInv(q, tid);
      case GetPoison(h, n, ns) =>
        WriteInv(q, tid, h, Poison, Idle);
      case _ =>
    }
  }

  /** While the tail is not the head, the head has a successor. */
  lemma HeadFacts(q: Queue)
    requires Inv(q)
    ensures q.m.chain != []
    ensures q.m.tail.node != q.m.head.node ==> CellOf(q.m, q.m.head.node).value.To?
    ensures CellOf(q.m, q.m.tail.node).value != Poison
    ensures CellOf(q.m, q.m.head.node).value == Null <==> |q.m.chain| == 1
  {
    TailIsLast(q, q.m.tail.node);
    var i :| 0 <= i < |q.m.chain| && q.m.chain[i] == q.m.tail.node;
    assert |q.m.chain| > 1 ==> CellOf(q.m, q.m.chain[0]).value == To(q.m.chain[1]);
  }

  lemma GetActInv(q: Queue, tid: Tid)
    requires Inv(q) && NoAba(q.m, PcOf(q, tid)) && PcOf(q, tid).GetAct?
    ensures Inv(GetStep(q, tid))
  {
    PcThreadOk(q, tid);
    HeadFacts(q);
    hide Inv, ChainOk;
    var m := q.m;
    var GetAct(h, hs, t, ts, n, ns) := PcOf(q, tid);
    if h == t {
      if n == Null {
        QuietInv(q, tid, Idle);
      } else if m.tail.node != t {
        QuietInv(q, tid, GetHead);
      } else {
        SwingInv(q, tid, n.node, GetHead);
      }
    } else if m.head.node != h {
      QuietInv(q, tid, GetHead);
    } else if h == DIVIDER {
      UnlinkInv(q, tid, n.node, q.got, PutStart(DIVIDER, true));
    } else {
      UnlinkInv(q, tid, n.node, q.got + [h], GetPoison(h, n, ns));
    }
  }

  lemma BeginPutInv(q: Queue, tid: Tid, x: Node)
    requires Inv(q) && Enabled(q, BeginPut(tid, x))
    ensures Inv(At(q, tid, PutStart(x, false)))
  {
    var q' := At(q, tid, PutStart(x, false));
    PoisonedOff(q.m, x);
    hide ChainOk, Items;
    forall u, v | u in q'.pc && v in q'.pc && u != v ensures Held(q'.pc[u]) !! Held(q'.pc[v]) {
      assert u in q.pc ==> x !in Held(PcOf(q, u));
      assert v in q.pc ==> x !in Held(PcOf(q, v));
    }
    forall y | IsHeld(q, y) ensures IsHeld(q', y) {
      StillHeld(q, q', tid, y);
    }
  }

  lemma PoisonedOff(m: Mem, x: Node)
    requires ChainOk(m) && IsEnqueued(m, x)
    ensures x !in m.chain
  {
    forall i | 0 <= i < |m.chain| ensures m.chain[i] != x {
      assert i < |m.chain| - 1 ==> CellOf(m, m.chain[i]).value == To(m.chain[i + 1]);
    }
  }

  /** Every atomic step of every thread keeps the invariant. */
  lemma StepInv(q: Queue, a: Action)
    requires Inv(q) && Enabled(q, a)
    ensures Inv(Step(q, a))
  {
    hide Inv;
    match a {
      case BeginPut(tid, x) => BeginPutInv(q, tid, x);
      case BeginGet(tid) => QuietInv(q, tid, GetHead);
      case Advance(tid) =>
        PutStepInv(q, tid);
        GetStepInv(q, tid);
    }
  }

  /** A run: each action is enabled where it is taken. */
  ghost predicate IsRun(q: Queue, actions: seq<Action>)
    decreases |actions|
  {
    actions == [] || (Enabled(q, actions[0]) && IsRun(Step(q, actions[0]), actions[1..]))
  }

  function Run(q: Queue, actions: seq<Action>): Queue
    decreases |actions|
  {
    if actions == [] then q else Run(Step(q, actions[0]), actions[1..])
  }

  lemma {:induction false} RunInv(q: Queue, actions: seq<Action>)
    requires Inv(q) && IsRun(q, actions)
    ensures Inv(Run(q, actions))
    decreases |actions|
  {
    hide Inv, Step;
    if actions != [] {
      StepInv(q, actions[0]);
      RunInv(Step(q, actions[0]), actions[1..]);
    }
  }

  /** Over every run without ABA, of any number of threads: the items taken out are,
      in order, the first of those put in, and the others are on the chain in order;
      the chain ends in NULL and has the tail on it; the divider is on the chain or
      held by exactly one thread; an item outside reads as not enqueued, one on the
      chain as enqueued; and neither `abort` is ever reached. */
  lemma QueueSafety(actions: seq<Action>)
    requires IsRun(Init(), actions)
    ensures var q := Run(Init(), actions);
            && q.put == q.got + Items(q.m.chain)
            && ChainOk(q.m)
            && (DIVIDER in q.m.chain <==> forall u | u in q.pc :: DIVIDER !in Held(q.pc[u]))
            && (forall u, v | u in q.pc && v in q.pc && DIVIDER in Held(q.pc[u]) && DIVIDER in Held(q.pc[v]) :: u == v)
            && (forall x | x in q.m.chain :: !IsEnqueued(q.m, x))
            && (forall x | x !in q.m.chain && !IsEnqueued(q.m, x) :: exists u :: u in q.pc && x in Held(q.pc[u]))
            && (forall u | u in q.pc :: q.pc[u] != Aborted)
  {
    InitInv();
    RunInv(Init(), actions);
    var q := Run(Init(), actions);
    forall x | IsEnqueued(q.m, x) ensures x !in q.m.chain {
      PoisonedOff(q.m, x);
    }
    forall u | u in q.pc ensures q.pc[u] != Aborted {
      assert ThreadOk(q.m, q.pc[u]);
    }
    hide ChainOk, Items, ThreadOk;
    if DIVIDER !in q.m.chain {
      assert IsHeld(q, DIVIDER);
    }
  }

  /** A get goes on to return NULL when it has read no successor and finds the head
      unchanged.  If the head word was not written in between, there was one node on the
      chain when it read: the divider, or an item while another get held the divider. */
  lemma NullOnlyAlone(actions: seq<Action>, tid: Tid)
    requires IsRun(Init(), actions) && PcOf(Run(Init(), actions), tid).GetCheck?
    ensures var q := Run(Init(), actions);
            var pc := PcOf(q, tid);
            pc.n == Null && q.m.head.stamp == pc.hs ==> pc.alone
  {
    InitInv();
    RunInv(Init(), actions);
    PcThreadOk(Run(Init(), actions), tid);
  }
}
