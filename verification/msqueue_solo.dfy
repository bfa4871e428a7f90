/** What one undisturbed call of the lock-free queue does, from any state that the
    other threads may have left it in. */
module MsQueueSolo {
  import opened MsQueue
  import opened Seqs

  /** n steps of one thread. */
  function Solo(q: Queue, tid: Tid, n: nat): Queue
    decreases n
  {
    if n == 0 then q else Solo(Step(q, Advance(tid)), tid, n - 1)
  }

  lemma {:induction false} SoloSplit(q: Queue, tid: Tid, n: nat, k: nat)
    ensures Solo(q, tid, n + k) == Solo(Solo(q, tid, n), tid, k)
    decreases n
  {
    if n > 0 {
      SoloSplit(Step(q, Advance(tid)), tid, n - 1, k);
    }
  }

  /** A thread running alone never meets the ABA case. */
  ghost predicate Calm(q: Queue, tid: Tid, n: nat) {
    forall k | 0 <= k < n :: Enabled(Solo(q, tid, k), Advance(tid))
  }

  lemma CalmSplit(q: Queue, tid: Tid, n: nat, k: nat)
    requires Calm(q, tid, n) && Calm(Solo(q, tid, n), tid, k)
    ensures Calm(q, tid, n + k)
  {
    forall j | 0 <= j < n + k ensures Enabled(Solo(q, tid, j), Advance(tid)) {
      if j >= n {
        SoloSplit(q, tid, n, j - n);
        assert Enabled(Solo(Solo(q, tid, n), tid, j - n), Advance(tid));
      }
    }
  }

  /** From q, thread tid alone comes to r in n steps. */
  ghost predicate Reaches(q: Queue, tid: Tid, n: nat, r: Queue) {
    Solo(q, tid, n) == r && Calm(q, tid, n)
  }

  lemma ReachOne(q: Queue, tid: Tid)
    requires Enabled(q, Advance(tid))
    ensures Reaches(q, tid, 1, Step(q, Advance(tid)))
  {
    assert Solo(q, tid, 1) == Solo(Step(q, Advance(tid)), tid, 0);
    assert Solo(q, tid, 0) == q;
  }

  lemma ReachMore(q: Queue, tid: Tid, n: nat, r: Queue, k: nat, s: Queue)
    requires Reaches(q, tid, n, r) && Reaches(r, tid, k, s)
    ensures Reaches(q, tid, n + k, s)
  {
    SoloSplit(q, tid, n, k);
    CalmSplit(q, tid, n, k);
  }

  lemma {:induction false} ReachInv(q: Queue, tid: Tid, n: nat, r: Queue)
    requires Inv(q) && Reaches(q, tid, n, r)
    ensures Inv(r)
    decreases n
  {
    hide Inv, Step;
    if n > 0 {
      assert Enabled(Solo(q, tid, 0), Advance(tid));
      StepInv(q, Advance(tid));
      var q1 := Step(q, Advance(tid));
      assert forall k | 0 <= k < n - 1 :: Solo(q1, tid, k) == Solo(q, tid, k + 1);
      ReachInv(q1, tid, n - 1, r);
    }
  }

  /** How many nodes follow the tail. */
  function Lag(chain: seq<Node>, t: Node): nat {
    if chain == [] then 0 else if chain[0] == t then |chain| - 1 else Lag(chain[1..], t)
  }

  lemma {:induction false} LagStep(chain: seq<Node>, i: nat)
    requires NoDup(chain) && i < |chain|
    ensures Lag(chain, chain[i]) == |chain| - 1 - i
    decreases |chain|
  {
    if i > 0 {
      assert chain[1..][i - 1] == chain[i];
      LagStep(chain[1..], i - 1);
    }
  }

  /** Reading the tail and its successor, as far as the compare-and-swap. */
  lemma SoloRead(q: Queue, tid: Tid, x: Node, g: bool)
    requires PcOf(q, tid) == PutTail(x, g)
    ensures var t := q.m.tail.node;
            Reaches(q, tid, 3, At(q, tid, PutAct(x, g, t, q.m.tail.stamp, CellOf(q.m, t).value, CellOf(q.m, t).stamp)))
  {
    var t, ts := q.m.tail.node, q.m.tail.stamp;
    var c := CellOf(q.m, t);
    var q1 := At(q, tid, PutNext(x, g, t, ts));
    var q2 := At(q, tid, PutCheck(x, g, t, ts, c.value, c.stamp));
    var q3 := At(q, tid, PutAct(x, g, t, ts, c.value, c.stamp));
    assert Step(q, Advance(tid)) == q1;
    assert Step(q1, Advance(tid)) == q2 by {
      assert PutStep(q1, tid) == At(q1, tid, PutCheck(x, g, t, ts, c.value, c.stamp));
    }
    assert Step(q2, Advance(tid)) == q3 by {
      assert PutStep(q2, tid) == At(q2, tid, PutAct(x, g, t, ts, c.value, c.stamp));
    }
    ReachOne(q, tid);
    ReachOne(q1, tid);
    ReachOne(q2, tid);
    ReachMore(q, tid, 1, q1, 1, q2);
    ReachMore(q, tid, 2, q2, 1, q3);
  }

  /** What a finished put has done. */
  ghost predicate Appended(q: Queue, r: Queue, tid: Tid, x: Node, g: bool) {
    && r.m.chain == q.m.chain + [x] && r.got == q.got
    && r.put == (if g then q.put else q.put + [x])
    && PcOf(r, tid) == (if g then GetHead else Idle)
    && r.m.head == q.m.head && r.m.tail.node == x
  }

  /** The last two steps of a put. */
  lemma SoloLink(q: Queue, tid: Tid, x: Node, g: bool, t: Node, ts: nat, ns: nat) returns (r: Queue)
    requires PcOf(q, tid) == PutAct(x, g, t, ts, Null, ns)
    requires q.m.tail == Ref(t, ts) && CellOf(q.m, t) == Cell(Null, ns)
    ensures Reaches(q, tid, 2, r) && Appended(q, r, tid, x, g)
  {
    var q1 := Step(q, Advance(tid));
    assert PcOf(q1, tid) == PutSwing(x, g, t, ts) && q1.m.tail == Ref(t, ts);
    r := Step(q1, Advance(tid));
    ReachOne(q, tid);
    ReachOne(q1, tid);
    ReachMore(q, tid, 1, q1, 1, r);
  }

  /** A put that has the queue to itself links its item in, however far the tail lags. */
  lemma {:induction false} SoloPut(q: Queue, tid: Tid, x: Node, g: bool) returns (n: nat, r: Queue)
    requires Inv(q) && PcOf(q, tid) == PutTail(x, g)
    ensures Reaches(q, tid, n, r) && Appended(q, r, tid, x, g)
    decreases Lag(q.m.chain, q.m.tail.node)
  {
    hide ChainOk, Exclusive, Accounted, Items;
    var t := q.m.tail.node;
    var c := CellOf(q.m, t);
    SoloRead(q, tid, x, g);
    var q3 := At(q, tid, PutAct(x, g, t, q.m.tail.stamp, c.value, c.stamp));
    ReachInv(q, tid, 3, q3);
    TailIsLast(q, t);
    if c.value == Null {
      r := SoloLink(q3, tid, x, g, t, q.m.tail.stamp, c.stamp);
      ReachMore(q, tid, 3, q3, 2, r);
      n := 5;
    } else {
      var q4 := Step(q3, Advance(tid));
      assert q4 == At(q3.(m := Swing(q.m, c.value.node)), tid, PutTail(x, g));
      ReachOne(q3, tid);
      ReachMore(q, tid, 3, q3, 1, q4);
      StepInv(q3, Advance(tid));
      TailSteps(q);
      var k;
      k, r := SoloPut(q4, tid, x, g);
      ReachMore(q, tid, 4, q4, k, r);
      n := 4 + k;
    }
  }

  lemma TailSteps(q: Queue)
    requires Inv(q) && CellOf(q.m, q.m.tail.node).value.To?
    ensures Lag(q.m.chain, CellOf(q.m, q.m.tail.node).value.node) < Lag(q.m.chain, q.m.tail.node)
  {
    var i :| 0 <= i < |q.m.chain| && q.m.chain[i] == q.m.tail.node;
    assert i < |q.m.chain| - 1;
    LagStep(q.m.chain, i);
    LagStep(q.m.chain, i + 1);
  }

  /** `msqueue_put` of an item by a thread that is not disturbed. */
  lemma PutAppends(q: Queue, tid: Tid, x: Node) returns (n: nat, r: Queue)
    requires Inv(q) && Enabled(q, BeginPut(tid, x))
    ensures Reaches(Step(q, BeginPut(tid, x)), tid, n, r)
    ensures Inv(r) && PcOf(r, tid) == Idle && r.m.chain == q.m.chain + [x] && r.put == q.put + [x] && r.got == q.got
    ensures r.m.tail.node == x && r.m.head == q.m.head
  {
    var q0 := Step(q, BeginPut(tid, x));
    StepInv(q, BeginPut(tid, x));
    n, r := FromStart(q0, tid, x, false);
    ReachInv(q0, tid, n, r);
  }

  lemma FromStart(q: Queue, tid: Tid, x: Node, g: bool) returns (n: nat, r: Queue)
    requires Inv(q) && PcOf(q, tid) == PutStart(x, g)
    ensures Reaches(q, tid, n, r) && Appended(q, r, tid, x, g)
  {
    var q1 := Step(q, Advance(tid));
    ReachOne(q, tid);
    var q2 := Step(q1, Advance(tid));
    assert PcOf(q1, tid) == PutClear(x, g, CellOf(q.m, x).value, CellOf(q.m, x).stamp);
    ReachOne(q1, tid);
    ReachMore(q, tid, 1, q1, 1, q2);
    ReachInv(q, tid, 2, q2);
    var k;
    k, r := SoloPut(q2, tid, x, g);
    ReachMore(q, tid, 2, q2, k, r);
    n := 2 + k;
  }

  lemma LookOne(q: Queue, tid: Tid, pc: Pc)
    requires PcOf(q, tid) in {GetHead} || PcOf(q, tid).GetTail? || PcOf(q, tid).GetNext? || PcOf(q, tid).GetCheck?
    requires GetStep(q, tid) == At(q, tid, pc)
    ensures Reaches(q, tid, 1, At(q, tid, pc))
  {
    assert Step(q, Advance(tid)) == GetStep(q, tid);
    hide GetStep;
    ReachOne(q, tid);
  }

  /** Reading the head, the tail and the successor, as far as the compare-and-swap. */
  lemma SoloLook(q: Queue, tid: Tid)
    requires PcOf(q, tid) == GetHead
    ensures var h, t := q.m.head, q.m.tail;
            var c := CellOf(q.m, h.node);
            Reaches(q, tid, 4, At(q, tid, GetAct(h.node, h.stamp, t.node, t.stamp, c.value, c.stamp)))
  {
    hide Reaches, Step, CellOf;
    var h, t := q.m.head, q.m.tail;
    var c := CellOf(q.m, h.node);
    var q1 := At(q, tid, GetTail(h.node, h.stamp));
    var q2 := At(q, tid, GetNext(h.node, h.stamp, t.node, t.stamp));
    var q3 := At(q, tid, GetCheck(h.node, h.stamp, t.node, t.stamp, c.value, c.stamp, |q.m.chain| == 1));
    var q4 := At(q, tid, GetAct(h.node, h.stamp, t.node, t.stamp, c.value, c.stamp));
    LookOne(q, tid, GetTail(h.node, h.stamp));
    LookOne(q1, tid, GetNext(h.node, h.stamp, t.node, t.stamp));
    AtTwice(q, tid, PcOf(q1, tid), PcOf(q2, tid));
    LookOne(q2, tid, GetCheck(h.node, h.stamp, t.node, t.stamp, c.value, c.stamp, |q.m.chain| == 1));
    AtTwice(q, tid, PcOf(q2, tid), PcOf(q3, tid));
    LookOne(q3, tid, GetAct(h.node, h.stamp, t.node, t.stamp, c.value, c.stamp));
    AtTwice(q, tid, PcOf(q3, tid), PcOf(q4, tid));
    hide GetStep;
    ReachMore(q, tid, 1, q1, 1, q2);
    ReachMore(q, tid, 2, q2, 1, q3);
    ReachMore(q, tid, 3, q3, 1, q4);
  }

  lemma AtTwice(q: Queue, tid: Tid, pc: Pc, pc': Pc)
    ensures At(At(q, tid, pc), tid, pc') == At(q, tid, pc')
  {
  }

  /** What a get that returns an item has done. */
  ghost predicate TookFirst(q: Queue, r: Queue, tid: Tid) {
    var items := Items(q.m.chain);
    && PcOf(r, tid) == Idle && r.put == q.put
    && items != [] && r.got == q.got + [items[0]] && Items(r.m.chain) == items[1..]
  }

  /** An item that a get can have: not the only node, when the divider is away. */
  predicate Gettable(q: Queue) {
    Items(q.m.chain) != [] && (DIVIDER in q.m.chain || |q.m.chain| >= 2)
  }

  /** A node that is alone is the divider, or an item that no get can have. */
  lemma AloneNotGettable(q: Queue)
    requires |q.m.chain| == 1
    ensures !Gettable(q)
  {
    var x := q.m.chain[0];
    assert q.m.chain == [x] && [x][1..] == [];
    assert x == DIVIDER ==> Items([x]) == Items([]) == [];
  }

  /** One turn of the loop of `msqueue_get`. */
  lemma SoloTurn(q: Queue, tid: Tid) returns (r: Queue)
    requires Inv(q) && PcOf(q, tid) == GetHead
    ensures Reaches(q, tid, 5, r) && Inv(r) && r.put == q.put && q.m.chain != []
    ensures var h := q.m.head.node;
            var n := CellOf(q.m, h).value;
            if h == q.m.tail.node then
              if n == Null then r.m == q.m && r.got == q.got && PcOf(r, tid) == Idle
              else n.To? && r.m == Swing(q.m, n.node) && r.got == q.got && PcOf(r, tid) == GetHead
            else
              n.To? && r.m == Unlink(q.m, n.node)
              && if h == DIVIDER then r.got == q.got && PcOf(r, tid) == PutStart(DIVIDER, true)
                 else r.got == q.got + [h] && PcOf(r, tid) == GetPoison(h, n, CellOf(q.m, h).stamp)
  {
    HeadFacts(q);
    hide Inv;
    var h, t := q.m.head, q.m.tail;
    var c := CellOf(q.m, h.node);
    var q4 := At(q, tid, GetAct(h.node, h.stamp, t.node, t.stamp, c.value, c.stamp));
    SoloLook(q, tid);
    r := Step(q4, Advance(tid));
    assert r == GetStep(q4, tid);
    ReachOne(q4, tid);
    ReachMore(q, tid, 4, q4, 1, r);
    ReachInv(q, tid, 5, r);
  }

  /** The poisoning at the end of a get. */
  lemma SoloPoison(q: Queue, tid: Tid, h: Node, n: Link, ns: nat) returns (r: Queue)
    requires PcOf(q, tid) == GetPoison(h, n, ns) && CellOf(q.m, h) == Cell(n, ns)
    ensures Reaches(q, tid, 1, r) && PcOf(r, tid) == Idle && r.got == q.got && r.put == q.put && r.m.chain == q.m.chain
  {
    r := Step(q, Advance(tid));
    assert r == GetStep(q, tid);
    ReachOne(q, tid);
  }

  lemma OnChain(q: Queue)
    requires Inv(q)
    ensures q.m.head.node == q.m.tail.node && CellOf(q.m, q.m.head.node).value.To? ==>
              CellOf(q.m, q.m.head.node).value.node != q.m.head.node
    ensures q.m.head.node != q.m.tail.node && CellOf(q.m, q.m.head.node).value.To? ==>
              var r := Unlink(q.m, CellOf(q.m, q.m.head.node).value.node);
              && r.chain != [] && r.head.node == r.chain[0] && q.m.head.node !in r.chain
              && Items(q.m.chain) == if q.m.head.node == DIVIDER then Items(r.chain) else [q.m.head.node] + Items(r.chain)
  {
    if CellOf(q.m, q.m.head.node).value.To? {
      Successor(q.m, q.m.head.node, CellOf(q.m, q.m.head.node).value.node);
      if q.m.head.node != q.m.tail.node {
        UnlinkChain(q.m, CellOf(q.m, q.m.head.node).value.node);
      }
    }
  }

  /** Putting the divider back at the end. */
  lemma SoloRefill(q: Queue, tid: Tid) returns (n: nat, r: Queue)
    requires Inv(q) && PcOf(q, tid) == PutStart(DIVIDER, true) && q.m.chain != [] && DIVIDER !in q.m.chain
    ensures Reaches(q, tid, n, r) && Inv(r) && PcOf(r, tid) == GetHead && DIVIDER in r.m.chain
    ensures r.m.head == q.m.head && r.got == q.got && r.put == q.put && Items(r.m.chain) == Items(q.m.chain)
    ensures r.m.chain == q.m.chain + [DIVIDER]
  {
    hide Inv;
    n, r := FromStart(q, tid, DIVIDER, true);
    ReachInv(q, tid, n, r);
    ItemsSnoc(q.m.chain, DIVIDER);
    assert r.m.chain[|r.m.chain| - 1] == DIVIDER;
  }

  /** The first node is an item and the tail is past it. */
  lemma GetAhead(q: Queue, tid: Tid) returns (n: nat, r: Queue)
    requires Inv(q) && PcOf(q, tid) == GetHead
    requires q.m.head.node != DIVIDER && q.m.head.node != q.m.tail.node
    ensures Reaches(q, tid, n, r) && TookFirst(q, r, tid) && r.m.chain == q.m.chain[1..]
  {
    var q5 := SoloTurn(q, tid);
    OnChain(q);
    hide Inv, Items, Reaches;
    r := SoloPoison(q5, tid, q.m.head.node, CellOf(q.m, q.m.head.node).value, CellOf(q.m, q.m.head.node).stamp);
    ReachMore(q, tid, 5, q5, 1, r);
    n := 6;
  }

  /** The turn that moves a lagging tail on. */
  lemma TailTurn(q: Queue, tid: Tid) returns (r: Queue)
    requires Inv(q) && PcOf(q, tid) == GetHead
    requires q.m.head.node == q.m.tail.node && CellOf(q.m, q.m.head.node).value != Null
    ensures Reaches(q, tid, 5, r) && Inv(r) && PcOf(r, tid) == GetHead && r.got == q.got && r.put == q.put
    ensures r.m.chain == q.m.chain && r.m.head == q.m.head && r.m.tail.node != r.m.head.node
  {
    r := SoloTurn(q, tid);
    OnChain(q);
  }

  lemma TakeDivider(q: Queue, tid: Tid) returns (r: Queue)
    requires Inv(q) && PcOf(q, tid) == GetHead && q.m.head.node == DIVIDER && q.m.tail.node != DIVIDER
    ensures Reaches(q, tid, 5, r) && Inv(r) && PcOf(r, tid) == PutStart(DIVIDER, true)
    ensures r.got == q.got && r.put == q.put && Items(r.m.chain) == Items(q.m.chain)
    ensures r.m.chain != [] && DIVIDER !in r.m.chain && r.m.head.node != DIVIDER && |q.m.chain| > 0 && r.m.chain == q.m.chain[1..]
  {
    OnChain(q);
    hide Inv, Items, Reaches;
    r := SoloTurn(q, tid);
  }

  /** The turn that takes the divider off, with the refill after it. */
  lemma DividerTurn(q: Queue, tid: Tid) returns (n: nat, r: Queue)
    requires Inv(q) && PcOf(q, tid) == GetHead
    requires q.m.head.node == DIVIDER && q.m.tail.node != DIVIDER
    ensures Reaches(q, tid, n, r) && Inv(r) && PcOf(r, tid) == GetHead && r.got == q.got && r.put == q.put
    ensures Items(r.m.chain) == Items(q.m.chain) && r.m.head.node != DIVIDER && DIVIDER in r.m.chain
    ensures |q.m.chain| > 0 && r.m.chain == q.m.chain[1..] + [DIVIDER]
  {
    hide Inv, Items, Reaches;
    var q5 := TakeDivider(q, tid);
    var k;
    k, r := SoloRefill(q5, tid);
    ReachMore(q, tid, 5, q5, k, r);
    n := 5 + k;
  }

  /** The first node is an item. */
  lemma GetItem(q: Queue, tid: Tid) returns (n: nat, r: Queue)
    requires Inv(q) && PcOf(q, tid) == GetHead && |q.m.chain| >= 2 && q.m.head.node != DIVIDER
    ensures Reaches(q, tid, n, r) && TookFirst(q, r, tid) && r.m.chain == q.m.chain[1..]
  {
    hide Inv, Items, Reaches, TookFirst;
    if q.m.head.node != q.m.tail.node {
      n, r := GetAhead(q, tid);
    } else {
      HeadFacts(q);
      var q5 := TailTurn(q, tid);
      var k;
      k, r := GetAhead(q5, tid);
      ReachMore(q, tid, 5, q5, k, r);
      SameItems(q, q5, r, tid);
      n := 5 + k;
    }
  }

  lemma SameItems(q: Queue, q': Queue, r: Queue, tid: Tid)
    requires TookFirst(q', r, tid) && Items(q.m.chain) == Items(q'.m.chain) && q.got == q'.got && q.put == q'.put
    ensures TookFirst(q, r, tid)
  {
  }

  /** The first item is off the chain, and a divider before it at the end. */
  predicate Shorter(q: Queue, r: Queue) {
    |q.m.chain| >= 2 && r.m.chain == if q.m.head.node == DIVIDER then q.m.chain[2..] + [DIVIDER] else q.m.chain[1..]
  }

  /** A get that has the queue to itself: either there is one node, and nothing happens, or
      it takes the first item. */
  lemma SoloGet(q: Queue, tid: Tid) returns (n: nat, r: Queue)
    requires Inv(q) && PcOf(q, tid) == GetHead
    ensures Reaches(q, tid, n, r)
    ensures if |q.m.chain| == 1 then r.m == q.m && r.got == q.got && r.put == q.put && PcOf(r, tid) == Idle
            else TookFirst(q, r, tid) && Shorter(q, r)
  {
    HeadFacts(q);
    if |q.m.chain| == 1 {
      n := 5;
      OneNode(q);
      r := SoloTurn(q, tid);
    } else if q.m.head.node != DIVIDER {
      n, r := GetItem(q, tid);
    } else {
      n, r := GetPastDivider(q, tid);
    }
  }

  lemma OneNode(q: Queue)
    requires Inv(q) && |q.m.chain| == 1
    ensures q.m.tail.node == q.m.head.node
  {
  }

  /** The tail moved off a divider that is first but not alone. */
  lemma TailOff(q: Queue, tid: Tid) returns (n: nat, r: Queue)
    requires Inv(q) && PcOf(q, tid) == GetHead && |q.m.chain| >= 2 && q.m.head.node == DIVIDER
    ensures Reaches(q, tid, n, r) && Inv(r) && PcOf(r, tid) == GetHead && r.got == q.got && r.put == q.put
    ensures r.m.chain == q.m.chain && r.m.head.node == DIVIDER && r.m.tail.node != DIVIDER
  {
    HeadFacts(q);
    hide Inv, Items, Reaches;
    if q.m.tail.node == DIVIDER {
      n := 5;
      r := TailTurn(q, tid);
    } else {
      ReachNone(q, tid);
      n, r := 0, q;
    }
  }

  lemma GetPastDivider(q: Queue, tid: Tid) returns (n: nat, r: Queue)
    requires Inv(q) && PcOf(q, tid) == GetHead && |q.m.chain| >= 2 && q.m.head.node == DIVIDER
    ensures Reaches(q, tid, n, r) && TookFirst(q, r, tid) && r.m.chain == q.m.chain[2..] + [DIVIDER]
  {
    hide Inv, Items, Reaches, TookFirst;
    var j, q1 := TailOff(q, tid);
    var k, q2 := DividerTurn(q1, tid);
    ReachMore(q, tid, j, q1, k, q2);
    TwoNodes(q2);
    var i;
    i, r := GetItem(q2, tid);
    ReachMore(q, tid, j + k, q2, i, r);
    SameItems(q, q2, r, tid);
    n := j + k + i;
  }

  lemma TwoNodes(q: Queue)
    requires Inv(q) && DIVIDER in q.m.chain && q.m.head.node != DIVIDER
    ensures |q.m.chain| >= 2
  {
  }

  lemma ReachNone(q: Queue, tid: Tid)
    ensures Reaches(q, tid, 0, q)
  {
  }

  /** `msqueue_get` by a thread that is not disturbed, whatever the others were about: it
      takes the first item if that is not alone on the chain with the divider away;
      otherwise it returns NULL and changes nothing. */
  lemma GetTakesFirst(q: Queue, tid: Tid) returns (n: nat, r: Queue)
    requires Inv(q) && Enabled(q, BeginGet(tid))
    ensures Reaches(Step(q, BeginGet(tid)), tid, n, r) && Inv(r) && PcOf(r, tid) == Idle
    ensures Gettable(q) <==> TookFirst(q, r, tid)
    ensures Gettable(q) ==> Shorter(q, r)
    ensures !Gettable(q) ==> r.m == q.m && r.got == q.got && r.put == q.put
  {
    var q0 := Step(q, BeginGet(tid));
    StepInv(q, BeginGet(tid));
    n, r := SoloGet(q0, tid);
    ReachInv(q0, tid, n, r);
    assert |q.m.chain| > 0;
    if |q.m.chain| == 1 {
      AloneNotGettable(q);
    }
  }

  // The get that returns NULL beside an item

  lemma {:induction false} SoloRun(q: Queue, tid: Tid, n: nat) returns (actions: seq<Action>)
    requires Calm(q, tid, n)
    ensures IsRun(q, actions) && Run(q, actions) == Solo(q, tid, n)
    decreases n
  {
    if n == 0 {
      actions := [];
    } else {
      var q1 := Step(q, Advance(tid));
      assert Enabled(Solo(q, tid, 0), Advance(tid));
      forall k | 0 <= k < n - 1 ensures Enabled(Solo(q1, tid, k), Advance(tid)) {
        assert Enabled(Solo(q, tid, k + 1), Advance(tid));
      }
      var rest := SoloRun(q1, tid, n - 1);
      actions := [Advance(tid)] + rest;
      assert actions[1..] == rest;
    }
  }

  lemma {:induction false} RunConcat(q: Queue, a: seq<Action>, b: seq<Action>)
    requires IsRun(q, a) && IsRun(Run(q, a), b)
    ensures IsRun(q, a + b) && Run(q, a + b) == Run(Run(q, a), b)
    decreases |a|
  {
    hide Enabled, Step;
    if a == [] {
      assert a + b == b;
    } else {
      assert (a + b)[1..] == a[1..] + b;
      RunConcat(Step(q, a[0]), a[1..], b);
    }
  }

  /** One more call, begun with action a and left after n steps. */
  lemma CallRun(q: Queue, before: seq<Action>, a: Action, tid: Tid, n: nat, r: Queue) returns (actions: seq<Action>)
    requires IsRun(q, before) && Enabled(Run(q, before), a) && Reaches(Step(Run(q, before), a), tid, n, r)
    ensures IsRun(q, actions) && Run(q, actions) == r
  {
    hide Enabled, Step, Inv;
    var now := Run(q, before);
    var rest := SoloRun(Step(now, a), tid, n);
    var call := [a] + rest;
    assert call[1..] == rest;
    assert IsRun(now, call) && Run(now, call) == r;
    RunConcat(q, before, call);
    actions := before + call;
  }

  lemma StepOthers(q: Queue, tid: Tid, u: Tid)
    requires u != tid
    ensures PcOf(Step(q, Advance(tid)), u) == PcOf(q, u)
  {
  }

  lemma {:induction false} SoloOthers(q: Queue, tid: Tid, n: nat, u: Tid)
    requires u != tid
    ensures PcOf(Solo(q, tid, n), u) == PcOf(q, u)
    decreases n
  {
    hide Step;
    if n > 0 {
      StepOthers(q, tid, u);
      SoloOthers(Step(q, Advance(tid)), tid, n - 1, u);
    }
  }

  lemma {:induction false} AllItems(chain: seq<Node>)
    requires DIVIDER !in chain
    ensures Items(chain) == chain
  {
    if chain != [] {
      AllItems(chain[1..]);
    }
  }

  /** As far as taking the divider off. */
  lemma DividerAway(q: Queue, tid: Tid) returns (n: nat, r: Queue)
    requires Inv(q) && PcOf(q, tid) == GetHead && |q.m.chain| >= 2 && q.m.head.node == DIVIDER
    ensures Reaches(q, tid, n, r) && Inv(r) && PcOf(r, tid) == PutStart(DIVIDER, true)
    ensures r.got == q.got && r.put == q.put && r.m.chain == Items(q.m.chain)
  {
    hide Inv, Items, Reaches;
    var j, q1 := TailOff(q, tid);
    r := TakeDivider(q1, tid);
    ReachMore(q, tid, j, q1, 5, r);
    AllItems(r.m.chain);
    n := j + 5;
  }

  lemma PutFive() returns (actions: seq<Action>)
    ensures IsRun(Init(), actions)
    ensures var q := Run(Init(), actions);
            && Inv(q) && PcOf(q, 1) == Idle && PcOf(q, 2) == Idle
            && q.put == [5] && q.got == [] && q.m.chain == [DIVIDER, 5] && q.m.head.node == DIVIDER
  {
    var q := Init();
    InitInv();
    assert Enabled(q, BeginPut(1, 5));
    hide Step, Enabled, Items, Reaches;
    var n, r := PutAppends(q, 1, 5);
    assert IsRun(q, []) && Run(q, []) == q;
    actions := CallRun(q, [], BeginPut(1, 5), 1, n, r);
    FirstIsHead(r);
    assert PcOf(r, 2) == Idle by { CallOthers(q, BeginPut(1, 5), 1, n, r, 2); }
  }

  lemma FirstIsHead(q: Queue)
    requires Inv(q)
    ensures q.m.head.node == q.m.chain[0]
  {
  }

  lemma CallOthers(q: Queue, a: Action, tid: Tid, n: nat, r: Queue, u: Tid)
    requires (a.BeginPut? || a.BeginGet?) && a.tid == tid && u != tid && Reaches(Step(q, a), tid, n, r)
    ensures PcOf(r, u) == PcOf(q, u)
  {
    SoloOthers(Step(q, a), tid, n, u);
  }

  /** A reachable state in which an item is enqueued, and a get of thread 2, who is not
      disturbed, returns NULL: thread 1 has put the item and is in a get that has
      taken the divider off. */
  lemma NullBesideItem() returns (actions: seq<Action>)
    ensures IsRun(Init(), actions)
    ensures var q := Run(Init(), actions);
            && Inv(q) && q.put == [5] && q.got == [] && q.m.chain == [5] && PcOf(q, 1) == PutStart(DIVIDER, true)
            && Enabled(q, BeginGet(2)) && !Gettable(q)
  {
    var put := PutFive();
    var q := Run(Init(), put);
    BeginsGet(q, 1);
    FiveOnly();
    hide Inv, Items, Reaches, Step, Enabled, Gettable;
    var n, r := DividerAway(Step(q, BeginGet(1)), 1);
    CallOthers(q, BeginGet(1), 1, n, r, 2);
    BeginsGet(r, 2);
    AloneNotGettable(r);
    actions := CallRun(Init(), put, BeginGet(1), 1, n, r);
  }

  lemma FiveOnly()
    ensures Items([DIVIDER, 5]) == [5]
  {
    assert [DIVIDER, 5][1..] == [5] && [5][1..] == [];
  }

  lemma BeginsGet(q: Queue, tid: Tid)
    requires Inv(q) && PcOf(q, tid) == Idle
    ensures Enabled(q, BeginGet(tid)) && Inv(Step(q, BeginGet(tid))) && Step(q, BeginGet(tid)) == At(q, tid, GetHead)
  {
    StepInv(q, BeginGet(tid));
  }

  // The get that returns NULL after it has been fooled

  lemma {:induction false} SoloKeys(q: Queue, tid: Tid, n: nat)
    ensures Solo(q, tid, n).pc.Keys <= q.pc.Keys + {tid}
    decreases n
  {
    if n > 0 {
      StepKeys(q, tid);
      hide Step;
      SoloKeys(Step(q, Advance(tid)), tid, n - 1);
    }
  }

  lemma StepKeys(q: Queue, tid: Tid)
    ensures Step(q, Advance(tid)).pc.Keys <= q.pc.Keys + {tid}
  {
  }

  /** Two threads; thread 2 is between calls, and thread 1 at pc, with nothing in its hands. */
  ghost predicate Pair(q: Queue, pc: Pc) {
    Inv(q) && q.pc.Keys <= {1, 2} && PcOf(q, 1) == pc && PcOf(q, 2) == Idle && Held(pc) == {}
  }

  /** An item that is not on the chain can be put. */
  lemma MayPut(q: Queue, pc: Pc, x: Node)
    requires Pair(q, pc) && x != DIVIDER && x !in q.m.chain
    ensures Enabled(q, BeginPut(2, x))
  {
    forall u | u in q.pc ensures Held(q.pc[u]) == {} {
      assert u == 1 || u == 2;
    }
    assert !IsHeld(q, x);
  }

  lemma CallKeeps(q: Queue, a: Action, n: nat, r: Queue, pc: Pc)
    requires Pair(q, pc) && (a.BeginPut? || a.BeginGet?) && a.tid == 2 && Reaches(Step(q, a), 2, n, r) && Inv(r) && PcOf(r, 2) == Idle
    ensures Pair(r, pc)
  {
    CallOthers(q, a, 2, n, r, 1);
    SoloKeys(Step(q, a), 2, n);
  }

  /** Thread 2 puts an item. */
  lemma PutTwo(before: seq<Action>, pc: Pc, x: Node) returns (after: seq<Action>)
    requires IsRun(Init(), before) && Pair(Run(Init(), before), pc) && x != DIVIDER && x !in Run(Init(), before).m.chain
    ensures IsRun(Init(), after)
    ensures var q, r := Run(Init(), before), Run(Init(), after);
            Pair(r, pc) && r.m.chain == q.m.chain + [x] && r.m.tail.node == x
  {
    var q := Run(Init(), before);
    MayPut(q, pc, x);
    hide Enabled, Step, Reaches;
    var n, r := PutAppends(q, 2, x);
    CallKeeps(q, BeginPut(2, x), n, r, pc);
    after := CallRun(Init(), before, BeginPut(2, x), 2, n, r);
  }

  /** Thread 2 gets an item. */
  lemma GetTwo(before: seq<Action>, pc: Pc) returns (after: seq<Action>)
    requires IsRun(Init(), before) && Pair(Run(Init(), before), pc) && Gettable(Run(Init(), before))
    ensures IsRun(Init(), after)
    ensures Pair(Run(Init(), after), pc) && Shorter(Run(Init(), before), Run(Init(), after))
  {
    var q := Run(Init(), before);
    assert Enabled(q, BeginGet(2));
    hide Enabled, Step, Reaches;
    var n, r := GetTakesFirst(q, 2);
    CallKeeps(q, BeginGet(2), n, r, pc);
    after := CallRun(Init(), before, BeginGet(2), 2, n, r);
  }

  /** Thread 1 makes a step. */
  lemma StepOne(before: seq<Action>, pc: Pc, a: Action, pc': Pc) returns (after: seq<Action>)
    requires IsRun(Init(), before) && Pair(Run(Init(), before), pc) && Enabled(Run(Init(), before), a)
    requires (a == BeginGet(1) || a == Advance(1)) && Step(Run(Init(), before), a) == At(Run(Init(), before), 1, pc') && Held(pc') == {}
    ensures IsRun(Init(), after)
    ensures Run(Init(), after) == At(Run(Init(), before), 1, pc') && Pair(Run(Init(), after), pc')
  {
    var q := Run(Init(), before);
    StepInv(q, a);
    OneStep(q, a);
    hide Enabled, Step, Inv, IsRun, Run;
    RunConcat(Init(), before, [a]);
    after := before + [a];
  }

  lemma OneStep(q: Queue, a: Action)
    requires Enabled(q, a)
    ensures IsRun(q, [a]) && Run(q, [a]) == Step(q, a)
  {
    hide Enabled, Step;
    var call := [a];
    assert call[1..] == [] && Run(Step(q, a), []) == Step(q, a);
  }

  lemma ItemsOf(q: Queue, x: Node)
    requires x in q.m.chain && x != DIVIDER
    ensures Items(q.m.chain) != []
  {
    ItemIn(q.m.chain, x);
  }

  lemma {:induction false} ItemIn(chain: seq<Node>, x: Node)
    requires x in chain && x != DIVIDER
    ensures Items(chain) != []
  {
    if chain[0] == DIVIDER {
      ItemIn(chain[1..], x);
    }
  }

  /** Thread 2 puts 5 and 6, gets 5 and puts it again. */
  lemma SixFirst() returns (actions: seq<Action>)
    ensures IsRun(Init(), actions) && Pair(Run(Init(), actions), Idle) && Run(Init(), actions).m.chain == [6, DIVIDER, 5]
  {
    InitInv();
    actions := [];
    hide Inv, Enabled;
    actions := PutTwo(actions, Idle, 5);
    actions := PutTwo(actions, Idle, 6);
    FirstIsHead(Run(Init(), actions));
    ItemsOf(Run(Init(), actions), 5);
    actions := GetTwo(actions, Idle);
    actions := PutTwo(actions, Idle, 5);
  }

  /** Thread 1 reads the head 6. */
  lemma ReadsSix() returns (actions: seq<Action>, hs: nat)
    ensures IsRun(Init(), actions) && Pair(Run(Init(), actions), GetTail(6, hs)) && Run(Init(), actions).m.chain == [6, DIVIDER, 5]
  {
    actions := SixFirst();
    var q := Run(Init(), actions);
    FirstIsHead(q);
    hs := q.m.head.stamp;
    hide Inv;
    actions := StepOne(actions, Idle, BeginGet(1), GetHead);
    actions := StepOne(actions, GetHead, Advance(1), GetTail(6, hs));
  }

  /** Thread 2 gets 6 and puts it again; thread 1 reads the tail 6 and the link of 6, which
      is NULL. */
  lemma SixLast() returns (actions: seq<Action>, pc: Pc)
    ensures IsRun(Init(), actions) && Pair(Run(Init(), actions), pc) && Run(Init(), actions).m.chain == [DIVIDER, 5, 6]
    ensures pc.GetCheck? && pc.h == 6 && pc.t == 6 && pc.n == Null && !pc.alone
  {
    var hs;
    actions, hs := ReadsSix();
    ItemsOf(Run(Init(), actions), 5);
    FirstIsHead(Run(Init(), actions));
    hide Inv, Enabled;
    actions := GetTwo(actions, GetTail(6, hs));
    actions := PutTwo(actions, GetTail(6, hs), 6);
    actions, pc := SeesNull(actions, hs);
  }

  lemma SeesNull(before: seq<Action>, hs: nat) returns (after: seq<Action>, pc: Pc)
    requires IsRun(Init(), before) && Pair(Run(Init(), before), GetTail(6, hs))
    requires Run(Init(), before).m.chain == [DIVIDER, 5, 6] && Run(Init(), before).m.tail.node == 6
    ensures IsRun(Init(), after) && Pair(Run(Init(), after), pc) && Run(Init(), after).m.chain == [DIVIDER, 5, 6]
    ensures pc.GetCheck? && pc.h == 6 && pc.t == 6 && pc.n == Null && !pc.alone
  {
    var q := Run(Init(), before);
    var ts := q.m.tail.stamp;
    after := StepOne(before, GetTail(6, hs), Advance(1), GetNext(6, hs, 6, ts));
    assert q.m.chain[|q.m.chain| - 1] == 6;
    pc := GetCheck(6, hs, 6, ts, Null, CellOf(q.m, 6).stamp, false);
    after := StepOne(after, GetNext(6, hs, 6, ts), Advance(1), pc);
  }

  /** A run of two threads, without ABA in any compare-and-swap, in which thread 2 gets 5 at
      last and 6 is the head again.  Thread 1 finds the head it has read, and goes on to
      return NULL, with an item on the chain, the divider behind it, and nothing in
      anybody's hands: no compare-and-swap is fooled, but the re-read of the head is. */
  lemma NullAfterReread() returns (actions: seq<Action>)
    ensures IsRun(Init(), actions)
    ensures var q := Run(Init(), actions);
            var q1 := Step(q, Advance(1));
            var pc := PcOf(q, 1);
            && pc.GetCheck? && pc.n == Null && !pc.alone && q.m.chain == [6, DIVIDER]
            && (forall u | u in q.pc :: Held(q.pc[u]) == {})
            && Enabled(q, Advance(1)) && Enabled(q1, Advance(1)) && PcOf(q1, 1).GetAct? && q1.m == q.m
            && Step(q1, Advance(1)) == At(q1, 1, Idle)
            && q.m.head.node == pc.h && q.m.head.stamp != pc.hs
  {
    var pc;
    actions, pc := SixLast();
    FirstIsHead(Run(Init(), actions));
    ItemsOf(Run(Init(), actions), 5);
    actions := GetTwo(actions, pc);
    var q := Run(Init(), actions);
    FirstIsHead(q);
    Fooled(q, pc);
  }

  lemma Fooled(q: Queue, pc: Pc)
    requires Pair(q, pc) && q.m.chain == [6, DIVIDER] && q.m.head.node == 6
    requires pc.GetCheck? && pc.h == 6 && pc.t == 6 && pc.n == Null && !pc.alone
    ensures var q1 := Step(q, Advance(1));
            && (forall u | u in q.pc :: Held(q.pc[u]) == {})
            && Enabled(q, Advance(1)) && Enabled(q1, Advance(1)) && PcOf(q1, 1).GetAct? && q1.m == q.m
            && Step(q1, Advance(1)) == At(q1, 1, Idle)
            && q.m.head.stamp != pc.hs
  {
    forall u | u in q.pc ensures Held(q.pc[u]) == {} {
      assert u == 1 || u == 2;
    }
    PcThreadOk(q, 1);
    var q1 := Step(q, Advance(1));
    assert q1 == At(q, 1, GetAct(6, pc.hs, 6, pc.ts, Null, pc.ns));
    assert Step(q1, Advance(1)) == GetStep(q1, 1);
  }
}
