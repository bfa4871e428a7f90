/** The run queue of module Wakeup is the lock-free queue of module MsQueue: each atomic step
    of `msqueue_put` and `msqueue_get` is a step of the worker there, or none. */
module WakeupQueue {
  import opened Wrappers
  import opened Wakeup
  import opened WakeupRuns
  import opened WakeupStaff
  import Q = MsQueue

  function NodeOf(n: QueueNode): Q.Node {
    if n.Divide? then Q.DIVIDER else n.gid + 1
  }

  function Nodes(gs: seq<Gid>): seq<Q.Node> {
    seq(|gs|, (i: nat) requires i < |gs| => gs[i] + 1)
  }

  predicate DividerIn(st: State) {
    st.divider.Behind? ==> st.divider.ahead <= |st.queue|
  }

  function ChainOf(st: State): seq<Q.Node>
    requires DividerIn(st)
  {
    if st.divider.Away? then Nodes(st.queue)
    else Nodes(st.queue[..st.divider.ahead]) + [Q.DIVIDER] + Nodes(st.queue[st.divider.ahead..])
  }

  predicate ReadsAt(w: Pc, h: Q.Node, hs: nat, end: bool) {
    w.Reading? && NodeOf(w.node) == h && w.seen == hs && w.end == end
  }

  /** In the middle of putting a domain back, its link written already or not. */
  predicate PutsAt(w: Pc, x: Q.Node, refill: bool, cleared: bool) {
    if refill then w.Lifting?
    else if cleared then w.Putting? && x == w.gid + 1
    else w.Finished? && x == w.gid + 1
  }

  /** Where a worker of module Wakeup is when its thread is there in the queue.  A get that is
      about to return NULL has ended the worker. */
  predicate Agrees(pc: Q.Pc, w: Pc) {
    match pc
    case Idle => !w.Reading? && !w.Lifting? && !w.Took? && !w.Putting?
    case GetHead => w.Idle?
    case GetTail(h, hs) => ReadsAt(w, h, hs, false)
    case GetNext(h, hs, _, _) => ReadsAt(w, h, hs, false)
    case GetCheck(h, hs, t, _, n, _, _) => ReadsAt(w, h, hs, h == t && n == Q.Null)
    case GetAct(h, _, t, _, n, _) => if h == t && n == Q.Null then w.Quit? else w.Idle?
    case GetPoison(h, _, _) => w.Took? && h == w.gid + 1
    case PutStart(x, refill) => PutsAt(w, x, refill, false)
    case PutClear(x, refill, _, _) => PutsAt(w, x, refill, false)
    case PutTail(x, refill) => PutsAt(w, x, refill, true)
    case PutNext(x, refill, _, _) => PutsAt(w, x, refill, true)
    case PutCheck(x, refill, _, _, _, _) => PutsAt(w, x, refill, true)
    case PutAct(x, refill, _, _, _, _) => PutsAt(w, x, refill, true)
    case PutSwing(_, _, _, _) => w.Idle?
    case Aborted => false
  }

  predicate ThreadAgrees(q: Q.Queue, st: State, t: Tid)
    requires t < |st.threads|
  {
    var pc, th := Q.PcOf(q, t), st.threads[t];
    && Agrees(pc, th.pc)
    && (pc != Q.Idle ==> th.owed == Nothing)
    && (pc != Q.Idle && th.pc.Finished? && th.pc.gid < |st.doms| ==> st.doms[th.pc.gid].alive)
  }

  predicate Poisoned(m: Q.Mem, g: Gid) {
    Q.IsEnqueued(m, g + 1)
  }

  /** The same queue: nodes, writes to the head word, poison values, and where everybody is. */
  ghost predicate Refines(q: Q.Queue, st: State) {
    && DividerIn(st) && q.m.chain == ChainOf(st) && q.m.head.stamp == st.stamp
    && (forall t | t in q.pc :: t < |st.threads|)
    && (forall t | 0 <= t < |st.threads| :: ThreadAgrees(q, st, t))
    && (forall g | 0 <= g < |st.doms| :: st.doms[g].poison <==> Poisoned(q.m, g))
  }

  /** A worker begins a get when it is free, and puts back a domain that it has run. */
  predicate Obeys(st: State, a: Q.Action) {
    match a
    case BeginGet(t) => t < |st.threads| && st.threads[t] == Thread(Idle, Nothing)
    case BeginPut(t, x) =>
      t < |st.threads| && x > 0 && st.threads[t] == Thread(Finished(x - 1), Nothing) && x - 1 < |st.doms| && st.doms[x - 1].alive
    case Advance(_) => true
  }

  /** What the worker does at this step of the queue, if anything. */
  function Image(q: Q.Queue, a: Q.Action): Option<Step> {
    if !a.Advance? then None
    else
      match Q.PcOf(q, a.tid)
      case GetHead => Some(Read)
      case GetNext(h, _, t, _) => if h == t && Q.CellOf(q.m, h).value == Q.Null then Some(SeeEnd) else None
      case GetCheck(h, _, t, _, n, _, _) => if h == q.m.head.node && h == t && n == Q.Null then Some(Leave) else Some(Retry)
      case GetAct(h, _, t, _, _, _) => if h == t || q.m.head.node != h then None else if h == Q.DIVIDER then Some(Lift) else Some(Take)
      case GetPoison(_, _, _) => Some(Poison)
      case PutClear(_, refill, _, _) => if refill then None else Some(Return)
      case PutAct(_, refill, t, _, n, _) =>
        if n == Q.Null && Q.CellOf(q.m, t).value == Q.Null then Some(if refill then PutBack else LinkIn) else None
      case _ => None
  }

  // The chain

  lemma ChainEnds(st: State)
    requires DividerIn(st) && NotEmpty(st)
    ensures ChainOf(st) != [] && |ChainOf(st)| == |st.queue| + if st.divider.Away? then 0 else 1
    ensures ChainOf(st)[0] == NodeOf(FirstNode(st)) && ChainOf(st)[|ChainOf(st)| - 1] == NodeOf(LastNode(st))
  {
  }

  lemma ChainTake(st: State)
    requires DividerIn(st) && st.queue != [] && st.divider != Behind(0)
    ensures var st' := st.(queue := st.queue[1..], divider := Passed(st.divider));
            DividerIn(st') && ChainOf(st') == ChainOf(st)[1..] && ChainOf(st)[0] == st.queue[0] + 1
  {
  }

  lemma ChainLift(st: State)
    requires st.divider == Behind(0)
    ensures DividerIn(st) && ChainOf(st.(divider := Away)) == ChainOf(st)[1..]
  {
    assert st.queue[0..] == st.queue;
  }

  lemma ChainBack(st: State)
    requires st.divider == Away
    ensures var st' := st.(divider := Behind(|st.queue|)); DividerIn(st') && ChainOf(st') == ChainOf(st) + [Q.DIVIDER]
  {
    assert st.queue[..|st.queue|] == st.queue;
  }

  lemma ChainLink(st: State, g: Gid)
    requires DividerIn(st)
    ensures var st' := st.(queue := st.queue + [g]); DividerIn(st') && ChainOf(st') == ChainOf(st) + [g + 1]
  {
    if st.divider.Behind? {
      var a := st.divider.ahead;
      assert (st.queue + [g])[..a] == st.queue[..a] && (st.queue + [g])[a..] == st.queue[a..] + [g];
      assert Nodes(st.queue[a..] + [g]) == Nodes(st.queue[a..]) + [g + 1];
    } else {
      assert Nodes(st.queue + [g]) == Nodes(st.queue) + [g + 1];
    }
  }

  // One step

  ghost predicate Starting(q: Q.Queue, st: State, a: Q.Action) {
    && Q.Inv(q) && Exclusive(st) && DividerRight(st) && Refines(q, st) && Q.Enabled(q, a) && Obeys(st, a)
  }

  /** What a step of thread t leaves as it is. */
  predicate SameElse(q: Q.Queue, q': Q.Queue, st: State, st': State, t: Tid) {
    && t < |st.threads| && t in q'.pc && q'.pc == q.pc[t := q'.pc[t]]
    && |st'.threads| == |st.threads| && |st'.doms| == |st.doms|
    && (forall u | 0 <= u < |st.threads| && u != t :: st'.threads[u] == st.threads[u])
    && (forall g | 0 <= g < |st.doms| :: st'.doms[g].alive == st.doms[g].alive)
  }

  lemma Glue(q: Q.Queue, q': Q.Queue, st: State, st': State, t: Tid)
    requires Refines(q, st) && SameElse(q, q', st, st', t)
    requires DividerIn(st') && q'.m.chain == ChainOf(st') && q'.m.head.stamp == st'.stamp
    requires ThreadAgrees(q', st', t)
    requires forall g | 0 <= g < |st.doms| :: st'.doms[g].poison <==> Poisoned(q'.m, g)
    ensures Refines(q', st')
  {
    forall u | 0 <= u < |st'.threads| ensures ThreadAgrees(q', st', u) {
      assert ThreadAgrees(q, st, u);
    }
  }

  /** The chain, the head word and the links have not changed. */
  predicate SameQueue(m: Q.Mem, m': Q.Mem) {
    m'.chain == m.chain && m'.head == m.head && m'.next == m.next
  }

  /** A step without an image writes at most to the tail word, or to the link of the divider. */
  lemma NoneMemory(q: Q.Queue, a: Q.Action)
    requires Q.Inv(q) && Q.Enabled(q, a) && Image(q, a).None?
    ensures var q' := Q.Step(q, a);
            && a.tid in q'.pc && q'.pc == q.pc[a.tid := q'.pc[a.tid]]
            && q'.m.chain == q.m.chain && q'.m.head == q.m.head
            && forall g :: Poisoned(q'.m, g) <==> Poisoned(q.m, g)
  {
    Q.PcThreadOk(q, a.tid);
    hide Q.Inv, Q.ChainOk;
  }

  lemma BeginAgrees(q: Q.Queue, st: State, a: Q.Action)
    requires Starting(q, st, a) && !a.Advance?
    ensures a.tid < |st.threads| && ThreadAgrees(Q.Step(q, a), st, a.tid)
  {
    hide Q.Inv;
  }

  /** A thread in the middle of a call is a worker. */
  lemma Working(q: Q.Queue, st: State, t: Tid)
    requires Refines(q, st) && Q.PcOf(q, t) != Q.Idle
    ensures t < |st.threads| && ThreadAgrees(q, st, t)
  {
  }

  predicate InPut(pc: Q.Pc) {
    pc.PutStart? || pc.PutClear? || pc.PutTail? || pc.PutNext? || pc.PutCheck? || pc.PutAct? || pc.PutSwing?
  }

  /** What a thread in a call has to go by. */
  ghost predicate GoesBy(q: Q.Queue, st: State, t: Tid) {
    && t < |st.threads| && ThreadAgrees(q, st, t)
    && Q.ThreadOk(q.m, Q.PcOf(q, t)) && Q.NoAba(q.m, Q.PcOf(q, t)) && Q.PcOf(q, t) != Q.Idle
    && (Q.CellOf(q.m, q.m.tail.node).value == Q.Null ==> Q.IsLast(q.m, q.m.tail.node))
    && Q.CellOf(q.m, q.m.tail.node).value != Q.Poison
    && (q.m.tail.node != q.m.head.node ==> Q.CellOf(q.m, q.m.head.node).value.To?)
  }

  lemma StartGoesBy(q: Q.Queue, st: State, a: Q.Action)
    requires Starting(q, st, a) && a.Advance?
    ensures GoesBy(q, st, a.tid)
  {
    Q.PcThreadOk(q, a.tid);
    Working(q, st, a.tid);
    Q.TailIsLast(q, q.m.tail.node);
    Q.HeadFacts(q);
    hide Q.Inv, Q.ChainOk, Q.ThreadOk, Q.NoAba, Refines, Exclusive, DividerRight, ThreadAgrees;
  }

  lemma GoesByThread(q: Q.Queue, st: State, t: Tid)
    requires GoesBy(q, st, t)
    ensures t < |st.threads|
  {
  }

  lemma PutAgrees(q: Q.Queue, st: State, t: Tid)
    requires GoesBy(q, st, t) && InPut(Q.PcOf(q, t)) && Image(q, Q.Advance(t)).None?
    ensures ThreadAgrees(Q.PutStep(q, t), st, t)
  {
  }

  lemma GetAgrees(q: Q.Queue, st: State, t: Tid)
    requires GoesBy(q, st, t) && !InPut(Q.PcOf(q, t)) && Image(q, Q.Advance(t)).None?
    ensures ThreadAgrees(Q.GetStep(q, t), st, t)
  {
  }

  lemma NoneRefines(q: Q.Queue, st: State, a: Q.Action)
    requires Starting(q, st, a) && Image(q, a).None?
    ensures Refines(Q.Step(q, a), st)
  {
    NoneMemory(q, a);
    if !a.Advance? {
      BeginAgrees(q, st, a);
    } else {
      StartGoesBy(q, st, a);
      if InPut(Q.PcOf(q, a.tid)) {
        PutAgrees(q, st, a.tid);
      } else {
        GetAgrees(q, st, a.tid);
      }
    }
    hide Q.PutStep, Q.GetStep, Q.Inv, Q.Enabled, Obeys, ThreadAgrees, GoesBy;
    Glue(q, Q.Step(q, a), st, st, a.tid);
  }

  /** Step a of the queue is this step of its worker. */
  ghost predicate Is(q: Q.Queue, st: State, a: Q.Action, step: Step) {
    Enabled(st, a.tid, step) && Refines(Q.Step(q, a), Next(st, a.tid, step))
  }

  lemma HeadIsFirst(q: Q.Queue, st: State)
    requires Q.Inv(q) && DividerRight(st) && Refines(q, st)
    ensures NotEmpty(st) && q.m.head.node == NodeOf(FirstNode(st)) && q.m.chain != []
    ensures |q.m.chain| == |st.queue| + if st.divider.Away? then 0 else 1
  {
    ChainEnds(st);
  }

  /** A get whose thread only moves on. */
  lemma GluePc(q: Q.Queue, st: State, t: Tid, pc: Q.Pc, w: Pc)
    requires Refines(q, st) && t < |st.threads| && st.threads[t].owed == Nothing && Agrees(pc, w) && !w.Finished?
    ensures Refines(Q.At(q, t, pc), Goto(st, t, w))
  {
    var q', st' := Q.At(q, t, pc), Goto(st, t, w);
    assert ChainOf(st') == ChainOf(st);
    assert ThreadAgrees(q', st', t);
    Glue(q, q', st, st', t);
  }

  lemma ReadNext(st: State, t: Tid)
    requires t < |st.threads| && st.threads[t] == Thread(Idle, Nothing) && NotEmpty(st)
    ensures Enabled(st, t, Read) && Next(st, t, Read) == Goto(st, t, Reading(FirstNode(st), st.stamp, false))
  {
  }

  lemma LookNext(st: State, t: Tid)
    requires t < |st.threads| && st.threads[t].owed == Nothing && st.threads[t].pc.Reading?
    ensures var pc := st.threads[t].pc;
            && Enabled(st, t, Retry) && Next(st, t, Retry) == Goto(st, t, Idle)
            && (Ends(st, pc.node) ==> Enabled(st, t, SeeEnd) && Next(st, t, SeeEnd) == Goto(st, t, pc.(end := true)))
            && (pc.end && NotEmpty(st) && FirstNode(st) == pc.node ==> Enabled(st, t, Leave) && Next(st, t, Leave) == Goto(st, t, Quit))
  {
  }

  lemma GetSteps(q: Q.Queue, t: Q.Tid)
    ensures var pc, q' := Q.PcOf(q, t), Q.Step(q, Q.Advance(t));
            && (pc.GetHead? ==> q' == Q.At(q, t, Q.GetTail(q.m.head.node, q.m.head.stamp)))
            && (pc.GetNext? ==> q' == Q.At(q, t, Q.GetCheck(pc.h, pc.hs, pc.t, pc.ts, Q.CellOf(q.m, pc.h).value, Q.CellOf(q.m, pc.h).stamp, |q.m.chain| == 1)))
            && (pc.GetCheck? ==> q' == Q.At(q, t, if pc.h != q.m.head.node then Q.GetHead else Q.GetAct(pc.h, pc.hs, pc.t, pc.ts, pc.n, pc.ns)))
  {
  }

  lemma ReadIs(q: Q.Queue, st: State, t: Tid)
    requires Starting(q, st, Q.Advance(t)) && Q.PcOf(q, t).GetHead?
    ensures Is(q, st, Q.Advance(t), Read)
  {
    StartGoesBy(q, st, Q.Advance(t));
    HeadIsFirst(q, st);
    assert st.threads[t] == Thread(Idle, Nothing);
    GetSteps(q, t);
    ReadNext(st, t);
    SameStamp(q, st);
    assert Refines(q, st);
    hide Starting, Refines, GoesBy, Enabled, Next, Q.Step;
    GluePc(q, st, t, Q.GetTail(q.m.head.node, q.m.head.stamp), Reading(FirstNode(st), st.stamp, false));
  }

  lemma SameStamp(q: Q.Queue, st: State)
    requires Refines(q, st)
    ensures q.m.head.stamp == st.stamp
  {
  }

  lemma LinkOf(m: Q.Mem, i: nat)
    requires Q.ChainOk(m) && i < |m.chain|
    ensures Q.CellOf(m, m.chain[i]).value == Q.Null <==> i == |m.chain| - 1
  {
    assert i < |m.chain| - 1 ==> Q.CellOf(m, m.chain[i]).value == Q.To(m.chain[i + 1]);
  }

  lemma LastIs(q: Q.Queue, st: State, x: Q.Node)
    requires Q.Inv(q) && DividerRight(st) && Refines(q, st) && x in q.m.chain && Q.CellOf(q.m, x).value == Q.Null
    ensures NotEmpty(st) && x == NodeOf(LastNode(st))
  {
    ChainEnds(st);
    var i :| 0 <= i < |q.m.chain| && q.m.chain[i] == x;
    LinkOf(q.m, i);
  }

  /** Who holds a node with a NULL link is about to link it in. */
  lemma HolderPuts(q: Q.Queue, st: State, u: Q.Tid, x: Q.Node)
    requires Q.Inv(q) && Refines(q, st) && u in q.pc && x in Q.Held(q.pc[u]) && Q.CellOf(q.m, x).value == Q.Null
    ensures u < |st.threads| && if x == Q.DIVIDER then st.threads[u].pc.Lifting? else st.threads[u].pc == Putting(x - 1)
  {
    assert Q.ThreadOk(q.m, q.pc[u]);
    assert ThreadAgrees(q, st, u);
    hide Q.Inv, Refines;
  }

  /** A node whose link is NULL is at the end, or being put. */
  lemma NullEnds(q: Q.Queue, st: State, n: QueueNode)
    requires Q.Inv(q) && DividerRight(st) && Refines(q, st) && Q.CellOf(q.m, NodeOf(n)).value == Q.Null
    ensures Ends(st, n)
  {
    var x := NodeOf(n);
    if x in q.m.chain {
      LastIs(q, st, x);
    } else {
      assert Q.IsHeld(q, x);
      var u :| u in q.pc && x in Q.Held(q.pc[u]);
      HolderPuts(q, st, u, x);
    }
  }

  lemma SeeEndIs(q: Q.Queue, st: State, t: Tid)
    requires Starting(q, st, Q.Advance(t)) && Image(q, Q.Advance(t)) == Some(SeeEnd)
    ensures Is(q, st, Q.Advance(t), SeeEnd)
  {
    StartGoesBy(q, st, Q.Advance(t));
    LooksThere(q, st, t);
    NullEnds(q, st, st.threads[t].pc.node);
    LookNext(st, t);
    GetSteps(q, t);
    assert Refines(q, st);
    hide Starting, Refines, GoesBy, Enabled, Next, Q.Step, Ends;
    var pc := Q.PcOf(q, t);
    GluePc(q, st, t, Q.GetCheck(pc.h, pc.hs, pc.t, pc.ts, Q.Null, Q.CellOf(q.m, pc.h).stamp, |q.m.chain| == 1), st.threads[t].pc.(end := true));
  }

  lemma LooksThere(q: Q.Queue, st: State, t: Tid)
    requires GoesBy(q, st, t) && (Q.PcOf(q, t).GetNext? || Q.PcOf(q, t).GetCheck?)
    ensures var pc, th := Q.PcOf(q, t), st.threads[t];
            && th.owed == Nothing && th.pc.Reading? && NodeOf(th.pc.node) == pc.h && th.pc.seen == pc.hs
            && th.pc.end == (pc.GetCheck? && pc.h == pc.t && pc.n == Q.Null)
  {
  }

  lemma CheckIs(q: Q.Queue, st: State, t: Tid)
    requires Starting(q, st, Q.Advance(t)) && Q.PcOf(q, t).GetCheck?
    ensures Image(q, Q.Advance(t)).Some? && Is(q, st, Q.Advance(t), Image(q, Q.Advance(t)).value)
  {
    StartGoesBy(q, st, Q.Advance(t));
    HeadIsFirst(q, st);
    LooksThere(q, st, t);
    LookNext(st, t);
    GetSteps(q, t);
    assert Refines(q, st);
    hide Starting, Refines, GoesBy, Enabled, Next, Q.Step, Ends, FirstNode, NotEmpty;
    var pc := Q.PcOf(q, t);
    if pc.h != q.m.head.node {
      GluePc(q, st, t, Q.GetHead, Idle);
    } else {
      assert st.threads[t].pc.node == FirstNode(st);
      GluePc(q, st, t, Q.GetAct(pc.h, pc.hs, pc.t, pc.ts, pc.n, pc.ns), if pc.h == pc.t && pc.n == Q.Null then Quit else Idle);
    }
  }

  /** The successful compare-and-swap of the head word. */
  lemma Unlinks(q: Q.Queue, st: State, t: Tid)
    requires Starting(q, st, Q.Advance(t)) && Q.PcOf(q, t).GetAct? && Image(q, Q.Advance(t)).Some?
    ensures var pc := Q.PcOf(q, t);
            && pc.n.To? && |q.m.chain| >= 2 && pc.h == q.m.head.node
            && Q.Step(q, Q.Advance(t)).m == Q.Unlink(q.m, pc.n.node)
            && Q.Step(q, Q.Advance(t)).pc == q.pc[t := if pc.h == Q.DIVIDER then Q.PutStart(Q.DIVIDER, true) else Q.GetPoison(pc.h, pc.n, pc.ns)]
  {
    Q.PcThreadOk(q, t);
    Q.HeadFacts(q);
    hide Q.Inv, Q.ChainOk;
  }

  lemma UnlinkMarks(q: Q.Queue, st: State, t: Tid)
    requires Starting(q, st, Q.Advance(t)) && Q.PcOf(q, t).GetAct? && Image(q, Q.Advance(t)).Some?
    ensures forall g :: Poisoned(Q.Step(q, Q.Advance(t)).m, g) <==> Poisoned(q.m, g)
  {
    Unlinks(q, st, t);
    hide Q.Step, Q.Inv;
  }

  /** What the queue step of thread t does to the rest of the state. */
  predicate Becomes(st: State, st': State, t: Tid, w: Pc) {
    && t < |st.threads| && |st'.threads| == |st.threads| && |st'.doms| == |st.doms| && st'.threads[t] == Thread(w, Nothing)
    && (forall u | 0 <= u < |st.threads| && u != t :: st'.threads[u] == st.threads[u])
    && (forall g | 0 <= g < |st.doms| :: st'.doms[g].alive == st.doms[g].alive)
  }

  predicate SamePoison(st: State, st': State) {
    |st'.doms| == |st.doms| && forall g | 0 <= g < |st.doms| :: st'.doms[g].poison == st.doms[g].poison
  }

  lemma LiftNext(st: State, t: Tid)
    requires t < |st.threads| && st.threads[t] == Thread(Idle, Nothing) && st.divider == Behind(0) && st.queue != []
    ensures Enabled(st, t, Lift) && Becomes(st, Next(st, t, Lift), t, Lifting) && SamePoison(st, Next(st, t, Lift))
    ensures var st' := Next(st, t, Lift); DividerIn(st') && ChainOf(st') == ChainOf(st)[1..] && st'.stamp == st.stamp + 1
  {
    ChainLift(st);
    assert ChainOf(Next(st, t, Lift)) == ChainOf(st.(divider := Away));
  }

  lemma TakeNext(st: State, t: Tid)
    requires t < |st.threads| && st.threads[t] == Thread(Idle, Nothing) && DividerIn(st) && st.queue != [] && st.divider != Behind(0)
    requires st.queue[0] < |st.doms| && (st.divider.Away? ==> |st.queue| >= 2)
    ensures Enabled(st, t, Take) && Becomes(st, Next(st, t, Take), t, Took(st.queue[0])) && SamePoison(st, Next(st, t, Take))
    ensures var st' := Next(st, t, Take); DividerIn(st') && ChainOf(st') == ChainOf(st)[1..] && st'.stamp == st.stamp + 1
  {
    ChainTake(st);
    assert ChainOf(Next(st, t, Take)) == ChainOf(st.(queue := st.queue[1..], divider := Passed(st.divider)));
  }

  lemma LinkNext(st: State, t: Tid, g: Gid)
    requires t < |st.threads| && g < |st.doms| && st.threads[t] == Thread(Putting(g), Nothing) && DividerIn(st)
    ensures Enabled(st, t, LinkIn) && Becomes(st, Next(st, t, LinkIn), t, Idle) && SamePoison(st, Next(st, t, LinkIn))
    ensures var st' := Next(st, t, LinkIn); DividerIn(st') && ChainOf(st') == ChainOf(st) + [g + 1] && st'.stamp == st.stamp
  {
    ChainLink(st, g);
    assert ChainOf(Next(st, t, LinkIn)) == ChainOf(st.(queue := st.queue + [g]));
  }

  lemma PutBackNext(st: State, t: Tid)
    requires t < |st.threads| && st.threads[t] == Thread(Lifting, Nothing) && st.divider == Away
    ensures Enabled(st, t, PutBack) && Becomes(st, Next(st, t, PutBack), t, Idle) && SamePoison(st, Next(st, t, PutBack))
    ensures var st' := Next(st, t, PutBack); DividerIn(st') && ChainOf(st') == ChainOf(st) + [Q.DIVIDER] && st'.stamp == st.stamp
  {
    ChainBack(st);
    assert ChainOf(Next(st, t, PutBack)) == ChainOf(st.(divider := Behind(|st.queue|)));
  }

  /** Marking and clearing write to `next`. */
  lemma MarkNext(st: State, t: Tid, g: Gid, step: Step, w: Pc)
    requires t < |st.threads| && g < |st.doms| && DividerIn(st)
    requires (step == Poison && st.threads[t] == Thread(Took(g), Nothing) && w == Fresh(g))
          || (step == Return && st.threads[t] == Thread(Finished(g), Nothing) && w == Putting(g) && st.doms[g].alive)
    ensures Enabled(st, t, step) && Becomes(st, Next(st, t, step), t, w)
    ensures forall x | 0 <= x < |st.doms| :: Next(st, t, step).doms[x].poison == if x == g then step == Poison else st.doms[x].poison
    ensures var st' := Next(st, t, step); DividerIn(st') && ChainOf(st') == ChainOf(st) && st'.stamp == st.stamp
  {
    assert ChainOf(Next(st, t, step)) == ChainOf(st);
  }

  lemma GlueTo(q: Q.Queue, q': Q.Queue, st: State, st': State, t: Tid, pc: Q.Pc, w: Pc)
    requires Refines(q, st) && Becomes(st, st', t, w) && q'.pc == q.pc[t := pc] && Agrees(pc, w) && !w.Finished?
    requires DividerIn(st') && q'.m.chain == ChainOf(st') && q'.m.head.stamp == st'.stamp
    requires forall g | 0 <= g < |st.doms| :: st'.doms[g].poison <==> Poisoned(q'.m, g)
    ensures Refines(q', st')
  {
    assert ThreadAgrees(q', st', t);
    Glue(q, q', st, st', t);
  }

  lemma GlueSame(q: Q.Queue, q': Q.Queue, st: State, st': State, t: Tid, pc: Q.Pc, w: Pc)
    requires Refines(q, st) && Becomes(st, st', t, w) && q'.pc == q.pc[t := pc] && Agrees(pc, w) && !w.Finished?
    requires DividerIn(st') && q'.m.chain == ChainOf(st') && q'.m.head.stamp == st'.stamp
    requires SamePoison(st, st') && forall g :: Poisoned(q'.m, g) <==> Poisoned(q.m, g)
    ensures Refines(q', st')
  {
    forall g | 0 <= g < |st.doms| ensures st'.doms[g].poison <==> Poisoned(q'.m, g) {
      assert st.doms[g].poison <==> Poisoned(q.m, g);
    }
    GlueTo(q, q', st, st', t, pc, w);
  }

  lemma RefinesFacts(q: Q.Queue, st: State)
    requires Refines(q, st)
    ensures DividerIn(st) && q.m.chain == ChainOf(st) && q.m.head.stamp == st.stamp
  {
  }

  /** The first node of the queue is the one that the get takes. */
  lemma TakesFirst(q: Q.Queue, st: State, t: Tid)
    requires Starting(q, st, Q.Advance(t)) && Q.PcOf(q, t).GetAct? && Image(q, Q.Advance(t)).Some?
    ensures t < |st.threads| && st.threads[t] == Thread(Idle, Nothing) && st.queue != [] && DividerIn(st)
    ensures Q.PcOf(q, t).h == Q.DIVIDER ==> st.divider == Behind(0)
    ensures Q.PcOf(q, t).h != Q.DIVIDER ==>
              && st.divider != Behind(0) && Q.PcOf(q, t).h == st.queue[0] + 1 && st.queue[0] < |st.doms|
              && (st.divider.Away? ==> |st.queue| >= 2)
  {
    StartGoesBy(q, st, Q.Advance(t));
    HeadIsFirst(q, st);
    Unlinks(q, st, t);
    hide Q.Inv, Q.Step;
  }

  /** The node is off the queue, and in the hands of thread t. */
  ghost predicate Unlinked(q: Q.Queue, q': Q.Queue, t: Tid, pc: Q.Pc) {
    && q.m.chain != [] && q'.m.chain == q.m.chain[1..] && q'.m.head.stamp == q.m.head.stamp + 1
    && q'.pc == q.pc[t := pc] && forall g :: Poisoned(q'.m, g) <==> Poisoned(q.m, g)
  }

  lemma LiftedRefines(q: Q.Queue, q': Q.Queue, st: State, t: Tid, pc: Q.Pc)
    requires Refines(q, st) && Unlinked(q, q', t, pc) && pc == Q.PutStart(Q.DIVIDER, true)
    requires t < |st.threads| && st.threads[t] == Thread(Idle, Nothing) && st.divider == Behind(0) && st.queue != []
    ensures Enabled(st, t, Lift) && Refines(q', Next(st, t, Lift))
  {
    LiftNext(st, t);
    RefinesFacts(q, st);
    hide Enabled, Next, ChainOf, Refines, Becomes, SamePoison, Poisoned;
    GlueSame(q, q', st, Next(st, t, Lift), t, pc, Lifting);
  }

  lemma TakenRefines(q: Q.Queue, q': Q.Queue, st: State, t: Tid, pc: Q.Pc)
    requires Refines(q, st) && Unlinked(q, q', t, pc)
    requires t < |st.threads| && st.threads[t] == Thread(Idle, Nothing) && DividerIn(st) && st.queue != [] && st.divider != Behind(0)
    requires st.queue[0] < |st.doms| && (st.divider.Away? ==> |st.queue| >= 2)
    requires pc.GetPoison? && pc.h == st.queue[0] + 1
    ensures Enabled(st, t, Take) && Refines(q', Next(st, t, Take))
  {
    TakeNext(st, t);
    RefinesFacts(q, st);
    hide Enabled, Next, ChainOf, Refines, Becomes, SamePoison, Poisoned;
    GlueSame(q, q', st, Next(st, t, Take), t, pc, Took(st.queue[0]));
  }

  lemma UnlinkedNow(q: Q.Queue, st: State, t: Tid)
    requires Starting(q, st, Q.Advance(t)) && Q.PcOf(q, t).GetAct? && Image(q, Q.Advance(t)).Some?
    ensures var pc := Q.PcOf(q, t);
            Unlinked(q, Q.Step(q, Q.Advance(t)), t, if pc.h == Q.DIVIDER then Q.PutStart(Q.DIVIDER, true) else Q.GetPoison(pc.h, pc.n, pc.ns))
  {
    Unlinks(q, st, t);
    UnlinkMarks(q, st, t);
    hide Starting, Q.Step, Poisoned;
  }

  lemma StartRefines(q: Q.Queue, st: State, a: Q.Action)
    requires Starting(q, st, a)
    ensures Refines(q, st)
  {
  }

  lemma UnlinkIs(q: Q.Queue, st: State, t: Tid)
    requires Starting(q, st, Q.Advance(t)) && Q.PcOf(q, t).GetAct? && Image(q, Q.Advance(t)).Some?
    ensures Is(q, st, Q.Advance(t), Image(q, Q.Advance(t)).value)
  {
    hide Starting, Q.Step, Enabled, Next, Refines, Unlinked;
    StartRefines(q, st, Q.Advance(t));
    TakesFirst(q, st, t);
    UnlinkedNow(q, st, t);
    var pc, q' := Q.PcOf(q, t), Q.Step(q, Q.Advance(t));
    if pc.h == Q.DIVIDER {
      LiftedRefines(q, q', st, t, Q.PutStart(Q.DIVIDER, true));
    } else {
      TakenRefines(q, q', st, t, Q.GetPoison(pc.h, pc.n, pc.ns));
    }
  }

  // Writes to links

  lemma WriteMarks(m: Q.Mem, x: Q.Node, value: Q.Link, g: Gid)
    ensures Poisoned(Q.Write(m, x, value), g) <==> if x == g + 1 then value == Q.Poison else Poisoned(m, g)
  {
  }

  /** A worker marks the domain that it has taken, or clears the link before it puts it back. */
  lemma MarkIs(q: Q.Queue, st: State, t: Tid, g: Gid, step: Step, value: Q.Link, pc: Q.Pc, w: Pc)
    requires Refines(q, st) && t < |st.threads| && g < |st.doms| && Agrees(pc, w)
    requires (step == Poison && st.threads[t] == Thread(Took(g), Nothing) && w == Fresh(g) && value == Q.Poison)
          || (step == Return && st.threads[t] == Thread(Finished(g), Nothing) && w == Putting(g) && st.doms[g].alive && value == Q.Null)
    requires Q.Step(q, Q.Advance(t)) == Q.At(q.(m := Q.Write(q.m, g + 1, value)), t, pc)
    ensures Is(q, st, Q.Advance(t), step)
  {
    RefinesFacts(q, st);
    MarkNext(st, t, g, step, w);
    var q', st' := Q.Step(q, Q.Advance(t)), Next(st, t, step);
    forall x | 0 <= x < |st.doms| ensures st'.doms[x].poison <==> Poisoned(q'.m, x) {
      WriteMarks(q.m, g + 1, value, x);
      assert st.doms[x].poison <==> Poisoned(q.m, x);
    }
    hide Q.Step, Enabled, Next, ChainOf, Refines, Becomes, Poisoned;
    GlueTo(q, q', st, st', t, pc, w);
  }

  lemma HasDomain(q: Q.Queue, st: State, a: Q.Action)
    requires Starting(q, st, a) && a.tid < |st.threads| && Holds(st.threads[a.tid].pc)
    ensures Refines(q, st) && st.threads[a.tid].pc.gid < |st.doms|
  {
    hide Q.Inv, Refines;
  }

  lemma PoisonStep(q: Q.Queue, st: State, t: Tid)
    requires GoesBy(q, st, t) && Q.PcOf(q, t).GetPoison?
    ensures var h := Q.PcOf(q, t).h;
            && h > 0 && st.threads[t] == Thread(Took(h - 1), Nothing)
            && Q.Step(q, Q.Advance(t)) == Q.At(q.(m := Q.Write(q.m, h, Q.Poison)), t, Q.Idle)
  {
    assert Q.Step(q, Q.Advance(t)) == Q.GetStep(q, t);
  }

  lemma PoisonIs(q: Q.Queue, st: State, t: Tid)
    requires Starting(q, st, Q.Advance(t)) && Q.PcOf(q, t).GetPoison?
    ensures Is(q, st, Q.Advance(t), Poison)
  {
    hide Starting, Refines, GoesBy, Q.Step, Enabled, Next;
    StartGoesBy(q, st, Q.Advance(t));
    GoesByThread(q, st, t);
    PoisonStep(q, st, t);
    HasDomain(q, st, Q.Advance(t));
    var g := Q.PcOf(q, t).h - 1;
    MarkIs(q, st, t, g, Poison, Q.Poison, Q.Idle, Fresh(g));
  }

  lemma ReturnStep(q: Q.Queue, st: State, t: Tid)
    requires GoesBy(q, st, t) && Q.PcOf(q, t).PutClear? && !Q.PcOf(q, t).refill
    ensures var x := Q.PcOf(q, t).new_;
            && x > 0 && st.threads[t] == Thread(Finished(x - 1), Nothing) && (x - 1 < |st.doms| ==> st.doms[x - 1].alive)
            && Q.Step(q, Q.Advance(t)) == Q.At(q.(m := Q.Write(q.m, x, Q.Null)), t, Q.PutTail(x, false))
  {
    assert Q.Step(q, Q.Advance(t)) == Q.PutStep(q, t);
  }

  lemma ReturnIs(q: Q.Queue, st: State, t: Tid)
    requires Starting(q, st, Q.Advance(t)) && Q.PcOf(q, t).PutClear? && !Q.PcOf(q, t).refill
    ensures Is(q, st, Q.Advance(t), Return)
  {
    hide Starting, Refines, GoesBy, Q.Step, Enabled, Next;
    StartGoesBy(q, st, Q.Advance(t));
    GoesByThread(q, st, t);
    ReturnStep(q, st, t);
    HasDomain(q, st, Q.Advance(t));
    var g := Q.PcOf(q, t).new_ - 1;
    MarkIs(q, st, t, g, Return, Q.Null, Q.PutTail(g + 1, false), Putting(g));
  }

  lemma LinksIn(q: Q.Queue, st: State, t: Tid)
    requires Starting(q, st, Q.Advance(t)) && Q.PcOf(q, t).PutAct? && Image(q, Q.Advance(t)).Some?
    ensures var pc := Q.PcOf(q, t); var q' := Q.Step(q, Q.Advance(t));
            && q'.m.chain == q.m.chain + [pc.new_] && q'.m.head == q.m.head && q'.pc == q.pc[t := Q.PutSwing(pc.new_, pc.refill, pc.t, pc.ts)]
            && forall g :: Poisoned(q'.m, g) <==> Poisoned(q.m, g)
  {
    hide Q.Inv;
  }

  lemma LinkThread(q: Q.Queue, st: State, t: Tid)
    requires GoesBy(q, st, t) && Q.PcOf(q, t).PutAct? && !Q.PcOf(q, t).refill
    ensures var x := Q.PcOf(q, t).new_; x > 0 && st.threads[t] == Thread(Putting(x - 1), Nothing)
  {
  }

  lemma LinkInIs(q: Q.Queue, st: State, t: Tid)
    requires Starting(q, st, Q.Advance(t)) && Q.PcOf(q, t).PutAct? && Image(q, Q.Advance(t)) == Some(LinkIn)
    ensures Is(q, st, Q.Advance(t), LinkIn)
  {
    hide Starting, Q.Step, Enabled, Next, ChainOf, Refines, GoesBy, Becomes, SamePoison, Poisoned;
    StartGoesBy(q, st, Q.Advance(t));
    GoesByThread(q, st, t);
    LinkThread(q, st, t);
    HasDomain(q, st, Q.Advance(t));
    LinksIn(q, st, t);
    RefinesFacts(q, st);
    var pc := Q.PcOf(q, t);
    LinkNext(st, t, pc.new_ - 1);
    GlueSame(q, Q.Step(q, Q.Advance(t)), st, Next(st, t, LinkIn), t, Q.PutSwing(pc.new_, false, pc.t, pc.ts), Idle);
  }

  lemma PutBackIs(q: Q.Queue, st: State, t: Tid)
    requires Starting(q, st, Q.Advance(t)) && Q.PcOf(q, t).PutAct? && Image(q, Q.Advance(t)) == Some(PutBack)
    ensures Is(q, st, Q.Advance(t), PutBack)
  {
    StartGoesBy(q, st, Q.Advance(t));
    LinksIn(q, st, t);
    var pc := Q.PcOf(q, t);
    assert st.threads[t] == Thread(Lifting, Nothing) && st.divider == Away && pc.new_ == Q.DIVIDER;
    assert Refines(q, st);
    RefinesFacts(q, st);
    PutBackNext(st, t);
    hide Starting, Q.Step, Enabled, Next, ChainOf, Refines, GoesBy, Becomes, SamePoison, Poisoned;
    GlueSame(q, Q.Step(q, Q.Advance(t)), st, Next(st, t, PutBack), t, Q.PutSwing(pc.new_, true, pc.t, pc.ts), Idle);
  }

  /** Every atomic step of `msqueue_put` and `msqueue_get` is this step of the worker in
      module Wakeup, or nothing there. */
  lemma StepRefines(q: Q.Queue, st: State, a: Q.Action)
    requires Q.Inv(q) && Exclusive(st) && DividerRight(st) && Refines(q, st) && Q.Enabled(q, a) && Obeys(st, a)
    ensures match Image(q, a)
            case None => Refines(Q.Step(q, a), st)
            case Some(step) => Enabled(st, a.tid, step) && Refines(Q.Step(q, a), Next(st, a.tid, step))
  {
    assert Starting(q, st, a);
    var image := Image(q, a);
    if image.None? {
      NoneRefines(q, st, a);
    } else {
      var t := a.tid;
      assert a == Q.Advance(t);
      hide Starting, Q.Step, Next, Enabled, Refines, Q.Inv, Exclusive, DividerRight, Q.Enabled;
      match Q.PcOf(q, t) {
        case GetHead => ReadIs(q, st, t);
        case GetNext(_, _, _, _) => SeeEndIs(q, st, t);
        case GetCheck(_, _, _, _, _, _, _) => CheckIs(q, st, t);
        case GetAct(_, _, _, _, _, _) => UnlinkIs(q, st, t);
        case GetPoison(_, _, _) => PoisonIs(q, st, t);
        case PutClear(_, _, _, _) => ReturnIs(q, st, t);
        case PutAct(_, refill, _, _, _, _) => if refill { PutBackIs(q, st, t); } else { LinkInIs(q, st, t); }
        case _ =>
      }
    }
  }

  // The other steps of the workers

  /** What a worker does outside of the run queue. */
  predicate Own(st: State, t: Tid, step: Step)
    requires Enabled(st, t, step)
  {
    match step
    case Join => true
    case Splice => true
    case Consume(_, _) => true
    case StartFlush => true
    case Append(_, _) => true
    case Look => true
    case Poke => true
    case EndFlush => true
    case Block => true
    case Wake(_) => true
    case Return => st.threads[t].pc.gid < |st.doms| && !st.doms[st.threads[t].pc.gid].alive
    case _ => false
  }

  lemma OwnKeeps(st: State, t: Tid, step: Step)
    requires Enabled(st, t, step) && Own(st, t, step)
    ensures var st' := Next(st, t, step);
            && st'.queue == st.queue && st'.divider == st.divider && st'.stamp == st.stamp && |st'.doms| == |st.doms|
            && (forall g | 0 <= g < |st.doms| :: st'.doms[g].poison == st.doms[g].poison)
            && (forall g | 0 <= g < |st.doms| && !(Holds(st.threads[t].pc) && st.threads[t].pc.gid == g) :: st'.doms[g].alive == st.doms[g].alive)
    ensures Agrees(Q.Idle, st.threads[t].pc) ==> Agrees(Q.Idle, Next(st, t, step).threads[t].pc)
  {
  }

  lemma OwnRefines(q: Q.Queue, st: State, t: Tid, step: Step)
    requires Exclusive(st) && Refines(q, st) && Enabled(st, t, step) && Own(st, t, step) && Q.PcOf(q, t) == Q.Idle
    ensures Refines(q, Next(st, t, step))
  {
    var st' := Next(st, t, step);
    OtherThreads(st, t, step);
    OwnKeeps(st, t, step);
    assert ChainOf(st') == ChainOf(st);
    forall u | 0 <= u < |st.threads| ensures ThreadAgrees(q, st', u) {
      assert ThreadAgrees(q, st, u);
      if u != t && Holds(st.threads[u].pc) && Holds(st.threads[t].pc) {
        assert st.threads[u].pc.gid != st.threads[t].pc.gid;
      }
      hide Next;
    }
  }
}
