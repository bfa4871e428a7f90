/** Runs of workers on the lock-free queue, one atomic step of either at a time, are runs of
    module Wakeup. */
module WakeupWhole {
  import opened Wrappers
  import opened Seqs
  import opened Wakeup
  import opened WakeupRuns
  import opened WakeupStaff
  import opened WakeupQueue
  import Q = MsQueue
  import MsQueueSolo

  // Runs of both

  /** The lock-free queue, and the workers with all that is theirs. */
  datatype Whole = Whole(q: Q.Queue, st: State)

  datatype Act = OnQueue(a: Q.Action) | OnOwn(t: Tid, step: Step)

  ghost predicate Together(w: Whole) {
    Q.Inv(w.q) && Exclusive(w.st) && DividerRight(w.st) && Refines(w.q, w.st)
  }

  ghost predicate Can(w: Whole, act: Act) {
    match act
    case OnQueue(a) => Q.Enabled(w.q, a) && Obeys(w.st, a)
    case OnOwn(t, step) => Q.PcOf(w.q, t) == Q.Idle && Enabled(w.st, t, step) && Own(w.st, t, step)
  }

  ghost function Do(w: Whole, act: Act): (w': Whole)
    requires Together(w) && Can(w, act)
    ensures Together(w')
  {
    match act
    case OnQueue(a) =>
      StepRefines(w.q, w.st, a);
      Q.StepInv(w.q, a);
      if Image(w.q, a).Some? then
        ExclusiveKept(w.st, a.tid, Image(w.q, a).value);
        DividerKept(w.st, a.tid, Image(w.q, a).value);
        Whole(Q.Step(w.q, a), Next(w.st, a.tid, Image(w.q, a).value))
      else Whole(Q.Step(w.q, a), w.st)
    case OnOwn(t, step) =>
      OwnRefines(w.q, w.st, t, step);
      ExclusiveKept(w.st, t, step);
      DividerKept(w.st, t, step);
      Whole(w.q, Next(w.st, t, step))
  }

  ghost predicate CanAll(w: Whole, acts: seq<Act>)
    requires Together(w)
    decreases |acts|
  {
    acts == [] || (Can(w, acts[0]) && CanAll(Do(w, acts[0]), acts[1..]))
  }

  ghost function DoAll(w: Whole, acts: seq<Act>): (w': Whole)
    requires Together(w) && CanAll(w, acts)
    ensures Together(w')
    decreases |acts|
  {
    if acts == [] then w else DoAll(Do(w, acts[0]), acts[1..])
  }

  /** A get that finds its head again finds it unwritten. */
  ghost predicate TrueReread(w: Whole, act: Act) {
    act.OnQueue? && act.a.Advance? && Q.PcOf(w.q, act.a.tid).GetCheck? ==>
      var pc := Q.PcOf(w.q, act.a.tid);
      w.q.m.head.node == pc.h ==> w.q.m.head.stamp == pc.hs
  }

  ghost predicate TrueRereads(w: Whole, acts: seq<Act>)
    requires Together(w) && CanAll(w, acts)
    decreases |acts|
  {
    acts == [] || (TrueReread(w, acts[0]) && TrueRereads(Do(w, acts[0]), acts[1..]))
  }

  /** The step of module Wakeup that this is, if any. */
  lemma OneMove(w: Whole, act: Act) returns (moves: seq<Move>)
    requires Together(w) && Can(w, act)
    ensures EnabledAll(w.st, moves) && After(w.st, moves) == Do(w, act).st
    ensures TrueReread(w, act) ==> UnfooledAll(w.st, moves)
  {
    var st' := Do(w, act).st;
    if act.OnQueue? {
      StepRefines(w.q, w.st, act.a);
      if Image(w.q, act.a).Some? {
        var t, step := act.a.tid, Image(w.q, act.a).value;
        if step.Leave? {
          LeavesAs(w, act.a);
        }
        OneMoveOf(w.st, t, step);
        moves := [Move(t, step)];
      } else {
        moves := [];
      }
    } else {
      OneMoveOf(w.st, act.t, act.step);
      moves := [Move(act.t, act.step)];
    }
  }

  lemma OneMoveOf(st: State, t: Tid, step: Step)
    requires Enabled(st, t, step)
    ensures EnabledAll(st, [Move(t, step)]) && After(st, [Move(t, step)]) == Next(st, t, step)
    ensures Unfooled(st, t, step) ==> UnfooledAll(st, [Move(t, step)])
  {
    var moves := [Move(t, step)];
    assert moves[1..] == [];
    hide Enabled, Next, Unfooled;
  }

  lemma LeavesAs(w: Whole, a: Q.Action)
    requires Together(w) && Can(w, OnQueue(a)) && Image(w.q, a) == Some(Leave)
    ensures Enabled(w.st, a.tid, Leave) && (TrueReread(w, OnQueue(a)) ==> Unfooled(w.st, a.tid, Leave))
  {
    StepRefines(w.q, w.st, a);
    StartGoesBy(w.q, w.st, a);
    LooksThere(w.q, w.st, a.tid);
    RefinesFacts(w.q, w.st);
  }

  lemma {:induction false} MovesConcat(st: State, a: seq<Move>, b: seq<Move>)
    requires EnabledAll(st, a) && EnabledAll(After(st, a), b)
    ensures EnabledAll(st, a + b) && After(st, a + b) == After(After(st, a), b)
    ensures UnfooledAll(st, a) && UnfooledAll(After(st, a), b) ==> UnfooledAll(st, a + b)
    decreases |a|
  {
    hide Enabled, Next, Unfooled;
    if a == [] {
      assert a + b == b;
    } else {
      assert (a + b)[1..] == a[1..] + b;
      MovesConcat(Next(st, a[0].t, a[0].step), a[1..], b);
    }
  }

  /** Every run of workers on the lock-free queue, one atomic step at a time, is a run of
      module Wakeup; and no get is fooled there if none is fooled here. */
  lemma {:induction false} WholeRuns(w: Whole, acts: seq<Act>) returns (moves: seq<Move>)
    requires Together(w) && CanAll(w, acts)
    ensures EnabledAll(w.st, moves) && After(w.st, moves) == DoAll(w, acts).st
    ensures TrueRereads(w, acts) ==> UnfooledAll(w.st, moves)
    decreases |acts|
  {
    moves := [];
    if acts != [] {
      var first := OneMove(w, acts[0]);
      hide Together, Can, TrueReread, UnfooledAll, EnabledAll, After;
      var rest := WholeRuns(Do(w, acts[0]), acts[1..]);
      MovesConcat(w.st, first, rest);
      moves := first + rest;
    }
  }

  // The start

  /** The main thread has put the first k domains, and nobody is in a call. */
  ghost predicate Booted(q: Q.Queue, k: nat) {
    && Q.Inv(q) && q.m.chain == [Q.DIVIDER] + seq(k, (i: nat) => i + 1) && q.m.head.stamp == 0
    && q.pc.Keys <= {0} && Q.PcOf(q, 0) == Q.Idle
  }

  lemma NobodyHolds(q: Q.Queue, k: nat, x: Q.Node)
    requires Booted(q, k)
    ensures !Q.IsHeld(q, x) && forall u :: x !in Q.Held(Q.PcOf(q, u))
    ensures Q.IsEnqueued(q.m, x) <==> x !in q.m.chain
  {
    assert forall u | u in q.pc :: u == 0;
    assert x !in q.m.chain && x == Q.DIVIDER ==> Q.IsHeld(q, x);
    if Q.IsEnqueued(q.m, x) {
      Q.PoisonedOff(q.m, x);
    }
  }

  /** `domain_new` puts the new domain. */
  lemma BootsOne(q: Q.Queue, k: nat) returns (n: nat, r: Q.Queue)
    requires Booted(q, k)
    ensures Q.Enabled(q, Q.BeginPut(0, k + 1)) && MsQueueSolo.Reaches(Q.Step(q, Q.BeginPut(0, k + 1)), 0, n, r) && Booted(r, k + 1)
  {
    NobodyHolds(q, k, k + 1);
    assert k + 1 !in q.m.chain;
    assert Q.Enabled(q, Q.BeginPut(0, k + 1));
    hide Q.Step, Q.Enabled, MsQueueSolo.Reaches;
    n, r := MsQueueSolo.PutAppends(q, 0, k + 1);
    BootKeys(q, k, n, r);
    assert r.m.chain == [Q.DIVIDER] + seq(k + 1, (i: nat) => i + 1);
  }

  lemma BootKeys(q: Q.Queue, k: nat, n: nat, r: Q.Queue)
    requires q.pc.Keys <= {0} && MsQueueSolo.Reaches(Q.Step(q, Q.BeginPut(0, k + 1)), 0, n, r)
    ensures r.pc.Keys <= {0}
  {
    MsQueueSolo.SoloKeys(Q.Step(q, Q.BeginPut(0, k + 1)), 0, n);
  }

  lemma {:induction false} Boots(k: nat) returns (actions: seq<Q.Action>)
    ensures Q.IsRun(Q.Init(), actions) && Booted(Q.Run(Q.Init(), actions), k)
  {
    actions := [];
    if k == 0 {
      Q.InitInv();
      assert seq(0, (i: nat) => i + 1) == [];
    } else {
      var before := Boots(k - 1);
      var q := Q.Run(Q.Init(), before);
      var n, r := BootsOne(q, k - 1);
      actions := MsQueueSolo.CallRun(Q.Init(), before, Q.BeginPut(0, k), 0, n, r);
    }
  }

  lemma BootChain(q: Q.Queue, st: State)
    requires Init(st) && Booted(q, |st.doms|)
    ensures DividerIn(st) && ChainOf(st) == q.m.chain && q.m.head.stamp == st.stamp
  {
    assert st.queue[0..] == st.queue && st.queue[..0] == [];
    hide Q.Inv;
  }

  lemma BootPoison(q: Q.Queue, st: State, g: Gid)
    requires Init(st) && Booted(q, |st.doms|) && g < |st.doms|
    ensures st.doms[g].poison <==> Poisoned(q.m, g)
  {
    NobodyHolds(q, |st.doms|, g + 1);
    hide Q.Inv;
    assert q.m.chain[g + 1] == g + 1;
  }

  lemma BootThread(q: Q.Queue, st: State, t: Tid)
    requires Init(st) && Booted(q, |st.doms|) && t < |st.threads|
    ensures ThreadAgrees(q, st, t)
  {
    hide Q.Inv;
    assert Q.PcOf(q, t) == Q.Idle;
  }

  lemma BootBrief(q: Q.Queue, st: State)
    requires Init(st) && Booted(q, |st.doms|) && st.threads != []
    ensures Q.Inv(q) && Exclusive(st) && DividerRight(st) && forall t | t in q.pc :: t < |st.threads|
  {
    InitInv(st);
    hide Q.Inv, Init;
  }

  lemma BootRefines(q: Q.Queue, st: State)
    requires Init(st) && Booted(q, |st.doms|) && st.threads != []
    ensures Together(Whole(q, st))
  {
    hide Q.Inv, Init, Booted, ThreadAgrees, Poisoned, Exclusive, DividerRight, ChainOf, DividerIn;
    BootBrief(q, st);
    BootChain(q, st);
    forall t | 0 <= t < |st.threads| ensures ThreadAgrees(q, st, t) {
      BootThread(q, st, t);
    }
    forall g | 0 <= g < |st.doms| ensures st.doms[g].poison <==> Poisoned(q.m, g) {
      BootPoison(q, st, g);
    }
  }

  /** The base as `msock_base_loop` finds it: there is such a queue. */
  lemma StartsTogether(st: State) returns (actions: seq<Q.Action>)
    requires Init(st) && st.threads != []
    ensures Q.IsRun(Q.Init(), actions) && Together(Whole(Q.Run(Q.Init(), actions), st))
  {
    actions := Boots(|st.doms|);
    BootRefines(Q.Run(Q.Init(), actions), st);
  }

  /** On the lock-free queue itself, with no compare-and-swap and no get fooled: no mail is
      stranded with more workers than hungry domains. */
  lemma NeverStrandedThere(w: Whole, acts: seq<Act>)
    requires Together(w) && Init(w.st) && HungryAtMost(w.st, 1) && |Workers(w.st)| > |HungryDoms(w.st)|
    requires CanAll(w, acts) && TrueRereads(w, acts)
    ensures !Stranded(DoAll(w, acts).st)
  {
    var moves := WholeRuns(w, acts);
    var n, h := |Workers(w.st)|, |HungryDoms(w.st)|;
    MoreWorkersSuffice(n, h);
    hide Together, CanAll, TrueRereads, Init, Workers, HungryDoms, HungryAtMost, Stranded;
    assert NeverStranded(n, h, false);
    assert !Stranded(After(w.st, moves));
  }
}
