/** Runs of a domain's scheduler, and its loops as methods. */
module ProcessRuns {
  import D = Delivery
  import opened Seqs
  import opened Process

  predicate EnabledAll(s: Sched, steps: seq<Step>)
    decreases |steps|
  {
    steps == [] || (Enabled(s, steps[0]) && EnabledAll(Next(s, steps[0]), steps[1..]))
  }

  function After(s: Sched, steps: seq<Step>): Sched
    requires EnabledAll(s, steps)
    decreases |steps|
  {
    if steps == [] then s else After(Next(s, steps[0]), steps[1..])
  }

  predicate SafeAll(s: Sched, steps: seq<Step>)
    requires EnabledAll(s, steps)
    decreases |steps|
  {
    steps == [] || (Safe(s, steps[0]) && SafeAll(Next(s, steps[0]), steps[1..]))
  }

  ghost predicate GoodThroughout(s: Sched, steps: seq<Step>)
    requires EnabledAll(s, steps)
    decreases |steps|
  {
    Good(s) && (steps == [] || GoodThroughout(Next(s, steps[0]), steps[1..]))
  }

  const NEW_DOMAIN := Sched([], map[], [], 0, Empty, 0)

  lemma NewGood()
    ensures Good(NEW_DOMAIN)
  {
  }

  /** A run keeps the scheduler right all along just when every step of it is safe. */
  lemma {:induction false} RunGoodIff(s: Sched, steps: seq<Step>)
    requires Good(s) && EnabledAll(s, steps)
    ensures GoodThroughout(s, steps) <==> SafeAll(s, steps)
    decreases |steps|
  {
    hide Good, Safe, Enabled;
    if steps != [] {
      NextGoodIff(s, steps[0]);
      if Safe(s, steps[0]) {
        RunGoodIff(Next(s, steps[0]), steps[1..]);
      } else if steps[1..] == [] {
        assert !GoodThroughout(Next(s, steps[0]), steps[1..]);
      }
    }
  }

  lemma {:induction false} SafeRunGood(s: Sched, steps: seq<Step>)
    requires Good(s) && EnabledAll(s, steps) && SafeAll(s, steps)
    ensures Good(After(s, steps))
    decreases |steps|
  {
    hide Good, Safe, Enabled;
    if steps != [] {
      NextGoodIff(s, steps[0]);
      SafeRunGood(Next(s, steps[0]), steps[1..]);
    }
  }

  lemma {:induction false} AfterSnoc(s: Sched, steps: seq<Step>, step: Step)
    requires EnabledAll(s, steps) && Enabled(After(s, steps), step)
    ensures EnabledAll(s, steps + [step]) && After(s, steps + [step]) == Next(After(s, steps), step)
    decreases |steps|
  {
    hide Enabled, Next;
    if steps == [] {
      assert [step][1..] == [];
    } else {
      assert (steps + [step])[1..] == steps[1..] + [step];
      AfterSnoc(Next(s, steps[0]), steps[1..], step);
    }
  }

  /** Selective receive: in every run with safe steps, what a process that is not in a
      call has deferred, followed by its inbox, is what arrived and was not consumed, in
      the order of arrival. */
  lemma SelectiveReceive(steps: seq<Step>, p: D.Poff)
    requires EnabledAll(NEW_DOMAIN, steps) && SafeAll(NEW_DOMAIN, steps)
    requires p in After(NEW_DOMAIN, steps).procs && (p != After(NEW_DOMAIN, steps).running || After(NEW_DOMAIN, steps).hand == Empty)
    ensures var proc := After(NEW_DOMAIN, steps).procs[p];
            proc.badmatch.items + proc.inbox.items == Unread(proc.arrived, proc.eaten)
  {
    NewGood();
    SafeRunGood(NEW_DOMAIN, steps);
    GoodAt(After(NEW_DOMAIN, steps), p);
  }

  /** With nobody running and nobody busy, no process has a message left. */
  lemma QuietMeansEmpty(s: Sched, p: D.Poff)
    requires Good(s) && s.running == 0 && s.busy == [] && p in s.procs
    ensures s.procs[p].inbox.items == []
  {
    ListedOf(s);
    assert p in s.busy <==> ShouldBeBusy(s, p);
  }

  /** When a process that has just put deferred messages back into its empty inbox sends
      to itself, they are lost: not consumed, and in no queue. */
  lemma SelfSendLoses(s: Sched, m: D.Msg)
    requires Good(s) && Enabled(s, Receive) && m.poff == s.running
    requires s.procs[s.running].inbox.items == [] && s.procs[s.running].badmatch.items != []
    ensures var l := Letter(|s.procs[s.running].arrived|, m);
            var proc := DispatchLocal(Next(s, Receive), m).procs[s.running];
            && proc.inbox.items == [l] && proc.badmatch.items == []
            && forall x | x in s.procs[s.running].badmatch.items :: x != l && x in Unread(proc.arrived, proc.eaten)
  {
    var was := s.procs[s.running];
    var l := Letter(|was.arrived|, m);
    GoodAt(s, s.running);
    UnreadIncreasing(was.arrived, was.eaten);
    UnreadAppend(was.arrived, was.eaten, l);
    assert 0 !in s.procs by { ListedOf(s); }
    hide Good, Unread, Listed;
    forall x | x in was.badmatch.items ensures x != l && x in Unread(was.arrived, was.eaten) {
      assert x in Waiting(s, s.running);
    }
  }

  /** `msock_loopexit` from a callback whose inbox is empty: the broadcast reaches the caller
      too, which is then enqueued while it runs; so when it exits, `queue_slow_del` is
      needed. */
  lemma LoopExitEnqueuesSelf(s: Sched, m: D.Msg)
    requires Good(s) && s.running in s.procs && s.procs[s.running].inbox.items == []
    requires m.poff == 0 && !m.gc
    ensures Enabled(s, Arrive(m)) && !Safe(s, Arrive(m))
    ensures s.running !in s.busy && s.running in DispatchLocal(s, m).busy && DispatchLocal(s, m).running == s.running
  {
    RunningIn(s);
    hide Good, DispatchLocal;
    BroadcastEnqueues(s, m, s.running);
  }

  lemma {:induction false} LastPutLast(s: Sched, ps: seq<D.Poff>, m: D.Msg, p: D.Poff)
    requires (forall q | q in ps :: q in s.procs) && NoDup(ps)
    requires ps != [] && ps[|ps| - 1] == p && p in s.procs && !s.procs[p].inbox.last
    ensures var busy := DispatchAll(s, ps, m).busy; busy != [] && busy[|busy| - 1] == p
    decreases |ps|
  {
    var rest, s' := ps[1..], DispatchSingle(s, ps[0], m);
    assert s'.procs.Keys == s.procs.Keys;
    if rest != [] {
      FirstOnly(ps);
      assert rest[|rest| - 1] == p && p in rest;
      assert s'.procs[p] == s.procs[p];
      hide DispatchSingle, NoDup;
      LastPutLast(s', rest, m, p);
    } else {
      assert ps[0] == p;
      assert DispatchAll(s', rest, m) == s';
    }
  }

  /** When the caller of `msock_loopexit` is the last of the list of processes, and not the
      only one, it comes to stand last in the busy queue, behind others.  On its exit
      `queue_slow_del` deletes it from there and leaves `last` NULL, and the next
      `queue_put` drops all the busy processes: see UpQueue.SlowDelThenPut. */
  lemma LoopExitAtEnd(s: Sched, m: D.Msg)
    requires Good(s) && s.running in s.procs && s.procs[s.running].inbox.items == []
    requires m.poff == 0 && !m.gc && |s.list| >= 2 && s.list[|s.list| - 1] == s.running
    ensures Enabled(s, Arrive(m))
    ensures var busy := DispatchLocal(s, m).busy;
            && |busy| >= 2 && busy[|busy| - 1] == s.running
            && (forall p | p in s.procs :: p in busy)
  {
    RunningIn(s);
    ListFacts(s);
    forall p | p in s.list ensures p in s.busy || !s.procs[p].inbox.last {
      BusyOrEmpty(s, p);
    }
    hide Good, DispatchLocal;
    BroadcastBusy(s, m);
  }

  lemma BroadcastBusy(s: Sched, m: D.Msg)
    requires m.poff == 0 && !m.gc && Enabled(s, Arrive(m)) && NoDup(s.list) && |s.list| >= 2
    requires forall p | p in s.list :: p in s.busy || !s.procs[p].inbox.last
    requires var p := s.list[|s.list| - 1]; !s.procs[p].inbox.last
    ensures var busy := DispatchLocal(s, m).busy;
            && |busy| >= 2 && busy[|busy| - 1] == s.list[|s.list| - 1]
            && forall p | p in s.list :: p in busy
  {
    hide DispatchAll;
    var last := s.list[|s.list| - 1];
    LastPutLast(s, s.list, m, last);
    var busy := DispatchAll(s, s.list, m).busy;
    forall p | p in s.list ensures p in busy {
      AllKeepBusy(s, s.list, m, p);
    }
    assert s.list[0] != last && s.list[0] in busy;
  }

  lemma ListFacts(s: Sched)
    requires Good(s)
    ensures NoDup(s.list) && forall p :: p in s.list <==> p in s.procs
  {
    ListedOf(s);
  }

  lemma BusyOrEmpty(s: Sched, p: D.Poff)
    requires Good(s) && p in s.procs
    ensures p != s.running ==> p in s.busy || !s.procs[p].inbox.last
  {
    GoodAt(s, p);
    ListedOf(s);
    assert p in s.busy <==> ShouldBeBusy(s, p);
  }

  lemma BroadcastEnqueues(s: Sched, m: D.Msg, p: D.Poff)
    requires m.poff == 0 && !m.gc && Enabled(s, Arrive(m)) && p in s.list && !s.procs[p].inbox.last
    ensures p in DispatchLocal(s, m).busy && DispatchLocal(s, m).running == s.running
  {
    hide DispatchAll;
    AllKeepBusy(s, s.list, m, p);
  }

  lemma RunningIn(s: Sched)
    requires Good(s) && s.running in s.procs
    ensures s.running in s.list && s.running !in s.busy && forall p | p in s.list :: p in s.procs
    ensures s.procs[s.running].inbox.items == [] ==> !s.procs[s.running].inbox.last
  {
    GoodAt(s, s.running);
    ListedOf(s);
    hide Good, InOrder;
    assert !ShouldBeBusy(s, s.running);
  }

  function Texts(letters: seq<Letter>): seq<D.Msg> {
    seq(|letters|, i requires 0 <= i < |letters| => letters[i].msg)
  }

  /** The inboxes as module Delivery has them. */
  function Inboxes(s: Sched): map<D.Poff, seq<D.Msg>> {
    map p | p in s.procs :: Texts(s.procs[p].inbox.items)
  }

  lemma SingleInbox(s: Sched, p: D.Poff, m: D.Msg)
    requires p in s.procs && TailRight(s, p) && SafeFor(s, p)
    ensures Texts(DispatchSingle(s, p, m).procs[p].inbox.items) == Texts(s.procs[p].inbox.items) + [m]
  {
    var proc := s.procs[p];
    var l := Letter(|proc.arrived|, m);
    assert Put(proc.inbox, l).items == proc.inbox.items + [l];
  }

  lemma SingleDelivers(s: Sched, p: D.Poff, m: D.Msg)
    requires p in s.procs && TailRight(s, p) && SafeFor(s, p)
    ensures Inboxes(DispatchSingle(s, p, m)) == Inboxes(s)[p := Inboxes(s)[p] + [m]]
  {
    SingleInbox(s, p, m);
    hide Texts, Put;
  }

  function InboxOf(s: Sched, p: D.Poff): seq<D.Msg>
    requires p in s.procs
  {
    Texts(s.procs[p].inbox.items)
  }

  predicate Ready(s: Sched, p: D.Poff) {
    p in s.procs && TailRight(s, p) && SafeFor(s, p)
  }

  lemma SingleInboxes(s: Sched, p: D.Poff, m: D.Msg)
    requires Ready(s, p)
    ensures var s' := DispatchSingle(s, p, m);
            && s'.procs.Keys == s.procs.Keys
            && InboxOf(s', p) == InboxOf(s, p) + [m]
            && (forall q | q in s.procs && q != p :: InboxOf(s', q) == InboxOf(s, q))
            && (forall q | Ready(s, q) :: Ready(s', q))
  {
    SingleInbox(s, p, m);
    hide Texts;
  }

  lemma {:induction false} AllDelivers(s: Sched, ps: seq<D.Poff>, m: D.Msg)
    requires NoDup(ps) && forall p | p in ps :: p in s.procs && Ready(s, p)
    ensures DispatchAll(s, ps, m).procs.Keys == s.procs.Keys
    ensures forall p | p in s.procs :: InboxOf(DispatchAll(s, ps, m), p) == InboxOf(s, p) + if p in ps then [m] else []
    decreases |ps|
  {
    hide InboxOf, Ready;
    if ps != [] {
      SingleInboxes(s, ps[0], m);
      FirstOnly(ps);
      hide NoDup, DispatchSingle;
      AllDelivers(DispatchSingle(s, ps[0], m), ps[1..], m);
    }
  }

  /** The loop over the list of processes and the busy queue do to the inboxes just what
      module Delivery says of a delivery. */
  lemma DispatchDelivers(s: Sched, m: D.Msg)
    requires Good(s) && Enabled(s, Arrive(m)) && Safe(s, Arrive(m))
    ensures Inboxes(DispatchLocal(s, m)) == D.Deliver(Inboxes(s), m)
  {
    if m.poff != 0 {
      if m.poff in s.procs {
        GoodAt(s, m.poff);
        hide Good, Listed, InOrder, Texts;
        SingleDelivers(s, m.poff, m);
      }
    } else if !m.gc {
      ListReady(s, m);
      hide Good, Ready;
      BroadcastDelivers(s, m);
    }
  }

  lemma ListReady(s: Sched, m: D.Msg)
    requires Good(s) && m.poff == 0 && !m.gc && Safe(s, Arrive(m))
    ensures NoDup(s.list) && forall p :: p in s.list <==> p in s.procs
    ensures forall p | p in s.list :: Ready(s, p)
  {
    ListedOf(s);
    assert NoDup(s.list) && forall p :: p in s.list <==> p in s.procs;
    hide Good, Listed, TailRight, InOrder;
    forall p | p in s.list ensures Ready(s, p) {
      GoodAt(s, p);
    }
  }

  lemma BroadcastDelivers(s: Sched, m: D.Msg)
    requires m.poff == 0 && !m.gc && NoDup(s.list)
    requires forall p | p in s.list :: p in s.procs && Ready(s, p)
    requires forall p | p in s.procs :: p in s.list
    ensures Inboxes(DispatchLocal(s, m)) == D.Deliver(Inboxes(s), m)
  {
    hide DispatchAll, Texts, NoDup, Ready;
    AllDelivers(s, s.list, m);
    assert DispatchLocal(s, m) == DispatchAll(s, s.list, m);
    assert Inboxes(s).Keys == s.procs.Keys;
  }
}
