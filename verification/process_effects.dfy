/** What the steps of a domain's scheduler come to: who gets which messages, in which order,
    and whose turn it is. */
module ProcessEffects {
  import D = Delivery
  import opened Seqs
  import opened Process
  import opened ProcessRuns

  /** `dispatch_local_inbox`: the messages, in order. */
  function DispatchEach(s: Sched, msgs: seq<D.Msg>): Sched
    decreases |msgs|
  {
    if msgs == [] || !Enabled(s, Arrive(msgs[0])) then s else DispatchEach(DispatchLocal(s, msgs[0]), msgs[1..])
  }

  /** Those of the messages that are for process p. */
  function Meant(p: D.Poff, msgs: seq<D.Msg>): seq<D.Msg> {
    if msgs == [] then [] else (if For(msgs[0], p) then [msgs[0]] else []) + Meant(p, msgs[1..])
  }

  /** From s to s' the messages have gone into the inboxes of those they are for, behind
      what was there, and nothing else is different but who is busy. */
  ghost predicate HandedOut(s: Sched, s': Sched, msgs: seq<D.Msg>) {
    && OnlyInboxes(s, s')
    && s.busy <= s'.busy
    && forall p | p in s.procs :: InboxOf(s', p) == InboxOf(s, p) + Meant(p, msgs)
  }

  predicate OnlyInboxes(s: Sched, s': Sched) {
    && s'.list == s.list && s'.running == s.running && s'.hand == s.hand && s'.putBack == s.putBack
    && s'.procs.Keys == s.procs.Keys
    && forall p | p in s.procs :: s'.procs[p].badmatch == s.procs[p].badmatch && s'.procs[p].eaten == s.procs[p].eaten
  }

  lemma {:induction false} AllOnly(s: Sched, ps: seq<D.Poff>, m: D.Msg)
    requires forall p | p in ps :: p in s.procs
    ensures OnlyInboxes(s, DispatchAll(s, ps, m)) && s.busy <= DispatchAll(s, ps, m).busy
    decreases |ps|
  {
    if ps != [] {
      AllOnly(DispatchSingle(s, ps[0], m), ps[1..], m);
    }
  }

  /** A message goes to those it is for. */
  lemma ArriveHandsOut(s: Sched, m: D.Msg)
    requires Good(s) && Enabled(s, Arrive(m)) && Safe(s, Arrive(m))
    ensures HandedOut(s, DispatchLocal(s, m), [m])
  {
    hide Good, DispatchLocal, OnlyInboxes, Safe;
    DispatchDelivers(s, m);
    assert 0 !in s.procs by { ListedOf(s); }
    AllOnlyLocal(s, m);
    var s' := DispatchLocal(s, m);
    assert [m][1..] == [];
    forall p | p in s.procs ensures InboxOf(s', p) == InboxOf(s, p) + Meant(p, [m]) {
      assert Meant(p, [m]) == if For(m, p) then [m] else [];
      assert Inboxes(s')[p] == InboxOf(s', p) && Inboxes(s)[p] == InboxOf(s, p);
    }
  }

  lemma AllOnlyLocal(s: Sched, m: D.Msg)
    requires Enabled(s, Arrive(m))
    ensures var s' := DispatchLocal(s, m); OnlyInboxes(s, s') && s'.procs.Keys == s.procs.Keys && s'.running == s.running && s.busy <= s'.busy
  {
    if m.poff == 0 && !m.gc {
      AllOnly(s, s.list, m);
    }
  }

  lemma HandedOutBoth(s: Sched, mid: Sched, s': Sched, m: D.Msg, msgs: seq<D.Msg>)
    requires HandedOut(s, mid, [m]) && HandedOut(mid, s', msgs)
    ensures HandedOut(s, s', [m] + msgs)
  {
    assert OnlyInboxes(s, s') && mid.procs.Keys == s.procs.Keys;
    hide InboxOf, OnlyInboxes;
    forall p | p in s.procs ensures InboxOf(s', p) == InboxOf(s, p) + Meant(p, [m] + msgs) {
      MeantCons(p, m, msgs);
      hide Meant;
    }
  }

  lemma MeantCons(p: D.Poff, m: D.Msg, msgs: seq<D.Msg>)
    ensures Meant(p, [m] + msgs) == Meant(p, [m]) + Meant(p, msgs)
  {
    assert ([m] + msgs)[1..] == msgs && [m][1..] == [];
  }

  /** With nobody running, a whole inbox of the domain is handed out: each process gets the
      messages for it, in the order in which they stand there. */
  lemma {:induction false} EachHandsOut(s: Sched, msgs: seq<D.Msg>)
    requires Good(s) && s.running == 0
    ensures Good(DispatchEach(s, msgs)) && HandedOut(s, DispatchEach(s, msgs), msgs)
    decreases |msgs|
  {
    hide Good, DispatchLocal, HandedOut, Enabled;
    if msgs == [] {
      NothingToHandOut(s);
    } else {
      FirstHandsOut(s, msgs[0]);
      var mid := DispatchLocal(s, msgs[0]);
      EachHandsOut(mid, msgs[1..]);
      HandedOutBoth(s, mid, DispatchEach(mid, msgs[1..]), msgs[0], msgs[1..]);
      assert [msgs[0]] + msgs[1..] == msgs;
    }
  }

  lemma NothingToHandOut(s: Sched)
    ensures HandedOut(s, s, [])
  {
  }

  lemma FirstHandsOut(s: Sched, m: D.Msg)
    requires Good(s) && s.running == 0
    ensures Enabled(s, Arrive(m)) && (forall p | p in s.list :: p in s.procs)
    ensures Good(DispatchLocal(s, m)) && HandedOut(s, DispatchLocal(s, m), [m])
    ensures DispatchLocal(s, m).running == 0
  {
    assert 0 !in s.procs && forall p | p in s.list :: p in s.procs by { ListedOf(s); }
    hide Good, DispatchLocal, HandedOut, InboxOf;
    ArriveHandsOut(s, m);
    SafeArriveGood(s, m);
    AllOnlyLocal(s, m);
  }

  // The busy queue

  /** Those of the processes whose inbox has no known end, in order. */
  function Idle(s: Sched, ps: seq<D.Poff>): seq<D.Poff>
    requires forall p | p in ps :: p in s.procs
  {
    if ps == [] then [] else (if s.procs[ps[0]].inbox.last then [] else [ps[0]]) + Idle(s, ps[1..])
  }

  lemma {:induction false} IdleSame(s: Sched, s': Sched, ps: seq<D.Poff>)
    requires forall p | p in ps :: p in s.procs && p in s'.procs && s'.procs[p] == s.procs[p]
    ensures Idle(s', ps) == Idle(s, ps)
  {
    if ps != [] {
      IdleSame(s, s', ps[1..]);
    }
  }

  /** A broadcast makes the idle processes busy, in the order of the list. */
  lemma {:induction false} BroadcastQueues(s: Sched, ps: seq<D.Poff>, m: D.Msg)
    requires NoDup(ps) && forall p | p in ps :: p in s.procs
    ensures DispatchAll(s, ps, m).busy == s.busy + Idle(s, ps)
    decreases |ps|
  {
    hide NoDup, DispatchSingle;
    if ps != [] {
      var mid, first := DispatchSingle(s, ps[0], m), if s.procs[ps[0]].inbox.last then [] else [ps[0]];
      FirstOnly(ps);
      SingleQueues(s, ps[0], m);
      IdleSame(s, mid, ps[1..]);
      BroadcastQueues(mid, ps[1..], m);
      assert (s.busy + first) + Idle(s, ps[1..]) == s.busy + (first + Idle(s, ps[1..]));
    }
  }

  lemma SingleQueues(s: Sched, p: D.Poff, m: D.Msg)
    requires p in s.procs
    ensures var s' := DispatchSingle(s, p, m);
            && s'.procs.Keys == s.procs.Keys && (forall q | q in s.procs && q != p :: s'.procs[q] == s.procs[q])
            && s'.busy == s.busy + if s.procs[p].inbox.last then [] else [p]
  {
  }

  /** Whose turn it was, in order. */
  function Turns(s: Sched, steps: seq<Step>): seq<D.Poff>
    requires EnabledAll(s, steps)
    decreases |steps|
  {
    if steps == [] then []
    else (if steps[0] == TakeBusy then [Next(s, TakeBusy).running] else []) + Turns(Next(s, steps[0]), steps[1..])
  }

  /** A step serves the first busy process, or puts some behind the others. */
  lemma StepTurn(s: Sched, step: Step)
    requires Good(s) && Enabled(s, step) && Safe(s, step)
    ensures var s' := Next(s, step); s.busy <= (if step == TakeBusy then [s'.running] else []) + s'.busy
  {
    hide Good, Safe;
    NotBusy(s);
    match step {
      case Arrive(m) => AllOnlyLocal(s, m);
      case ReturnExit => WithoutNone(s.busy, s.running);
      case _ => hide DispatchLocal, Without;
    }
  }

  lemma NotBusy(s: Sched)
    requires Good(s)
    ensures s.running in s.procs ==> s.running !in s.busy
  {
    ListedOf(s);
    hide Good, NoDup;
    assert s.running in s.busy ==> ShouldBeBusy(s, s.running);
  }

  lemma PrefixOn(a: seq<D.Poff>, first: seq<D.Poff>, b: seq<D.Poff>, c: seq<D.Poff>)
    requires a <= first + b && b <= c
    ensures a <= first + c
  {
  }

  /** Over every run: the processes have their turns in the order in which they became
      busy. */
  lemma {:induction false} TurnsInOrder(s: Sched, steps: seq<Step>)
    requires Good(s) && EnabledAll(s, steps) && SafeAll(s, steps)
    ensures s.busy <= Turns(s, steps) + After(s, steps).busy
    decreases |steps|
  {
    hide Good, Next, Enabled, Safe;
    if steps != [] {
      StepTurn(s, steps[0]);
      NextGoodIff(s, steps[0]);
      var s' := Next(s, steps[0]);
      var first := if steps[0] == TakeBusy then [s'.running] else [];
      TurnsInOrder(s', steps[1..]);
      var rest := Turns(s', steps[1..]) + After(s, steps).busy;
      PrefixOn(s.busy, first, s'.busy, rest);
      assert Turns(s, steps) + After(s, steps).busy == first + rest;
    }
  }

  // What callbacks do

  /** Process p is new, with empty queues, and all the others are as they were. */
  ghost predicate Started(s: Sched, s': Sched, p: D.Poff) {
    && p !in s.procs && s'.procs.Keys == s.procs.Keys + {p} && s'.list == [p] + s.list
    && s'.procs[p].inbox.items == [] && s'.procs[p].badmatch.items == [] && s'.procs[p].arrived == []
    && (forall q | q in s.procs :: s'.procs[q] == s.procs[q])
    && s'.busy == s.busy && s'.running == s.running && s'.hand == s.hand
  }

  lemma StartAdds(s: Sched, p: D.Poff)
    requires Good(s) && Enabled(s, Start(p))
    ensures Started(s, Next(s, Start(p)), p)
  {
    hide Good;
  }

  /** The deferred messages have come to stand before the inbox, in their order, and all
      else is as it was. */
  ghost predicate InFront(s: Sched, s': Sched) {
    && OnlyRunning(s, s') && s'.hand == s.hand
    && var was, proc := s.procs[s.running], s'.procs[s.running];
       && proc.badmatch.items == [] && proc.inbox.items == was.badmatch.items + was.inbox.items
       && proc.arrived == was.arrived && proc.eaten == was.eaten
  }

  lemma ReceiveFront(s: Sched)
    requires Good(s) && Enabled(s, Receive)
    ensures InFront(s, Next(s, Receive))
  {
    assert Listed(s) by { ListedOf(s); }
    RunningListed(s, Receive);
  }
}
