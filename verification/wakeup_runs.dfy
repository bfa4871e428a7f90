/** Runs of the runtime: who has which domain, and that no domain sleeps on a message just
    when none has two hungry processes. */
module WakeupRuns {
  import opened Wakeup

  datatype Move = Move(t: Tid, step: Step)

  /** All domains enqueued behind the divider and their inboxes empty; every thread a
      worker about to start, or outside. */
  predicate Init(st: State) {
    && |st.queue| == |st.doms| && st.divider == Behind(0) && st.stamp == 0
    && (forall i | 0 <= i < |st.queue| :: st.queue[i] == i)
    && (forall g | 0 <= g < |st.doms| :: st.doms[g] == Dom(false, [], [], 0, st.doms[g].hungry, true, Queued))
    && (forall t | 0 <= t < |st.threads| :: st.threads[t] == Thread(Idle, Nothing) || st.threads[t] == Thread(Outside, Nothing))
  }

  predicate HungryAtMost(st: State, limit: nat) {
    forall g | 0 <= g < |st.doms| :: st.doms[g].hungry <= limit
  }

  predicate EnabledAll(st: State, run: seq<Move>)
    decreases |run|
  {
    run == [] || (Enabled(st, run[0].t, run[0].step) && EnabledAll(Next(st, run[0].t, run[0].step), run[1..]))
  }

  function After(st: State, run: seq<Move>): State
    requires EnabledAll(st, run)
    decreases |run|
  {
    if run == [] then st else After(Next(st, run[0].t, run[0].step), run[1..])
  }

  lemma InitInv(st: State)
    requires Init(st)
    ensures Exclusive(st) && DividerRight(st) && (HungryAtMost(st, 1) ==> Inv(st))
  {
    forall g | 0 <= g < |st.doms| ensures Accounted(st, g) && PoisonRight(st, g) && LocalRight(st, g) {
      assert st.queue[g] == g;
    }
    forall t | 0 <= t < |st.threads| ensures Wakeable(st, t) && OwedRight(st, t) && SingleHungryAt(st, t) {
    }
  }

  lemma {:induction false} RunInv(st: State, run: seq<Move>)
    requires EnabledAll(st, run) && Inv(st)
    ensures Inv(After(st, run))
    decreases |run|
  {
    hide Inv, Enabled;
    if run != [] {
      NextInv(st, run[0].t, run[0].step);
      RunInv(Next(st, run[0].t, run[0].step), run[1..]);
    }
  }

  lemma {:induction false} RunExclusive(st: State, run: seq<Move>)
    requires EnabledAll(st, run) && Exclusive(st) && DividerRight(st)
    ensures Exclusive(After(st, run)) && DividerRight(After(st, run))
    decreases |run|
  {
    hide Exclusive, Enabled, DividerRight;
    if run != [] {
      ExclusiveKept(st, run[0].t, run[0].step);
      DividerKept(st, run[0].t, run[0].step);
      RunExclusive(Next(st, run[0].t, run[0].step), run[1..]);
    }
  }

  /** Only a domain with no process is never run again. */
  predicate OnlyDeadRetired(st: State) {
    forall g | 0 <= g < |st.doms| :: st.doms[g].place.Retired? ==> !st.doms[g].alive
  }

  lemma RetiredKept(st: State, t: Tid, step: Step)
    requires Exclusive(st) && OnlyDeadRetired(st) && Enabled(st, t, step)
    ensures OnlyDeadRetired(Next(st, t, step))
  {
    if Holds(st.threads[t].pc) {
      assert st.doms[st.threads[t].pc.gid].place == Held(t);
    }
    hide Exclusive;
  }

  lemma {:induction false} RunRetired(st: State, run: seq<Move>)
    requires EnabledAll(st, run) && Exclusive(st) && OnlyDeadRetired(st)
    ensures OnlyDeadRetired(After(st, run))
    decreases |run|
  {
    hide Exclusive, Enabled, Next, OnlyDeadRetired;
    if run != [] {
      ExclusiveKept(st, run[0].t, run[0].step);
      RetiredKept(st, run[0].t, run[0].step);
      RunRetired(Next(st, run[0].t, run[0].step), run[1..]);
    }
  }

  /** One worker at a time: two threads never have the same domain, nor has a thread one
      that is in the run queue, and no live domain is forgotten. */
  lemma OneWorkerPerDomain(st: State, run: seq<Move>)
    requires Init(st) && EnabledAll(st, run)
    ensures var now := After(st, run);
            && (forall t, u | 0 <= t < u < |now.threads| && Holds(now.threads[t].pc) && Holds(now.threads[u].pc) ::
                  now.threads[t].pc.gid != now.threads[u].pc.gid)
            && (forall t, i | 0 <= t < |now.threads| && Holds(now.threads[t].pc) && 0 <= i < |now.queue| ::
                  now.threads[t].pc.gid != now.queue[i])
            && (forall g | 0 <= g < |now.doms| && now.doms[g].alive :: g in now.queue
                  || exists t :: 0 <= t < |now.threads| && Holds(now.threads[t].pc) && now.threads[t].pc.gid == g)
  {
    InitInv(st);
    RunExclusive(st, run);
    RunRetired(st, run);
    var now := After(st, run);
    forall g | 0 <= g < |now.doms| && now.doms[g].alive && g !in now.queue
      ensures exists t :: 0 <= t < |now.threads| && Holds(now.threads[t].pc) && now.threads[t].pc.gid == g
    {
      assert Accounted(now, g);
    }
  }

  /** The worker at this place looks into the remote inbox before it sleeps, or puts the
      domain back into the run queue without sleeping. */
  predicate WillLook(pc: Pc) {
    Holds(pc) && !pc.Run2? && !pc.Blocked?
  }

  /** A domain that messages wait for need not be woken: it is in the run queue, or its
      worker looks before it sleeps, or the sleep is about to end: there is a byte in the
      pipe, or a sender about to look.  That a worker is left to take it from the run queue
      is the subject of module WakeupStaff. */
  ghost predicate Covered(st: State, g: Gid)
    requires g < |st.doms|
  {
    var d := st.doms[g];
    d.remote != [] && !d.place.Retired? ==>
      || g in st.queue
      || (exists t :: 0 <= t < |st.threads| && WillLook(st.threads[t].pc) && st.threads[t].pc.gid == g)
      || d.pipe > 0
      || SomeoneOwes(st, g)
  }

  /** A worker that sleeps on, with no byte to wake it and no sender about to, misses
      nothing: neither in the remote inbox nor behind the message it sleeps in. */
  ghost predicate SleepsRightly(st: State, t: Tid)
    requires t < |st.threads|
  {
    var pc := st.threads[t].pc;
    pc.Blocked? && pc.gid < |st.doms| && st.doms[pc.gid].pipe == 0 && !SomeoneOwes(st, pc.gid) ==>
      st.doms[pc.gid].remote == [] && st.doms[pc.gid].local == []
  }

  ghost predicate NothingLost(st: State) {
    && (forall g | 0 <= g < |st.doms| :: Covered(st, g))
    && (forall t | 0 <= t < |st.threads| :: SleepsRightly(st, t))
  }

  lemma InvCovers(st: State)
    requires Inv(st)
    ensures NothingLost(st)
  {
    forall g | 0 <= g < |st.doms| ensures Covered(st, g) {
      assert Accounted(st, g);
      if st.doms[g].place.Held? {
        var t := st.doms[g].place.t;
        assert Wakeable(st, t);
        assert WillLook(st.threads[t].pc) || Relies(st.threads[t].pc);
      }
    }
    forall t | 0 <= t < |st.threads| ensures SleepsRightly(st, t) {
      assert Wakeable(st, t);
    }
  }

  /** No domain sleeps on a message, over every interleaving of senders and workers. */
  lemma NoLostWakeup(st: State, run: seq<Move>)
    requires Init(st) && EnabledAll(st, run) && HungryAtMost(st, 1)
    ensures NothingLost(After(st, run))
  {
    InitInv(st);
    RunInv(st, run);
    InvCovers(After(st, run));
  }

  ghost predicate NeverLost(limit: nat) {
    forall st, run | Init(st) && EnabledAll(st, run) && HungryAtMost(st, limit) :: NothingLost(After(st, run))
  }

  ghost predicate Reaches(st: State, goal: State) {
    exists run :: EnabledAll(st, run) && After(st, run) == goal
  }

  lemma Here(st: State)
    ensures Reaches(st, st)
  {
    assert EnabledAll(st, []) && After(st, []) == st;
  }

  lemma {:induction false} RunSnoc(st: State, run: seq<Move>, m: Move)
    requires EnabledAll(st, run) && Enabled(After(st, run), m.t, m.step)
    ensures EnabledAll(st, run + [m]) && After(st, run + [m]) == Next(After(st, run), m.t, m.step)
    decreases |run|
  {
    hide Enabled, Next;
    if run == [] {
      assert [m][1..] == [];
    } else {
      assert (run + [m])[1..] == run[1..] + [m];
      RunSnoc(Next(st, run[0].t, run[0].step), run[1..], m);
    }
  }

  /** One step further on. */
  lemma Then(from: State, st: State, t: Tid, step: Step, st': State)
    requires Reaches(from, st) && Enabled(st, t, step) && Next(st, t, step) == st'
    ensures Reaches(from, st')
  {
    hide Enabled, Next;
    var run :| EnabledAll(from, run) && After(from, run) == st;
    RunSnoc(from, run, Move(t, step));
    assert EnabledAll(from, run + [Move(t, step)]);
  }

  /** One domain with two hungry processes, a worker, and a sender. */
  function Two(queue: seq<Gid>, divider: Divider, stamp: nat, pc: Pc, owed: Owed, d: Dom): State {
    State(queue, divider, stamp, [Thread(pc, Nothing), Thread(Outside, owed)], [d])
  }

  function Free(poison: bool, place: Place): Dom {
    Dom(poison, [], [], 0, 2, true, place)
  }

  function Busy(remote: seq<Msg>, local: seq<Msg>, pipe: nat): Dom {
    Dom(true, remote, local, pipe, 2, true, Held(0))
  }

  function Run(pc: Pc, owed: Owed, d: Dom): State {
    Two([], Behind(0), 2, pc, owed, d)
  }

  /** The second sleep: the pipe has been read, and the message lies behind the one that
      the second hungry process sleeps in. */
  const LOST: State := Run(Blocked(0, 0), Nothing, Busy([], [7], 0))

  const START: State := Two([0], Behind(0), 0, Idle, Nothing, Free(false, Queued))

  /** The worker takes the domain. */
  lemma TakesIt()
    ensures Reaches(START, Run(Run1(0), Nothing, Busy([], [], 0)))
  {
    hide Reaches;
    assert Busy([], [], 0).local + Busy([], [], 0).remote == [];
    Here(START);
    Then(START, START, 0, Lift, Two([0], Away, 1, Lifting, Nothing, Free(false, Queued)));
    Then(START, Two([0], Away, 1, Lifting, Nothing, Free(false, Queued)), 0, PutBack, Two([0], Behind(1), 1, Idle, Nothing, Free(false, Queued)));
    Then(START, Two([0], Behind(1), 1, Idle, Nothing, Free(false, Queued)), 0, Take, Run(Took(0), Nothing, Free(false, Held(0))));
    Then(START, Run(Took(0), Nothing, Free(false, Held(0))), 0, Poison, Run(Fresh(0), Nothing, Busy([], [], 0)));
    Then(START, Run(Fresh(0), Nothing, Busy([], [], 0)), 0, Splice, Run(Run1(0), Nothing, Busy([], [], 0)));
  }

  /** It comes to sleep for the first hungry process. */
  lemma FallAsleep()
    requires Reaches(START, Run(Run1(0), Nothing, Busy([], [], 0)))
    ensures Reaches(START, Run(Blocked(0, 1), Nothing, Busy([], [], 0)))
  {
    hide Reaches;
    assert Busy([], [], 0).local + Busy([], [], 0).remote == [];
    Then(START, Run(Run1(0), Nothing, Busy([], [], 0)), 0, StartFlush, Run(Flush(0, false, 0, 0), Nothing, Busy([], [], 0)));
    Then(START, Run(Flush(0, false, 0, 0), Nothing, Busy([], [], 0)), 0, EndFlush, Run(Ready(0, 1), Nothing, Busy([], [], 0)));
    Then(START, Run(Ready(0, 1), Nothing, Busy([], [], 0)), 0, Splice, Run(Run2(0, 1), Nothing, Busy([], [], 0)));
    Then(START, Run(Run2(0, 1), Nothing, Busy([], [], 0)), 0, Block, Run(Blocked(0, 1), Nothing, Busy([], [], 0)));
  }

  /** A sender appends and writes its byte. */
  lemma Poked()
    requires Reaches(START, Run(Blocked(0, 1), Nothing, Busy([], [], 0)))
    ensures Reaches(START, Run(Blocked(0, 1), Nothing, Busy([7], [], 1)))
  {
    hide Reaches;
    assert Busy([], [], 0).remote + [7] == [7];
    Then(START, Run(Blocked(0, 1), Nothing, Busy([], [], 0)), 1, Append(0, [7]), Run(Blocked(0, 1), Check(0), Busy([7], [], 0)));
    Then(START, Run(Blocked(0, 1), Check(0), Busy([7], [], 0)), 1, Look, Run(Blocked(0, 1), Write(0), Busy([7], [], 0)));
    Then(START, Run(Blocked(0, 1), Write(0), Busy([7], [], 0)), 1, Poke, Run(Blocked(0, 1), Nothing, Busy([7], [], 1)));
  }

  /** The worker reads the pipe, and has the second process to run. */
  lemma Reads()
    requires Reaches(START, Run(Blocked(0, 1), Nothing, Busy([7], [], 1)))
    ensures Reaches(START, Run(Ready(0, 0), Nothing, Busy([7], [], 0)))
  {
    hide Reaches;
    Then(START, Run(Blocked(0, 1), Nothing, Busy([7], [], 1)), 0, Wake(true), Run(Woken(0, 1), Nothing, Busy([7], [], 0)));
    Then(START, Run(Woken(0, 1), Nothing, Busy([7], [], 0)), 0, StartFlush, Run(Flush(0, true, 0, 1), Nothing, Busy([7], [], 0)));
    Then(START, Run(Flush(0, true, 0, 1), Nothing, Busy([7], [], 0)), 0, EndFlush, Run(Ready(0, 0), Nothing, Busy([7], [], 0)));
  }

  /** It takes the message over, and sleeps again. */
  lemma SleepAgain()
    requires Reaches(START, Run(Ready(0, 0), Nothing, Busy([7], [], 0)))
    ensures Reaches(START, LOST)
  {
    hide Reaches;
    assert Busy([7], [], 0).local + Busy([7], [], 0).remote == [7];
    Then(START, Run(Ready(0, 0), Nothing, Busy([7], [], 0)), 0, Splice, Run(Run2(0, 0), Nothing, Busy([], [7], 0)));
    Then(START, Run(Run2(0, 0), Nothing, Busy([], [7], 0)), 0, Block, LOST);
  }

  /** With two hungry processes in one domain a wake-up can be lost: the byte is read
      for the first of them, and the second sleeps on the message. */
  lemma SecondSleepLoses(limit: nat)
    requires limit >= 2
    ensures !NeverLost(limit)
  {
    assert Init(START) && HungryAtMost(START, limit);
    TakesIt();
    FallAsleep();
    Poked();
    Reads();
    SleepAgain();
    LostLoses();
    hide NothingLost, Init, HungryAtMost;
    var run :| EnabledAll(START, run) && After(START, run) == LOST;
    assert !NothingLost(After(START, run));
  }

  lemma LostLoses()
    ensures !NothingLost(LOST)
  {
    assert !SomeoneOwes(LOST, 0);
    assert !SleepsRightly(LOST, 0);
  }

  /** A domain never sleeps on a message, over all runs, just when no domain has two hungry
      processes; an engine has one. */
  lemma NeverLostIff(limit: nat)
    ensures NeverLost(limit) <==> limit <= 1
  {
    if limit <= 1 {
      forall st, run | Init(st) && EnabledAll(st, run) && HungryAtMost(st, limit) ensures NothingLost(After(st, run)) {
        NoLostWakeup(st, run);
      }
    } else {
      SecondSleepLoses(limit);
    }
  }
}
