/** What is left when gets may be fooled: the node that a get has read as the head is taken,
    put back at the end, and comes to the front again before the get looks once more. */
module WakeupFooled {
  import opened Wakeup
  import opened WakeupRuns
  import opened WakeupStaff

  /** A worker that does not end unless another one has brought its node to the end of the
      queue. */
  predicate Lasting(st: State, t: Tid) {
    && t < |st.threads|
    && var pc := st.threads[t].pc;
       Holds(pc) || pc.Idle? || pc.Lifting? || (pc.Reading? && !pc.end && !Ends(st, pc.node))
  }

  ghost predicate SomeoneLasts(st: State) {
    exists t :: Lasting(st, t)
  }

  predicate Lives(st: State, g: Gid) {
    g < |st.doms| && !st.doms[g].place.Retired?
  }

  /** Who brings a node to the end of the queue lasts. */
  lemma OtherLasts(st: State, t: Tid, step: Step, u: Tid)
    requires DividerRight(st) && Enabled(st, t, step) && u != t && Lasting(st, u)
    ensures Lasting(Next(st, t, step), u) || Lasting(Next(st, t, step), t)
  {
    OtherThreads(st, t, step);
  }

  /** A worker that reads the head lasts, or another one has the live domain or the divider. */
  lemma ReaderLasts(st: State, t: Tid, g: Gid)
    requires Exclusive(st) && DividerRight(st) && Enabled(st, t, Read) && Lives(st, g)
    ensures SomeoneLasts(Next(st, t, Read))
  {
    var st' := Next(st, t, Read);
    OtherThreads(st, t, Read);
    if st.divider.Away? {
      var u :| 0 <= u < |st.threads| && st.threads[u].pc.Lifting?;
      assert Lasting(st', u);
    } else if st.queue == [] {
      assert Accounted(st, g);
      assert Lasting(st', st.doms[g].place.t);
    } else {
      assert !Ends(st', FirstNode(st));
      assert Lasting(st', t);
    }
  }

  lemma OwnLasts(st: State, t: Tid, step: Step)
    requires Enabled(st, t, step) && Lasting(st, t) && !step.Read?
    ensures Lasting(Next(st, t, step), t)
  {
  }

  lemma LastsKept(st: State, t: Tid, step: Step, g: Gid)
    requires Exclusive(st) && DividerRight(st) && Enabled(st, t, step) && SomeoneLasts(st) && Lives(st, g)
    ensures SomeoneLasts(Next(st, t, step))
  {
    var u :| Lasting(st, u);
    if u != t {
      OtherLasts(st, t, step, u);
    } else if step.Read? {
      ReaderLasts(st, t, g);
    } else {
      OwnLasts(st, t, step);
    }
    hide Next, Lasting;
  }

  lemma LivedBefore(st: State, t: Tid, step: Step, g: Gid)
    requires Exclusive(st) && Enabled(st, t, step) && Lives(Next(st, t, step), g)
    ensures Lives(st, g)
  {
    LiveOnlyDown(st, t, step);
    assert g in LiveDoms(Next(st, t, step));
    assert g in LiveDoms(st);
  }

  /** Over every run, fooled gets or not, a worker is left as long as there is a live
      domain. */
  lemma {:induction false} OneStays(st: State, run: seq<Move>, g: Gid)
    requires Exclusive(st) && DividerRight(st) && SomeoneLasts(st) && EnabledAll(st, run) && Lives(After(st, run), g)
    ensures SomeoneLasts(After(st, run))
    decreases |run|
  {
    if run != [] {
      var t, step := run[0].t, run[0].step;
      var st' := Next(st, t, step);
      assert After(st, run) == After(st', run[1..]);
      ExclusiveKept(st, t, step);
      DividerKept(st, t, step);
      hide Next, Lasting, DividerRight, Enabled, Exclusive;
      LivedAtFirst(st', run[1..], g);
      LivedBefore(st, t, step, g);
      LastsKept(st, t, step, g);
      OneStays(st', run[1..], g);
    }
  }

  lemma {:induction false} LivedAtFirst(st: State, run: seq<Move>, g: Gid)
    requires Exclusive(st) && EnabledAll(st, run) && Lives(After(st, run), g)
    ensures Lives(st, g)
    decreases |run|
  {
    if run != [] {
      var t, step := run[0].t, run[0].step;
      var st' := Next(st, t, step);
      assert After(st, run) == After(st', run[1..]);
      ExclusiveKept(st, t, step);
      hide Next, Enabled, Exclusive;
      LivedAtFirst(st', run[1..], g);
      LivedBefore(st, t, step, g);
    }
  }

  lemma {:induction false} NoneHungry(st: State, run: seq<Move>)
    requires EnabledAll(st, run)
    ensures HungryDoms(After(st, run)) <= HungryDoms(st)
    decreases |run|
  {
    hide Enabled, Next, HungryDoms;
    if run != [] {
      HungryOnlyDown(st, run[0].t, run[0].step);
      NoneHungry(Next(st, run[0].t, run[0].step), run[1..]);
    }
  }

  /** Without engines nobody sleeps, and one worker is enough. */
  lemma OneSuffices(n: nat)
    requires n > 0
    ensures NeverStranded(n, 0, true)
  {
    forall st, run | Init(st) && HungryAtMost(st, 1) && |Workers(st)| == n && |HungryDoms(st)| <= 0 && EnabledAll(st, run)
      ensures !Stranded(After(st, run))
    {
      OneAwakes(st, run);
    }
  }

  /** Who sleeps, sleeps in a hungry domain. */
  lemma SleepsInHungry(st: State, t: Tid)
    requires Inv(st) && t < |st.threads|
    ensures st.threads[t].pc.Blocked? ==> st.threads[t].pc.gid in HungryDoms(st)
  {
    assert SingleHungryAt(st, t);
  }

  lemma OneAwakes(st: State, run: seq<Move>)
    requires Init(st) && HungryAtMost(st, 1) && |Workers(st)| > 0 && HungryDoms(st) == {} && EnabledAll(st, run)
    ensures !Stranded(After(st, run))
  {
    InitInv(st);
    RunInv(st, run);
    NoneHungry(st, run);
    var now := After(st, run);
    if g :| Waits(now, g) {
      var t :| t in Workers(st);
      assert Lasting(st, t);
      OneStays(st, run, g);
      var u: Tid :| Lasting(now, u);
      SleepsInHungry(now, u);
      assert Stirs(now, u);
    }
  }
}
