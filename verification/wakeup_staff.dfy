/** Are there workers enough?  A domain in the run queue is not woken when mail comes for
    it; some worker has to come by.  Workers sleep in engines, and they end when
    `msqueue_get` returns NULL.

    Here no get is fooled: when it finds its head again, the head word has not been written
    in between.  What is left of this without that hypothesis is in module WakeupFooled. */
module WakeupStaff {
  import opened Wakeup
  import opened WakeupRuns
  import opened Seqs

  /** A worker that has not ended, awake or asleep. */
  predicate Present(pc: Pc) {
    !pc.Outside? && !pc.Quit?
  }

  function Workers(st: State): set<Tid> {
    set t | 0 <= t < |st.threads| && Present(st.threads[t].pc)
  }

  function LiveDoms(st: State): set<Gid> {
    set g | 0 <= g < |st.doms| && !st.doms[g].place.Retired?
  }

  function HungryDoms(st: State): set<Gid> {
    set g | 0 <= g < |st.doms| && st.doms[g].hungry > 0
  }

  // Gets that are not fooled

  /** A get that returns NULL found the head word unwritten. */
  predicate Unfooled(st: State, t: Tid, step: Step)
    requires Enabled(st, t, step)
  {
    step.Leave? ==> st.threads[t].pc.seen == st.stamp
  }

  predicate UnfooledAll(st: State, run: seq<Move>)
    requires EnabledAll(st, run)
    decreases |run|
  {
    run == [] || (Unfooled(st, run[0].t, run[0].step) && UnfooledAll(Next(st, run[0].t, run[0].step), run[1..]))
  }

  lemma QuitStays(st: State, t: Tid, step: Step, u: Tid)
    requires Enabled(st, t, step) && u < |st.threads| && st.threads[u].pc.Quit?
    ensures u < |Next(st, t, step).threads| && Next(st, t, step).threads[u].pc.Quit?
  {
  }

  lemma {:induction false} QuitForGood(st: State, run: seq<Move>, u: Tid)
    requires EnabledAll(st, run) && u < |st.threads| && st.threads[u].pc.Quit?
    ensures u < |After(st, run).threads| && After(st, run).threads[u].pc.Quit?
    decreases |run|
  {
    hide Enabled, Next;
    if run != [] {
      QuitStays(st, run[0].t, run[0].step, u);
      QuitForGood(Next(st, run[0].t, run[0].step), run[1..], u);
    }
  }

  /** When no worker has ended, none was fooled. */
  lemma {:induction false} NobodyLeft(st: State, run: seq<Move>)
    requires EnabledAll(st, run) && forall t | 0 <= t < |After(st, run).threads| :: !After(st, run).threads[t].pc.Quit?
    ensures UnfooledAll(st, run)
    decreases |run|
  {
    if run != [] {
      var st' := Next(st, run[0].t, run[0].step);
      assert After(st, run) == After(st', run[1..]);
      if run[0].step.Leave? {
        assert st'.threads[run[0].t].pc.Quit?;
        hide Next, Enabled;
        QuitForGood(st', run[1..], run[0].t);
      }
      hide Next, Enabled;
      NobodyLeft(st', run[1..]);
    }
  }

  /** Its get has seen the end of the queue, and returns NULL if it finds the head word
      unwritten still. */
  predicate Leaving(st: State, pc: Pc) {
    pc.Reading? && pc.end && pc.seen == st.stamp
  }

  /** The workers that are there, and not about to end. */
  function Staff(st: State): set<Tid> {
    set t | 0 <= t < |st.threads| && Present(st.threads[t].pc) && !Leaving(st, st.threads[t].pc)
  }

  /** They are the n workers of the start, or one for every live domain. */
  predicate Staffed(st: State, n: nat) {
    |Staff(st)| >= Min(n, |LiveDoms(st)|)
  }

  predicate ReadRight(st: State, pc: Pc) {
    pc.Reading? ==> pc.seen <= st.stamp && (pc.seen == st.stamp ==> NotEmpty(st) && FirstNode(st) == pc.node)
  }

  /** A head that was read is the head as long as the word is not written. */
  predicate ReadsRight(st: State) {
    forall t | 0 <= t < |st.threads| :: ReadRight(st, st.threads[t].pc)
  }

  lemma FirstStays(st: State, t: Tid, step: Step)
    requires DividerRight(st) && Enabled(st, t, step) && NotEmpty(st)
    ensures var st' := Next(st, t, step);
            st'.stamp >= st.stamp && (st'.stamp == st.stamp ==> NotEmpty(st') && FirstNode(st') == FirstNode(st))
  {
  }

  lemma ReadsKept(st: State, t: Tid, step: Step)
    requires DividerRight(st) && ReadsRight(st) && Enabled(st, t, step)
    ensures ReadsRight(Next(st, t, step))
  {
    var st' := Next(st, t, step);
    ThereIsOne(st);
    FirstStays(st, t, step);
    OtherThreads(st, t, step);
    forall u | 0 <= u < |st'.threads| ensures ReadRight(st', st'.threads[u].pc) {
      assert ReadRight(st, st.threads[u].pc);
      if u == t {
        OwnRead(st, t, step);
      } else {
        hide Next;
      }
    }
  }

  lemma ThereIsOne(st: State)
    requires DividerRight(st)
    ensures NotEmpty(st)
  {
  }

  lemma OwnRead(st: State, t: Tid, step: Step)
    requires DividerRight(st) && Enabled(st, t, step) && ReadRight(st, st.threads[t].pc)
    ensures ReadRight(Next(st, t, step), Next(st, t, step).threads[t].pc)
  {
  }

  /** At the end of the queue with the head word unwritten: the node is alone. */
  lemma EndAlone(st: State, t: Tid)
    requires Exclusive(st) && DividerRight(st) && ReadsRight(st) && Enabled(st, t, SeeEnd) && st.threads[t].pc.seen == st.stamp
    ensures |st.queue| == if st.divider.Away? then 1 else 0
  {
    assert ReadRight(st, st.threads[t].pc);
  }

  ghost predicate HeldBy(st: State, g: Gid, ts: set<Tid>) {
    exists t :: t in ts && t < |st.threads| && Holds(st.threads[t].pc) && st.threads[t].pc.gid == g
  }

  /** Domains that are held are no more than their holders. */
  lemma {:induction false} HeldBound(st: State, gs: set<Gid>, ts: set<Tid>)
    requires forall g | g in gs :: HeldBy(st, g, ts)
    ensures |gs| <= |ts|
    decreases ts
  {
    if gs != {} {
      var g :| g in gs;
      var t :| t in ts && t < |st.threads| && Holds(st.threads[t].pc) && st.threads[t].pc.gid == g;
      forall h | h in gs - {g} ensures HeldBy(st, h, ts - {t}) {
        var u :| u in ts && u < |st.threads| && Holds(st.threads[u].pc) && st.threads[u].pc.gid == h;
        assert u in ts - {t};
      }
      HeldBound(st, gs - {g}, ts - {t});
    }
  }

  lemma {:induction false} ElementsSize(s: seq<nat>)
    ensures |Elements(s)| <= |s|
  {
    if s != [] {
      ElementsSize(s[1..]);
      assert Elements(s) == {s[0]} + Elements(s[1..]);
    } else {
      assert Elements(s) == {};
    }
  }

  /** Live domains are enqueued, or held by one of these threads. */
  lemma LiveBound(st: State, ts: set<Tid>)
    requires Exclusive(st) && forall t | 0 <= t < |st.threads| && Holds(st.threads[t].pc) :: t in ts
    ensures |LiveDoms(st)| <= |st.queue| + |ts|
  {
    var queued := Elements(st.queue);
    var held := LiveDoms(st) - queued;
    forall g | g in held ensures HeldBy(st, g, ts) {
      assert Accounted(st, g);
    }
    HeldBound(st, held, ts);
    ElementsSize(st.queue);
    SubsetSize(LiveDoms(st), queued + held);
  }

  lemma LiveOnlyDown(st: State, t: Tid, step: Step)
    requires Exclusive(st) && Enabled(st, t, step)
    ensures LiveDoms(Next(st, t, step)) <= LiveDoms(st)
  {
  }

  /** Nobody ends but who has seen the end of the queue, and is no longer counted then. */
  lemma StaffStep(st: State, t: Tid, step: Step)
    requires ReadsRight(st) && Enabled(st, t, step) && Unfooled(st, t, step)
    ensures Staff(st) - (if step.SeeEnd? && st.threads[t].pc.seen == st.stamp then {t} else {}) <= Staff(Next(st, t, step))
  {
    var st' := Next(st, t, step);
    forall u | u in Staff(st) && !(step.SeeEnd? && st.threads[t].pc.seen == st.stamp && u == t) ensures u in Staff(st') {
      assert ReadRight(st, st.threads[u].pc);
    }
  }

  /** A worker that sees the end of the queue leaves one worker behind for every live
      domain: the others have all live domains but those beside which one of them holds the
      divider. */
  lemma OthersSuffice(st: State, t: Tid)
    requires Exclusive(st) && DividerRight(st) && ReadsRight(st) && Enabled(st, t, SeeEnd) && st.threads[t].pc.seen == st.stamp
    ensures |LiveDoms(st)| <= |Staff(st) - {t}|
  {
    var others := Staff(st) - {t};
    EndAlone(st, t);
    HoldersWork(st, others, t);
    if st.divider.Away? {
      var u :| 0 <= u < |st.threads| && st.threads[u].pc.Lifting?;
      assert u in others;
      hide Exclusive, DividerRight, Staff, LiveDoms;
      LiveBound(st, others - {u});
    } else {
      hide Exclusive, DividerRight, Staff, LiveDoms;
      LiveBound(st, others);
    }
  }

  lemma HoldersWork(st: State, others: set<Tid>, t: Tid)
    requires others == Staff(st) - {t} && t < |st.threads| && !Holds(st.threads[t].pc)
    ensures forall u | 0 <= u < |st.threads| && Holds(st.threads[u].pc) :: u in others
  {
  }

  lemma SameLive(st: State, t: Tid)
    requires Enabled(st, t, SeeEnd)
    ensures LiveDoms(Next(st, t, SeeEnd)) == LiveDoms(st)
  {
  }

  lemma StaffedKept(st: State, t: Tid, step: Step, n: nat)
    requires Exclusive(st) && DividerRight(st) && ReadsRight(st) && Staffed(st, n) && Enabled(st, t, step) && Unfooled(st, t, step)
    ensures Staffed(Next(st, t, step), n)
  {
    var st' := Next(st, t, step);
    StaffStep(st, t, step);
    LiveOnlyDown(st, t, step);
    if step.SeeEnd? && st.threads[t].pc.seen == st.stamp {
      OthersSuffice(st, t);
      SameLive(st, t);
      SubsetSize(Staff(st) - {t}, Staff(st'));
    } else {
      SubsetSize(Staff(st), Staff(st'));
    }
    SubsetSize(LiveDoms(st'), LiveDoms(st));
    hide Staff, LiveDoms, Exclusive, DividerRight, Next;
  }

  lemma HungryOnlyDown(st: State, t: Tid, step: Step)
    requires Enabled(st, t, step)
    ensures HungryDoms(Next(st, t, step)) <= HungryDoms(st)
  {
    HungryStep(st, t, step);
    hide Next;
  }

  /** Over every run in which no get is fooled, a worker ends only when there are more
      workers than live domains, and no domain becomes hungry. */
  lemma {:induction false} WorkersStay(st: State, run: seq<Move>, n: nat)
    requires EnabledAll(st, run) && UnfooledAll(st, run) && Exclusive(st) && DividerRight(st) && ReadsRight(st) && Staffed(st, n)
    ensures Staffed(After(st, run), n) && HungryDoms(After(st, run)) <= HungryDoms(st) && LiveDoms(After(st, run)) <= LiveDoms(st)
    decreases |run|
  {
    hide Exclusive, DividerRight, ReadsRight, Staffed, Enabled, Unfooled, Next, HungryDoms, LiveDoms;
    if run != [] {
      ExclusiveKept(st, run[0].t, run[0].step);
      DividerKept(st, run[0].t, run[0].step);
      ReadsKept(st, run[0].t, run[0].step);
      StaffedKept(st, run[0].t, run[0].step, n);
      HungryOnlyDown(st, run[0].t, run[0].step);
      LiveOnlyDown(st, run[0].t, run[0].step);
      WorkersStay(Next(st, run[0].t, run[0].step), run[1..], n);
    }
  }

  /** A worker that does not sleep, and is not about to end. */
  ghost predicate SomeoneAwake(st: State) {
    exists t :: t in Staff(st) && !st.threads[t].pc.Blocked?
  }

  /** A worker that is awake, or about to be: there is a byte in the pipe it sleeps on, or a
      sender that will see to it. */
  ghost predicate Stirs(st: State, t: Tid)
    requires t < |st.threads|
  {
    var pc := st.threads[t].pc;
    Present(pc) && (pc.Blocked? && pc.gid < |st.doms| ==> st.doms[pc.gid].pipe > 0 || SomeoneOwes(st, pc.gid))
  }

  /** A live domain in the run queue that has mail. */
  predicate Waits(st: State, g: Gid) {
    g < |st.doms| && g in st.queue && !st.doms[g].place.Retired? && st.doms[g].remote != []
  }

  /** A domain waits with mail in the run queue while every worker sleeps and none will be
      woken. */
  ghost predicate Stranded(st: State) {
    (exists g :: Waits(st, g)) && forall t | 0 <= t < |st.threads| :: !Stirs(st, t)
  }

  /** The domains of the threads in ts. */
  function DomsOf(st: State, ts: set<Tid>): set<Gid> {
    set t | t in ts && t < |st.threads| && Holds(st.threads[t].pc) :: st.threads[t].pc.gid
  }

  /** Workers that hold a domain each hold as many domains. */
  lemma {:induction false} DomsOfSize(st: State, ts: set<Tid>)
    requires Exclusive(st) && forall t | t in ts :: t < |st.threads| && Holds(st.threads[t].pc)
    ensures |DomsOf(st, ts)| == |ts|
    decreases ts
  {
    if ts == {} {
      assert DomsOf(st, ts) == {};
    } else {
      var t :| t in ts;
      DomsOfSize(st, ts - {t});
      var g := st.threads[t].pc.gid;
      assert DomsOf(st, ts) == DomsOf(st, ts - {t}) + {g};
      forall u | u in ts - {t} ensures st.threads[u].pc.gid != g {
      }
      assert g !in DomsOf(st, ts - {t});
    }
  }

  /** When every worker sleeps, each has a hungry domain of its own, and no domain of the
      run queue is among them. */
  lemma AllAsleep(st: State, g: Gid)
    requires Inv(st) && !SomeoneAwake(st) && g in st.queue
    ensures |Staff(st)| <= |HungryDoms(st)| && |Staff(st)| + 1 <= |LiveDoms(st)|
  {
    var ts := Staff(st);
    DomsOfSize(st, ts);
    var asleep := DomsOf(st, ts);
    forall h | h in asleep ensures h in HungryDoms(st) && h in LiveDoms(st) && h != g {
      var t :| t in ts && t < |st.threads| && Holds(st.threads[t].pc) && st.threads[t].pc.gid == h;
      assert SingleHungryAt(st, t);
    }
    assert g in LiveDoms(st) && g !in asleep;
    hide Inv, Staff, LiveDoms, HungryDoms, DomsOf;
    SubsetSize(asleep, HungryDoms(st));
    SubsetSize(asleep + {g}, LiveDoms(st));
  }

  /** With more workers still there than hungry domains, one is awake whenever a domain is
      in the run queue. */
  lemma OneAwake(st: State, g: Gid)
    requires Inv(st) && |Staff(st)| > |HungryDoms(st)| && g in st.queue
    ensures SomeoneAwake(st)
  {
    if !SomeoneAwake(st) {
      AllAsleep(st, g);
    }
  }

  /** Nobody has begun a get. */
  lemma InitStaff(st: State)
    requires Init(st)
    ensures Staff(st) == Workers(st) && ReadsRight(st)
  {
  }

  /** Over every run that starts with more workers than hungry domains, and in which no get
      is fooled: whenever a domain is in the run queue, some worker is awake, however many
      have ended. */
  lemma SomeoneComes(st: State, run: seq<Move>, g: Gid)
    requires Init(st) && HungryAtMost(st, 1) && |Workers(st)| > |HungryDoms(st)|
    requires EnabledAll(st, run) && UnfooledAll(st, run) && g in After(st, run).queue
    ensures SomeoneAwake(After(st, run))
  {
    InitInv(st);
    InitStaff(st);
    RunInv(st, run);
    WorkersStay(st, run, |Workers(st)|);
    var now := After(st, run);
    SubsetSize(HungryDoms(now), HungryDoms(st));
    hide Inv, Workers, Staff, LiveDoms, HungryDoms, Init;
    if !SomeoneAwake(now) {
      AllAsleep(now, g);
    }
  }

  /** No run of n workers and at most h domains with a hungry process, one each, leaves mail
      stranded, if no get is fooled or `fooled` allows for it. */
  ghost predicate NeverStranded(n: nat, h: nat, fooled: bool) {
    forall st, run | Init(st) && HungryAtMost(st, 1) && |Workers(st)| == n && |HungryDoms(st)| <= h
                     && EnabledAll(st, run) && (fooled || UnfooledAll(st, run)) ::
      !Stranded(After(st, run))
  }

  lemma MoreWorkersSuffice(n: nat, h: nat)
    requires n > h
    ensures NeverStranded(n, h, false)
  {
    forall st, run | Init(st) && HungryAtMost(st, 1) && |Workers(st)| == n && |HungryDoms(st)| <= h && EnabledAll(st, run) && UnfooledAll(st, run)
      ensures !Stranded(After(st, run))
    {
      var now := After(st, run);
      if g :| Waits(now, g) {
        SomeoneComes(st, run, g);
        var t :| t in Staff(now) && !now.threads[t].pc.Blocked?;
        assert Stirs(now, t);
      }
    }
  }
}
