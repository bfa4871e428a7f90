/** One or two domains and nobody outside: no mail is stranded, however many workers there
    are, and even if gets are fooled.

    What is behind it: a domain that has mail and is in the run queue always has a loyal
    worker, one that comes for it before it sleeps in the other domain or ends.  When the
    other domain comes first, and so may take one worker away, there are two. */
module WakeupPair {
  import opened Wakeup
  import opened WakeupRuns
  import opened WakeupStaff
  import opened Seqs

  /** The worker has taken its domain and has not sent anything since: it may sleep there. */
  predicate Silent(pc: Pc) {
    Holds(pc) && !(pc.Flush? && pc.served > 0) && !pc.Finished? && !pc.Putting?
  }

  /** Node n comes before domain g in the run queue. */
  predicate Before(st: State, n: QueueNode, g: Gid) {
    exists j :: 0 <= j < |st.queue| && st.queue[j] == g
                && match n
                   case Divide => st.divider.Behind? && st.divider.ahead <= j
                   case DomainNode(x) => exists i :: 0 <= i < j && st.queue[i] == x
  }

  /** A get that has read node n as the head does not return NULL before domain g has been
      taken, or, if that is not in the run queue, will not when it comes there. */
  predicate Steady(st: State, n: QueueNode, end: bool, g: Gid) {
    if g in st.queue then
      if n == DomainNode(g) then !end && FirstNode(st) == n && LastNode(st) != n
      else end ==> !Before(st, n, g)
    else n != DomainNode(g) && !end && !Ends(st, n)
  }

  predicate Loyal(st: State, g: Gid, t: Tid) {
    && t < |st.threads|
    && var pc := st.threads[t].pc;
    && match pc
       case Idle => true
       case Lifting => true
       case Reading(n, _, end) => Steady(st, n, end, g)
       case _ => Holds(pc) && pc.gid != g && !Silent(pc)
  }

  ghost predicate OneLoyal(st: State, g: Gid) {
    exists t :: Loyal(st, g, t)
  }

  ghost predicate TwoLoyal(st: State, g: Gid) {
    exists t, u :: t != u && Loyal(st, g, t) && Loyal(st, g, u)
  }

  /** A worker has the domain, and has taken over the mail that was there. */
  predicate TakenOver(st: State, g: Gid)
    requires g < |st.doms|
  {
    st.doms[g].place.Held? && st.doms[g].place.t < |st.threads|
    && !st.threads[st.doms[g].place.t].pc.Took? && !st.threads[st.doms[g].place.t].pc.Fresh?
  }

  ghost predicate Tended(st: State, g: Gid)
    requires g < |st.doms|
  {
    st.doms[g].remote != [] ==>
      && (g in st.queue ==> OneLoyal(st, g) && (st.queue[0] != g ==> TwoLoyal(st, g)))
      && (TakenOver(st, g) && st.queue != [] ==> OneLoyal(st, g))
  }

  ghost predicate PairRight(st: State) {
    && |st.doms| <= 2
    && (forall t | 0 <= t < |st.threads| :: !st.threads[t].pc.Outside?)
    && forall g | 0 <= g < |st.doms| :: Tended(st, g)
  }

  ghost predicate Base(st: State) {
    Exclusive(st) && SingleHungry(st) && DividerRight(st) && |st.doms| <= 2
  }

  lemma ShortQueue(st: State)
    requires Exclusive(st) && |st.doms| <= 2
    ensures |st.queue| <= 2
    ensures forall g | 0 <= g < |st.doms| && g !in st.queue :: |st.queue| <= 1
    ensures forall g, h | 0 <= g < h < |st.doms| && g !in st.queue && h !in st.queue :: st.queue == []
  {
    var q := st.queue;
    assert forall i | 0 <= i < |q| :: q[i] in q && q[i] < 2;
    SizeOfElements(q);
    SubsetSize(Elements(q), {0, 1});
    forall g | 0 <= g < |st.doms| && g !in q ensures |q| <= 1 {
      SubsetSize(Elements(q), {0, 1} - {g});
      assert |{0, 1} - {g}| == 1;
    }
    forall g, h | 0 <= g < h < |st.doms| && g !in q && h !in q ensures q == [] {
      SubsetSize(Elements(q), {0, 1} - {g, h});
    }
  }

  // The loyalty of the other workers

  /** Steps that write to a link of the run queue. */
  predicate Links(step: Step) {
    step.Take? || step.Lift? || step.PutBack? || step.Return? || step.LinkIn?
  }

  lemma SameLinks(st: State, t: Tid, step: Step)
    requires Enabled(st, t, step) && !Links(step)
    ensures var st' := Next(st, t, step);
            st'.queue == st.queue && st'.divider == st.divider && forall x :: BeingPut(st', x) <==> BeingPut(st, x)
  {
    var st' := Next(st, t, step);
    OtherThreads(st, t, step);
    assert st'.threads[t].pc.Putting? <==> st.threads[t].pc.Putting?;
    assert st.threads[t].pc.Putting? ==> st'.threads[t].pc == st.threads[t].pc;
  }

  lemma SteadySame(st: State, st': State, g: Gid, n: QueueNode, end: bool)
    requires st'.queue == st.queue && st'.divider == st.divider && forall x :: BeingPut(st', x) <==> BeingPut(st, x)
    ensures Steady(st', n, end, g) == Steady(st, n, end, g)
  {
  }

  lemma SteadyTake(st: State, t: Tid, g: Gid, n: QueueNode, end: bool)
    requires Base(st) && Enabled(st, t, Take) && (g in st.queue <==> g in Next(st, t, Take).queue) && Steady(st, n, end, g)
    ensures Steady(Next(st, t, Take), n, end, g)
  {
  }

  lemma SteadyQueued(st: State, t: Tid, step: Step, g: Gid, n: QueueNode, end: bool)
    requires Base(st) && Enabled(st, t, step) && Links(step) && !step.Take? && g in st.queue && Steady(st, n, end, g)
    ensures Steady(Next(st, t, step), n, end, g)
  {
  }

  /** So it does when the domain is linked in. */
  lemma SteadyLinked(st: State, t: Tid, g: Gid, n: QueueNode, end: bool)
    requires Base(st) && Enabled(st, t, LinkIn) && g !in st.queue && g in Next(st, t, LinkIn).queue && Steady(st, n, end, g)
    ensures Steady(Next(st, t, LinkIn), n, end, g)
  {
  }

  /** While the domain is away, who brings the node of the get to the end is loyal. */
  lemma SteadyAway(st: State, t: Tid, step: Step, g: Gid, n: QueueNode, end: bool)
    requires Base(st) && Enabled(st, t, step) && Links(step) && !step.Take?
    requires g !in st.queue && g !in Next(st, t, step).queue && Steady(st, n, end, g)
    ensures Steady(Next(st, t, step), n, end, g) || Loyal(Next(st, t, step), g, t)
  {
  }

  /** A get stays steady, or the one that moves is loyal. */
  lemma SteadyKept(st: State, t: Tid, step: Step, g: Gid, n: QueueNode, end: bool)
    requires Base(st) && Enabled(st, t, step) && Stays(st, t, step, g) && Steady(st, n, end, g)
    ensures var st' := Next(st, t, step);
            Steady(st', n, end, g) || (g !in st'.queue && Loyal(st', g, t))
  {
    if !Links(step) {
      SameLinks(st, t, step);
      SteadySame(st, Next(st, t, step), g, n, end);
    } else if step.Take? {
      SteadyTake(st, t, g, n, end);
    } else if g in st.queue {
      SteadyQueued(st, t, step, g, n, end);
    } else if g in Next(st, t, step).queue {
      assert step.LinkIn?;
      SteadyLinked(st, t, g, n, end);
    } else {
      SteadyAway(st, t, step, g, n, end);
    }
  }

  predicate Stays(st: State, t: Tid, step: Step, g: Gid)
    requires Enabled(st, t, step)
  {
    g in st.queue ==> g in Next(st, t, step).queue
  }

  /** Another worker stays loyal, or the one that moves takes its place. */
  lemma OtherLoyal(st: State, t: Tid, step: Step, g: Gid, u: Tid)
    requires Base(st) && Enabled(st, t, step) && Stays(st, t, step, g) && u != t && Loyal(st, g, u)
    ensures var st' := Next(st, t, step);
            Loyal(st', g, u) || (g !in st'.queue && Loyal(st', g, t))
  {
    OtherThreads(st, t, step);
    var pc := st.threads[u].pc;
    if pc.Reading? {
      SteadyKept(st, t, step, g, pc.node, pc.end);
    }
    hide Next, Steady, Base;
  }

  // The loyalty of the worker that moves

  lemma LifterLoyal(st: State, t: Tid, step: Step, g: Gid)
    requires Base(st) && Enabled(st, t, step) && !step.PutBack? && st.divider.Away?
    ensures OneLoyal(Next(st, t, step), g)
  {
    var u :| 0 <= u < |st.threads| && st.threads[u].pc.Lifting?;
    OtherThreads(st, t, step);
    assert Loyal(Next(st, t, step), g, u);
  }

  /** A worker that reads the head keeps loyal, unless the node is alone. */
  lemma ReadLoyal(st: State, t: Tid, g: Gid)
    requires Base(st) && Enabled(st, t, Read) && g < |st.doms| && st.queue != []
    requires g in st.queue || !st.divider.Away?
    ensures Loyal(Next(st, t, Read), g, t) || (st.divider.Away? && st.queue == [g])
  {
  }

  lemma ReaderLoyal(st: State, t: Tid, g: Gid)
    requires Base(st) && Enabled(st, t, Read) && g < |st.doms| && st.queue != []
    ensures OneLoyal(Next(st, t, Read), g)
    ensures st.queue[0] != g && g in st.queue ==> Loyal(Next(st, t, Read), g, t)
  {
    if st.divider.Away? {
      LifterLoyal(st, t, Read, g);
    }
    if g in st.queue || !st.divider.Away? {
      ReadLoyal(st, t, g);
      assert Loyal(Next(st, t, Read), g, t) ==> OneLoyal(Next(st, t, Read), g);
    }
  }

  /** A worker that has sent something puts the domain back. */
  lemma SenderLoyal(st: State, t: Tid, step: Step, g: Gid)
    requires Enabled(st, t, step) && Loyal(st, g, t) && Holds(st.threads[t].pc) && SingleHungryAt(st, t)
    ensures Loyal(Next(st, t, step), g, t)
  {
  }

  lemma SeeEndLoyal(st: State, t: Tid, g: Gid)
    requires Base(st) && Enabled(st, t, SeeEnd) && g < |st.doms| && Loyal(st, g, t)
    ensures Loyal(Next(st, t, SeeEnd), g, t)
  {
  }

  lemma LeaveDisloyal(st: State, t: Tid, g: Gid)
    requires Base(st) && Enabled(st, t, Leave) && g < |st.doms|
    ensures !Loyal(st, g, t)
  {
  }

  /** The other steps of a loyal worker but taking a domain. */
  lemma OwnOther(st: State, t: Tid, step: Step, g: Gid)
    requires Base(st) && Enabled(st, t, step) && Stays(st, t, step, g) && g < |st.doms| && Loyal(st, g, t)
    requires !step.Read? && !step.Take?
    ensures Loyal(Next(st, t, step), g, t)
  {
    var pc := st.threads[t].pc;
    assert SingleHungryAt(st, t);
    if Holds(pc) {
      SenderLoyal(st, t, step, g);
    } else if step.SeeEnd? {
      SeeEndLoyal(st, t, g);
    } else if step.Leave? {
      LeaveDisloyal(st, t, g);
    } else if step.Look? || step.Poke? {
      SameLinks(st, t, step);
      if pc.Reading? {
        SteadySame(st, Next(st, t, step), g, pc.node, pc.end);
      }
      hide Steady;
    } else {
      hide Steady, Base;
    }
  }

  // Every step

  lemma LoyalKept(st: State, t: Tid, step: Step, g: Gid, u: Tid)
    requires Base(st) && Enabled(st, t, step) && Stays(st, t, step, g) && g < |st.doms| && Loyal(st, g, u)
    requires u == t ==> !step.Take? && (step.Read? ==> st.queue != [])
    ensures OneLoyal(Next(st, t, step), g)
  {
    if u != t {
      OtherLoyal(st, t, step, g, u);
    } else if step.Read? {
      ReaderLoyal(st, t, g);
    } else {
      OwnOther(st, t, step, g);
    }
    hide Next, Loyal;
  }

  /** With two loyal workers one is loyal after any step. */
  lemma TwoGiveOne(st: State, t: Tid, step: Step, g: Gid)
    requires Base(st) && Enabled(st, t, step) && Stays(st, t, step, g) && g < |st.doms| && TwoLoyal(st, g)
    ensures OneLoyal(Next(st, t, step), g)
  {
    var u, v :| u != v && Loyal(st, g, u) && Loyal(st, g, v);
    if u != t {
      LoyalKept(st, t, step, g, u);
    } else {
      LoyalKept(st, t, step, g, v);
    }
  }

  /** And two after a step that takes no domain. */
  lemma TwoKept(st: State, t: Tid, step: Step, g: Gid)
    requires Base(st) && Enabled(st, t, step) && !step.Take? && g < |st.doms| && TwoLoyal(st, g)
    requires g in st.queue && g in Next(st, t, step).queue && st.queue[0] != g
    ensures TwoLoyal(Next(st, t, step), g)
  {
    var u, v :| u != v && Loyal(st, g, u) && Loyal(st, g, v);
    forall w | w == u || w == v ensures Loyal(Next(st, t, step), g, w) {
      if w != t {
        OtherLoyal(st, t, step, g, w);
      } else if step.Read? {
        ReaderLoyal(st, t, g);
      } else {
        OwnOther(st, t, step, g);
      }
    }
    assert Loyal(Next(st, t, step), g, u) && Loyal(Next(st, t, step), g, v);
  }

  /** A domain that is linked in with mail: its worker comes for it, and another one if the
      other domain comes first. */
  lemma LinkedTended(st: State, t: Tid, g: Gid)
    requires Base(st) && Enabled(st, t, LinkIn) && g < |st.doms| && st.threads[t].pc.gid == g && Tended(st, g)
    ensures Tended(Next(st, t, LinkIn), g)
  {
    var st' := Next(st, t, LinkIn);
    assert Loyal(st', g, t);
    assert g !in st.queue;
    if st.doms[g].remote != [] && st.queue != [] {
      assert TakenOver(st, g);
      var u :| Loyal(st, g, u);
      assert u != t;
      OtherLoyal(st, t, LinkIn, g, u);
    }
  }

  lemma FrontStays(st: State, t: Tid, step: Step, g: Gid)
    requires Base(st) && Enabled(st, t, step) && g in st.queue && g in Next(st, t, step).queue
    ensures var st' := Next(st, t, step);
            && (st.queue[0] == g || step.Take? ==> st'.queue[0] == g) && (step.Take? ==> st.queue[0] != g)
            && g < |st.doms| && g < |st'.doms| && st'.doms[g].place == Queued
            && (st'.doms[g].remote == st.doms[g].remote || (step.Append? && step.victim == g))
  {
    ShortQueue(st);
  }

  /** A worker that sends to an enqueued domain is loyal to it, and that is the only one
      enqueued. */
  lemma SentTended(st: State, t: Tid, g: Gid, msgs: seq<Msg>)
    requires Base(st) && Enabled(st, t, Append(g, msgs)) && g in st.queue && !st.threads[t].pc.Outside?
    ensures OneLoyal(Next(st, t, Append(g, msgs)), g) && st.queue[0] == g
  {
    ShortQueue(st);
    assert st.threads[t].pc.gid !in st.queue;
    assert Loyal(Next(st, t, Append(g, msgs)), g, t);
  }

  /** A domain that stays in the run queue. */
  lemma QueuedTended(st: State, t: Tid, step: Step, g: Gid)
    requires Base(st) && Enabled(st, t, step) && g < |st.doms| && Tended(st, g) && !st.threads[t].pc.Outside?
    requires g in st.queue && g in Next(st, t, step).queue
    ensures Tended(Next(st, t, step), g)
  {
    FrontStays(st, t, step, g);
    if step.Append? && step.victim == g {
      SentTended(st, t, g, step.msgs);
    } else if st.doms[g].remote != [] {
      if st.queue[0] != g {
        TwoGiveOne(st, t, step, g);
        if !step.Take? {
          TwoKept(st, t, step, g);
        }
      } else {
        var u :| Loyal(st, g, u);
        LoyalKept(st, t, step, g, u);
      }
    }
    hide Next, Loyal, Base;
  }

  lemma TakeEmpties(st: State, t: Tid, g: Gid)
    requires Base(st) && Enabled(st, t, Take) && g < |st.doms| && g !in Next(st, t, Take).queue
    ensures !TakenOver(Next(st, t, Take), g) || Next(st, t, Take).queue == []
  {
    ShortQueue(st);
    var st' := Next(st, t, Take);
    assert st.queue == [st.queue[0]] + st'.queue;
    if g == st.queue[0] {
      assert st'.doms[g].place == Held(t) && st'.threads[t].pc.Took?;
    } else {
      assert g !in st.queue;
      assert |st.queue| <= 1;
    }
  }

  lemma TakenOverBefore(st: State, t: Tid, step: Step, g: Gid)
    requires Base(st) && Enabled(st, t, step) && g < |st.doms| && !step.Take?
    requires TakenOver(Next(st, t, step), g) && Next(st, t, step).doms[g].remote != []
    ensures TakenOver(st, g) && g !in st.queue
  {
    assert Accounted(st, g);
    OtherThreads(st, t, step);
    PlaceStays(st, t, step, g);
    if st.doms[g].place == Held(t) {
      OwnTakenOver(st, t, step, g);
    }
    hide Next;
  }

  lemma PlaceStays(st: State, t: Tid, step: Step, g: Gid)
    requires Base(st) && Enabled(st, t, step) && g < |st.doms| && !step.Take? && Next(st, t, step).doms[g].place.Held?
    ensures st.doms[g].place == Next(st, t, step).doms[g].place
  {
  }

  lemma OwnTakenOver(st: State, t: Tid, step: Step, g: Gid)
    requires Base(st) && Enabled(st, t, step) && g < |st.doms| && !step.Take? && st.doms[g].place == Held(t)
    requires TakenOver(Next(st, t, step), g) && Next(st, t, step).doms[g].remote != [] && Next(st, t, step).doms[g].place == Held(t)
    ensures TakenOver(st, g)
  {
    assert Accounted(st, g);
    hide Base, Exclusive;
  }

  /** While the domain is away. */
  lemma AwayFacts(st: State, t: Tid, step: Step, g: Gid)
    requires Base(st) && Enabled(st, t, step) && g < |st.doms| && !st.threads[t].pc.Outside? && !step.Take?
    requires g !in Next(st, t, step).queue && Next(st, t, step).queue != [] && TakenOver(st, g) && g !in st.queue
    requires Next(st, t, step).doms[g].remote != []
    ensures st.doms[g].remote != []
    ensures st.queue != [] || (step.LinkIn? && st.threads[t].pc.gid != g)
  {
    hide Next;
    if step.Append? && step.victim == g {
      HolderAlone(st, t, g);
    }
    RemoteBefore(st, t, step, g);
    QueueGains(st, t, step);
  }

  /** With g away and another domain held there is none to be enqueued. */
  lemma HolderAlone(st: State, t: Tid, g: Gid)
    requires Base(st) && t < |st.threads| && g < |st.doms| && g !in st.queue
    requires Holds(st.threads[t].pc) && st.threads[t].pc.gid != g
    ensures st.queue == []
  {
    ShortQueue(st);
    var h := st.threads[t].pc.gid;
    assert st.doms[h].place == Held(t) && h !in st.queue;
    assert g < h || h < g;
  }

  lemma RemoteBefore(st: State, t: Tid, step: Step, g: Gid)
    requires Enabled(st, t, step) && g < |st.doms| && Next(st, t, step).doms[g].remote != []
    ensures st.doms[g].remote != [] || (step.Append? && step.victim == g)
  {
  }

  lemma QueueGains(st: State, t: Tid, step: Step)
    requires Enabled(st, t, step) && !step.Take?
    ensures Next(st, t, step).queue == if step.LinkIn? then st.queue + [st.threads[t].pc.gid] else st.queue
  {
  }

  lemma AwayTended(st: State, t: Tid, step: Step, g: Gid)
    requires Base(st) && Enabled(st, t, step) && g < |st.doms| && Tended(st, g) && !st.threads[t].pc.Outside?
    requires g !in Next(st, t, step).queue
    ensures g < |Next(st, t, step).doms| && Tended(Next(st, t, step), g)
  {
    var st' := Next(st, t, step);
    if TakenOver(st', g) && st'.queue != [] && st'.doms[g].remote != [] {
      if step.Take? {
        TakeEmpties(st, t, g);
      }
      TakenOverBefore(st, t, step, g);
      AwayFacts(st, t, step, g);
      if st.queue == [] {
        assert Loyal(st', g, t);
      } else {
        var u :| Loyal(st, g, u);
        LoyalKept(st, t, step, g, u);
      }
    }
  }

  lemma TendedKept(st: State, t: Tid, step: Step, g: Gid)
    requires Base(st) && Enabled(st, t, step) && g < |st.doms| && Tended(st, g) && !st.threads[t].pc.Outside?
    ensures g < |Next(st, t, step).doms| && Tended(Next(st, t, step), g)
  {
    if g in Next(st, t, step).queue {
      if g in st.queue {
        FrontStays(st, t, step, g);
        QueuedTended(st, t, step, g);
      } else {
        assert step.LinkIn? && st.threads[t].pc.gid == g;
        LinkedTended(st, t, g);
      }
    } else {
      AwayTended(st, t, step, g);
    }
  }

  // Every run

  lemma {:induction false} PairRun(st: State, run: seq<Move>)
    requires PairRight(st) && Inv(st) && DividerRight(st) && EnabledAll(st, run)
    ensures PairRight(After(st, run)) && Inv(After(st, run))
    decreases |run|
  {
    if run != [] {
      var t, step := run[0].t, run[0].step;
      var st' := Next(st, t, step);
      NextInv(st, t, step);
      DividerKept(st, t, step);
      OtherThreads(st, t, step);
      PairStep(st, t, step);
      hide Inv, DividerRight, PairRight, Next, Enabled;
      PairRun(st', run[1..]);
    }
  }

  lemma PairStep(st: State, t: Tid, step: Step)
    requires PairRight(st) && Inv(st) && DividerRight(st) && Enabled(st, t, step)
    ensures PairRight(Next(st, t, step))
  {
    OtherThreads(st, t, step);
    HungryStep(st, t, step);
    NotOutside(st, t, step);
    assert Base(st);
    hide Inv, Next, Tended, Base, Enabled;
    forall g | 0 <= g < |Next(st, t, step).doms| ensures Tended(Next(st, t, step), g) {
      TendedKept(st, t, step, g);
    }
  }

  lemma NotOutside(st: State, t: Tid, step: Step)
    requires Enabled(st, t, step) && !st.threads[t].pc.Outside?
    ensures !Next(st, t, step).threads[t].pc.Outside?
  {
  }

  /** A loyal worker is awake. */
  lemma LoyalStirs(st: State, g: Gid)
    requires Waits(st, g) && Tended(st, g)
    ensures !Stranded(st)
  {
    var t :| Loyal(st, g, t);
    assert Stirs(st, t);
  }

  /** No run of any number of workers on one or two domains leaves mail stranded. */
  lemma PairNeverStrands(st: State, run: seq<Move>)
    requires Init(st) && HungryAtMost(st, 1) && |st.doms| <= 2 && EnabledAll(st, run)
    requires forall t | 0 <= t < |st.threads| :: !st.threads[t].pc.Outside?
    ensures !Stranded(After(st, run))
  {
    InitInv(st);
    assert PairRight(st);
    PairRun(st, run);
    var now := After(st, run);
    hide Inv, Init;
    if g :| Waits(now, g) {
      LoyalStirs(now, g);
    }
  }
}
