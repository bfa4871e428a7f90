/** Workers, the run queue of domains and the wake pipe: what keeps a message from
    waiting for a domain that sleeps.

    A sender does not wake a domain that is in the run queue: a worker that looks there
    will run it.  It tells by the `next` field of the domain's queue head, which is the
    poison value just when the domain is not enqueued; `msqueue_is_enqueued` says 1 for
    the poison.  The field changes a moment before the domain is linked into the queue and
    a moment after it is unlinked, and the sender looks a moment after it has appended:
    all these are steps of their own here.

    Of `msqueue_get` the model keeps what module MsQueue says of it.  It takes the first
    domain; it lifts the divider off when that comes first and puts it back at the end, in
    two steps.  It returns NULL when it has read the head, then found that node to be the
    tail and its link to be NULL, and then finds it to be the head again.  That can be so
    because nothing has changed since, but also because the node was taken, put back at
    the end, and has come to the front again: only the stamp of the head word tells.
    Module WakeupQueue shows that the queue of module MsQueue does nothing else. */
module Wakeup {
  type Gid = nat
  type Tid = nat
  type Msg = nat

  const PIPE_CAPACITY := 65536
  const READ_SIZE := 32

  /** A node of the run queue: the divider, or a domain. */
  datatype QueueNode = Divide | DomainNode(gid: Gid)

  /** Where a thread is.  Reading: in a get that has read the head, and the stamp of the head
      word; `end`: it then was at the end of the queue.  Run1 is the first `domain_run` of `worker_domain_run`, after
      its splice; Run2 the one for a hungry process; Flush the `send_flush_outbox` at the
      end of a run, with the number of domains served so far.  `left`: hungry processes
      that still get a run of their own. */
  datatype Pc =
    | Outside
    | Idle
    | Reading(node: QueueNode, seen: nat, end: bool)
    | Lifting
    | Quit
    | Took(gid: Gid)
    | Fresh(gid: Gid)
    | Run1(gid: Gid)
    | Flush(gid: Gid, second: bool, served: nat, left: nat)
    | Ready(gid: Gid, left: nat)
    | Run2(gid: Gid, left: nat)
    | Blocked(gid: Gid, left: nat)
    | Woken(gid: Gid, left: nat)
    | Finished(gid: Gid)
    | Putting(gid: Gid)

  /** What a sender still has to do for the domain it has appended to. */
  datatype Owed = Nothing | Check(gid: Gid) | Write(gid: Gid)

  datatype Thread = Thread(pc: Pc, owed: Owed)

  /** Who has a domain. */
  datatype Place = Queued | Held(t: Tid) | Retired

  /** A domain: is `next` the poison value, its inboxes, the bytes in its wake pipe, how
      many hungry processes it has, has it any process. */
  datatype Dom = Dom(poison: bool, remote: seq<Msg>, local: seq<Msg>, pipe: nat, hungry: nat, alive: bool, place: Place)

  /** The divider of the run queue: behind so many domains, or in the hands of a get. */
  datatype Divider = Behind(ahead: nat) | Away

  /** `stamp` counts the writes to the head word of the run queue. */
  datatype State = State(queue: seq<Gid>, divider: Divider, stamp: nat, threads: seq<Thread>, doms: seq<Dom>)

  datatype Step =
    | Join
    | Lift
    | PutBack
    | Take
    | Read
    | SeeEnd
    | Retry
    | Leave
    | Poison
    | Splice
    | Consume(hungry: nat, alive: bool)
    | StartFlush
    | Append(victim: Gid, msgs: seq<Msg>)
    | Look
    | Poke
    | EndFlush
    | Block
    | Wake(readPipe: bool)
    | Return
    | LinkIn

  predicate Holds(pc: Pc) {
    !pc.Outside? && !pc.Idle? && !pc.Reading? && !pc.Lifting? && !pc.Quit?
  }

  // The nodes of the run queue

  predicate NotEmpty(st: State) {
    st.queue != [] || st.divider.Behind?
  }

  function FirstNode(st: State): QueueNode
    requires NotEmpty(st)
  {
    if st.queue == [] || st.divider == Behind(0) then Divide else DomainNode(st.queue[0])
  }

  function LastNode(st: State): QueueNode
    requires NotEmpty(st)
  {
    if st.queue == [] || st.divider == Behind(|st.queue|) then Divide else DomainNode(st.queue[|st.queue| - 1])
  }

  predicate BeingPut(st: State, g: Gid) {
    exists t :: 0 <= t < |st.threads| && st.threads[t].pc == Putting(g)
  }

  /** The link of the node is NULL: it is the last one, or on its way back. */
  predicate Ends(st: State, n: QueueNode) {
    || (NotEmpty(st) && LastNode(st) == n)
    || (n.Divide? && st.divider.Away?)
    || (n.DomainNode? && BeingPut(st, n.gid))
  }

  predicate Exists(st: State, pc: Pc) {
    Holds(pc) ==> pc.gid < |st.doms|
  }

  function Min(a: nat, b: nat): nat {
    if a < b then a else b
  }

  predicate Enabled(st: State, t: Tid, step: Step) {
    && t < |st.threads|
    && var th := st.threads[t];
    && Exists(st, th.pc)
    && (th.owed != Nothing ==> (step.Look? || step.Poke?) && th.owed.gid < |st.doms|)
    && match step
       case Join => th.pc.Outside?
       case Lift => th.pc.Idle? && st.divider == Behind(0) && st.queue != []
       case PutBack => th.pc.Lifting?
       case Take =>
         && th.pc.Idle? && st.queue != [] && st.queue[0] < |st.doms|
         && if st.divider.Away? then |st.queue| >= 2 else st.divider.ahead > 0
       case Read => th.pc.Idle? && NotEmpty(st)
       case SeeEnd => th.pc.Reading? && Ends(st, th.pc.node)
       case Retry => th.pc.Reading?
       case Leave => th.pc.Reading? && th.pc.end && NotEmpty(st) && FirstNode(st) == th.pc.node
       case Poison => th.pc.Took?
       case Splice => th.pc.Fresh? || th.pc.Ready?
       case Consume(hungry, _) => (th.pc.Run1? || th.pc.Woken?) && st.doms[th.pc.gid].local != [] && hungry <= st.doms[th.pc.gid].hungry
       case StartFlush => (th.pc.Run1? || th.pc.Woken?) && st.doms[th.pc.gid].local == []
       case Append(v, msgs) => (th.pc.Outside? || (th.pc.Flush? && v != th.pc.gid)) && v < |st.doms| && msgs != []
       case Look => th.owed.Check?
       case Poke => th.owed.Write?
       case EndFlush => th.pc.Flush?
       case Block => th.pc.Run2?
       case Wake(_) => th.pc.Blocked?
       case Return => th.pc.Finished?
       case LinkIn => th.pc.Putting?
  }

  function Goto(st: State, t: Tid, pc: Pc): State
    requires t < |st.threads|
  {
    st.(threads := st.threads[t := st.threads[t].(pc := pc)])
  }

  function Owe(st: State, t: Tid, owed: Owed): State
    requires t < |st.threads|
  {
    st.(threads := st.threads[t := st.threads[t].(owed := owed)])
  }

  function Set(st: State, g: Gid, d: Dom): State
    requires g < |st.doms|
  {
    st.(doms := st.doms[g := d])
  }

  /** The first domain has gone. */
  function Passed(divider: Divider): Divider {
    if divider.Away? || divider.ahead == 0 then divider else Behind(divider.ahead - 1)
  }

  function Next(st: State, t: Tid, step: Step): State
    requires Enabled(st, t, step)
  {
    var th := st.threads[t];
    var pc := th.pc;
    match step
    // msock_base_loop: the main thread works too
    case Join => Goto(st, t, Idle)
    // msqueue_get: unlink the divider, put it back at the end, and go on
    case Lift => Goto(st, t, Lifting).(divider := Away, stamp := st.stamp + 1)
    case PutBack => Goto(st, t, Idle).(divider := Behind(|st.queue|))
    // msqueue_get: unlink the first domain
    case Take =>
      var g := st.queue[0];
      Set(Goto(st, t, Took(g)).(queue := st.queue[1..], divider := Passed(st.divider), stamp := st.stamp + 1), g, st.doms[g].(place := Held(t)))
    // msqueue_get: read the head, see that it has no successor, find it there again, and
    // return NULL, which ends the worker
    case Read => Goto(st, t, Reading(FirstNode(st), st.stamp, false))
    case SeeEnd => Goto(st, t, pc.(end := true))
    case Retry => Goto(st, t, Idle)
    case Leave => Goto(st, t, Quit)
    // msqueue_get: then mark it as taken
    case Poison => Set(Goto(st, t, Fresh(pc.gid)), pc.gid, st.doms[pc.gid].(poison := true))
    // domain_run: take over the remote inbox
    case Splice =>
      var d := st.doms[pc.gid];
      Set(Goto(st, t, if pc.Fresh? then Run1(pc.gid) else Run2(pc.gid, pc.left)), pc.gid, d.(local := d.local + d.remote, remote := []))
    // dispatch a message and let the processes have it; only engines start hungry ones
    case Consume(hungry, alive) =>
      var d := st.doms[pc.gid];
      Set(st, pc.gid, d.(local := d.local[1..], hungry := hungry, alive := alive))
    case StartFlush => Goto(st, t, Flush(pc.gid, pc.Woken?, 0, if pc.Woken? then pc.left else 0))
    // send_flush_outbox: append under the inbox lock, look at the victim, poke it
    case Append(v, msgs) =>
      var moved := if pc.Flush? then Goto(st, t, pc.(served := pc.served + 1)) else st;
      Set(Owe(moved, t, Check(v)), v, st.doms[v].(remote := st.doms[v].remote + msgs))
    case Look => Owe(st, t, if st.doms[th.owed.gid].poison then Write(th.owed.gid) else Nothing)
    case Poke =>
      var d := st.doms[th.owed.gid];
      Set(Owe(st, t, Nothing), th.owed.gid, d.(pipe := Min(d.pipe + 1, PIPE_CAPACITY)))
    // worker_domain_run: nothing sent and hungry processes: a run for each
    case EndFlush =>
      var hungry := st.doms[pc.gid].hungry;
      Goto(st, t,
        if !pc.second && pc.served == 0 && hungry > 0 then Ready(pc.gid, hungry - 1)
        else if pc.second && pc.left > 0 then Ready(pc.gid, pc.left - 1)
        else Finished(pc.gid))
    // epoll_wait, then a read if the pipe is among the events
    case Block => Goto(st, t, Blocked(pc.gid, pc.left))
    case Wake(readPipe) =>
      var d := st.doms[pc.gid];
      Set(Goto(st, t, Woken(pc.gid, pc.left)), pc.gid, if readPipe then d.(pipe := d.pipe - Min(READ_SIZE, d.pipe)) else d)
    // worker_loop: msqueue_put in two steps, or never run it again
    case Return =>
      var d := st.doms[pc.gid];
      if d.alive then Set(Goto(st, t, Putting(pc.gid)), pc.gid, d.(poison := false))
      else Set(Goto(st, t, Idle), pc.gid, d.(place := Retired))
    case LinkIn =>
      Set(Goto(st, t, Idle).(queue := st.queue + [pc.gid]), pc.gid, st.doms[pc.gid].(place := Queued))
  }

  /** Every domain is in one place: in the queue, once, or with one worker, or retired. */
  ghost predicate Exclusive(st: State) {
    && (forall i, j | 0 <= i < j < |st.queue| :: st.queue[i] != st.queue[j])
    && (forall i | 0 <= i < |st.queue| :: st.queue[i] < |st.doms| && st.doms[st.queue[i]].place == Queued)
    && (forall t | 0 <= t < |st.threads| && Holds(st.threads[t].pc) ::
          st.threads[t].pc.gid < |st.doms| && st.doms[st.threads[t].pc.gid].place == Held(t))
    && (forall g | 0 <= g < |st.doms| :: Accounted(st, g))
  }

  ghost predicate Accounted(st: State, g: Gid)
    requires g < |st.doms|
  {
    match st.doms[g].place
    case Queued => g in st.queue
    case Held(t) => t < |st.threads| && Holds(st.threads[t].pc) && st.threads[t].pc.gid == g
    case Retired => true
  }

  predicate Marked(pc: Pc) {
    Holds(pc) && !pc.Took? && !pc.Putting?
  }

  /** The poison value says that a worker has the domain, from a moment after it took it. */
  predicate PoisonRight(st: State, g: Gid)
    requires g < |st.doms|
  {
    st.doms[g].poison <==>
      match st.doms[g].place
      case Queued => false
      case Held(t) => t < |st.threads| && Marked(st.threads[t].pc)
      case Retired => true
  }

  /** From its first splice of a round until it has slept, a worker relies on the pipe. */
  predicate Relies(pc: Pc) {
    pc.Run1? || (pc.Flush? && !pc.second) || pc.Ready? || pc.Run2? || pc.Blocked?
  }

  predicate Owes(th: Thread, g: Gid) {
    th.owed != Nothing && th.owed.gid == g
  }

  ghost predicate SomeoneOwes(st: State, g: Gid) {
    exists s :: 0 <= s < |st.threads| && Owes(st.threads[s], g)
  }

  /** Is a message waiting that the worker at pc will not see before it sleeps? */
  predicate Unseen(d: Dom, pc: Pc) {
    d.remote != [] || ((pc.Run2? || pc.Blocked?) && d.local != [])
  }

  ghost predicate Wakeable(st: State, t: Tid)
    requires t < |st.threads|
  {
    var pc := st.threads[t].pc;
    Relies(pc) && pc.gid < |st.doms| && Unseen(st.doms[pc.gid], pc) ==>
      st.doms[pc.gid].pipe > 0 || SomeoneOwes(st, pc.gid)
  }

  /** With one hungry process there is one second run. */
  predicate Single(pc: Pc) {
    (pc.Ready? || pc.Run2? || pc.Blocked? || pc.Woken? || pc.Flush?) ==> pc.left == 0
  }

  predicate SingleHungry(st: State) {
    && (forall g | 0 <= g < |st.doms| :: st.doms[g].hungry <= 1)
    && (forall t | 0 <= t < |st.threads| :: SingleHungryAt(st, t))
  }

  /** A worker runs a second time for a process that is hungry. */
  predicate SleepsHungry(st: State, pc: Pc) {
    (pc.Ready? || pc.Run2? || pc.Blocked?) && pc.gid < |st.doms| ==> st.doms[pc.gid].hungry > 0
  }

  predicate SingleHungryAt(st: State, t: Tid)
    requires t < |st.threads|
  {
    Single(st.threads[t].pc) && SleepsHungry(st, st.threads[t].pc)
  }

  /** Outside a run nothing is left in the local inbox. */
  predicate LocalDone(pc: Pc, d: Dom) {
    !(pc.Run1? || pc.Run2? || pc.Blocked? || pc.Woken?) ==> d.local == []
  }

  predicate LocalRight(st: State, g: Gid)
    requires g < |st.doms|
  {
    match st.doms[g].place
    case Held(t) => t < |st.threads| ==> LocalDone(st.threads[t].pc, st.doms[g])
    case _ => st.doms[g].local == []
  }

  predicate OwedRight(st: State, t: Tid)
    requires t < |st.threads|
  {
    st.threads[t].owed != Nothing ==> st.threads[t].owed.gid < |st.doms|
  }

  ghost predicate Inv(st: State) {
    && Exclusive(st)
    && (forall g | 0 <= g < |st.doms| :: PoisonRight(st, g) && LocalRight(st, g))
    && (forall t | 0 <= t < |st.threads| :: Wakeable(st, t) && OwedRight(st, t))
    && SingleHungry(st)
  }

  /** Neither the queue, nor who holds which domain, changes. */
  ghost predicate SameHolders(st: State, st': State) {
    && st'.queue == st.queue
    && |st'.threads| == |st.threads|
    && |st'.doms| == |st.doms|
    && (forall t | 0 <= t < |st.threads| :: Holding(st'.threads[t].pc) == Holding(st.threads[t].pc))
    && (forall g | 0 <= g < |st.doms| :: st'.doms[g].place == st.doms[g].place)
  }

  function Holding(pc: Pc): int {
    if Holds(pc) then pc.gid else -1
  }

  lemma SameHoldersExclusive(st: State, st': State)
    requires Exclusive(st) && SameHolders(st, st')
    ensures Exclusive(st')
  {
    forall t | 0 <= t < |st'.threads| && Holds(st'.threads[t].pc)
      ensures st'.threads[t].pc.gid < |st'.doms| && st'.doms[st'.threads[t].pc.gid].place == Held(t)
    {
      assert Holding(st'.threads[t].pc) == Holding(st.threads[t].pc);
    }
    forall g | 0 <= g < |st'.doms| ensures Accounted(st', g) {
      assert Accounted(st, g);
      if st.doms[g].place.Held? {
        var t := st.doms[g].place.t;
        assert Holding(st'.threads[t].pc) == Holding(st.threads[t].pc);
      }
    }
  }

  predicate Moves(step: Step) {
    step.Take? || step.Return? || step.LinkIn?
  }

  lemma OtherThreads(st: State, t: Tid, step: Step)
    requires Enabled(st, t, step)
    ensures |Next(st, t, step).threads| == |st.threads|
    ensures forall u | 0 <= u < |st.threads| && u != t :: Next(st, t, step).threads[u] == st.threads[u]
  {
  }

  lemma SamePlaces(st: State, t: Tid, step: Step)
    requires Enabled(st, t, step) && !Moves(step)
    ensures var st' := Next(st, t, step);
            && st'.queue == st.queue && |st'.doms| == |st.doms| && Holding(st'.threads[t].pc) == Holding(st.threads[t].pc)
            && forall g | 0 <= g < |st.doms| :: st'.doms[g].place == st.doms[g].place
  {
  }

  lemma StaysPut(st: State, t: Tid, step: Step)
    requires Enabled(st, t, step) && !Moves(step)
    ensures SameHolders(st, Next(st, t, step))
  {
    OtherThreads(st, t, step);
    SamePlaces(st, t, step);
    hide Next, Enabled;
  }

  lemma TakeExclusive(st: State, t: Tid)
    requires Exclusive(st) && Enabled(st, t, Take)
    ensures Exclusive(Next(st, t, Take))
  {
    var st' := Next(st, t, Take);
    forall g | 0 <= g < |st'.doms| ensures Accounted(st', g) {
      assert Accounted(st, g);
      if g in st.queue && g != st.queue[0] {
        assert g in st'.queue;
      }
    }
  }

  lemma ReturnExclusive(st: State, t: Tid)
    requires Exclusive(st) && Enabled(st, t, Return)
    ensures Exclusive(Next(st, t, Return))
  {
    var st' := Next(st, t, Return);
    if st.doms[st.threads[t].pc.gid].alive {
      assert SameHolders(st, st');
      hide Exclusive, Next;
      SameHoldersExclusive(st, st');
    } else {
      forall g | 0 <= g < |st'.doms| ensures Accounted(st', g) {
        assert Accounted(st, g);
      }
    }
  }

  lemma LinkInExclusive(st: State, t: Tid)
    requires Exclusive(st) && Enabled(st, t, LinkIn)
    ensures Exclusive(Next(st, t, LinkIn))
  {
    var st' := Next(st, t, LinkIn);
    forall g | 0 <= g < |st'.doms| ensures Accounted(st', g) {
      assert Accounted(st, g);
    }
  }

  lemma ExclusiveKept(st: State, t: Tid, step: Step)
    requires Exclusive(st) && Enabled(st, t, step)
    ensures Exclusive(Next(st, t, step))
  {
    if step.Take? {
      TakeExclusive(st, t);
    } else if step.Return? {
      ReturnExclusive(st, t);
    } else if step.LinkIn? {
      LinkInExclusive(st, t);
    } else {
      StaysPut(st, t, step);
      SameHoldersExclusive(st, Next(st, t, step));
    }
  }

  lemma PoisonMoved(st: State, t: Tid, step: Step, g: Gid)
    requires Exclusive(st) && Enabled(st, t, step) && g < |st.doms| && PoisonRight(st, g) && (Moves(step) || step.Poison?)
    ensures PoisonRight(Next(st, t, step), g)
  {
    assert Accounted(st, g);
  }

  lemma PoisonStays(st: State, t: Tid, step: Step, g: Gid)
    requires Enabled(st, t, step) && g < |st.doms| && PoisonRight(st, g) && !Moves(step) && !step.Poison?
    ensures PoisonRight(Next(st, t, step), g)
  {
    MarkStays(st, t, step);
    assert forall u | 0 <= u < |st.threads| && u != t :: Next(st, t, step).threads[u] == st.threads[u];
    assert |Next(st, t, step).threads| == |st.threads|;
    hide Next;
  }

  lemma PoisonKept(st: State, t: Tid, step: Step, g: Gid)
    requires Exclusive(st) && Enabled(st, t, step) && g < |st.doms| && PoisonRight(st, g)
    ensures PoisonRight(Next(st, t, step), g)
  {
    hide Exclusive, PoisonRight, Next;
    if Moves(step) || step.Poison? {
      PoisonMoved(st, t, step, g);
    } else {
      PoisonStays(st, t, step, g);
    }
  }

  /** Only taking, marking and giving back change what `next` should be. */
  lemma MarkStays(st: State, t: Tid, step: Step)
    requires Enabled(st, t, step) && !Moves(step) && !step.Poison?
    ensures Marked(Next(st, t, step).threads[t].pc) == Marked(st.threads[t].pc)
    ensures forall g | 0 <= g < |st.doms| :: Next(st, t, step).doms[g].poison == st.doms[g].poison && Next(st, t, step).doms[g].place == st.doms[g].place
    ensures |Next(st, t, step).doms| == |st.doms|
  {
  }

  lemma LocalOwn(st: State, t: Tid, step: Step, g: Gid)
    requires Exclusive(st) && Enabled(st, t, step) && g < |st.doms| && LocalRight(st, g)
    requires st.doms[g].place == Held(t)
    ensures LocalRight(Next(st, t, step), g)
  {
    assert Accounted(st, g);
    hide Exclusive;
  }

  lemma LocalOther(st: State, t: Tid, step: Step, g: Gid)
    requires Exclusive(st) && Enabled(st, t, step) && g < |st.doms| && LocalRight(st, g)
    requires st.doms[g].place != Held(t)
    ensures LocalRight(Next(st, t, step), g)
  {
    assert Accounted(st, g);
    assert Holds(st.threads[t].pc) ==> st.threads[t].pc.gid != g;
    hide Exclusive;
  }

  lemma LocalKept(st: State, t: Tid, step: Step, g: Gid)
    requires Exclusive(st) && Enabled(st, t, step) && g < |st.doms| && LocalRight(st, g)
    ensures LocalRight(Next(st, t, step), g)
  {
    hide Exclusive, LocalRight, Next;
    if st.doms[g].place == Held(t) {
      LocalOwn(st, t, step, g);
    } else {
      LocalOther(st, t, step, g);
    }
  }

  lemma OwesKept(st: State, t: Tid, step: Step, g: Gid)
    requires Enabled(st, t, step) && SomeoneOwes(st, g)
    requires !step.Look? && !step.Poke?
    ensures SomeoneOwes(Next(st, t, step), g)
  {
    var s :| 0 <= s < |st.threads| && Owes(st.threads[s], g);
    assert Owes(Next(st, t, step).threads[s], g);
  }

  /** Somebody else's debt is not paid by this step. */
  lemma OthersOwe(st: State, t: Tid, step: Step, g: Gid)
    requires Enabled(st, t, step) && SomeoneOwes(st, g) && !Owes(st.threads[t], g)
    ensures SomeoneOwes(Next(st, t, step), g)
  {
    var s :| 0 <= s < |st.threads| && Owes(st.threads[s], g);
    assert Owes(Next(st, t, step).threads[s], g);
  }

  /** A sender that has just appended looks next. */
  lemma AppendWakes(st: State, t: Tid, victim: Gid, msgs: seq<Msg>, u: Tid)
    requires Enabled(st, t, Append(victim, msgs)) && u < |st.threads| && Wakeable(st, u)
    ensures Wakeable(Next(st, t, Append(victim, msgs)), u)
  {
    var st' := Next(st, t, Append(victim, msgs));
    assert Owes(st'.threads[t], victim);
    var pc := st.threads[u].pc;
    if Relies(pc) && SomeoneOwes(st, pc.gid) {
      OwesKept(st, t, Append(victim, msgs), pc.gid);
    }
  }

  /** A sender that looks at a domain whose worker relies on the pipe sees the poison. */
  lemma LookWakes(st: State, t: Tid, u: Tid)
    requires Inv(st) && Enabled(st, t, Look) && u < |st.threads|
    ensures Wakeable(Next(st, t, Look), u)
  {
    var st' := Next(st, t, Look);
    var g := st.threads[t].owed.gid;
    var pc := st.threads[u].pc;
    assert Wakeable(st, u) && PoisonRight(st, g);
    if Relies(pc) {
      if pc.gid == g {
        assert Owes(st'.threads[t], g);
      } else if SomeoneOwes(st, pc.gid) {
        OthersOwe(st, t, Look, pc.gid);
      }
    }
  }

  lemma PokeWakes(st: State, t: Tid, u: Tid)
    requires Enabled(st, t, Poke) && u < |st.threads| && Wakeable(st, u)
    ensures Wakeable(Next(st, t, Poke), u)
  {
    var pc := st.threads[u].pc;
    if Relies(pc) && !Owes(st.threads[t], pc.gid) && SomeoneOwes(st, pc.gid) {
      OthersOwe(st, t, Poke, pc.gid);
    }
  }

  lemma WakeableKept(st: State, t: Tid, step: Step, u: Tid)
    requires Inv(st) && Enabled(st, t, step) && u < |st.threads|
    ensures Wakeable(Next(st, t, step), u)
  {
    assert Wakeable(st, u);
    match step {
      case Append(v, msgs) => AppendWakes(st, t, v, msgs, u);
      case Look => LookWakes(st, t, u);
      case Poke => PokeWakes(st, t, u);
      case _ =>
        if u == t { OwnStepWakes(st, t, step); } else { OtherStepWakes(st, t, step, u); }
    }
  }

  /** A worker's own other steps take no message out of its sight. */
  lemma OwnStepWakes(st: State, t: Tid, step: Step)
    requires Inv(st) && Enabled(st, t, step)
    requires !step.Append? && !step.Look? && !step.Poke?
    ensures Wakeable(Next(st, t, step), t)
  {
    hide Exclusive, PoisonRight, Accounted;
    var st' := Next(st, t, step);
    var pc := st'.threads[t].pc;
    assert Wakeable(st, t) && SingleHungryAt(st, t);
    if Relies(pc) && Unseen(st'.doms[pc.gid], pc) {
      assert Holding(st.threads[t].pc) == pc.gid;
      HeldLocal(st, t);
      if SomeoneOwes(st, pc.gid) {
        OwesKept(st, t, step, pc.gid);
      }
    }
  }

  lemma HeldLocal(st: State, t: Tid)
    requires Inv(st) && t < |st.threads| && Holds(st.threads[t].pc)
    ensures st.threads[t].pc.gid < |st.doms| && LocalDone(st.threads[t].pc, st.doms[st.threads[t].pc.gid])
  {
    assert LocalRight(st, st.threads[t].pc.gid);
  }

  /** Those of a worker that has another domain do not matter. */
  lemma OtherStepWakes(st: State, t: Tid, step: Step, u: Tid)
    requires Inv(st) && Enabled(st, t, step) && u < |st.threads| && u != t
    requires !step.Append? && !step.Look? && !step.Poke?
    ensures Wakeable(Next(st, t, step), u)
  {
    hide PoisonRight, LocalRight, Accounted;
    var pc := st.threads[u].pc;
    assert Wakeable(st, u);
    if Relies(pc) {
      OtherDomain(st, t, step, u);
      if SomeoneOwes(st, pc.gid) {
        OwesKept(st, t, step, pc.gid);
      }
    }
  }

  lemma OtherDomain(st: State, t: Tid, step: Step, u: Tid)
    requires Exclusive(st) && Enabled(st, t, step) && u < |st.threads| && u != t && Holds(st.threads[u].pc)
    requires !step.Append? && !step.Look? && !step.Poke?
    ensures Next(st, t, step).threads[u] == st.threads[u]
    ensures var g := st.threads[u].pc.gid; g < |st.doms| && Next(st, t, step).doms[g] == st.doms[g]
  {
  }

  /** No domain gets more hungry processes, and only a worker that runs a domain takes
      them from it. */
  lemma HungryStep(st: State, t: Tid, step: Step)
    requires Enabled(st, t, step)
    ensures var st' := Next(st, t, step);
            && |st'.doms| == |st.doms| && |st'.threads| == |st.threads|
            && (forall g | 0 <= g < |st.doms| :: st'.doms[g].hungry <= st.doms[g].hungry)
            && (forall g | 0 <= g < |st.doms| && (step.Consume? ==> g != st.threads[t].pc.gid) :: st'.doms[g].hungry == st.doms[g].hungry)
            && (forall u | 0 <= u < |st.threads| && u != t :: st'.threads[u] == st.threads[u])
  {
  }

  lemma SingleOwn(st: State, t: Tid, step: Step)
    requires SingleHungry(st) && Enabled(st, t, step)
    ensures SingleHungryAt(Next(st, t, step), t)
  {
    assert SingleHungryAt(st, t);
  }

  lemma SingleKept(st: State, t: Tid, step: Step)
    requires Exclusive(st) && SingleHungry(st) && Enabled(st, t, step)
    ensures SingleHungry(Next(st, t, step))
  {
    HungryStep(st, t, step);
    SingleOwn(st, t, step);
    var st' := Next(st, t, step);
    forall u | 0 <= u < |st.threads| && u != t && Holds(st.threads[u].pc) && Holds(st.threads[t].pc)
      ensures st.threads[u].pc.gid != st.threads[t].pc.gid
    {
    }
    assert step.Consume? ==> Holds(st.threads[t].pc);
    hide Exclusive, Next;
    forall u | 0 <= u < |st'.threads| && u != t ensures SingleHungryAt(st', u) {
      assert SingleHungryAt(st, u);
    }
  }

  /** At most one get has the divider in its hands, and then the queue is not empty. */
  ghost predicate DividerRight(st: State) {
    && (forall t | 0 <= t < |st.threads| && st.threads[t].pc.Lifting? :: st.divider.Away?)
    && (forall t, u | 0 <= t < u < |st.threads| && st.threads[t].pc.Lifting? :: !st.threads[u].pc.Lifting?)
    && if st.divider.Away? then st.queue != [] && exists t :: 0 <= t < |st.threads| && st.threads[t].pc.Lifting?
       else st.divider.ahead <= |st.queue|
  }

  lemma LiftKept(st: State, t: Tid)
    requires DividerRight(st) && Enabled(st, t, Lift)
    ensures DividerRight(Next(st, t, Lift))
  {
    assert Next(st, t, Lift).threads[t].pc.Lifting?;
  }

  lemma PutBackKept(st: State, t: Tid)
    requires DividerRight(st) && Enabled(st, t, PutBack)
    ensures DividerRight(Next(st, t, PutBack))
  {
  }

  lemma TakeKept(st: State, t: Tid)
    requires DividerRight(st) && Enabled(st, t, Take)
    ensures DividerRight(Next(st, t, Take))
  {
    StillLifting(st, t, Take);
  }

  /** The other steps leave the divider, and who has it; the queue only grows. */
  lemma DividerStays(st: State, t: Tid, step: Step)
    requires Enabled(st, t, step) && !step.Lift? && !step.PutBack? && !step.Take?
    ensures var st' := Next(st, t, step);
            && st'.divider == st.divider && |st'.threads| == |st.threads| && |st'.queue| >= |st.queue|
            && forall u | 0 <= u < |st.threads| :: st'.threads[u].pc.Lifting? == st.threads[u].pc.Lifting?
  {
  }

  lemma StillLifting(st: State, t: Tid, step: Step)
    requires Enabled(st, t, step) && !step.PutBack?
    ensures (exists u :: 0 <= u < |st.threads| && st.threads[u].pc.Lifting?) ==>
              exists u :: 0 <= u < |Next(st, t, step).threads| && Next(st, t, step).threads[u].pc.Lifting?
  {
    if u :| 0 <= u < |st.threads| && st.threads[u].pc.Lifting? {
      assert Next(st, t, step).threads[u].pc.Lifting?;
    }
  }

  lemma DividerKept(st: State, t: Tid, step: Step)
    requires DividerRight(st) && Enabled(st, t, step)
    ensures DividerRight(Next(st, t, step))
  {
    if step.Lift? {
      LiftKept(st, t);
    } else if step.PutBack? {
      PutBackKept(st, t);
    } else if step.Take? {
      TakeKept(st, t);
    } else {
      DividerStays(st, t, step);
      StillLifting(st, t, step);
      hide Next;
    }
  }

  lemma NextInv(st: State, t: Tid, step: Step)
    requires Inv(st) && Enabled(st, t, step)
    ensures Inv(Next(st, t, step))
  {
    var st' := Next(st, t, step);
    ExclusiveKept(st, t, step);
    SingleKept(st, t, step);
    forall g | 0 <= g < |st'.doms| ensures PoisonRight(st', g) && LocalRight(st', g) {
      PoisonKept(st, t, step, g);
      LocalKept(st, t, step, g);
    }
    forall u | 0 <= u < |st'.threads| ensures Wakeable(st', u) && OwedRight(st', u) {
      WakeableKept(st, t, step, u);
      assert OwedRight(st, u);
    }
  }
}
