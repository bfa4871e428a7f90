/** Scheduling within a domain: the inboxes of its processes, the queue of busy
    processes, and selective receive.

    A callback that does not want a message defers it (RECV_BADMATCH); when the process
    calls `msock_receive` the deferred messages come back in front of its inbox. */
module Process {
  import opened Delivery
  import opened Seqs

  /** A message as process p has it: the no-th that arrived there. */
  datatype Letter = Letter(no: nat, msg: Msg)

  /** A queue of upqueue.h: what it holds, and is its `last` pointer set? */
  datatype Box = Box(items: seq<Letter>, last: bool)

  /** Besides its queues, all that ever arrived and what of it was consumed. */
  datatype Proc = Proc(inbox: Box, badmatch: Box, arrived: seq<Letter>, eaten: set<nat>)

  datatype Hand = Empty | Holding(letter: Letter)

  /** `list`: the list of processes; `running`: whose callback loop is active, or 0;
      `hand`: the message its callback is called with; `putBack`: how many messages
      `msock_receive` put back in front of the inbox during this call. */
  datatype Sched = Sched(list: seq<Poff>, procs: map<Poff, Proc>, busy: seq<Poff>, running: Poff, hand: Hand, putBack: nat)

  datatype Step =
    | Arrive(m: Msg)
    | Start(p: Poff)
    | TakeBusy
    | TakeLetter
    | Receive
    | ReturnOk
    | ReturnBadmatch
    | ReturnExit
    | Pause

  const NONE := Box([], false)

  /** `queue_put` */
  function Put(b: Box, l: Letter): Box {
    if b.last then Box(b.items + [l], true) else Box([l], true)
  }

  /** `queue_get` of a non-empty queue */
  function Rest(b: Box): Box
    requires b.items != []
  {
    Box(b.items[1..], b.last && |b.items| > 1)
  }

  /** `queue_splice_prepend` of `front` onto b */
  function Prepend(front: Box, b: Box): Box {
    if front.items == [] then b else Box(front.items + b.items, b.last)
  }

  /** `dispatch_msg_single` */
  function DispatchSingle(s: Sched, p: Poff, m: Msg): Sched
    requires p in s.procs
  {
    var proc := s.procs[p];
    var l := Letter(|proc.arrived|, m);
    s.(procs := s.procs[p := proc.(inbox := Put(proc.inbox, l), arrived := proc.arrived + [l])],
       busy := if proc.inbox.last then s.busy else s.busy + [p])
  }

  /** `dispatch_msg_broadcast` */
  function DispatchAll(s: Sched, ps: seq<Poff>, m: Msg): Sched
    requires forall p | p in ps :: p in s.procs
    decreases |ps|
  {
    if ps == [] then s else DispatchAll(DispatchSingle(s, ps[0], m), ps[1..], m)
  }

  /** `dispatch_msg_local` */
  function DispatchLocal(s: Sched, m: Msg): Sched
    requires forall p | p in s.list :: p in s.procs
  {
    if m.poff != 0 then (if m.poff in s.procs then DispatchSingle(s, m.poff, m) else s)
    else if m.gc then s
    else DispatchAll(s, s.list, m)
  }

  predicate Enabled(s: Sched, step: Step) {
    match step
    case Arrive(m) => forall p | p in s.list :: p in s.procs
    case Start(p) => p != 0 && p !in s.procs
    case TakeBusy => s.running == 0 && s.busy != [] && s.busy[0] in s.procs
    case TakeLetter => s.running in s.procs && s.hand == Empty && s.procs[s.running].inbox.items != []
    case Pause => s.running in s.procs && s.hand == Empty && s.procs[s.running].inbox.items == []
    case _ => s.running in s.procs && s.hand.Holding?
  }

  function Next(s: Sched, step: Step): Sched
    requires Enabled(s, step)
  {
    match step
    case Arrive(m) => DispatchLocal(s, m)
    // process_new
    case Start(p) => s.(list := [p] + s.list, procs := s.procs[p := Proc(NONE, NONE, [], {})])
    // process_queue_run
    case TakeBusy => s.(running := s.busy[0], busy := s.busy[1..])
    // process_run
    case TakeLetter =>
      var proc := s.procs[s.running];
      s.(procs := s.procs[s.running := proc.(inbox := Rest(proc.inbox))], hand := Holding(proc.inbox.items[0]), putBack := 0)
    // msock_receive
    case Receive =>
      var proc := s.procs[s.running];
      s.(procs := s.procs[s.running := proc.(inbox := Prepend(proc.badmatch, proc.inbox), badmatch := NONE)],
         putBack := s.putBack + |proc.badmatch.items|)
    case ReturnOk =>
      var proc := s.procs[s.running];
      s.(procs := s.procs[s.running := proc.(eaten := proc.eaten + {s.hand.letter.no})], hand := Empty, putBack := 0)
    case ReturnBadmatch =>
      var proc := s.procs[s.running];
      s.(procs := s.procs[s.running := proc.(badmatch := Put(proc.badmatch, s.hand.letter))], hand := Empty, putBack := 0)
    // process_free
    case ReturnExit =>
      s.(list := Without(s.list, s.running), procs := s.procs - {s.running}, busy := Without(s.busy, s.running),
         running := 0, hand := Empty, putBack := 0)
    case Pause => s.(running := 0)
  }

  predicate TailValid(b: Box) {
    b.last == (b.items != [])
  }

  /** The message in hand is the running process's. */
  predicate Held(s: Sched) {
    && (s.hand.Holding? ==> s.running in s.procs && s.putBack <= |s.procs[s.running].inbox.items|)
    && (s.hand == Empty ==> s.putBack == 0)
  }

  /** The list of processes has every live process, once. */
  ghost predicate Roster(s: Sched) {
    && NoDup(s.list)
    && (forall p :: p in s.list <==> p in s.procs)
    && 0 !in s.procs
  }

  ghost predicate Listed(s: Sched) {
    && Held(s)
    && Roster(s)
    && (s.running != 0 ==> s.running in s.procs)
    && (s.running == 0 ==> s.hand == Empty)
  }

  predicate ShouldBeBusy(s: Sched, p: Poff) {
    p in s.procs && p != s.running && s.procs[p].inbox.items != []
  }

  /** A process is in the busy queue at most once, and just when it has mail and is not
      running. */
  ghost predicate BusyRight(s: Sched) {
    NoDup(s.busy) && forall p :: p in s.busy <==> ShouldBeBusy(s, p)
  }

  /** Only the inbox of the running process may have lost its `last`. */
  predicate TailRight(s: Sched, p: Poff)
    requires p in s.procs
  {
    && TailValid(s.procs[p].badmatch)
    && if p == s.running then s.procs[p].inbox.last ==> s.procs[p].inbox.items != [] else TailValid(s.procs[p].inbox)
  }

  /** What process p has not consumed yet, in the order it stands to see it: the message in
      hand goes behind those put back during its call. */
  ghost function Waiting(s: Sched, p: Poff): seq<Letter>
    requires Held(s) && p in s.procs
  {
    var proc := s.procs[p];
    proc.badmatch.items +
    if p == s.running && s.hand.Holding?
    then proc.inbox.items[..s.putBack] + [s.hand.letter] + proc.inbox.items[s.putBack..]
    else proc.inbox.items
  }

  /** What arrived and was not consumed, in the order of arrival. */
  function Unread(arrived: seq<Letter>, eaten: set<nat>): seq<Letter> {
    if arrived == [] then []
    else
      var l := arrived[|arrived| - 1];
      Unread(arrived[..|arrived| - 1], eaten) + if l.no in eaten then [] else [l]
  }

  predicate Numbered(proc: Proc) {
    && (forall i | 0 <= i < |proc.arrived| :: proc.arrived[i].no == i)
    && (forall n | n in proc.eaten :: n < |proc.arrived|)
  }

  /** Nothing is lost, doubled or overtaken. */
  ghost predicate InOrder(s: Sched, p: Poff)
    requires Held(s) && p in s.procs
  {
    Numbered(s.procs[p]) && Waiting(s, p) == Unread(s.procs[p].arrived, s.procs[p].eaten)
  }

  ghost predicate Good(s: Sched) {
    && Listed(s)
    && BusyRight(s)
    && (forall p | p in s.procs :: TailRight(s, p) && InOrder(s, p))
  }

  /** Message m goes to process p of its domain. */
  predicate For(m: Msg, p: Poff) {
    m.poff == p || (m.poff == 0 && !m.gc)
  }

  /** What a caller must keep to: no message to oneself while one's own inbox has no
      known end, and no deferring once deferred messages have been put back. */
  predicate Safe(s: Sched, step: Step)
    requires Enabled(s, step)
  {
    match step
    case Arrive(m) => s.running in s.procs && For(m, s.running) ==> s.procs[s.running].inbox.last
    case ReturnBadmatch => s.putBack == 0
    case _ => true
  }

  lemma UnreadAppend(arrived: seq<Letter>, eaten: set<nat>, l: Letter)
    requires l.no !in eaten
    ensures Unread(arrived + [l], eaten) == Unread(arrived, eaten) + [l]
  {
    assert (arrived + [l])[..|arrived|] == arrived;
  }

  ghost predicate Sequenced(arrived: seq<Letter>) {
    forall i | 0 <= i < |arrived| :: arrived[i].no == i
  }

  predicate Increasing(letters: seq<Letter>) {
    forall i, j | 0 <= i < j < |letters| :: letters[i].no < letters[j].no
  }

  lemma {:induction false} UnreadIncreasing(arrived: seq<Letter>, eaten: set<nat>)
    requires Sequenced(arrived)
    ensures forall l | l in Unread(arrived, eaten) :: l.no < |arrived| && l.no !in eaten
    ensures Increasing(Unread(arrived, eaten))
  {
    if arrived != [] {
      UnreadIncreasing(arrived[..|arrived| - 1], eaten);
      var before := Unread(arrived[..|arrived| - 1], eaten);
      assert forall i | 0 <= i < |before| :: before[i] in before;
    }
  }

  lemma {:induction false} UnreadFar(arrived: seq<Letter>, eaten: set<nat>, n: nat)
    requires Sequenced(arrived) && n >= |arrived|
    ensures Unread(arrived, eaten + {n}) == Unread(arrived, eaten)
  {
    if arrived != [] {
      UnreadFar(arrived[..|arrived| - 1], eaten, n);
    }
  }

  /** Consuming one message takes just that one out of the unread ones. */
  lemma {:induction false} UnreadEat(arrived: seq<Letter>, eaten: set<nat>, x: seq<Letter>, c: Letter, y: seq<Letter>)
    requires Sequenced(arrived) && Unread(arrived, eaten) == x + [c] + y
    ensures Unread(arrived, eaten + {c.no}) == x + y
  {
    var front, l := arrived[..|arrived| - 1], arrived[|arrived| - 1];
    var all := Unread(arrived, eaten);
    if l.no in eaten {
      UnreadEat(front, eaten, x, c, y);
    } else if y == [] {
      assert all == x + [c] && all[|all| - 1] == c;
      assert all[..|all| - 1] == x;
      UnreadFar(front, eaten, c.no);
    } else {
      var y' := y[..|y| - 1];
      assert all[|all| - 1] == y[|y| - 1];
      assert all[..|all| - 1] == x + [c] + y';
      UnreadEat(front, eaten, x, c, y');
      UnreadIncreasing(front, eaten);
      assert (x + [c] + y')[|x|] in Unread(front, eaten);
      assert y == y' + [l];
    }
  }

  predicate SafeFor(s: Sched, p: Poff)
    requires p in s.procs
  {
    p == s.running ==> s.procs[p].inbox.last
  }

  lemma SingleListed(s: Sched, p: Poff, m: Msg)
    requires Listed(s) && p in s.procs && SafeFor(s, p)
    ensures Listed(DispatchSingle(s, p, m))
  {
  }

  lemma SingleBusy(s: Sched, p: Poff, m: Msg)
    requires Listed(s) && BusyRight(s) && p in s.procs && TailRight(s, p) && SafeFor(s, p)
    ensures BusyRight(DispatchSingle(s, p, m))
  {
    var s' := DispatchSingle(s, p, m);
    assert p in s.busy <==> ShouldBeBusy(s, p);
    forall q ensures q in s'.busy <==> ShouldBeBusy(s', q) {
      assert q in s.busy <==> ShouldBeBusy(s, q);
    }
  }

  lemma AppendBehind(deferred: seq<Letter>, inbox: seq<Letter>, k: nat, c: Letter, l: Letter)
    requires k <= |inbox|
    ensures deferred + ((inbox + [l])[..k] + [c] + (inbox + [l])[k..]) == deferred + (inbox[..k] + [c] + inbox[k..]) + [l]
  {
    assert (inbox + [l])[..k] == inbox[..k] && (inbox + [l])[k..] == inbox[k..] + [l];
  }

  lemma SingleWaiting(s: Sched, p: Poff, m: Msg)
    requires Held(s) && p in s.procs && TailRight(s, p) && SafeFor(s, p)
    ensures Held(DispatchSingle(s, p, m))
    ensures Waiting(DispatchSingle(s, p, m), p) == Waiting(s, p) + [Letter(|s.procs[p].arrived|, m)]
  {
    var proc := s.procs[p];
    var l := Letter(|proc.arrived|, m);
    assert Put(proc.inbox, l).items == proc.inbox.items + [l];
    if p == s.running && s.hand.Holding? {
      AppendBehind(proc.badmatch.items, proc.inbox.items, s.putBack, s.hand.letter, l);
    }
  }

  lemma SingleOrder(s: Sched, p: Poff, m: Msg)
    requires Held(s) && p in s.procs && TailRight(s, p) && InOrder(s, p) && SafeFor(s, p)
    ensures Held(DispatchSingle(s, p, m)) && TailRight(DispatchSingle(s, p, m), p) && InOrder(DispatchSingle(s, p, m), p)
  {
    SingleWaiting(s, p, m);
    UnreadAppend(s.procs[p].arrived, s.procs[p].eaten, Letter(|s.procs[p].arrived|, m));
    hide Waiting, Unread;
  }

  lemma SingleGood(s: Sched, p: Poff, m: Msg)
    requires Good(s) && p in s.procs && SafeFor(s, p)
    ensures Good(DispatchSingle(s, p, m))
  {
    var s' := DispatchSingle(s, p, m);
    SingleBusy(s, p, m);
    SingleListed(s, p, m);
    forall q | q in s'.procs ensures TailRight(s', q) && InOrder(s', q) {
      assert TailRight(s, q) && InOrder(s, q);
      if q == p { SingleOrder(s, p, m); } else { assert Waiting(s', q) == Waiting(s, q); }
    }
  }

  lemma {:induction false} AllGood(s: Sched, ps: seq<Poff>, m: Msg)
    requires Good(s) && forall p | p in ps :: p in s.procs && SafeFor(s, p)
    ensures Good(DispatchAll(s, ps, m))
    decreases |ps|
  {
    hide Good;
    if ps != [] {
      SingleGood(s, ps[0], m);
      AllGood(DispatchSingle(s, ps[0], m), ps[1..], m);
    }
  }

  /** A process that is enqueued while it runs: nothing takes that back. */
  lemma {:induction false} AllKeepBusy(s: Sched, ps: seq<Poff>, m: Msg, p: Poff)
    requires forall q | q in ps :: q in s.procs
    requires p in s.busy || (p in ps && p in s.procs && !s.procs[p].inbox.last)
    ensures p in DispatchAll(s, ps, m).busy && DispatchAll(s, ps, m).running == s.running
    decreases |ps|
  {
    if ps != [] {
      AllKeepBusy(DispatchSingle(s, ps[0], m), ps[1..], m, p);
    }
  }

  lemma SafeArriveGood(s: Sched, m: Msg)
    requires Good(s) && Enabled(s, Arrive(m)) && Safe(s, Arrive(m))
    ensures Good(DispatchLocal(s, m))
  {
    hide Good;
    assert Listed(s) by { ListedOf(s); }
    if m.poff != 0 {
      if m.poff in s.procs { SingleGood(s, m.poff, m); }
    } else if !m.gc {
      AllGood(s, s.list, m);
    }
  }

  lemma ListedOf(s: Sched)
    requires Good(s)
    ensures Listed(s) && BusyRight(s)
  {
  }

  lemma UnsafeArriveBad(s: Sched, m: Msg)
    requires Good(s) && Enabled(s, Arrive(m)) && !Safe(s, Arrive(m))
    ensures !BusyRight(DispatchLocal(s, m))
  {
    ListedOf(s);
    hide Good;
    var s' := DispatchLocal(s, m);
    if m.poff != 0 {
      assert s.running in s'.busy && s'.running == s.running;
    } else {
      AllKeepBusy(s, s.list, m, s.running);
    }
    assert !ShouldBeBusy(s', s.running);
  }

  lemma GoodAt(s: Sched, p: Poff)
    requires Good(s) && p in s.procs
    ensures Listed(s) && Held(s) && TailRight(s, p) && InOrder(s, p)
  {
  }

  /** A step after which a process has what it had, and is running or not with nothing in
      hand. */
  lemma SameOrder(s: Sched, s': Sched, p: Poff)
    requires Held(s) && Held(s') && s.hand == Empty && s'.hand == Empty
    requires p in s.procs && p in s'.procs && s'.procs[p] == s.procs[p] && InOrder(s, p)
    ensures InOrder(s', p)
  {
  }

  lemma StartGood(s: Sched, p: Poff)
    requires Good(s) && Enabled(s, Start(p))
    ensures Good(Next(s, Start(p)))
  {
    var s' := Next(s, Start(p));
    StartBusy(s, p);
    hide BusyRight, Numbered, Unread;
    forall q | q in s'.procs ensures TailRight(s', q) && InOrder(s', q) {
      if q != p {
        GoodAt(s, q);
        assert Waiting(s', q) == Waiting(s, q);
      } else {
        NewOrder(s', p);
      }
    }
  }

  lemma StartBusy(s: Sched, p: Poff)
    requires Good(s) && Enabled(s, Start(p))
    ensures Listed(Next(s, Start(p))) && BusyRight(Next(s, Start(p)))
  {
    var s' := Next(s, Start(p));
    ListedOf(s);
    hide Good, InOrder, Waiting;
    forall q ensures q in s'.busy <==> ShouldBeBusy(s', q) {
      assert q in s.busy <==> ShouldBeBusy(s, q);
    }
  }

  lemma NewOrder(s: Sched, p: Poff)
    requires Held(s) && p in s.procs && s.procs[p] == Proc(NONE, NONE, [], {}) && p != s.running
    ensures InOrder(s, p)
  {
  }

  lemma TakeBusyListed(s: Sched)
    requires Good(s) && Enabled(s, TakeBusy)
    ensures Listed(Next(s, TakeBusy))
  {
    ListedOf(s);
    assert Roster(Next(s, TakeBusy)) by { hide Good, NoDup; }
    assert s.busy[0] in s.procs && s.busy[0] != 0;
    hide Good, Roster, BusyRight;
  }

  lemma TakeBusyBusy(s: Sched)
    requires BusyRight(s) && Enabled(s, TakeBusy) && 0 !in s.procs
    ensures BusyRight(Next(s, TakeBusy))
  {
    var s' := Next(s, TakeBusy);
    FirstOnly(s.busy);
    hide NoDup;
    forall q ensures q in s'.busy <==> ShouldBeBusy(s', q) {
      assert q in s.busy <==> ShouldBeBusy(s, q);
    }
  }

  lemma TakeBusyGood(s: Sched)
    requires Good(s) && Enabled(s, TakeBusy)
    ensures Good(Next(s, TakeBusy))
  {
    var s' := Next(s, TakeBusy);
    ListedOf(s);
    TakeBusyListed(s);
    TakeBusyBusy(s);
    hide InOrder, BusyRight;
    forall q | q in s'.procs ensures TailRight(s', q) && InOrder(s', q) {
      GoodAt(s, q);
      SameOrder(s, s', q);
    }
  }

  lemma PauseBusy(s: Sched)
    requires Listed(s) && BusyRight(s) && Enabled(s, Pause)
    ensures Listed(Next(s, Pause)) && BusyRight(Next(s, Pause))
  {
    var s' := Next(s, Pause);
    assert Roster(s');
    hide Roster, NoDup;
    forall q ensures q in s'.busy <==> ShouldBeBusy(s', q) {
      assert q in s.busy <==> ShouldBeBusy(s, q);
    }
  }

  lemma PauseTails(s: Sched)
    requires Good(s) && Enabled(s, Pause)
    ensures forall q | q in Next(s, Pause).procs :: TailRight(Next(s, Pause), q)
  {
    hide Good, InOrder, Listed;
    forall q | q in s.procs ensures TailRight(Next(s, Pause), q) {
      GoodAt(s, q);
    }
  }

  lemma PauseGood(s: Sched)
    requires Good(s) && Enabled(s, Pause)
    ensures Good(Next(s, Pause))
  {
    var s' := Next(s, Pause);
    ListedOf(s);
    PauseBusy(s);
    PauseTails(s);
    assert Held(s) && Held(s') && s.hand == Empty;
    hide Good, InOrder, BusyRight, Listed, TailRight;
    forall q | q in s'.procs ensures InOrder(s', q) {
      GoodAt(s, q);
      SameOrder(s, s', q);
    }
    GoodFrom(s');
  }

  /** A step that only concerns the queues of the running process, and leaves it the
      running one. */
  ghost predicate OnlyRunning(s: Sched, s': Sched) {
    && s.running in s.procs
    && s'.list == s.list && s'.busy == s.busy && s'.running == s.running
    && s'.procs.Keys == s.procs.Keys
    && forall p | p in s.procs && p != s.running :: s'.procs[p] == s.procs[p]
  }

  lemma OnlyRunningGood(s: Sched, s': Sched)
    requires Good(s) && OnlyRunning(s, s') && Listed(s')
    requires TailRight(s', s'.running) && InOrder(s', s'.running)
    ensures Good(s')
  {
    ListedOf(s);
    forall q ensures q in s'.busy <==> ShouldBeBusy(s', q) {
      assert q in s.busy <==> ShouldBeBusy(s, q);
    }
    forall q | q in s'.procs ensures TailRight(s', q) && InOrder(s', q) {
      if q != s.running {
        GoodAt(s, q);
        assert Waiting(s', q) == Waiting(s, q);
      }
    }
  }

  lemma SameWaiting(s: Sched, s': Sched, p: Poff)
    requires Held(s) && Held(s') && p in s.procs && p in s'.procs && InOrder(s, p)
    requires Waiting(s', p) == Waiting(s, p)
    requires s'.procs[p].arrived == s.procs[p].arrived && s'.procs[p].eaten == s.procs[p].eaten
    ensures InOrder(s', p)
  {
  }

  /** The steps of a callback loop leave the lists of the domain as they are. */
  lemma RunningListed(s: Sched, step: Step)
    requires Listed(s) && Enabled(s, step)
    requires step.TakeLetter? || step.Receive? || step.ReturnOk? || step.ReturnBadmatch?
    ensures Listed(Next(s, step)) && OnlyRunning(s, Next(s, step))
  {
    hide NoDup;
  }

  lemma TakeLetterWaiting(s: Sched)
    requires Held(s) && Enabled(s, TakeLetter) && Held(Next(s, TakeLetter))
    ensures Waiting(Next(s, TakeLetter), s.running) == Waiting(s, s.running)
  {
    var items := s.procs[s.running].inbox.items;
    assert items[1..][..0] + [items[0]] + items[1..][0..] == items;
  }

  lemma TakeLetterGood(s: Sched)
    requires Good(s) && Enabled(s, TakeLetter)
    ensures Good(Next(s, TakeLetter))
  {
    var s' := Next(s, TakeLetter);
    GoodAt(s, s.running);
    RunningListed(s, TakeLetter);
    TakeLetterWaiting(s);
    hide Good, InOrder, Waiting, Listed;
    SameWaiting(s, s', s.running);
    OnlyRunningGood(s, s');
  }

  lemma PutInFront(deferred: seq<Letter>, inbox: seq<Letter>, k: nat, c: Letter)
    requires k <= |inbox|
    ensures (deferred + inbox)[..k + |deferred|] + [c] + (deferred + inbox)[k + |deferred|..] == deferred + (inbox[..k] + [c] + inbox[k..])
  {
  }

  lemma ReceiveWaiting(s: Sched)
    requires Held(s) && Enabled(s, Receive) && Held(Next(s, Receive))
    ensures Waiting(Next(s, Receive), s.running) == Waiting(s, s.running)
  {
    var proc := s.procs[s.running];
    PutInFront(proc.badmatch.items, proc.inbox.items, s.putBack, s.hand.letter);
    assert Prepend(proc.badmatch, proc.inbox).items == proc.badmatch.items + proc.inbox.items;
  }

  lemma ReceiveGood(s: Sched)
    requires Good(s) && Enabled(s, Receive)
    ensures Good(Next(s, Receive))
  {
    var s' := Next(s, Receive);
    GoodAt(s, s.running);
    RunningListed(s, Receive);
    ReceiveWaiting(s);
    hide Good, InOrder, Waiting, Listed;
    SameWaiting(s, s', s.running);
    OnlyRunningGood(s, s');
  }

  lemma Middle(deferred: seq<Letter>, inbox: seq<Letter>, k: nat, c: Letter)
    requires k <= |inbox|
    ensures deferred + (inbox[..k] + [c] + inbox[k..]) == (deferred + inbox[..k]) + [c] + inbox[k..]
    ensures (deferred + inbox[..k]) + inbox[k..] == deferred + inbox
  {
    assert inbox[..k] + inbox[k..] == inbox;
  }

  lemma HandBelow(s: Sched)
    requires Good(s) && s.running in s.procs && s.hand.Holding?
    ensures s.hand.letter.no < |s.procs[s.running].arrived|
    ensures Increasing(Waiting(s, s.running))
  {
    var proc := s.procs[s.running];
    assert InOrder(s, s.running);
    UnreadIncreasing(proc.arrived, proc.eaten);
    Middle(proc.badmatch.items, proc.inbox.items, s.putBack, s.hand.letter);
    assert Waiting(s, s.running)[|proc.badmatch.items + proc.inbox.items[..s.putBack]|] == s.hand.letter;
    assert s.hand.letter in Waiting(s, s.running);
  }

  lemma ReturnOkOrder(s: Sched)
    requires Held(s) && Enabled(s, ReturnOk) && Held(Next(s, ReturnOk)) && InOrder(s, s.running)
    requires s.hand.letter.no < |s.procs[s.running].arrived|
    ensures InOrder(Next(s, ReturnOk), s.running)
  {
    var proc := s.procs[s.running];
    var x, y := proc.badmatch.items + proc.inbox.items[..s.putBack], proc.inbox.items[s.putBack..];
    Middle(proc.badmatch.items, proc.inbox.items, s.putBack, s.hand.letter);
    UnreadEat(proc.arrived, proc.eaten, x, s.hand.letter, y);
    hide Unread;
    assert Waiting(Next(s, ReturnOk), s.running) == proc.badmatch.items + proc.inbox.items == x + y;
  }

  lemma ReturnOkGood(s: Sched)
    requires Good(s) && Enabled(s, ReturnOk)
    ensures Good(Next(s, ReturnOk))
  {
    GoodAt(s, s.running);
    RunningListed(s, ReturnOk);
    HandBelow(s);
    hide Good, Listed, InOrder;
    ReturnOkOrder(s);
    OnlyRunningGood(s, Next(s, ReturnOk));
  }

  lemma DeferOrder(x: seq<Letter>, b: seq<Letter>, c: Letter, y: seq<Letter>)
    requires Increasing(b + (x + [c] + y))
    ensures (b + [c]) + (x + y) == b + (x + [c] + y) <==> x == []
  {
    if x != [] {
      assert (b + (x + [c] + y))[|b|] == x[0] && (b + (x + [c] + y))[|b| + |x|] == c;
      assert ((b + [c]) + (x + y))[|b|] == c;
    }
  }

  /** Deferring a message keeps the order just when no messages were put back in the same
      call: it would come to stand before them. */
  lemma BadmatchGoodIff(s: Sched)
    requires Good(s) && Enabled(s, ReturnBadmatch)
    ensures Good(Next(s, ReturnBadmatch)) <==> s.putBack == 0
  {
    var s' := Next(s, ReturnBadmatch);
    var proc := s.procs[s.running];
    GoodAt(s, s.running);
    RunningListed(s, ReturnBadmatch);
    HandBelow(s);
    BadmatchWaiting(s);
    if s.putBack == 0 {
      SameWaiting(s, s', s.running);
      hide Good, InOrder, Waiting, Listed;
      OnlyRunningGood(s, s');
    } else {
      hide Listed, Waiting;
      assert !InOrder(s', s.running);
    }
  }

  lemma BadmatchWaiting(s: Sched)
    requires Held(s) && Enabled(s, ReturnBadmatch) && Held(Next(s, ReturnBadmatch))
    requires TailRight(s, s.running) && Increasing(Waiting(s, s.running))
    ensures Waiting(Next(s, ReturnBadmatch), s.running) == Waiting(s, s.running) <==> s.putBack == 0
  {
    var proc := s.procs[s.running];
    var inbox := proc.inbox.items;
    var x, y := inbox[..s.putBack], inbox[s.putBack..];
    DeferOrder(x, proc.badmatch.items, s.hand.letter, y);
    hide Increasing;
    assert Put(proc.badmatch, s.hand.letter).items == proc.badmatch.items + [s.hand.letter];
    assert x + y == inbox;
  }

  /** A process that exits is not enqueued: `queue_slow_del` has nothing to do. */
  lemma ExitIsQuick(s: Sched)
    requires Good(s) && Enabled(s, ReturnExit)
    ensures s.running !in s.busy && Without(s.busy, s.running) == s.busy
  {
    ListedOf(s);
    assert !ShouldBeBusy(s, s.running);
    WithoutNone(s.busy, s.running);
  }

  lemma ExitListed(s: Sched)
    requires Good(s) && Enabled(s, ReturnExit)
    ensures Listed(Next(s, ReturnExit))
  {
    ListedOf(s);
    WithoutFacts(s.list, s.running);
    hide Good, Without, BusyRight, NoDup;
  }

  lemma ExitBusy(s: Sched)
    requires BusyRight(s) && Enabled(s, ReturnExit) && 0 !in s.procs && Without(s.busy, s.running) == s.busy
    ensures BusyRight(Next(s, ReturnExit))
  {
    var s' := Next(s, ReturnExit);
    hide Without, NoDup;
    forall q ensures q in s'.busy <==> ShouldBeBusy(s', q) {
      assert q in s.busy <==> ShouldBeBusy(s, q);
    }
  }

  lemma GoodFrom(s: Sched)
    requires Listed(s) && BusyRight(s) && forall q | q in s.procs :: TailRight(s, q) && InOrder(s, q)
    ensures Good(s)
  {
  }

  lemma ExitKeeps(s: Sched, q: Poff)
    requires Good(s) && Enabled(s, ReturnExit) && q in Next(s, ReturnExit).procs && Listed(Next(s, ReturnExit))
    ensures TailRight(Next(s, ReturnExit), q) && InOrder(Next(s, ReturnExit), q)
  {
    var s' := Next(s, ReturnExit);
    GoodAt(s, q);
    assert s'.running == 0 && 0 !in s'.procs;
    hide Good, BusyRight, Listed, Without, InOrder;
    OthersOrder(s, s', q);
  }

  lemma ExitGood(s: Sched)
    requires Good(s) && Enabled(s, ReturnExit)
    ensures Good(Next(s, ReturnExit))
  {
    var s' := Next(s, ReturnExit);
    ListedOf(s);
    ExitListed(s);
    ExitIsQuick(s);
    ExitBusy(s);
    hide Good, BusyRight, Listed, InOrder, TailRight;
    forall q | q in s'.procs ensures TailRight(s', q) && InOrder(s', q) {
      ExitKeeps(s, q);
    }
    GoodFrom(s');
  }

  /** What a process that is not running has in order does not depend on the others. */
  lemma OthersOrder(s: Sched, s': Sched, p: Poff)
    requires Held(s) && Held(s') && p in s.procs && p in s'.procs && InOrder(s, p)
    requires p != s.running && p != s'.running && s'.procs[p] == s.procs[p]
    ensures InOrder(s', p)
  {
  }

  /** Every step keeps the scheduler right just when it is safe. */
  lemma NextGoodIff(s: Sched, step: Step)
    requires Good(s) && Enabled(s, step)
    ensures Good(Next(s, step)) <==> Safe(s, step)
  {
    match step {
      case Arrive(m) =>
        if Safe(s, step) { SafeArriveGood(s, m); } else { UnsafeArriveBad(s, m); }
      case Start(p) => StartGood(s, p);
      case TakeBusy => TakeBusyGood(s);
      case TakeLetter => TakeLetterGood(s);
      case Receive => ReceiveGood(s);
      case ReturnOk => ReturnOkGood(s);
      case ReturnBadmatch => BadmatchGoodIff(s);
      case ReturnExit => ExitGood(s);
      case Pause => PauseGood(s);
    }
  }
}
