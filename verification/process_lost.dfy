/** When a message is lost in a domain, or a process enqueued twice.

    Not every unsafe step of module Process does harm.  A process may send to itself with
    an empty inbox: it is then in the busy queue while it runs, and is taken from there
    later with nothing to do.  What does harm is a `queue_put` on a queue that has lost its
    `last` and is not empty, and one of an element that is enqueued already. */
module ProcessLost {
  import D = Delivery
  import opened Seqs
  import opened Process
  import opened ProcessRuns

  /** The scheduler, with the two things that module Process does not need: is the `last` of
      the busy queue set, and the processes whose link says that they are enqueued. */
  datatype Full = Full(s: Sched, known: bool, linked: set<D.Poff>)

  /** `queue_put` on the busy queue */
  function Enqueue(f: Full, p: D.Poff): Full {
    Full(f.s.(busy := if f.known then f.s.busy + [p] else [p]), true, f.linked + {p})
  }

  /** The message is in the inbox of the process. */
  function Dropped(proc: Proc, m: D.Msg): Proc {
    var l := Letter(|proc.arrived|, m);
    proc.(inbox := Put(proc.inbox, l), arrived := proc.arrived + [l])
  }

  /** `dispatch_msg_single` */
  function Single(f: Full, p: D.Poff, m: D.Msg): Full
    requires p in f.s.procs
  {
    var f' := f.(s := f.s.(procs := f.s.procs[p := Dropped(f.s.procs[p], m)]));
    if f.s.procs[p].inbox.last then f' else Enqueue(f', p)
  }

  function Each(f: Full, ps: seq<D.Poff>, m: D.Msg): Full
    requires forall p | p in ps :: p in f.s.procs
    decreases |ps|
  {
    if ps == [] then f else Each(Single(f, ps[0], m), ps[1..], m)
  }

  /** Who gets a message, in this order. */
  function Targets(s: Sched, m: D.Msg): seq<D.Poff> {
    if m.poff != 0 then (if m.poff in s.procs then [m.poff] else []) else if m.gc then [] else s.list
  }

  /** `queue_slow_del` leaves `last` as it was, unless it was the last element. */
  function NextFull(f: Full, step: Step): Full
    requires Enabled(f.s, step)
  {
    match step
    case Arrive(m) => Each(f, Targets(f.s, m), m)
    case TakeBusy => Full(Next(f.s, step), f.known && |f.s.busy| > 1, f.linked - {f.s.busy[0]})
    case ReturnExit =>
      Full(Next(f.s, step), f.known && (f.s.busy == [] || f.s.busy[|f.s.busy| - 1] != f.s.running), f.linked - {f.s.running})
    case _ => f.(s := Next(f.s, step))
  }

  // What is not to happen

  function InHand(s: Sched, p: D.Poff): multiset<Letter> {
    if p == s.running && s.hand.Holding? then multiset{s.hand.letter} else multiset{}
  }

  function Has(proc: Proc): multiset<Letter> {
    multiset(proc.badmatch.items) + multiset(proc.inbox.items)
  }

  function Open(proc: Proc): multiset<Letter> {
    multiset(Unread(proc.arrived, proc.eaten))
  }

  /** What arrived for a process and was not consumed is in its queues, or in hand. */
  predicate Kept(s: Sched, p: D.Poff)
    requires p in s.procs
  {
    Numbered(s.procs[p]) && Has(s.procs[p]) + InHand(s, p) == Open(s.procs[p])
  }

  ghost predicate Seated(s: Sched) {
    && Roster(s)
    && (s.running != 0 ==> s.running in s.procs)
    && (s.running == 0 ==> s.hand == Empty)
  }

  /** No process is enqueued twice, and the links say who is enqueued. */
  ghost predicate BusySound(f: Full) {
    && NoDup(f.s.busy) && f.linked == Elements(f.s.busy)
    && (forall p | p in f.s.busy :: p in f.s.procs)
    && (f.known ==> f.s.busy != [])
  }

  /** Nobody is forgotten. */
  ghost predicate AllCome(s: Sched) {
    forall p | ShouldBeBusy(s, p) :: p in s.busy
  }

  ghost predicate Sound(f: Full) {
    && Seated(f.s) && BusySound(f) && AllCome(f.s)
    && forall p | p in f.s.procs :: TailRight(f.s, p) && Kept(f.s, p)
  }

  /** The targets that are enqueued: those whose inbox has no known end. */
  function Woken(s: Sched, ps: seq<D.Poff>): seq<D.Poff> {
    if ps == [] then []
    else (if ps[0] in s.procs && !s.procs[ps[0]].inbox.last then [ps[0]] else []) + Woken(s, ps[1..])
  }

  /** What keeps a step from doing harm: no `queue_put` on an inbox that is not empty and has
      no known end; none of a process that is enqueued, if the end of the busy queue is
      known; and if that is not known, all that are enqueued are enqueued afresh. */
  predicate Harmless(f: Full, step: Step) {
    step.Arrive? ==>
      var woken := Woken(f.s, Targets(f.s, step.m));
      && (forall p | p in woken && p in f.s.procs :: f.s.procs[p].inbox.items == [])
      && (woken != [] ==> if f.known then forall p | p in woken :: p !in f.s.busy else forall p | p in f.s.busy :: p in woken)
  }

  /** These processes are in the domain, each once. */
  ghost predicate Are(s: Sched, ps: seq<D.Poff>) {
    NoDup(ps) && forall p | p in ps :: p in s.procs
  }

  lemma {:induction false} WokenFacts(s: Sched, ps: seq<D.Poff>)
    requires Are(s, ps)
    ensures NoDup(Woken(s, ps)) && forall p :: p in Woken(s, ps) <==> p in ps && p in s.procs && !s.procs[p].inbox.last
    decreases |ps|
  {
    if ps != [] {
      FirstOnly(ps);
      WokenFacts(s, ps[1..]);
      ConsNoDup(ps[0], Woken(s, ps[1..]));
      hide NoDup;
    }
  }

  lemma {:induction false} WokenSame(s: Sched, s': Sched, ps: seq<D.Poff>)
    requires forall p | p in ps :: p in s.procs && p in s'.procs && s'.procs[p] == s.procs[p]
    ensures Woken(s', ps) == Woken(s, ps)
    decreases |ps|
  {
    if ps != [] {
      WokenSame(s, s', ps[1..]);
    }
  }

  /** All that a dispatch does. */
  lemma {:induction false} EachProcs(f: Full, ps: seq<D.Poff>, m: D.Msg)
    requires Are(f.s, ps)
    ensures var f' := Each(f, ps, m);
            && f'.s == f.s.(procs := f'.s.procs, busy := f'.s.busy) && f'.s.procs.Keys == f.s.procs.Keys
            && (forall p | p in f.s.procs :: f'.s.procs[p] == if p in ps then Dropped(f.s.procs[p], m) else f.s.procs[p])
    decreases |ps|
  {
    if ps != [] {
      FirstOnly(ps);
      hide NoDup, Dropped;
      EachProcs(Single(f, ps[0], m), ps[1..], m);
    }
  }

  /** What the busy queue has become, after these have been enqueued. */
  predicate Enqueued(f: Full, f': Full, woken: seq<D.Poff>) {
    && f'.s.busy == (if woken == [] then f.s.busy else if f.known then f.s.busy + woken else woken)
    && f'.known == (f.known || woken != []) && f'.linked == f.linked + Elements(woken)
  }

  lemma SingleBusy(f: Full, p: D.Poff, m: D.Msg)
    requires p in f.s.procs
    ensures Enqueued(f, Single(f, p, m), if f.s.procs[p].inbox.last then [] else [p])
  {
  }

  lemma EnqueuedThen(f: Full, f1: Full, f2: Full, a: seq<D.Poff>, b: seq<D.Poff>)
    requires Enqueued(f, f1, a) && Enqueued(f1, f2, b)
    ensures Enqueued(f, f2, a + b)
  {
    assert Elements(a + b) == Elements(a) + Elements(b);
    if a == [] {
      assert a + b == b;
    } else if b == [] {
      assert a + b == a;
    } else {
      assert f.s.busy + a + b == f.s.busy + (a + b);
    }
  }

  lemma {:induction false} EachBusy(f: Full, ps: seq<D.Poff>, m: D.Msg)
    requires Are(f.s, ps)
    ensures Enqueued(f, Each(f, ps, m), Woken(f.s, ps))
    decreases |ps|
  {
    if ps != [] {
      var f1 := Single(f, ps[0], m);
      SingleBusy(f, ps[0], m);
      FirstOnly(ps);
      WokenSame(f.s, f1.s, ps[1..]);
      hide NoDup, Dropped, Enqueued;
      EachBusy(f1, ps[1..], m);
      EnqueuedThen(f, f1, Each(f1, ps[1..], m), if f.s.procs[ps[0]].inbox.last then [] else [ps[0]], Woken(f.s, ps[1..]));
    } else {
      assert Elements([]) == {};
    }
  }

  // A message arrives

  lemma DroppedOpen(proc: Proc, m: D.Msg)
    requires Numbered(proc)
    ensures Numbered(Dropped(proc, m)) && Open(Dropped(proc, m)) == Open(proc) + multiset{Letter(|proc.arrived|, m)}
  {
    UnreadAppend(proc.arrived, proc.eaten, Letter(|proc.arrived|, m));
  }

  lemma DroppedHas(proc: Proc, m: D.Msg)
    ensures var l := multiset{Letter(|proc.arrived|, m)};
            if proc.inbox.last || proc.inbox.items == [] then Has(Dropped(proc, m)) == Has(proc) + l
            else |Has(Dropped(proc, m))| < |Has(proc) + l|
  {
    var l := Letter(|proc.arrived|, m);
    assert multiset(proc.inbox.items + [l]) == multiset(proc.inbox.items) + multiset{l};
  }

  lemma Balance(a: multiset<Letter>, a': multiset<Letter>, h: multiset<Letter>, u: multiset<Letter>, l: multiset<Letter>)
    requires a + h == u
    ensures a' == a + l ==> a' + h == u + l
    ensures |a'| < |a + l| ==> a' + h != u + l
  {
    if |a'| < |a + l| {
      assert |a' + h| == |a'| + |h| && |u + l| == |a| + |h| + |l| && |a + l| == |a| + |l|;
    }
  }

  lemma DroppedKept(s: Sched, s': Sched, p: D.Poff, m: D.Msg)
    requires p in s.procs && p in s'.procs && s'.procs[p] == Dropped(s.procs[p], m) && InHand(s', p) == InHand(s, p)
    requires TailRight(s, p) && Kept(s, p) && s'.running == s.running
    ensures TailRight(s', p) && (Kept(s', p) <==> s.procs[p].inbox.last || s.procs[p].inbox.items == [])
  {
    var proc := s.procs[p];
    DroppedOpen(proc, m);
    DroppedHas(proc, m);
    hide Open, Has, InHand, Numbered;
    Balance(Has(proc), Has(Dropped(proc, m)), InHand(s, p), Open(proc), multiset{Letter(|proc.arrived|, m)});
  }

  lemma TargetsRight(s: Sched, m: D.Msg)
    requires Seated(s)
    ensures Are(s, Targets(s, m))
  {
  }

  lemma OneKept(s: Sched, s': Sched, ps: seq<D.Poff>, m: D.Msg, p: D.Poff)
    requires p in s.procs && p in s'.procs && TailRight(s, p) && Kept(s, p) && s'.running == s.running && s'.hand == s.hand
    requires s'.procs[p] == if p in ps then Dropped(s.procs[p], m) else s.procs[p]
    ensures TailRight(s', p) && (Kept(s', p) <==> p !in ps || s.procs[p].inbox.last || s.procs[p].inbox.items == [])
  {
    if p in ps {
      DroppedKept(s, s', p, m);
    } else {
      SameKept(s, s', p);
    }
  }

  /** The queues of the processes are right just when no message was put on an inbox that is
      not empty and has no known end. */
  lemma ArriveKept(f: Full, ps: seq<D.Poff>, m: D.Msg)
    requires Sound(f) && Are(f.s, ps)
    ensures var s', woken := Each(f, ps, m).s, Woken(f.s, ps);
            && Seated(s') && (forall p | p in s'.procs :: TailRight(s', p))
            && ((forall p | p in s'.procs :: Kept(s', p)) <==> forall p | p in woken && p in f.s.procs :: f.s.procs[p].inbox.items == [])
  {
    var s, s' := f.s, Each(f, ps, m).s;
    EachProcs(f, ps, m);
    WokenFacts(s, ps);
    hide Each, Woken, Kept, TailRight, Roster, Dropped;
    forall p | p in s'.procs
      ensures TailRight(s', p) && (Kept(s', p) <==> p !in Woken(s, ps) || s.procs[p].inbox.items == [])
    {
      assert TailRight(s, p) && Kept(s, p);
      OneKept(s, s', ps, m, p);
    }
    assert Roster(s') by { SameRoster(s, s'); }
  }

  lemma SameRoster(s: Sched, s': Sched)
    requires Roster(s) && s'.list == s.list && s'.procs.Keys == s.procs.Keys
    ensures Roster(s')
  {
  }

  lemma SameKept(s: Sched, s': Sched, p: D.Poff)
    requires p in s.procs && p in s'.procs && s'.procs[p] == s.procs[p] && s'.running == s.running && s'.hand == s.hand
    requires TailRight(s, p) && Kept(s, p)
    ensures TailRight(s', p) && Kept(s', p)
  {
  }

  lemma ElementsIn(xs: seq<nat>, ys: seq<nat>)
    requires Elements(xs) == Elements(ys)
    ensures forall x | x in xs :: x in ys
  {
    forall x | x in xs ensures x in ys {
      assert x in Elements(xs);
    }
  }

  /** The busy queue is right just when nobody was enqueued twice or dropped from it. */
  lemma EnqueuedSound(f: Full, f': Full, woken: seq<D.Poff>)
    requires BusySound(f) && NoDup(woken) && Enqueued(f, f', woken)
    requires f'.s.procs.Keys == f.s.procs.Keys && forall p | p in woken :: p in f.s.procs
    ensures BusySound(f') <==>
            woken == [] || if f.known then forall p | p in woken :: p !in f.s.busy else forall p | p in f.s.busy :: p in woken
  {
    if woken == [] {
      assert Elements(woken) == {};
    } else if f.known {
      KnownSound(f, f', woken);
    } else {
      StaleSound(f, f', woken);
    }
  }

  lemma KnownSound(f: Full, f': Full, woken: seq<D.Poff>)
    requires BusySound(f) && NoDup(woken) && Enqueued(f, f', woken) && woken != [] && f.known
    requires f'.s.procs.Keys == f.s.procs.Keys && forall p | p in woken :: p in f.s.procs
    ensures BusySound(f') <==> forall p | p in woken :: p !in f.s.busy
  {
    assert Elements(f.s.busy + woken) == Elements(f.s.busy) + Elements(woken);
    if forall p | p in woken :: p !in f.s.busy {
      JoinNoDup(f.s.busy, woken);
    } else {
      var i, j :| 0 <= i < |f.s.busy| && 0 <= j < |woken| && f.s.busy[i] == woken[j];
      assert (f.s.busy + woken)[i] == (f.s.busy + woken)[|f.s.busy| + j];
    }
  }

  lemma StaleSound(f: Full, f': Full, woken: seq<D.Poff>)
    requires BusySound(f) && NoDup(woken) && Enqueued(f, f', woken) && woken != [] && !f.known
    requires f'.s.procs.Keys == f.s.procs.Keys && forall p | p in woken :: p in f.s.procs
    ensures BusySound(f') <==> forall p | p in f.s.busy :: p in woken
  {
    if forall p | p in f.s.busy :: p in woken {
      assert Elements(f.s.busy) + Elements(woken) == Elements(woken);
    } else {
      var p :| p in f.s.busy && p !in woken;
      assert p in f'.linked && p !in Elements(woken);
    }
  }

  lemma ArriveCome(f: Full, m: D.Msg)
    requires Sound(f) && Enabled(f.s, Arrive(m)) && Harmless(f, Arrive(m))
    ensures AllCome(Each(f, Targets(f.s, m), m).s)
  {
    var s, ps := f.s, Targets(f.s, m);
    TargetsRight(s, m);
    EachProcs(f, ps, m);
    EachBusy(f, ps, m);
    WokenFacts(s, ps);
    var f' := Each(f, ps, m);
    hide Each, NoDup, Targets, Woken, Kept;
    forall p | ShouldBeBusy(f'.s, p) ensures p in f'.s.busy {
      assert TailRight(s, p);
      if p !in Woken(s, ps) {
        assert ShouldBeBusy(s, p);
      }
    }
  }

  lemma ArriveSoundIff(f: Full, m: D.Msg)
    requires Sound(f) && Enabled(f.s, Arrive(m))
    ensures Sound(NextFull(f, Arrive(m))) <==> Harmless(f, Arrive(m))
  {
    var ps := Targets(f.s, m);
    TargetsRight(f.s, m);
    ArriveKept(f, ps, m);
    EachProcs(f, ps, m);
    EachBusy(f, ps, m);
    WokenFacts(f.s, ps);
    EnqueuedSound(f, Each(f, ps, m), Woken(f.s, ps));
    if Harmless(f, Arrive(m)) {
      ArriveCome(f, m);
    }
    hide Each, NoDup, Targets, Woken, Kept, TailRight, Seated, BusySound, AllCome, Enqueued;
  }

  // The other steps

  lemma {:induction false} UnreadEaten(arrived: seq<Letter>, eaten: set<nat>, c: Letter)
    requires Sequenced(arrived) && c in Unread(arrived, eaten)
    ensures multiset(Unread(arrived, eaten + {c.no})) == multiset(Unread(arrived, eaten)) - multiset{c}
  {
    var all := Unread(arrived, eaten);
    var i :| 0 <= i < |all| && all[i] == c;
    var x, y := all[..i], all[i + 1..];
    assert all == x + [c] + y;
    UnreadEat(arrived, eaten, x, c, y);
  }

  lemma SoundAt(f: Full, p: D.Poff)
    requires Sound(f) && p in f.s.procs
    ensures TailRight(f.s, p) && Kept(f.s, p)
  {
  }

  lemma SoundParts(f: Full)
    requires Sound(f)
    ensures Seated(f.s) && BusySound(f) && AllCome(f.s) && 0 !in f.s.procs
  {
  }

  lemma SoundFrom(f: Full)
    requires Seated(f.s) && BusySound(f) && AllCome(f.s) && forall p | p in f.s.procs :: TailRight(f.s, p) && Kept(f.s, p)
    ensures Sound(f)
  {
  }

  /** A step of the running process on its own queues. */
  ghost predicate OnItsOwn(s: Sched, s': Sched) {
    && s.running in s.procs && s'.list == s.list && s'.busy == s.busy && s'.running == s.running && s'.procs.Keys == s.procs.Keys
    && forall p | p in s.procs && p != s.running :: s'.procs[p] == s.procs[p]
  }

  lemma OwnOther(s: Sched, s': Sched, p: D.Poff)
    requires OnItsOwn(s, s') && p in s.procs && p != s.running && TailRight(s, p) && Kept(s, p)
    ensures TailRight(s', p) && Kept(s', p)
  {
  }

  lemma OwnSeated(f: Full, s': Sched)
    requires Seated(f.s) && BusySound(f) && AllCome(f.s) && OnItsOwn(f.s, s')
    ensures Seated(s') && BusySound(f.(s := s')) && AllCome(s')
  {
    SameRoster(f.s, s');
    assert f.s.running != 0;
    hide Roster, NoDup;
    forall p | ShouldBeBusy(s', p) ensures p in s'.busy {
      assert ShouldBeBusy(f.s, p);
    }
  }

  lemma OwnSound(f: Full, s': Sched)
    requires Sound(f) && OnItsOwn(f.s, s') && TailRight(s', s'.running) && Kept(s', s'.running)
    ensures Sound(f.(s := s'))
  {
    hide Sound, Seated, BusySound, AllCome, TailRight, Kept;
    SoundParts(f);
    OwnSeated(f, s');
    forall p | p in s'.procs ensures TailRight(s', p) && Kept(s', p) {
      if p != f.s.running {
        SoundAt(f, p);
        OwnOther(f.s, s', p);
      }
    }
    SoundFrom(f.(s := s'));
  }

  lemma TakeLetterHas(proc: Proc)
    requires proc.inbox.items != []
    ensures Has(proc.(inbox := Rest(proc.inbox))) + multiset{proc.inbox.items[0]} == Has(proc)
  {
    var items := proc.inbox.items;
    assert items == [items[0]] + items[1..];
    assert multiset(items) == multiset{items[0]} + multiset(items[1..]);
  }

  lemma ReceiveHas(proc: Proc)
    ensures Has(proc.(inbox := Prepend(proc.badmatch, proc.inbox), badmatch := NONE)) == Has(proc)
  {
    assert multiset(proc.badmatch.items + proc.inbox.items) == multiset(proc.badmatch.items) + multiset(proc.inbox.items);
    assert Prepend(proc.badmatch, proc.inbox).items == proc.badmatch.items + proc.inbox.items;
  }

  lemma BadmatchHas(proc: Proc, c: Letter)
    requires TailValid(proc.badmatch)
    ensures Has(proc.(badmatch := Put(proc.badmatch, c))) == Has(proc) + multiset{c}
  {
    var items := proc.badmatch.items;
    assert Put(proc.badmatch, c).items == items + [c];
    assert multiset(items + [c]) == multiset(items) + multiset{c};
  }

  lemma EatenOpen(proc: Proc, c: Letter)
    requires Numbered(proc) && c in Open(proc)
    ensures var proc' := proc.(eaten := proc.eaten + {c.no}); Numbered(proc') && Open(proc') == Open(proc) - multiset{c}
  {
    UnreadEaten(proc.arrived, proc.eaten, c);
    UnreadIncreasing(proc.arrived, proc.eaten);
  }

  /** The four steps of a call. */
  predicate OfCall(step: Step) {
    step.TakeLetter? || step.Receive? || step.ReturnOk? || step.ReturnBadmatch?
  }

  lemma CallTails(s: Sched, step: Step)
    requires Enabled(s, step) && OfCall(step) && TailRight(s, s.running)
    ensures OnItsOwn(s, Next(s, step)) && Next(s, step).running == s.running && TailRight(Next(s, step), s.running)
  {
  }

  lemma Sums(s: Sched, s': Sched, p: D.Poff, has: multiset<Letter>, hand: multiset<Letter>, open: multiset<Letter>)
    requires p in s'.procs && Numbered(s'.procs[p]) && Has(s'.procs[p]) == has && InHand(s', p) == hand && Open(s'.procs[p]) == open
    requires has + hand == open
    ensures Kept(s', p)
  {
  }

  lemma TakeLetterKept(s: Sched)
    requires Enabled(s, TakeLetter) && Kept(s, s.running)
    ensures s.running in Next(s, TakeLetter).procs && Kept(Next(s, TakeLetter), s.running)
  {
    var proc := s.procs[s.running];
    var s' := Next(s, TakeLetter);
    hide Has, Open, Unread;
    TakeLetterHas(proc);
    Taken(s);
    hide InHand, Numbered;
    Sums(s, s', s.running, Has(proc.(inbox := Rest(proc.inbox))), multiset{proc.inbox.items[0]}, Open(proc));
  }

  lemma Taken(s: Sched)
    requires Enabled(s, TakeLetter) && Numbered(s.procs[s.running])
    ensures var p, proc, s' := s.running, s.procs[s.running], Next(s, TakeLetter);
            && p in s'.procs && s'.procs[p] == proc.(inbox := Rest(proc.inbox))
            && InHand(s, p) == multiset{} && InHand(s', p) == multiset{proc.inbox.items[0]}
            && Open(s'.procs[p]) == Open(proc) && Numbered(s'.procs[p])
  {
    hide Unread;
  }

  lemma ReceiveKept(s: Sched)
    requires Enabled(s, Receive) && Kept(s, s.running)
    ensures s.running in Next(s, Receive).procs && Kept(Next(s, Receive), s.running)
  {
    var proc := s.procs[s.running];
    var s' := Next(s, Receive);
    ReceiveHas(proc);
    assert InHand(s', s.running) == InHand(s, s.running);
    assert Open(s'.procs[s.running]) == Open(proc) && Numbered(s'.procs[s.running]);
    hide Has, Open, Numbered, InHand;
    Sums(s, s', s.running, Has(proc), InHand(s, s.running), Open(proc));
  }

  lemma Returned(s: Sched, step: Step)
    requires Enabled(s, step) && (step.ReturnOk? || step.ReturnBadmatch?)
    ensures var p, proc, c, s' := s.running, s.procs[s.running], s.hand.letter, Next(s, step);
            && InHand(s, p) == multiset{c} && InHand(s', p) == multiset{} && p in s'.procs
            && s'.procs[p] == if step.ReturnOk? then proc.(eaten := proc.eaten + {c.no}) else proc.(badmatch := Put(proc.badmatch, c))
  {
  }

  lemma SameOpen(proc: Proc, badmatch: Box)
    ensures Open(proc.(badmatch := badmatch)) == Open(proc) && Numbered(proc.(badmatch := badmatch)) == Numbered(proc)
  {
  }

  lemma SameHas(proc: Proc, eaten: set<nat>)
    ensures Has(proc.(eaten := eaten)) == Has(proc)
  {
  }

  lemma HandOpen(s: Sched, c: Letter)
    requires s.running in s.procs && Kept(s, s.running) && InHand(s, s.running) == multiset{c}
    ensures c in Open(s.procs[s.running])
  {
  }

  lemma ReturnOkKept(s: Sched)
    requires Enabled(s, ReturnOk) && Kept(s, s.running)
    ensures s.running in Next(s, ReturnOk).procs && Kept(Next(s, ReturnOk), s.running)
  {
    var proc, c := s.procs[s.running], s.hand.letter;
    hide Has, Open, Numbered, InHand, Next;
    Returned(s, ReturnOk);
    HandOpen(s, c);
    EatenOpen(proc, c);
    SameHas(proc, proc.eaten + {c.no});
    Sums(s, Next(s, ReturnOk), s.running, Has(proc), multiset{}, Open(proc) - multiset{c});
  }

  lemma ReturnBadmatchKept(s: Sched)
    requires Enabled(s, ReturnBadmatch) && Kept(s, s.running) && TailRight(s, s.running)
    ensures s.running in Next(s, ReturnBadmatch).procs && Kept(Next(s, ReturnBadmatch), s.running)
  {
    var proc, c := s.procs[s.running], s.hand.letter;
    hide Has, Open, Numbered, InHand, Next;
    Returned(s, ReturnBadmatch);
    BadmatchHas(proc, c);
    SameOpen(proc, Put(proc.badmatch, c));
    Sums(s, Next(s, ReturnBadmatch), s.running, Has(proc) + multiset{c}, multiset{}, Open(proc));
  }

  lemma CallSound(f: Full, step: Step)
    requires Sound(f) && Enabled(f.s, step) && OfCall(step)
    ensures Sound(NextFull(f, step))
  {
    hide Sound, Kept, TailRight, OnItsOwn, Next;
    SoundAt(f, f.s.running);
    CallTails(f.s, step);
    match step {
      case TakeLetter => TakeLetterKept(f.s);
      case Receive => ReceiveKept(f.s);
      case ReturnOk => ReturnOkKept(f.s);
      case ReturnBadmatch => ReturnBadmatchKept(f.s);
      case _ =>
    }
    OwnSound(f, Next(f.s, step));
  }

  /** What a process that is not called has does not depend on who is. */
  lemma IdleKept(s: Sched, s': Sched, p: D.Poff)
    requires p in s.procs && p in s'.procs && s'.procs[p] == s.procs[p] && (s.hand == Empty || p != s.running) && s'.hand == Empty
    requires TailRight(s, p) && Kept(s, p) && (p == s'.running || TailValid(s.procs[p].inbox))
    ensures TailRight(s', p) && Kept(s', p)
  {
    hide Has, Open, Numbered;
  }

  lemma IdleSound(f: Full, f': Full)
    requires Sound(f) && Seated(f'.s) && BusySound(f') && AllCome(f'.s) && f'.s.hand == Empty
    requires forall p | p in f'.s.procs :: p in f.s.procs && f'.s.procs[p] == f.s.procs[p] && (f.s.hand == Empty || p != f.s.running)
    requires forall p | p in f'.s.procs && TailRight(f.s, p) :: p == f'.s.running || TailValid(f.s.procs[p].inbox)
    ensures Sound(f')
  {
    hide Sound, Seated, BusySound, AllCome, TailRight, Kept, InHand, TailValid;
    forall p | p in f'.s.procs ensures TailRight(f'.s, p) && Kept(f'.s, p) {
      SoundAt(f, p);
      IdleKept(f.s, f'.s, p);
    }
    SoundFrom(f');
  }

  lemma SameBusySound(f: Full, f': Full)
    requires BusySound(f) && f' == f.(s := f'.s) && f'.s.busy == f.s.busy && f'.s.procs.Keys == f.s.procs.Keys
    ensures BusySound(f')
  {
  }

  lemma PauseSound(f: Full)
    requires Sound(f) && Enabled(f.s, Pause)
    ensures Sound(NextFull(f, Pause))
  {
    var s' := Next(f.s, Pause);
    hide Sound, Kept, BusySound;
    SoundParts(f);
    SameRoster(f.s, s');
    SameBusySound(f, NextFull(f, Pause));
    PauseCome(f.s);
    hide NoDup, Roster, AllCome;
    IdleSound(f, NextFull(f, Pause));
  }

  lemma PauseCome(s: Sched)
    requires AllCome(s) && Enabled(s, Pause)
    ensures AllCome(Next(s, Pause))
  {
    forall p | ShouldBeBusy(Next(s, Pause), p) ensures p in s.busy {
      assert ShouldBeBusy(s, p);
    }
  }

  lemma TakeBusyCome(s: Sched)
    requires AllCome(s) && Enabled(s, TakeBusy) && 0 !in s.procs
    ensures AllCome(Next(s, TakeBusy))
  {
    forall p | ShouldBeBusy(Next(s, TakeBusy), p) ensures p in s.busy[1..] {
      assert ShouldBeBusy(s, p);
      assert s.busy == [s.busy[0]] + s.busy[1..];
    }
  }

  lemma TakeBusyBusySound(f: Full)
    requires BusySound(f) && Enabled(f.s, TakeBusy)
    ensures BusySound(NextFull(f, TakeBusy))
  {
    var busy := f.s.busy;
    FirstOnly(busy);
    assert Elements(busy) - {busy[0]} == Elements(busy[1..]);
  }

  lemma TakeBusySound(f: Full)
    requires Sound(f) && Enabled(f.s, TakeBusy)
    ensures Sound(NextFull(f, TakeBusy))
  {
    var s', busy := Next(f.s, TakeBusy), f.s.busy;
    hide Sound, Kept, BusySound, AllCome;
    SoundParts(f);
    TakeBusyBusySound(f);
    TakeBusyCome(f.s);
    SameRoster(f.s, s');
    assert busy[0] != 0;
    hide NoDup, Roster;
    IdleSound(f, NextFull(f, TakeBusy));
  }

  lemma StartKept(s: Sched, p: D.Poff, q: D.Poff)
    requires Enabled(s, Start(p)) && q in Next(s, Start(p)).procs && s.running != p
    requires q != p ==> TailRight(s, q) && Kept(s, q)
    ensures TailRight(Next(s, Start(p)), q) && Kept(Next(s, Start(p)), q)
  {
  }

  lemma StartSeated(f: Full, p: D.Poff)
    requires Seated(f.s) && BusySound(f) && AllCome(f.s) && Enabled(f.s, Start(p))
    ensures var f' := NextFull(f, Start(p)); Seated(f'.s) && BusySound(f') && AllCome(f'.s)
  {
    var s' := Next(f.s, Start(p));
    ConsNoDup(p, f.s.list);
    assert Roster(s');
    hide NoDup, Roster;
    forall q | ShouldBeBusy(s', q) ensures q in s'.busy {
      assert ShouldBeBusy(f.s, q);
    }
  }

  lemma StartSound(f: Full, p: D.Poff)
    requires Sound(f) && Enabled(f.s, Start(p))
    ensures Sound(NextFull(f, Start(p)))
  {
    var f' := NextFull(f, Start(p));
    hide Sound, BusySound, AllCome, TailRight, Kept;
    SoundParts(f);
    StartSeated(f, p);
    assert f.s.running != p;
    hide Seated;
    forall q | q in f'.s.procs ensures TailRight(f'.s, q) && Kept(f'.s, q) {
      if q != p {
        SoundAt(f, q);
      }
      StartKept(f.s, p, q);
    }
    SoundFrom(f');
  }

  lemma ExitRoster(s: Sched)
    requires Roster(s) && s.running in s.procs && s.hand.Holding?
    ensures Roster(Next(s, ReturnExit))
  {
    WithoutFacts(s.list, s.running);
  }

  /** A process that exits is taken out of the busy queue if it is there, and leaves that
      without a known end if it was the last of several. */
  lemma ExitBusySound(f: Full)
    requires BusySound(f) && Enabled(f.s, ReturnExit)
    ensures BusySound(NextFull(f, ReturnExit))
  {
    var busy, p := f.s.busy, f.s.running;
    WithoutFacts(busy, p);
    assert Elements(busy) - {p} == Elements(Without(busy, p));
    if f.known && busy[|busy| - 1] != p {
      assert busy[|busy| - 1] in busy;
    }
  }

  lemma ExitSound(f: Full)
    requires Sound(f) && Enabled(f.s, ReturnExit)
    ensures Sound(NextFull(f, ReturnExit))
  {
    var s' := Next(f.s, ReturnExit);
    hide Sound, Kept;
    SoundParts(f);
    assert NoDup(f.s.busy);
    WithoutFacts(f.s.busy, f.s.running);
    ExitRoster(f.s);
    ExitBusySound(f);
    hide NoDup, Roster, BusySound, Without;
    forall p | ShouldBeBusy(s', p) ensures p in s'.busy {
      assert ShouldBeBusy(f.s, p);
    }
    IdleSound(f, NextFull(f, ReturnExit));
  }

  /** A step loses no message, and enqueues no process twice, just when it is harmless. */
  lemma NextSoundIff(f: Full, step: Step)
    requires Sound(f) && Enabled(f.s, step)
    ensures Sound(NextFull(f, step)) <==> Harmless(f, step)
  {
    match step {
      case Arrive(m) => ArriveSoundIff(f, m);
      case Start(p) => StartSound(f, p);
      case TakeBusy => TakeBusySound(f);
      case TakeLetter => CallSound(f, step);
      case Receive => CallSound(f, step);
      case ReturnOk => CallSound(f, step);
      case ReturnBadmatch => CallSound(f, step);
      case ReturnExit => ExitSound(f);
      case Pause => PauseSound(f);
    }
  }

  // Runs

  predicate CanAll(f: Full, steps: seq<Step>)
    decreases |steps|
  {
    steps == [] || (Enabled(f.s, steps[0]) && CanAll(NextFull(f, steps[0]), steps[1..]))
  }

  predicate HarmlessAll(f: Full, steps: seq<Step>)
    requires CanAll(f, steps)
    decreases |steps|
  {
    steps == [] || (Harmless(f, steps[0]) && HarmlessAll(NextFull(f, steps[0]), steps[1..]))
  }

  ghost predicate SoundThroughout(f: Full, steps: seq<Step>)
    requires CanAll(f, steps)
    decreases |steps|
  {
    Sound(f) && (steps == [] || SoundThroughout(NextFull(f, steps[0]), steps[1..]))
  }

  const NEW_FULL := Full(NEW_DOMAIN, false, {})

  lemma NewSound()
    ensures Sound(NEW_FULL)
  {
    assert Elements([]) == {};
  }

  /** Over a run no message is ever lost, and no process enqueued twice, just when each of
      its steps is harmless. */
  lemma {:induction false} RunSoundIff(f: Full, steps: seq<Step>)
    requires Sound(f) && CanAll(f, steps)
    ensures SoundThroughout(f, steps) <==> HarmlessAll(f, steps)
    decreases |steps|
  {
    hide Sound, Harmless, Enabled, NextFull;
    if steps != [] {
      NextSoundIff(f, steps[0]);
      if Harmless(f, steps[0]) {
        RunSoundIff(NextFull(f, steps[0]), steps[1..]);
      } else if steps[1..] == [] {
        assert !SoundThroughout(NextFull(f, steps[0]), steps[1..]);
      }
    }
  }

  /** What that means: what arrived and was not consumed is in a queue of its process, or in
      its hands; and with nobody busy and nobody running nothing waits in an inbox. */
  lemma SoundMeans(f: Full, p: D.Poff, l: Letter)
    requires Sound(f) && p in f.s.procs && l in Unread(f.s.procs[p].arrived, f.s.procs[p].eaten)
    ensures var proc := f.s.procs[p];
            && (l in proc.badmatch.items || l in proc.inbox.items || (p == f.s.running && f.s.hand == Holding(l)))
            && (f.s.busy == [] && f.s.running == 0 ==> l in proc.badmatch.items)
  {
    var proc := f.s.procs[p];
    SoundAt(f, p);
    SoundParts(f);
    hide Sound, Seated, BusySound, TailRight, Numbered;
    assert l in Open(proc);
    if l in proc.inbox.items {
      assert proc.inbox.items != [];
      assert ShouldBeBusy(f.s, p) || p == f.s.running;
    }
    assert f.s.running == 0 ==> f.s.hand == Empty by { SoundSeated(f); }
  }

  lemma SoundSeated(f: Full)
    requires Sound(f)
    ensures f.s.running == 0 ==> f.s.hand == Empty
  {
  }

  /** A state of module Process, where the busy queue always has a known end. */
  predicate Plainly(f: Full) {
    f.known == (f.s.busy != []) && f.linked == Elements(f.s.busy)
  }

  lemma {:induction false} EachSame(f: Full, ps: seq<D.Poff>, m: D.Msg)
    requires (f.known || f.s.busy == []) && forall p | p in ps :: p in f.s.procs
    ensures Each(f, ps, m).s == DispatchAll(f.s, ps, m)
    decreases |ps|
  {
    if ps != [] {
      SingleSame(f, ps[0], m);
      EachSame(Single(f, ps[0], m), ps[1..], m);
    }
  }

  lemma SingleSame(f: Full, p: D.Poff, m: D.Msg)
    requires p in f.s.procs && (f.known || f.s.busy == [])
    ensures Single(f, p, m).s == DispatchSingle(f.s, p, m)
    ensures var f' := Single(f, p, m); f'.known || f'.s.busy == []
  {
  }

  lemma NextSame(f: Full, step: Step)
    requires Good(f.s) && Enabled(f.s, step) && (f.known || f.s.busy == [])
    ensures NextFull(f, step).s == Next(f.s, step)
  {
    if step.Arrive? {
      ListedOf(f.s);
      hide Good;
      var ps := Targets(f.s, step.m);
      EachSame(f, ps, step.m);
      if step.m.poff != 0 && step.m.poff in f.s.procs {
        assert ps == [step.m.poff] && ps[1..] == [];
        assert DispatchAll(f.s, ps, step.m) == DispatchAll(DispatchSingle(f.s, ps[0], step.m), ps[1..], step.m);
      }
    }
  }

  lemma SafeTarget(s: Sched, m: D.Msg, p: D.Poff)
    requires Good(s) && Enabled(s, Arrive(m)) && Safe(s, Arrive(m)) && p in Targets(s, m) && p in s.procs && !s.procs[p].inbox.last
    ensures s.procs[p].inbox.items == [] && p !in s.busy
  {
    hide Good, Listed, InOrder, NoDup;
    GoodAt(s, p);
    ListedOf(s);
    assert p in s.busy <==> ShouldBeBusy(s, p);
  }

  lemma GoodTargets(s: Sched, m: D.Msg)
    requires Good(s)
    ensures Are(s, Targets(s, m))
  {
    hide Good, BusyRight, NoDup;
    ListedOf(s);
    TargetsAre(s, m);
  }

  lemma TargetsAre(s: Sched, m: D.Msg)
    requires Roster(s)
    ensures Are(s, Targets(s, m)) && Enabled(s, Arrive(m))
  {
  }

  /** In a good state every safe step is harmless, and the two modules agree. */
  lemma SafeIsHarmless(f: Full, step: Step)
    requires Good(f.s) && Plainly(f) && Enabled(f.s, step) && Safe(f.s, step)
    ensures Harmless(f, step) && NextFull(f, step).s == Next(f.s, step)
  {
    NextSame(f, step);
    hide Good, NextFull, Next, Safe, Targets, Woken, NoDup;
    if step.Arrive? {
      var ps := Targets(f.s, step.m);
      GoodTargets(f.s, step.m);
      WokenFacts(f.s, ps);
      forall p | p in Woken(f.s, ps) ensures p in f.s.procs && f.s.procs[p].inbox.items == [] && p !in f.s.busy {
        SafeTarget(f.s, step.m, p);
      }
    }
  }

  lemma OneTarget(s: Sched, m: D.Msg)
    requires m.poff in s.procs && m.poff != 0
    ensures Targets(s, m) == [m.poff] && Are(s, [m.poff])
    ensures Woken(s, [m.poff]) == if s.procs[m.poff].inbox.last then [] else [m.poff]
  {
    var ps := [m.poff];
    assert ps[1..] == [];
    assert Woken(s, ps[1..]) == [];
  }

  /** The first self-send of a process whose inbox is empty does no harm; the next one does, if
      the process has come to the end of its inbox again meanwhile. */
  lemma SelfSends(f: Full, m: D.Msg)
    requires Sound(f) && f.known && f.s.running in f.s.procs && m.poff == f.s.running
    requires f.s.procs[f.s.running].inbox == NONE
    ensures Enabled(f.s, Arrive(m)) && (Harmless(f, Arrive(m)) <==> f.s.running !in f.s.busy)
    ensures f.s.running in NextFull(f, Arrive(m)).s.busy
  {
    hide Sound, BusySound, AllCome, Roster, Woken, Targets, Enabled, Each, Are, NoDup;
    SoundParts(f);
    TargetsAre(f.s, m);
    OneTarget(f.s, m);
    EachBusy(f, [m.poff], m);
  }
}
