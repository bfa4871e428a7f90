/** The part of `struct domain` that one worker at a time works on, and its loops.

    What callbacks do is given by a script, any script: which messages they send, when they
    spawn and when they ask for deferred messages, and what they return.  The methods keep
    the scheduler right as long as each step is safe, and stop where the source would take
    one that is not: see Process.NextGoodIff. */
module ProcessDomain {
  import D = Delivery
  import opened Seqs
  import opened Process
  import opened ProcessRuns
  import opened ProcessEffects

  datatype Effect = Say(m: D.Msg) | Begin(p: D.Poff) | Again

  datatype Recv = Ok | Badmatch | Exit

  datatype Behaviour = Behaviour(effects: seq<Effect>, recv: Recv)

  /** A callback of process p that neither sends to itself nor defers a message after it
      has had the deferred ones put back. */
  predicate WellBehaved(b: Behaviour, gid: D.Gid, p: D.Poff) {
    && (forall e | e in b.effects :: e.Say? && e.m.gid == gid ==> !For(e.m, p))
    && (b.recv == Badmatch ==> Again !in b.effects)
  }

  /** Why a loop ended: nothing left to do, the limit on calls, or an unsafe step ahead. */
  datatype End = Done | Limit | Unsafe

  lemma Extend(steps: seq<Step>, step: Step)
    requires EnabledAll(NEW_DOMAIN, steps) && Good(After(NEW_DOMAIN, steps))
    requires Enabled(After(NEW_DOMAIN, steps), step) && Safe(After(NEW_DOMAIN, steps), step)
    ensures EnabledAll(NEW_DOMAIN, steps + [step])
    ensures After(NEW_DOMAIN, steps + [step]) == Next(After(NEW_DOMAIN, steps), step) && Good(After(NEW_DOMAIN, steps + [step]))
  {
    AfterSnoc(NEW_DOMAIN, steps, step);
    NextGoodIff(After(NEW_DOMAIN, steps), step);
  }

  /** Delivering m is a safe step. */
  predicate MayArrive(s: Sched, m: D.Msg) {
    s.running in s.procs && For(m, s.running) ==> s.procs[s.running].inbox.last
  }

  lemma MayArriveSafe(s: Sched, m: D.Msg)
    requires Good(s)
    ensures Enabled(s, Arrive(m)) && (Safe(s, Arrive(m)) <==> MayArrive(s, m))
    ensures s.running == 0 ==> MayArrive(s, m)
  {
    ListedOf(s);
  }

  /** What an effect does to the processes of the domain. */
  function PerformOne(s: Sched, gid: D.Gid, e: Effect): Sched {
    match e
    case Say(m) => if m.gid == gid && Enabled(s, Arrive(m)) then Next(s, Arrive(m)) else s
    case Begin(p) => if Enabled(s, Start(p)) then Next(s, Start(p)) else s
    case Again => if Enabled(s, Receive) then Next(s, Receive) else s
  }

  /** What a safe effect comes to: a message at home is handed out, a process is added, or
      the deferred messages come before the inbox. */
  ghost predicate Effected(s: Sched, s': Sched, gid: D.Gid, e: Effect) {
    match e
    case Say(m) => if m.gid == gid then HandedOut(s, s', [m]) else s' == s
    case Begin(p) => if p != 0 && p !in s.procs then Started(s, s', p) else s' == s
    case Again => InFront(s, s')
  }

  lemma PerformEffects(s: Sched, gid: D.Gid, e: Effect)
    requires Good(s) && s.running in s.procs && s.hand.Holding? && EffectSafe(s, gid, e)
    ensures Effected(s, PerformOne(s, gid, e), gid, e)
  {
    hide Good, Next, HandedOut, Started, InFront;
    match e {
      case Say(m) =>
        MayArriveSafe(s, m);
        if m.gid == gid {
          ArriveHandsOut(s, m);
          assert Next(s, Arrive(m)) == DispatchLocal(s, m) by { ArriveIs(s, m); }
        }
      case Begin(p) =>
        if p != 0 && p !in s.procs {
          StartAdds(s, p);
        }
      case Again =>
        ReceiveFront(s);
    }
  }

  lemma ArriveIs(s: Sched, m: D.Msg)
    requires Enabled(s, Arrive(m))
    ensures Next(s, Arrive(m)) == DispatchLocal(s, m)
  {
  }

  function PerformAll(s: Sched, gid: D.Gid, effects: seq<Effect>): Sched {
    if effects == [] then s
    else PerformOne(PerformAll(s, gid, effects[..|effects| - 1]), gid, effects[|effects| - 1])
  }

  predicate EffectSafe(s: Sched, gid: D.Gid, e: Effect) {
    e.Say? && e.m.gid == gid ==> MayArrive(s, e.m)
  }

  predicate EffectsSafe(s: Sched, gid: D.Gid, effects: seq<Effect>) {
    effects == []
    || (EffectsSafe(s, gid, effects[..|effects| - 1])
        && EffectSafe(PerformAll(s, gid, effects[..|effects| - 1]), gid, effects[|effects| - 1]))
  }

  /** A callback that takes safe steps only, called in s. */
  predicate BehaviourSafe(s: Sched, gid: D.Gid, b: Behaviour) {
    EffectsSafe(s, gid, b.effects) && (b.recv == Badmatch ==> PerformAll(s, gid, b.effects).putBack == 0)
  }

  function Sent(gid: D.Gid, effects: seq<Effect>): seq<D.Msg> {
    if effects == [] then []
    else
      var e := effects[|effects| - 1];
      Sent(gid, effects[..|effects| - 1]) + if e.Say? && e.m.gid != gid then [e.m] else []
  }

  function ReturnStep(recv: Recv): Step {
    match recv
    case Ok => ReturnOk
    case Badmatch => ReturnBadmatch
    case Exit => ReturnExit
  }

  /** How many of the messages are to a live process, or to all. */
  function Delivered(live: set<D.Poff>, msgs: seq<D.Msg>): nat {
    if msgs == [] then 0
    else (if msgs[0].poff == 0 || msgs[0].poff in live then 1 else 0) + Delivered(live, msgs[1..])
  }

  /** What a loop over callbacks comes to: why it ended, the scheduler then, the number of
      calls, and what was sent to other domains.  When the step ahead is unsafe, `s` is the
      scheduler as the last callback was called in it. */
  datatype Outcome = Outcome(end: End, s: Sched, calls: nat, sent: seq<D.Msg>)

  function Plus(sent: seq<D.Msg>, o: Outcome): Outcome {
    o.(sent := sent + o.sent)
  }

  lemma PlusPlus(a: seq<D.Msg>, b: seq<D.Msg>, o: Outcome)
    ensures Plus(a, Plus(b, o)) == Plus(a + b, o) && Plus([], o) == o
  {
    assert [] + o.sent == o.sent && a + (b + o.sent) == (a + b) + o.sent;
  }

  predicate Runs(s: Sched) {
    s.running in s.procs && s.running != 0 && s.hand == Empty
  }

  lemma PerformKeeps(s: Sched, gid: D.Gid, e: Effect)
    ensures var s' := PerformOne(s, gid, e);
            s'.running == s.running && s'.hand == s.hand && s.procs.Keys <= s'.procs.Keys
            && (e != Again ==> s'.putBack == s.putBack)
  {
    if e.Say? && Enabled(s, Arrive(e.m)) && e.m.poff == 0 && !e.m.gc {
      AllSame(s, s.list, e.m);
    }
  }

  lemma {:induction false} PerformAllKeeps(s: Sched, gid: D.Gid, effects: seq<Effect>)
    ensures var s' := PerformAll(s, gid, effects);
            s'.running == s.running && s'.hand == s.hand && s.procs.Keys <= s'.procs.Keys
    decreases |effects|
  {
    if effects != [] {
      PerformAllKeeps(s, gid, effects[..|effects| - 1]);
      PerformKeeps(PerformAll(s, gid, effects[..|effects| - 1]), gid, effects[|effects| - 1]);
    }
  }

  /** A callback and what becomes of its message. */
  function Called(s: Sched, gid: D.Gid, b: Behaviour): (r: Sched)
    requires s.running in s.procs && s.running != 0 && s.hand.Holding?
    ensures if b.recv == Exit then r.running == 0 && s.running !in r.procs else r.running == s.running && Runs(r)
  {
    PerformAllKeeps(s, gid, b.effects);
    Next(PerformAll(s, gid, b.effects), ReturnStep(b.recv))
  }

  /** `process_run` */
  function RunProcess(s: Sched, gid: D.Gid, behave: (nat, D.Poff) -> Behaviour, calls: nat, limit: nat): (o: Outcome)
    requires Runs(s)
    ensures calls <= o.calls && (o.end == Done ==> o.s.running == 0)
    ensures o.end == Done ==> s.running !in o.s.procs || o.s.procs[s.running].inbox.items == []
    ensures o.end == Done && s.procs[s.running].inbox.items != [] ==> calls < o.calls
    ensures o.end == Unsafe ==> calls < o.calls && o.s.running == s.running && !BehaviourSafe(o.s, gid, behave(o.calls - 1, s.running))
    decreases limit - calls
  {
    if s.procs[s.running].inbox.items == [] then Outcome(Done, Next(s, Pause), calls, [])
    else if calls >= limit then Outcome(Limit, s, calls, [])
    else
      var taken := Next(s, TakeLetter);
      var b := behave(calls, s.running);
      if !BehaviourSafe(taken, gid, b) then Outcome(Unsafe, taken, calls + 1, [])
      else if b.recv == Exit then Outcome(Done, Called(taken, gid, b), calls + 1, Sent(gid, b.effects))
      else Plus(Sent(gid, b.effects), RunProcess(Called(taken, gid, b), gid, behave, calls + 1, limit))
  }

  /** There is a busy process, and it has mail. */
  predicate Takes(s: Sched) {
    s.running == 0 && s.hand == Empty && s.busy != [] && s.busy[0] in s.procs && s.busy[0] != 0
    && s.procs[s.busy[0]].inbox.items != []
  }

  /** `process_queue_run` */
  function RunQueue(s: Sched, gid: D.Gid, behave: (nat, D.Poff) -> Behaviour, calls: nat, limit: nat): (o: Outcome)
    ensures calls <= o.calls
    ensures o.end == Unsafe ==> calls < o.calls && !BehaviourSafe(o.s, gid, behave(o.calls - 1, o.s.running))
    decreases limit - calls
  {
    if !Takes(s) then Outcome(Done, s, calls, [])
    else if calls >= limit then Outcome(Limit, s, calls, [])
    else
      var o := RunProcess(Next(s, TakeBusy), gid, behave, calls, limit);
      if o.end != Done then o else Plus(o.sent, RunQueue(o.s, gid, behave, o.calls, limit))
  }

  /** The loops end as o says.  At an unsafe step they have stopped inside the callback. */
  ghost predicate EndsAs(o: Outcome, end: End, s: Sched, calls: nat, sent: seq<D.Msg>) {
    end == o.end && calls == o.calls && (end != Unsafe ==> s == o.s && sent == o.sent)
  }

  class Domain {
    const gid: D.Gid
    const behave: (nat, D.Poff) -> Behaviour
    var calls: nat

    var list: seq<D.Poff>
    var procs: map<D.Poff, Proc>
    var busy: seq<D.Poff>
    var running: D.Poff
    var hand: Hand
    var putBack: nat

    var remote: seq<D.Msg>
    var local: seq<D.Msg>
    /** What was sent to other domains. */
    var abroad: seq<D.Msg>

    /** What happened so far. */
    ghost var steps: seq<Step>

    ghost function View(): Sched
      reads this
    {
      Sched(list, procs, busy, running, hand, putBack)
    }

    ghost predicate Valid()
      reads this
    {
      && EnabledAll(NEW_DOMAIN, steps)
      && View() == After(NEW_DOMAIN, steps)
      && Good(View())
    }

    /** No callback sends to itself, or defers after having had messages put back. */
    ghost predicate Tame() {
      forall k, p :: WellBehaved(behave(k, p), gid, p)
    }

    constructor (gid: D.Gid, behave: (nat, D.Poff) -> Behaviour)
      ensures Valid() && View() == NEW_DOMAIN && local == [] && remote == []
    {
      this.gid, this.behave, calls := gid, behave, 0;
      list, procs, busy, running, hand, putBack := [], map[], [], 0, Empty, 0;
      remote, local, abroad := [], [], [];
      steps := [];
      new;
      NewGood();
    }

    /** `dispatch_msg_single` */
    method DispatchMsgSingle(p: D.Poff, m: D.Msg)
      requires p in procs
      modifies this`procs, this`busy
      ensures View() == DispatchSingle(old(View()), p, m) && procs.Keys == old(procs).Keys
    {
      var proc := procs[p];
      var letter := Letter(|proc.arrived|, m);
      var wasEmpty := !proc.inbox.last;
      procs := procs[p := proc.(inbox := Put(proc.inbox, letter), arrived := proc.arrived + [letter])];
      if wasEmpty {
        busy := busy + [p];
      }
    }

    /** `dispatch_msg_broadcast` */
    method DispatchMsgBroadcast(m: D.Msg)
      requires forall p | p in list :: p in procs
      modifies this`procs, this`busy
      ensures View() == DispatchAll(old(View()), old(list), m)
      ensures NoDup(list) ==> busy == old(busy) + Idle(old(View()), old(list))
    {
      hide NoDup, Idle, DispatchSingle;
      if NoDup(list) {
        BroadcastQueues(View(), list, m);
      }
      var i := 0;
      assert list[..0] == [];
      while i < |list|
        invariant 0 <= i <= |list|
        invariant procs.Keys == old(procs).Keys
        invariant DispatchAll(View(), list[i..], m) == DispatchAll(old(View()), list, m)
      {
        assert list[i..][0] == list[i] && list[i..][1..] == list[i + 1..];
        DispatchMsgSingle(list[i], m);
        i := i + 1;
      }
    }

    /** `dispatch_msg_local` */
    method DispatchMsgLocal(m: D.Msg) returns (counter: nat)
      requires Enabled(View(), Arrive(m))
      modifies this`procs, this`busy
      ensures View() == DispatchLocal(old(View()), m)
      ensures counter == if m.poff == 0 || m.poff in old(procs) then 1 else 0
    {
      counter := 0;
      if m.poff != 0 {
        if m.poff in procs {
          counter := counter + 1;
          DispatchMsgSingle(m.poff, m);
        }
      } else {
        counter := counter + 1;
        if !m.gc {
          DispatchMsgBroadcast(m);
        }
      }
    }

    /** A message arrives, by a safe step. */
    method Admit(m: D.Msg) returns (counter: nat)
      requires Valid() && MayArrive(View(), m)
      modifies this`procs, this`busy, this`steps
      ensures Valid() && old(steps) <= steps && View() == DispatchLocal(old(View()), m) && procs.Keys == old(procs).Keys
      ensures counter == if m.poff == 0 || m.poff in old(procs) then 1 else 0
      ensures counter == 0 ==> View() == old(View())
    {
      MayArriveSafe(View(), m);
      Admitted(m);
      hide Good, Safe, DispatchAll, DispatchSingle;
      counter := DispatchMsgLocal(m);
      Extend(steps, Arrive(m));
      steps := steps + [Arrive(m)];
    }

    /** `dispatch_local_inbox` */
    method DispatchLocalInbox() returns (counter: nat)
      requires Valid() && running == 0
      modifies this`procs, this`busy, this`local, this`steps
      ensures Valid() && old(steps) <= steps && local == []
      ensures View() == DispatchEach(old(View()), old(local)) && HandedOut(old(View()), View(), old(local))
      ensures counter == Delivered(old(procs).Keys, old(local))
      ensures counter == 0 ==> View() == old(View())
    {
      EachHandsOut(View(), local);
      hide Good, DispatchLocal, HandedOut;
      counter := 0;
      while local != []
        invariant Valid() && old(steps) <= steps && procs.Keys == old(procs).Keys
        invariant DispatchEach(View(), local) == DispatchEach(old(View()), old(local))
        invariant counter + Delivered(procs.Keys, local) == Delivered(old(procs).Keys, old(local))
        invariant counter == 0 ==> View() == old(View())
        decreases |local|
      {
        var m := local[0];
        MayArriveSafe(View(), m);
        local := local[1..];
        var delivered := Admit(m);
        counter := counter + delivered;
      }
    }

    /** `process_new`, with the number that the id map gave out */
    method ProcessNew(p: D.Poff)
      requires Valid() && Enabled(View(), Start(p))
      modifies this`list, this`procs, this`steps
      ensures Valid() && old(steps) <= steps && View() == Next(old(View()), Start(p)) && Started(old(View()), View(), p)
    {
      hide Good;
      StartAdds(View(), p);
      Extend(steps, Start(p));
      procs := procs[p := Proc(NONE, NONE, [], {})];
      list := [p] + list;
      steps := steps + [Start(p)];
    }

    /** `msock_receive` */
    method MsockReceive()
      requires Valid() && Enabled(View(), Receive)
      modifies this`procs, this`putBack, this`steps
      ensures Valid() && old(steps) <= steps && View() == Next(old(View()), Receive) && InFront(old(View()), View())
    {
      hide Good;
      ReceiveFront(View());
      Extend(steps, Receive);
      var proc := procs[running];
      procs := procs[running := proc.(inbox := Prepend(proc.badmatch, proc.inbox), badmatch := NONE)];
      putBack := putBack + |proc.badmatch.items|;
      steps := steps + [Receive];
    }

    /** What one effect of a callback does: a message goes into the inboxes at home, or
        abroad. */
    method Perform(e: Effect) returns (ok: bool)
      requires Valid() && hand.Holding? && running in procs
      modifies this`list, this`procs, this`busy, this`putBack, this`abroad, this`steps
      ensures Valid() && old(steps) <= steps && running in procs && old(abroad) <= abroad
      ensures ok <==> EffectSafe(old(View()), gid, e)
      ensures ok ==> View() == PerformOne(old(View()), gid, e) && abroad == old(abroad) + Sent(gid, [e])
      ensures ok ==> Effected(old(View()), View(), gid, e)
      ensures !ok ==> View() == old(View()) && abroad == old(abroad)
    {
      hide Good, Sent, Effected, DispatchLocal, HandedOut, Started, InFront;
      SentOne(gid, e);
      if EffectSafe(View(), gid, e) {
        PerformEffects(View(), gid, e);
      }
      ok := true;
      match e {
        case Say(m) =>
          if m.gid == gid {
            Admitted(m);
            MayArriveSafe(View(), m);
            if For(m, running) && !procs[running].inbox.last {
              return false;
            }
            var counter := Admit(m);
          } else {
            abroad := abroad + [m];
          }
        case Begin(p) =>
          if p != 0 && p !in procs {
            ProcessNew(p);
          }
        case Again =>
          MsockReceive();
      }
    }

    /** The cases of `process_run` after a callback has returned. */
    method Return(recv: Recv)
      requires Valid() && hand.Holding? && running in procs && (recv == Badmatch ==> putBack == 0)
      modifies this`list, this`procs, this`busy, this`running, this`hand, this`putBack, this`steps
      ensures Valid() && old(steps) <= steps && Enabled(old(View()), ReturnStep(recv)) && View() == Next(old(View()), ReturnStep(recv))
      ensures hand == Empty && running == if recv == Exit then 0 else old(running)
      ensures recv == Exit ==> procs == old(procs) - {old(running)} && busy == old(busy)
    {
      hide Good;
      NotBusy(View());
      WithoutNone(busy, running);
      hide Without;
      var step := ReturnStep(recv);
      Extend(steps, step);
      var proc := procs[running];
      match recv {
        case Ok =>
          procs := procs[running := proc.(eaten := proc.eaten + {hand.letter.no})];
        case Badmatch =>
          procs := procs[running := proc.(badmatch := Put(proc.badmatch, hand.letter))];
        case Exit =>
          ProcessFree();
      }
      hand, putBack := Empty, 0;
      steps := steps + [step];
    }

    /** `process_free` */
    method ProcessFree()
      requires running in procs
      modifies this`list, this`procs, this`busy, this`running
      ensures list == Without(old(list), old(running)) && procs == old(procs) - {old(running)}
      ensures busy == Without(old(busy), old(running)) && running == 0
    {
      procs := procs - {running};
      list := Without(list, running);
      if running in busy {
        busy := Without(busy, running);
      } else {
        WithoutNone(busy, running);
      }
      running := 0;
    }

    /** The body of a callback. */
    method PerformEach(effects: seq<Effect>) returns (ok: bool)
      requires Valid() && hand.Holding? && running in procs
      modifies this`list, this`procs, this`busy, this`putBack, this`abroad, this`steps
      ensures Valid() && old(steps) <= steps && running in procs && old(abroad) <= abroad
      ensures ok <==> EffectsSafe(old(View()), gid, effects)
      ensures ok ==> View() == PerformAll(old(View()), gid, effects) && abroad == old(abroad) + Sent(gid, effects)
    {
      hide Valid, PerformOne, PerformAll, EffectSafe, EffectsSafe, Sent;
      EffectsNone(View(), gid);
      var i := 0;
      assert effects[..0] == [];
      while i < |effects|
        invariant 0 <= i <= |effects| && Valid() && running in procs && old(steps) <= steps
        invariant EffectsSafe(old(View()), gid, effects[..i])
        invariant View() == PerformAll(old(View()), gid, effects[..i])
        invariant abroad == old(abroad) + Sent(gid, effects[..i])
      {
        assert effects[..i + 1] == effects[..i] + [effects[i]];
        PerformSnoc(old(View()), gid, effects[..i], effects[i]);
        ok := Perform(effects[i]);
        if !ok {
          UnsafePrefix(old(View()), gid, effects, i + 1);
          return;
        }
        i := i + 1;
      }
      assert effects[..i] == effects;
      ok := true;
    }

    /** A call of the process's callback with the message in hand. */
    method Callback() returns (recv: Recv, ok: bool)
      requires Valid() && hand.Holding? && running in procs && running != 0
      modifies this`list, this`procs, this`busy, this`running, this`hand, this`putBack, this`abroad, this`calls, this`steps
      ensures Valid() && old(steps) <= steps && calls == old(calls) + 1 && old(abroad) <= abroad
      ensures var b := behave(old(calls), old(running));
              && recv == b.recv
              && (ok <==> BehaviourSafe(old(View()), gid, b))
              && (ok ==> View() == Called(old(View()), gid, b) && abroad == old(abroad) + Sent(gid, b.effects))
    {
      hide Valid, Called, BehaviourSafe, Sent;
      var b := behave(calls, running);
      label before:
      calls := calls + 1;
      assert Valid() by { StillValid@before(); }
      recv, ok := Act(b);
    }

    method Act(b: Behaviour) returns (recv: Recv, ok: bool)
      requires Valid() && hand.Holding? && running in procs && running != 0
      modifies this`list, this`procs, this`busy, this`running, this`hand, this`putBack, this`abroad, this`steps
      ensures Valid() && old(steps) <= steps && recv == b.recv && old(abroad) <= abroad
      ensures ok <==> BehaviourSafe(old(View()), gid, b)
      ensures ok ==> View() == Called(old(View()), gid, b) && abroad == old(abroad) + Sent(gid, b.effects)
    {
      PerformAllKeeps(View(), gid, b.effects);
      hide Valid, PerformAll, EffectsSafe, Next, ReturnStep, Enabled, Sent;
      ok := PerformEach(b.effects);
      recv := b.recv;
      if !ok {
        return;
      }
      if recv == Badmatch && putBack != 0 {
        return recv, false;
      }
      Return(recv);
    }

    /** `process_run`: all the messages in the inbox, those that come meanwhile, and those
        put back. */
    method ProcessRun(limit: nat) returns (end: End)
      requires Valid() && Runs(View())
      modifies this`list, this`procs, this`busy, this`running, this`hand, this`putBack, this`abroad, this`calls, this`steps
      ensures Valid() && old(steps) <= steps && old(abroad) <= abroad
      ensures EndsAs(RunProcess(old(View()), gid, behave, old(calls), limit), end, View(), calls, abroad[|old(abroad)|..])
      ensures end == Done ==> old(running) !in procs || procs[old(running)].inbox.items == []
      ensures end == Limit ==> calls >= limit
      ensures end == Unsafe ==> !Tame()
    {
      hide Valid, Good, Tame, BehaviourSafe, WellBehaved, Called, Sent, Enabled, Next, RunProcess;
      ghost var sent: seq<D.Msg> := [];
      PlusPlus([], [], RunProcess(View(), gid, behave, calls, limit));
      while procs[running].inbox.items != []
        invariant Valid() && old(steps) <= steps && Runs(View()) && running == old(running)
        invariant abroad == old(abroad) + sent
        invariant RunProcess(old(View()), gid, behave, old(calls), limit) == Plus(sent, RunProcess(View(), gid, behave, calls, limit))
        decreases limit - calls
      {
        RunTurn(View(), gid, behave, calls, limit);
        if calls >= limit {
          return Limit;
        }
        ghost var b := behave(calls, running);
        var recv, ok := Serve();
        if !ok {
          return Unsafe;
        }
        if recv == Exit {
          assert abroad[|old(abroad)|..] == sent + Sent(gid, b.effects);
          return Done;
        }
        PlusPlus(sent, Sent(gid, b.effects), RunProcess(View(), gid, behave, calls, limit));
        sent := sent + Sent(gid, b.effects);
      }
      RunTurn(View(), gid, behave, calls, limit);
      GoIdle();
      end := Done;
    }

    /** Its body: the callback is called with the first message. */
    method Serve() returns (recv: Recv, ok: bool)
      requires Valid() && Runs(View()) && procs[running].inbox.items != []
      modifies this`list, this`procs, this`busy, this`running, this`hand, this`putBack, this`abroad, this`calls, this`steps
      ensures Valid() && old(steps) <= steps && calls == old(calls) + 1 && old(abroad) <= abroad
      ensures Enabled(old(View()), TakeLetter)
      ensures var b, taken := behave(old(calls), old(running)), Next(old(View()), TakeLetter);
              && recv == b.recv && taken.running == old(running) && taken.running in taken.procs && taken.running != 0 && taken.hand.Holding?
              && (ok <==> BehaviourSafe(taken, gid, b))
              && (ok ==> View() == Called(taken, gid, b) && abroad == old(abroad) + Sent(gid, b.effects))
      ensures !ok ==> !Tame()
    {
      hide Valid, Good, Tame, BehaviourSafe, WellBehaved, Called, Sent, Enabled, Next;
      TakesLetter();
      GetLetter();
      TameSafe(behave(calls, running));
      recv, ok := Callback();
    }

    lemma TakesLetter()
      requires Runs(View()) && procs[running].inbox.items != []
      ensures Enabled(View(), TakeLetter)
      ensures var s := Next(View(), TakeLetter); s.running == running && running in s.procs && s.hand.Holding? && s.putBack == 0
    {
    }

    lemma TameSafe(b: Behaviour)
      requires Valid() && hand.Holding? && running in procs && putBack == 0 && b == behave(calls, running)
      ensures Tame() ==> BehaviourSafe(View(), gid, b)
    {
      if Tame() {
        assert WellBehaved(behave(calls, running), gid, running);
        ListedOf(View());
        WellBehavedSafe(View(), gid, b.effects);
      }
    }

    lemma StillLive()
      requires Valid()
      ensures (running == 0 || running in procs) && 0 !in procs
    {
      ListedOf(View());
    }

    /** `queue_get` on the inbox of the running process */
    method GetLetter()
      requires Valid() && Enabled(View(), TakeLetter)
      modifies this`procs, this`hand, this`putBack, this`steps
      ensures Valid() && old(steps) <= steps && View() == Next(old(View()), TakeLetter)
    {
      hide Good;
      Extend(steps, TakeLetter);
      var proc := procs[running];
      hand, putBack := Holding(proc.inbox.items[0]), 0;
      procs := procs[running := proc.(inbox := Rest(proc.inbox))];
      steps := steps + [TakeLetter];
    }

    method GoIdle()
      requires Valid() && Enabled(View(), Pause)
      modifies this`running, this`steps
      ensures Valid() && old(steps) <= steps && View() == Next(old(View()), Pause)
    {
      hide Good;
      Extend(steps, Pause);
      running := 0;
      steps := steps + [Pause];
    }

    /** `queue_get` on the busy queue */
    method GetBusy()
      requires Valid() && Enabled(View(), TakeBusy)
      modifies this`busy, this`running, this`steps
      ensures Valid() && old(steps) <= steps && View() == Next(old(View()), TakeBusy)
    {
      hide Good;
      Extend(steps, TakeBusy);
      running, busy := busy[0], busy[1..];
      steps := steps + [TakeBusy];
    }

    /** `process_queue_run`: when it comes to its end, nobody has a message left. */
    method ProcessQueueRun(limit: nat) returns (end: End)
      requires Valid() && running == 0
      modifies this`list, this`procs, this`busy, this`running, this`hand, this`putBack, this`abroad, this`calls, this`steps
      ensures Valid() && old(steps) <= steps && old(abroad) <= abroad
      ensures EndsAs(RunQueue(old(View()), gid, behave, old(calls), limit), end, View(), calls, abroad[|old(abroad)|..])
      ensures end == Done ==> running == 0 && busy == [] && forall p | p in procs :: procs[p].inbox.items == []
      ensures end == Limit ==> calls >= limit
      ensures end == Unsafe ==> !Tame()
    {
      hide Valid, Good, Tame, Enabled, Next, RunProcess, RunQueue, Plus, Takes, Runs;
      ghost var sent: seq<D.Msg> := [];
      PlusPlus([], [], RunQueue(View(), gid, behave, calls, limit));
      while busy != []
        invariant Valid() && old(steps) <= steps && running == 0
        invariant abroad == old(abroad) + sent
        invariant RunQueue(old(View()), gid, behave, old(calls), limit) == Plus(sent, RunQueue(View(), gid, behave, calls, limit))
        decreases limit - calls
      {
        BusyHasMail();
        QueueTurn(View(), gid, behave, calls, limit);
        if calls >= limit {
          EndsPlus(RunQueue(View(), gid, behave, calls, limit), Limit, View(), calls, [], sent);
          assert abroad[|old(abroad)|..] == sent + [];
          return Limit;
        }
        ghost var before := abroad;
        ghost var o := RunProcess(Next(View(), TakeBusy), gid, behave, calls, limit);
        end := RunFirst(limit);
        assert abroad[|old(abroad)|..] == sent + abroad[|before|..];
        EndsPlus(o, end, View(), calls, abroad[|before|..], sent);
        if end != Done {
          return;
        }
        PlusPlus(sent, o.sent, RunQueue(View(), gid, behave, calls, limit));
        sent := sent + o.sent;
      }
      QueueEnds(View(), gid, behave, calls, limit);
      EndsPlus(RunQueue(View(), gid, behave, calls, limit), Done, View(), calls, [], sent);
      assert abroad[|old(abroad)|..] == sent + [];
      AllRead();
      end := Done;
    }

    /** Its body. */
    method RunFirst(limit: nat) returns (end: End)
      requires Valid() && Takes(View()) && calls < limit
      modifies this`list, this`procs, this`busy, this`running, this`hand, this`putBack, this`abroad, this`calls, this`steps
      ensures Valid() && old(steps) <= steps && old(abroad) <= abroad
      ensures Enabled(old(View()), TakeBusy) && Runs(Next(old(View()), TakeBusy))
      ensures EndsAs(RunProcess(Next(old(View()), TakeBusy), gid, behave, old(calls), limit), end, View(), calls, abroad[|old(abroad)|..])
      ensures end == Done ==> running == 0 && calls > old(calls)
      ensures end == Limit ==> calls >= limit
      ensures end == Unsafe ==> !Tame()
    {
      BusyHasMail();
      hide Valid, Good, Tame, Enabled, Next, RunProcess;
      GetBusy();
      end := ProcessRun(limit);
    }

    lemma BusyHasMail()
      requires Valid() && running == 0 && busy != []
      ensures Takes(View()) && Enabled(View(), TakeBusy)
      ensures var s := Next(View(), TakeBusy); Runs(s) && s.procs[s.running].inbox.items != []
    {
      ListedOf(View());
      assert busy[0] in busy;
      assert ShouldBeBusy(View(), busy[0]);
    }

    lemma AllRead()
      requires Valid() && running == 0 && busy == []
      ensures forall p | p in procs :: procs[p].inbox.items == []
    {
      hide Good;
      forall p | p in procs ensures procs[p].inbox.items == [] {
        QuietMeansEmpty(View(), p);
      }
    }

    /** `domain_run`, up to its flush: takes over the remote inbox, and hands out messages
        and runs processes until there is nothing left to do. */
    method DomainRun(limit: nat) returns (end: End)
      requires Valid() && running == 0
      modifies this
      ensures Valid() && old(steps) <= steps && remote == [] && local == [] && old(abroad) <= abroad
      ensures var first := DispatchEach(old(View()), old(local) + old(remote));
              HandedOut(old(View()), first, old(local) + old(remote)) &&
              EndsAs(RunQueue(first, gid, behave, old(calls), limit), end, View(), calls, abroad[|old(abroad)|..])
      ensures end == Done ==> running == 0 && busy == [] && forall p | p in procs :: procs[p].inbox.items == []
      ensures end == Limit ==> calls >= limit
      ensures end == Unsafe ==> !Tame()
    {
      hide Good, Tame, RunQueue, DispatchLocal, HandedOut, DispatchEach, EndsAs;
      EachHandsOut(View(), local + remote);
      label before:
      local := local + remote;
      remote := [];
      assert Valid() by { StillValid@before(); }
      var delivered := DispatchLocalInbox();
      EachKeeps(old(View()), old(local) + old(remote));
      ghost var first := View();
      assert [] == abroad[|old(abroad)|..];
      hide Valid;
      end := Done;
      var more := true;
      while more
        invariant Valid() && old(steps) <= steps && running == 0 && local == [] && remote == [] && old(abroad) <= abroad
        invariant more ==> View() == first && calls == old(calls) && abroad == old(abroad)
        invariant !more ==> EndsAs(RunQueue(first, gid, behave, old(calls), limit), end, View(), calls, abroad[|old(abroad)|..])
        invariant !more ==> end == Done && busy == [] && forall p | p in procs :: procs[p].inbox.items == []
        decreases more
      {
        end := ProcessQueueRun(limit);
        if end != Done {
          return;
        }
        delivered := DispatchLocalInbox();
        more := delivered != 0;
      }
    }

    /** The number of calls is not part of what Valid speaks of. */
    twostate lemma StillValid()
      requires old(Valid()) && View() == old(View()) && steps == old(steps)
      ensures Valid()
    {
    }

    lemma Admitted(m: D.Msg)
      requires Valid()
      ensures DispatchLocal(View(), m).running == running && DispatchLocal(View(), m).procs.Keys == procs.Keys
    {
      ListedOf(View());
      if m.poff == 0 && !m.gc {
        AllSame(View(), list, m);
      }
    }
  }

  lemma {:induction false} EachKeeps(s: Sched, msgs: seq<D.Msg>)
    ensures DispatchEach(s, msgs).running == s.running
    decreases |msgs|
  {
    if msgs != [] && Enabled(s, Arrive(msgs[0])) {
      if msgs[0].poff == 0 && !msgs[0].gc {
        AllSame(s, s.list, msgs[0]);
      }
      EachKeeps(DispatchLocal(s, msgs[0]), msgs[1..]);
    }
  }

  lemma EndsPlus(o: Outcome, end: End, s: Sched, calls: nat, more: seq<D.Msg>, sent: seq<D.Msg>)
    requires EndsAs(o, end, s, calls, more)
    ensures EndsAs(Plus(sent, o), end, s, calls, sent + more)
  {
  }

  lemma RunTurn(s: Sched, gid: D.Gid, behave: (nat, D.Poff) -> Behaviour, calls: nat, limit: nat)
    requires Runs(s)
    ensures s.procs[s.running].inbox.items == [] ==>
              Enabled(s, Pause) && RunProcess(s, gid, behave, calls, limit) == Outcome(Done, Next(s, Pause), calls, [])
    ensures s.procs[s.running].inbox.items != [] && calls >= limit ==>
              RunProcess(s, gid, behave, calls, limit) == Outcome(Limit, s, calls, [])
    ensures s.procs[s.running].inbox.items != [] && calls < limit ==>
              var taken, b := Next(s, TakeLetter), behave(calls, s.running);
              RunProcess(s, gid, behave, calls, limit) ==
              if !BehaviourSafe(taken, gid, b) then Outcome(Unsafe, taken, calls + 1, [])
              else if b.recv == Exit then Outcome(Done, Called(taken, gid, b), calls + 1, Sent(gid, b.effects))
              else Plus(Sent(gid, b.effects), RunProcess(Called(taken, gid, b), gid, behave, calls + 1, limit))
  {
  }

  lemma QueueTurn(s: Sched, gid: D.Gid, behave: (nat, D.Poff) -> Behaviour, calls: nat, limit: nat)
    requires Takes(s)
    ensures RunQueue(s, gid, behave, calls, limit) ==
            if calls >= limit then Outcome(Limit, s, calls, [])
            else
              var o := RunProcess(Next(s, TakeBusy), gid, behave, calls, limit);
              if o.end != Done then o else Plus(o.sent, RunQueue(o.s, gid, behave, o.calls, limit))
  {
  }

  lemma QueueEnds(s: Sched, gid: D.Gid, behave: (nat, D.Poff) -> Behaviour, calls: nat, limit: nat)
    requires s.busy == []
    ensures RunQueue(s, gid, behave, calls, limit) == Outcome(Done, s, calls, [])
  {
  }

  lemma EffectsNone(s: Sched, gid: D.Gid)
    ensures PerformAll(s, gid, []) == s && Sent(gid, []) == [] && EffectsSafe(s, gid, [])
  {
  }

  lemma PerformSnoc(s: Sched, gid: D.Gid, effects: seq<Effect>, e: Effect)
    ensures PerformAll(s, gid, effects + [e]) == PerformOne(PerformAll(s, gid, effects), gid, e)
    ensures Sent(gid, effects + [e]) == Sent(gid, effects) + Sent(gid, [e])
    ensures EffectsSafe(s, gid, effects + [e]) <==> EffectsSafe(s, gid, effects) && EffectSafe(PerformAll(s, gid, effects), gid, e)
  {
    assert (effects + [e])[..|effects|] == effects;
    SentSnoc(gid, effects, e);
  }

  /** What is unsafe early on is unsafe. */
  lemma {:induction false} UnsafePrefix(s: Sched, gid: D.Gid, effects: seq<Effect>, n: nat)
    requires n <= |effects| && !EffectsSafe(s, gid, effects[..n])
    ensures !EffectsSafe(s, gid, effects)
    decreases |effects|
  {
    if n == |effects| {
      assert effects[..n] == effects;
    } else {
      assert effects[..|effects| - 1][..n] == effects[..n];
      UnsafePrefix(s, gid, effects[..|effects| - 1], n);
    }
  }

  /** A callback that neither sends to itself, nor defers after having had messages put
      back, takes safe steps only. */
  lemma WellBehavedSafe(s: Sched, gid: D.Gid, effects: seq<Effect>)
    requires Good(s) && s.running in s.procs
    requires forall e | e in effects :: e.Say? && e.m.gid == gid ==> !For(e.m, s.running)
    ensures EffectsSafe(s, gid, effects) && PerformAll(s, gid, effects).running == s.running
    ensures Again !in effects ==> PerformAll(s, gid, effects).putBack == s.putBack
  {
    if effects != [] {
      var front, e := effects[..|effects| - 1], effects[|effects| - 1];
      assert e in effects;
      WellBehavedSafe(s, gid, front);
      PerformKeeps(PerformAll(s, gid, front), gid, e);
    }
  }

  lemma SentOne(gid: D.Gid, e: Effect)
    ensures Sent(gid, [e]) == if e.Say? && e.m.gid != gid then [e.m] else []
  {
    assert [e][..0] == [];
  }

  lemma SentSnoc(gid: D.Gid, effects: seq<Effect>, e: Effect)
    ensures Sent(gid, effects + [e]) == Sent(gid, effects) + Sent(gid, [e])
  {
    assert (effects + [e])[..|effects|] == effects && [e][..0] == [];
  }

  lemma {:induction false} AllSame(s: Sched, ps: seq<D.Poff>, m: D.Msg)
    requires forall p | p in ps :: p in s.procs
    ensures DispatchAll(s, ps, m).procs.Keys == s.procs.Keys
    ensures var s' := DispatchAll(s, ps, m); s'.running == s.running && s'.putBack == s.putBack && s'.hand == s.hand
    decreases |ps|
  {
    if ps != [] {
      AllSame(DispatchSingle(s, ps[0], m), ps[1..], m);
    }
  }
}
