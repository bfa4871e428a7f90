/** How many workers it takes when nobody sends but the workers. */
module WakeupInside {
  import opened Wakeup
  import opened WakeupRuns
  import opened WakeupStaff
  import opened WakeupPair
  import opened WakeupMoves
  import opened WakeupFooled
  import opened WakeupStrand
  import opened Seqs

  /** n workers and d domains, at most h with a hungry process; nobody sends from outside. */
  ghost predicate Opens(st: State, n: nat, h: nat, d: nat) {
    && Init(st) && HungryAtMost(st, 1) && |st.threads| == n && |st.doms| == d && |HungryDoms(st)| <= h
    && forall t | 0 <= t < n :: st.threads[t].pc.Idle?
  }

  /** No run from there leaves mail stranded, if no get is fooled or `fooled` allows for it. */
  ghost predicate NeverStrandedInside(n: nat, h: nat, d: nat, fooled: bool) {
    forall st, run | Opens(st, n, h, d) && EnabledAll(st, run) && (fooled || UnfooledAll(st, run)) :: !Stranded(After(st, run))
  }

  lemma OpensSizes(st: State, n: nat, h: nat, d: nat)
    requires Opens(st, n, h, d)
    ensures |Workers(st)| == n && |LiveDoms(st)| <= d
  {
    RangeFacts(0, n);
    RangeFacts(0, d);
    assert Workers(st) == Elements(Range(0, n)) by { hide HungryDoms, LiveDoms; }
    assert LiveDoms(st) <= Elements(Range(0, d)) by { hide HungryDoms, Workers; }
    SubsetSize(LiveDoms(st), Elements(Range(0, d)));
  }

  // Enough workers

  /** A worker for every domain, and no get that is fooled. */
  lemma WorkerEach(n: nat, h: nat, d: nat)
    requires d <= n
    ensures NeverStrandedInside(n, h, d, false)
  {
    forall st, run | Opens(st, n, h, d) && EnabledAll(st, run) && UnfooledAll(st, run) ensures !Stranded(After(st, run)) {
      var now := After(st, run);
      OpensSizes(st, n, h, d);
      InitInv(st);
      InitStaff(st);
      RunInv(st, run);
      WorkersStay(st, run, n);
      SubsetSize(LiveDoms(now), LiveDoms(st));
      hide Inv, Workers, Staff, LiveDoms, HungryDoms, Init;
      if g :| Waits(now, g) {
        if SomeoneAwake(now) {
          AwakeStirs(now);
        } else {
          AllAsleep(now, g);
        }
      }
    }
  }

  lemma AwakeStirs(st: State)
    requires SomeoneAwake(st)
    ensures !Stranded(st)
  {
    var t :| t in Staff(st) && !st.threads[t].pc.Blocked?;
    assert Stirs(st, t);
  }

  lemma MoreThanHungry(n: nat, h: nat, d: nat)
    requires n > h
    ensures NeverStrandedInside(n, h, d, false)
  {
    MoreWorkersSuffice(n, h);
    forall st, run | Opens(st, n, h, d) && EnabledAll(st, run) && UnfooledAll(st, run) ensures !Stranded(After(st, run)) {
      OpensSizes(st, n, h, d);
    }
  }

  /** Two domains, and any number of workers. */
  lemma AnyForTwo(n: nat, h: nat, d: nat, fooled: bool)
    requires d <= 2
    ensures NeverStrandedInside(n, h, d, fooled)
  {
    forall st, run | Opens(st, n, h, d) && EnabledAll(st, run) && (fooled || UnfooledAll(st, run)) ensures !Stranded(After(st, run)) {
      PairNeverStrands(st, run);
    }
  }

  /** No engine, and at least one worker. */
  lemma NoEngines(n: nat, d: nat, fooled: bool)
    requires n > 0
    ensures NeverStrandedInside(n, 0, d, fooled)
  {
    OneSuffices(n);
    forall st, run | Opens(st, n, 0, d) && EnabledAll(st, run) && (fooled || UnfooledAll(st, run)) ensures !Stranded(After(st, run)) {
      OpensSizes(st, n, 0, d);
    }
  }

  // The runs that leave mail stranded

  /** n workers, the first of them free and the others at pc; d domains, of which those from
      1 to k are engines. */
  function Calm(n: nat, k: nat, d: nat, others: Pc): (st: State)
    ensures |st.threads| == n && |st.doms| == d && st.queue == Range(0, d)
    ensures forall t | 0 <= t < n :: st.threads[t] == if t == 0 then FREE else Thread(others, Nothing)
    ensures forall g | 0 <= g < d :: st.doms[g] == if 1 <= g <= k then IDLE_ENGINE else PlainWith([])
  {
    State(Range(0, d), Behind(0), 0, seq(n, (t: nat) => if t == 0 then FREE else Thread(others, Nothing)),
          seq(d, (g: nat) => if 1 <= g <= k then IDLE_ENGINE else PlainWith([])))
  }

  lemma CalmOpens(n: nat, k: nat, h: nat, d: nat)
    requires k < d && k <= h
    ensures Opens(Calm(n, k, d, Idle), n, h, d) && Comes(Calm(n, k, d, Idle), Calm(n, k, d, Idle))
  {
    var st := Calm(n, k, d, Idle);
    RangeFacts(1, k + 1);
    assert HungryDoms(st) == Elements(Range(1, k + 1));
    ComesHere(st);
  }

  /** An engine that has been asked for something, by domain 0. */
  const ASKED: Dom := IDLE_ENGINE.(remote := [6])

  /** The first worker, in domain 0, which has asked engine 1 for something. */
  const ASKING: Pc := Flush(0, false, 1, 0)

  /** Domain 0 comes first: the process there asks the engine 1 for an event, of a message that
      it was sent before the loop began. */
  lemma Asks(from: State, st: State, d: nat)
    requires 2 <= d == |st.doms| && st.threads != [] && st.threads[0] == FREE && st.queue == Range(0, d)
    requires Comes(from, st) && st.doms[0] == PlainWith([]) && st.doms[1] == IDLE_ENGINE
    ensures Comes(from, Put(st.(queue := Range(1, d), doms := st.doms[1 := ASKED]), 0, 0, ASKING, OnceTaken(PlainWith([]), 0)))
  {
    RangeFirst(0, d);
    ComesToFlush(from, st, 0);
    hide Comes;
    var base := st.(queue := Range(1, d));
    FlushSends(from, base, 0, 0, Flush(0, false, 0, 0), OnceTaken(PlainWith([]), 0), 1, 6);
    assert [] + [6] == [6];
    assert WithMail(base, 1, 6) == base.(doms := st.doms[1 := ASKED]);
  }

  // Several workers, all of them in engines in the end

  /** The domain 0, with a message that came during its run. */
  const MAIL_UNSEEN: Dom := Dom(false, [7], [], 1, 0, true, Queued)

  /** While the first worker is still in domain 0, the second serves the request, sleeps in
      engine 1 and wakes up for the event, and the engine sends to domain 0.  Then the first
      worker puts its domain back. */
  lemma SentDuringRun(n: nat, d: nat)
    requires 2 <= n < d
    ensures var st := Calm(n, n, d, Idle); Comes(st, st.(queue := Range(2, d) + [1, 0], doms := st.doms[0 := MAIL_UNSEEN]))
  {
    var st := Calm(n, n, d, Idle);
    var base, dom := st.(queue := Range(2, d) + [1]), MAIL_UNSEEN.(poison := true, place := Held(0));
    EngineSends(n, d);
    hide Comes, ComesShort;
    PutsBack(st, base, 0, 0, ASKING, dom);
    var back := Back(base, 0, 0, MAIL_UNSEEN);
    assert back.queue == Range(2, d) + [1, 0];
    assert back.threads == st.threads;
  }

  lemma EngineSends(n: nat, d: nat)
    requires 2 <= n < d
    ensures var st := Calm(n, n, d, Idle);
            Comes(st, Put(st.(queue := Range(2, d) + [1]), 0, 0, ASKING, MAIL_UNSEEN.(poison := true, place := Held(0))))
  {
    var st := Calm(n, n, d, Idle);
    CalmOpens(n, n, n, d);
    hide Comes, Opens;
    Asks(st, st, d);
    var asking := Put(st.(queue := Range(1, d), doms := st.doms[1 := ASKED]), 0, 0, ASKING, OnceTaken(PlainWith([]), 0));
    RangeFirst(1, d);
    SleepsAsked(st, asking, 1, 6);
    var asleep := AsleepBy(asking, 1);
    WakesAndSends(st, asleep, 1, 1, 0, 7);
    assert [] + [7] == [7];
    var sent := Back(WithMail(asleep, 0, 7), 1, 1, IDLE_ENGINE);
    var goal := Put(st.(queue := Range(2, d) + [1]), 0, 0, ASKING, MAIL_UNSEEN.(poison := true, place := Held(0)));
    assert sent.doms == goal.doms;
    assert sent.threads == goal.threads;
  }

  /** The other workers fall asleep in the other engines, and the first one, after all the
      domains behind them, in engine 1. */
  lemma ThenAllSleep(n: nat, d: nat)
    requires 2 <= n < d
    ensures Strands(Calm(n, n, d, Idle), false)
  {
    var from := Calm(n, n, d, Idle);
    var st := from.(queue := Range(2, d) + [1, 0], doms := from.doms[0 := MAIL_UNSEEN]);
    SentDuringRun(n, d);
    RangeJoin(2, n + 1, d);
    RangeFacts(1, n);
    RangeFacts(2, n + 1);
    hide Comes, AllAsleepBy, Calm, Range, NoDup;
    assert st.queue == Range(2, n + 1) + (Range(n + 1, d) + [1, 0]);
    SleepEach(from, st, Range(1, n), Range(2, n + 1), Range(n + 1, d) + [1, 0]);
    OthersAsleep(n, d, st);
    LastSleeps(n, d, AllAsleepBy(st, Range(1, n), Range(2, n + 1)));
  }

  /** Where the other workers are then, and what is left. */
  lemma OthersAsleep(n: nat, d: nat, st: State)
    requires 2 <= n < d && |st.threads| == n && |st.doms| == d
    ensures Fit(st, Range(1, n), Range(2, n + 1))
    ensures var st' := AllAsleepBy(st, Range(1, n), Range(2, n + 1));
            && |st'.threads| == n && |st'.doms| == d && st'.threads[0] == st.threads[0]
            && (forall t | 1 <= t < n :: st'.threads[t] == Thread(Blocked(t + 1, 0), Nothing) && st'.doms[t + 1].pipe == 0)
            && (forall g | 0 <= g < d && !(2 <= g <= n) :: st'.doms[g] == st.doms[g])
  {
    var ts, gs := Range(1, n), Range(2, n + 1);
    RangeFacts(1, n);
    RangeFacts(2, n + 1);
    hide AllAsleepBy, Range, NoDup;
    AsleepFacts(st, ts, gs);
    var st' := AllAsleepBy(st, ts, gs);
    forall t | 1 <= t < n ensures st'.threads[t] == Thread(Blocked(t + 1, 0), Nothing) && st'.doms[t + 1].pipe == 0 {
      assert ts[t - 1] == t && gs[t - 1] == t + 1;
    }
  }

  lemma LastSleeps(n: nat, d: nat, st: State)
    requires 2 <= n < d && Comes(Calm(n, n, d, Idle), st) && |st.threads| == n && |st.doms| == d && st.queue == Range(n + 1, d) + [1, 0]
    requires st.threads[0] == FREE && st.doms[0] == MAIL_UNSEEN && st.doms[1] == IDLE_ENGINE
    requires forall t | 1 <= t < n :: st.threads[t] == Thread(Blocked(t + 1, 0), Nothing) && st.doms[t + 1].pipe == 0
    requires forall g | n < g < d :: Plain(st.doms[g])
    ensures Strands(Calm(n, n, d, Idle), false)
  {
    var from, rest := Calm(n, n, d, Idle), Range(n + 1, d);
    hide Comes, Calm;
    PassAll(from, st, 0, rest, [1, 0]);
    var passed := st.(queue := [1, 0] + rest);
    assert passed.queue[1..] == [0] + rest;
    Sleeps(from, passed, 0);
    var now := AsleepBy(passed, 0);
    assert now.queue[0] == 0;
    StrandedWhen(from, now, 0, false);
  }

  // One worker, and others that are fooled before it comes to that

  /** The threads behind the first, up to the j-th at pc' and the others at pc. */
  function Mixed(st: State, j: nat, pc: Pc, pc': Pc): State
    requires st.threads != []
  {
    st.(threads := seq(|st.threads|, (t: nat) => if t == 0 then st.threads[0] else Thread(if t < j then pc' else pc, Nothing)))
  }

  /** What a get at pc does with a queue that has the divider there. */
  predicate GetMoves(st: State, pc: Pc, step: Step, pc': Pc) {
    && NotEmpty(st)
    && match step
       case Read => pc == Idle && pc' == Reading(FirstNode(st), st.stamp, false)
       case SeeEnd => pc.Reading? && pc.node == LastNode(st) && pc' == pc.(end := true)
       case Leave => pc.Reading? && pc.end && pc.node == FirstNode(st) && pc' == Quit
       case _ => false
  }

  lemma GetStep(st: State, j: nat, pc: Pc, step: Step, pc': Pc)
    requires 0 < j < |st.threads| && GetMoves(st, pc, step, pc')
    ensures var now := Mixed(st, j, pc, pc'); Enabled(now, j, step) && Next(now, j, step) == Mixed(st, j + 1, pc, pc')
  {
    var now := Mixed(st, j, pc, pc');
    assert Next(now, j, step).threads == Mixed(st, j + 1, pc, pc').threads;
  }

  /** The gets of all the other workers make the same step. */
  lemma {:induction false} EachGet(from: State, st: State, j: nat, pc: Pc, step: Step, pc': Pc)
    requires 0 < j <= |st.threads| && GetMoves(st, pc, step, pc') && Reaches(from, Mixed(st, j, pc, pc'))
    ensures Reaches(from, Mixed(st, |st.threads|, pc, pc'))
    decreases |st.threads| - j
  {
    if j < |st.threads| {
      GetStep(st, j, pc, step, pc');
      hide Reaches, Enabled, Next, Mixed;
      Then(from, Mixed(st, j, pc, pc'), j, step, Mixed(st, j + 1, pc, pc'));
      EachGet(from, st, j + 1, pc, step, pc');
    }
  }

  /** The state with the other workers at pc. */
  function Others(st: State, pc: Pc): State
    requires st.threads != []
  {
    Mixed(st, 0, pc, pc)
  }

  lemma OthersGet(from: State, st: State, a: nat, stamp: nat, pc: Pc, step: Step, pc': Pc)
    requires st.threads != [] && a <= |st.queue| && Reaches(from, With(Others(st, pc), a, stamp)) && GetMoves(With(st, a, stamp), pc, step, pc')
    ensures Comes(from, Others(st, pc'))
  {
    var now := With(st, a, stamp);
    assert Mixed(now, 1, pc, pc') == With(Others(st, pc), a, stamp);
    EachGet(from, now, 1, pc, step, pc');
    assert Mixed(now, |st.threads|, pc, pc') == With(Others(st, pc'), a, stamp);
  }

  /** All read the same head. */
  lemma OthersRead(from: State, st: State) returns (seen: nat)
    requires Facing(st, 0) && Comes(from, Others(st, Idle))
    ensures Comes(from, Others(st, Reading(DomainNode(st.queue[0]), seen, false)))
  {
    var a, stamp := DividerLater(from, Others(st, Idle), 0);
    seen := stamp;
    OthersGet(from, st, a, stamp, Idle, Read, Reading(DomainNode(st.queue[0]), seen, false));
  }

  /** It is at the end. */
  lemma OthersSee(from: State, st: State, g: Gid, seen: nat)
    requires st.threads != [] && st.queue != [] && st.queue[|st.queue| - 1] == g
    requires ComesShort(from, Others(st, Reading(DomainNode(g), seen, false)))
    ensures Comes(from, Others(st, Reading(DomainNode(g), seen, true)))
  {
    var a: nat, stamp: nat :| a < |st.queue| && Reaches(from, With(Others(st, Reading(DomainNode(g), seen, false)), a, stamp));
    OthersGet(from, st, a, stamp, Reading(DomainNode(g), seen, false), SeeEnd, Reading(DomainNode(g), seen, true));
  }

  /** It is at the front again, and they end. */
  lemma OthersLeave(from: State, st: State, seen: nat)
    requires Facing(st, 0) && Comes(from, Others(st, Reading(DomainNode(st.queue[0]), seen, true)))
    ensures Comes(from, Others(st, Quit))
  {
    var a, stamp := DividerLater(from, Others(st, Reading(DomainNode(st.queue[0]), seen, true)), 0);
    OthersGet(from, st, a, stamp, Reading(DomainNode(st.queue[0]), seen, true), Leave, Quit);
  }

  lemma OthersCalm(n: nat, d: nat, pc: Pc, pc': Pc)
    requires n > 0
    ensures Others(Calm(n, 1, d, pc), pc') == Calm(n, 1, d, pc')
  {
    assert Others(Calm(n, 1, d, pc), pc').threads == Calm(n, 1, d, pc').threads;
    assert Calm(n, 1, d, pc).doms == Calm(n, 1, d, pc').doms;
  }

  /** With another queue, and one domain changed. */
  function Changed(st: State, queue: seq<Gid>, g: Gid, dom: Dom): State
    requires g < |st.doms|
  {
    st.(queue := queue, doms := st.doms[g := dom])
  }

  /** Domain 0 has asked engine 1 for something, and is put back. */
  lemma AskedOnce(from: State, n: nat, d: nat, pc: Pc)
    requires n > 0 && d >= 3 && Comes(from, Calm(n, 1, d, pc))
    ensures ComesShort(from, Changed(Calm(n, 1, d, pc), Range(1, d) + [0], 1, ASKED))
  {
    var st := Calm(n, 1, d, pc);
    Asks(from, st, d);
    hide Comes, ComesShort;
    var base := st.(queue := Range(1, d), doms := st.doms[1 := ASKED]);
    PutsBack(from, base, 0, 0, ASKING, OnceTaken(PlainWith([]), 0));
    var back := Back(base, 0, 0, PlainWith([]));
    assert back.threads == st.threads;
    assert back.doms == st.doms[1 := ASKED];
  }

  /** The engine serves the request, sleeps, and answers; then comes the turn of the domains
      behind it, as far as 0. */
  lemma Answers(from: State, n: nat, d: nat, pc: Pc)
    requires n > 0 && d >= 3 && Comes(from, Changed(Calm(n, 1, d, pc), Range(1, d) + [0], 1, ASKED))
    ensures Comes(from, Changed(Calm(n, 1, d, pc), [0, 1] + Range(2, d), 0, PlainWith([7])))
  {
    var st := Calm(n, 1, d, pc);
    hide Comes, ComesShort;
    RangeFirst(1, d);
    var asked := Changed(st, Range(1, d) + [0], 1, ASKED);
    assert asked.queue[1..] == Range(2, d) + [0];
    SleepsAsked(from, asked, 0, 6);
    var asleep := AsleepBy(asked, 0);
    WakesAndSends(from, asleep, 0, 1, 0, 7);
    assert [] + [7] == [7];
    var sent := Back(WithMail(asleep, 0, 7), 0, 1, IDLE_ENGINE);
    var goal := Changed(st, Range(2, d) + [0, 1], 0, PlainWith([7]));
    assert sent.threads == goal.threads;
    assert sent.doms == goal.doms;
    assert sent.queue == goal.queue;
    RangeFacts(2, d);
    PassAll(from, goal, 0, Range(2, d), [0, 1]);
    assert goal.(queue := [0, 1] + Range(2, d)) == Changed(st, [0, 1] + Range(2, d), 0, PlainWith([7]));
  }

  /** Domain 0 sends to domain 2, behind the engine, and the worker sleeps there. */
  lemma SleepsBefore(from: State, n: nat, d: nat, pc: Pc, fooled: bool)
    requires n > 0 && d >= 3 && Comes(from, Changed(Calm(n, 1, d, pc), [0, 1] + Range(2, d), 0, PlainWith([7])))
    requires n == 1 || (fooled && pc == Quit)
    ensures Strands(from, fooled)
  {
    var st := Calm(n, 1, d, pc);
    hide Comes, Strands;
    var full := Changed(st, [0, 1] + Range(2, d), 0, PlainWith([7]));
    assert full.queue[1..] == [1] + Range(2, d);
    RunsAndSends(from, full, 0, 7, 2, 7);
    assert [] + [7] == [7];
    var ran := Back(WithMail(full.(queue := full.queue[1..]), 2, 7), 0, 0, PlainWith([]));
    var goal := Changed(st, [1] + Range(2, d) + [0], 2, PlainWith([7]));
    assert ran.threads == goal.threads;
    assert ran.doms == goal.doms;
    assert ran.queue == goal.queue;
    Sleeps(from, goal, 0);
    var now := AsleepBy(goal, 0);
    assert now.queue[0] == Range(2, d)[0] == 2;
    StrandedWhen(from, now, 2, fooled);
  }

  lemma OneSleeps(n: nat, d: nat, fooled: bool)
    requires d >= 3 && (n == 1 || (n > 1 && fooled))
    ensures Strands(Calm(n, 1, d, Idle), fooled)
  {
    var from := Calm(n, 1, d, Idle);
    CalmOpens(n, 1, 1, d);
    hide Comes, ComesShort, Opens, Strands;
    if n == 1 {
      AskedOnce(from, n, d, Idle);
      ShortComes(from, Changed(from, Range(1, d) + [0], 1, ASKED));
      Answers(from, n, d, Idle);
      SleepsBefore(from, n, d, Idle, fooled);
    } else {
      AllFooled(n, d);
      SleepsBefore(from, n, d, Quit, true);
    }
  }

  lemma OthersChanged(n: nat, d: nat, pc: Pc, pc': Pc, queue: seq<Gid>, g: Gid, dom: Dom)
    requires n > 0 && g < d
    ensures Others(Changed(Calm(n, 1, d, pc), queue, g, dom), pc') == Changed(Calm(n, 1, d, pc'), queue, g, dom)
  {
    OthersCalm(n, d, pc, pc');
    assert Others(Changed(Calm(n, 1, d, pc), queue, g, dom), pc').threads == Others(Calm(n, 1, d, pc), pc').threads;
  }

  /** All the other workers have read domain 0 as the head.  They find it at the end after it
      has been run, and at the front again when it has its answer. */
  lemma AllFooled(n: nat, d: nat)
    requires n > 1 && d >= 3
    ensures Comes(Calm(n, 1, d, Idle), Changed(Calm(n, 1, d, Quit), [0, 1] + Range(2, d), 0, PlainWith([7])))
  {
    var from := Calm(n, 1, d, Idle);
    CalmOpens(n, 1, 1, d);
    hide Comes, ComesShort, Opens, Others, Changed;
    OthersCalm(n, d, Idle, Idle);
    var seen := OthersRead(from, from);
    var reading, ended := Reading(DomainNode(0), seen, false), Reading(DomainNode(0), seen, true);
    OthersCalm(n, d, Idle, reading);
    AskedOnce(from, n, d, reading);
    OthersChanged(n, d, reading, reading, Range(1, d) + [0], 1, ASKED);
    OthersChanged(n, d, reading, ended, Range(1, d) + [0], 1, ASKED);
    var asked := Changed(Calm(n, 1, d, reading), Range(1, d) + [0], 1, ASKED);
    assert asked.queue == Range(1, d) + [0] && asked.threads != [] by { ChangedFacts(Calm(n, 1, d, reading), Range(1, d) + [0], 1, ASKED); }
    OthersSee(from, asked, 0, seen);
    Answers(from, n, d, ended);
    OthersChanged(n, d, ended, ended, [0, 1] + Range(2, d), 0, PlainWith([7]));
    OthersChanged(n, d, ended, Quit, [0, 1] + Range(2, d), 0, PlainWith([7]));
    var answered := Changed(Calm(n, 1, d, ended), [0, 1] + Range(2, d), 0, PlainWith([7]));
    ChangedFacts(Calm(n, 1, d, ended), [0, 1] + Range(2, d), 0, PlainWith([7]));
    OthersLeave(from, answered, seen);
  }

  lemma ChangedFacts(st: State, queue: seq<Gid>, g: Gid, dom: Dom)
    requires g < |st.doms|
    ensures var st' := Changed(st, queue, g, dom);
            st'.queue == queue && st'.threads == st.threads && |st'.doms| == |st.doms|
  {
  }

  lemma FailedInside(st: State, n: nat, h: nat, d: nat, fooled: bool)
    requires Opens(st, n, h, d) && Strands(st, fooled)
    ensures !NeverStrandedInside(n, h, d, fooled)
  {
    hide Stranded, Opens;
    var run :| EnabledAll(st, run) && (fooled || UnfooledAll(st, run)) && Stranded(After(st, run));
  }

  lemma {:induction false} NoThreads(st: State, run: seq<Move>)
    requires st.threads == [] && EnabledAll(st, run)
    ensures run == []
  {
  }

  lemma NobodyWorks(h: nat, d: nat, fooled: bool)
    ensures NeverStrandedInside(0, h, d, fooled)
  {
    forall st, run | Opens(st, 0, h, d) && EnabledAll(st, run) && (fooled || UnfooledAll(st, run)) ensures !Stranded(After(st, run)) {
      NoThreads(st, run);
    }
  }

  /** With nobody sending but the workers, and no get that is fooled, no run leaves mail
      stranded just when the workers are more than the hungry domains, or as many as all
      domains, or there are no more than two domains; or no worker at all. */
  lemma NeverStrandedInsideIff(n: nat, h: nat, d: nat)
    ensures NeverStrandedInside(n, h, d, false) <==> n == 0 || n > h || d <= n || d <= 2
  {
    hide NeverStrandedInside, Opens, Stranded, Strands;
    if n > h {
      MoreThanHungry(n, h, d);
    } else if d <= n {
      WorkerEach(n, h, d);
    } else if n == 0 {
      NobodyWorks(h, d, false);
    } else if d <= 2 {
      AnyForTwo(n, h, d, false);
    } else if n >= 2 {
      CalmOpens(n, n, h, d);
      ThenAllSleep(n, d);
      FailedInside(Calm(n, n, d, Idle), n, h, d, false);
    } else {
      CalmOpens(1, 1, h, d);
      OneSleeps(1, d, false);
      FailedInside(Calm(1, 1, d, Idle), 1, h, d, false);
    }
  }

  /** If gets may be fooled, just when there is no engine, or there are no more than two
      domains, or no worker at all: any number of workers can come down to one. */
  lemma FooledInsideIff(n: nat, h: nat, d: nat)
    ensures NeverStrandedInside(n, h, d, true) <==> n == 0 || h == 0 || d <= 2
  {
    hide NeverStrandedInside, Opens, Stranded, Strands;
    if n == 0 {
      NobodyWorks(h, d, true);
    } else if h == 0 {
      NoEngines(n, d, true);
    } else if d <= 2 {
      AnyForTwo(n, h, d, true);
    } else {
      CalmOpens(n, 1, h, d);
      OneSleeps(n, d, true);
      FailedInside(Calm(n, 1, d, Idle), n, h, d, true);
    }
  }

  /** With senders outside as well, and gets that may be fooled: just when there is a worker,
      and no engine. */
  lemma FooledIff(n: nat, h: nat)
    ensures NeverStranded(n, h, true) <==> n > 0 && h == 0
  {
    hide Opens, Stranded, Strands;
    if n == 0 {
      EnginesTakeAll(0, h);
    } else if h == 0 {
      OneSuffices(n);
    } else {
      CalmOpens(n, 1, h, 3);
      OneSleeps(n, 3, true);
      var st := Calm(n, 1, 3, Idle);
      OpensSizes(st, n, h, 3);
      OpensInit(st, n, h, 3);
      hide NeverStranded, Workers, HungryDoms, Init, HungryAtMost;
      FailedRun(st, n, h, true);
    }
  }

  lemma OpensInit(st: State, n: nat, h: nat, d: nat)
    requires Opens(st, n, h, d)
    ensures Init(st) && HungryAtMost(st, 1) && |HungryDoms(st)| <= h
  {
  }

  /** The workers of `msock_base_loop` are enough on their own when there is no engine, when
      every domain is one, or for two domains; and not in any other base. */
  lemma OwnWorkersInside(hungry: nat, d: nat)
    ensures NeverStrandedInside(WorkersFor(hungry), hungry, d, false) <==> hungry == 0 || d <= hungry || d <= 2
    ensures NeverStrandedInside(WorkersFor(hungry), hungry, d, true) <==> hungry == 0 || d <= 2
  {
    NeverStrandedInsideIff(WorkersFor(hungry), hungry, d);
    FooledInsideIff(WorkersFor(hungry), hungry, d);
  }
}
