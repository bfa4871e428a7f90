/** How many workers it takes when mail comes from outside too: one more than there are
    engines to sleep in, if no get is fooled. */
module WakeupStrand {
  import opened Wakeup
  import opened WakeupRuns
  import opened WakeupStaff
  import opened WakeupMoves
  import opened Seqs

  /** A thread that is outside, has ended, or sleeps on an empty pipe, and is not about to
      send. */
  predicate Rests(st: State, th: Thread) {
    th.owed == Nothing && (th.pc.Outside? || th.pc.Quit? || (th.pc.Blocked? && th.pc.gid < |st.doms| && st.doms[th.pc.gid].pipe == 0))
  }

  /** A run from there leaves mail stranded, without a get that is fooled if `fooled` does not
      allow for it. */
  ghost predicate Strands(from: State, fooled: bool) {
    exists run :: EnabledAll(from, run) && (fooled || UnfooledAll(from, run)) && Stranded(After(from, run))
  }

  lemma StrandedWhen(from: State, st: State, g: Gid, fooled: bool)
    requires Comes(from, st) && Waits(st, g) && forall t | 0 <= t < |st.threads| :: Rests(st, st.threads[t])
    requires fooled || forall t | 0 <= t < |st.threads| :: !st.threads[t].pc.Quit?
    ensures Strands(from, fooled)
  {
    var a: nat, stamp: nat :| a <= |st.queue| && Reaches(from, With(st, a, stamp));
    var now := With(st, a, stamp);
    assert Waits(now, g);
    forall t | 0 <= t < |now.threads| ensures !Stirs(now, t) {
      assert Rests(st, st.threads[t]);
      assert now.threads[t].pc.Blocked? ==> !SomeoneOwes(now, now.threads[t].pc.gid);
    }
    hide Stranded;
    var run :| EnabledAll(from, run) && After(from, run) == now;
    assert Stranded(now);
    if !fooled {
      NobodyLeft(from, run);
    }
  }

  // Mail from outside

  const FREE: Thread := Thread(Idle, Nothing)

  /** n workers and somebody outside; n engines, and behind them a domain that is none. */
  function Opening(n: nat): State {
    State(Range(0, n + 1), Behind(0), 0, seq(n, (_: nat) => FREE) + [Thread(Outside, Nothing)], seq(n, (_: nat) => IDLE_ENGINE) + [PlainWith([])])
  }

  lemma OpeningRight(n: nat)
    ensures Init(Opening(n)) && HungryAtMost(Opening(n), 1) && |Workers(Opening(n))| == n && |HungryDoms(Opening(n))| == n
  {
    var st := Opening(n);
    RangeFacts(0, n);
    assert Workers(st) == Elements(Range(0, n)) by { hide HungryDoms; }
    assert HungryDoms(st) == Elements(Range(0, n)) by { hide Workers; }
  }

  /** All workers sleep, each in an engine of its own. */
  lemma WorkersAway(n: nat) returns (st: State)
    ensures Comes(Opening(n), st) && st.queue == [n] && |st.threads| == n + 1 && |st.doms| == n + 1
    ensures forall t | 0 <= t < n :: st.threads[t] == Thread(Blocked(t, 0), Nothing) && st.doms[t] == EngineOf(t)
    ensures st.threads[n] == Thread(Outside, Nothing) && st.doms[n] == PlainWith([])
  {
    var all := Range(0, n);
    st := AllAsleepBy(Opening(n), all, all);
    RangeFacts(0, n);
    RangeJoin(0, n, n + 1);
    ComesHere(Opening(n));
    AsleepFacts(Opening(n), all, all);
    hide Comes, AllAsleepBy;
    SleepEach(Opening(n), Opening(n), all, all, Range(n, n + 1));
    forall t | 0 <= t < n ensures st.threads[t] == Thread(Blocked(t, 0), Nothing) && st.doms[t] == EngineOf(t) {
      assert all[t] == t;
    }
  }

  /** With no more workers than engines, all can be asleep in engines when mail comes for
      another domain, and it is enqueued, so nobody is woken.

      The sender outside stands for a thread that calls `msock_base_send` for a process of
      that domain.  Only for a process of domain 1 that call puts the message right into
      the process inbox, and does so without waking anybody either. */
  lemma EnginesTakeAll(n: nat, h: nat)
    requires n <= h
    ensures !NeverStranded(n, h, false)
  {
    var st := WorkersAway(n);
    OpeningRight(n);
    hide Comes, NeverStranded, Strands;
    SendsTo(Opening(n), st, n, n, 7, Outside);
    var now := WithMail(st, n, 7).(threads := st.threads[n := Thread(Outside, Nothing)]);
    assert now.threads == st.threads;
    StrandedWhen(Opening(n), now, n, false);
    FailedRun(Opening(n), n, h, false);
  }

  lemma FailedRun(st: State, n: nat, h: nat, fooled: bool)
    requires Init(st) && HungryAtMost(st, 1) && |Workers(st)| == n && |HungryDoms(st)| <= h && Strands(st, fooled)
    ensures !NeverStranded(n, h, fooled)
  {
    hide Stranded, Init, HungryAtMost, Workers, HungryDoms;
    var run :| EnabledAll(st, run) && (fooled || UnfooledAll(st, run)) && Stranded(After(st, run));
  }

  /** If no get is fooled: no mail is ever stranded, over all runs of n workers and of
      senders outside, just when there are more workers than domains with a hungry
      process. */
  lemma NeverStrandedIff(n: nat, h: nat)
    ensures NeverStranded(n, h, false) <==> n > h
  {
    hide NeverStranded;
    if n > h {
      MoreWorkersSuffice(n, h);
    } else {
      EnginesTakeAll(n, h);
    }
  }

  /** `msock_base_loop`: the main thread, and one thread less than there are hungry domains. */
  function WorkersFor(hungry: nat): nat {
    1 + if hungry > 0 then hungry - 1 else 0
  }

  /** That is too few as soon as there is an engine. */
  lemma OwnWorkers(hungry: nat)
    ensures NeverStranded(WorkersFor(hungry), hungry, false) <==> hungry == 0
  {
    NeverStrandedIff(WorkersFor(hungry), hungry);
  }
}
