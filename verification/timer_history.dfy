/** What a run of the wheel adds to its history. */
module TimerHistory {
  import opened Wrappers
  import opened TimerSpec
  import opened TimerSlots
  import opened TimerWheel
  import opened TimerRuns
  import opened Seqs

  /** Calls that callbacks may make. */
  type Allowed = Op -> bool

  ghost predicate Keeps(script: Script, may: Allowed) {
    forall k, i | 0 <= i < |script(k)| :: may(script(k)[i])
  }

  predicate Within(ev: Event, may: Allowed) {
    ev.Did? ==> may(ev.op)
  }

  /** The history goes on with no other calls than these. */
  ghost predicate GoesOn(log: seq<Event>, log': seq<Event>, may: Allowed) {
    |log| <= |log'| && log'[..|log|] == log && forall i | |log| <= i < |log'| :: Within(log'[i], may)
  }

  lemma Chain(a: seq<Event>, b: seq<Event>, c: seq<Event>, may: Allowed)
    requires GoesOn(a, b, may) && GoesOn(b, c, may)
    ensures GoesOn(a, c, may)
  {
    assert c[..|a|] == c[..|b|][..|a|];
    forall i | |a| <= i < |c| ensures Within(c[i], may) {
      if i < |b| {
        assert c[i] == c[..|b|][i];
      }
    }
  }

  lemma Snoc(log: seq<Event>, ev: Event, may: Allowed)
    requires Within(ev, may)
    ensures GoesOn(log, log + [ev], may) && GoesOn(log, log, may)
  {
  }

  lemma {:induction false} OpsGoOn(w: Wheel, ops: seq<Op>, may: Allowed)
    requires forall i | 0 <= i < |ops| :: may(ops[i])
    ensures GoesOn(w.log, DoOps(w, ops).log, may)
    decreases |ops|
  {
    if ops == [] {
      Snoc(w.log, Ticked, may);
    } else {
      Snoc(w.log, Did(ops[0]), may);
      OpsGoOn(DoOp(w, ops[0]), ops[1..], may);
      Chain(w.log, DoOp(w, ops[0]).log, DoOps(w, ops).log, may);
    }
  }

  lemma {:induction false} DrainGoesOn(script: Script, w: Wheel, may: Allowed)
    requires Keeps(script, may)
    ensures GoesOn(w.log, Drain(script, w).log, may)
    decreases |w.lists[WORK]|
  {
    if w.lists[WORK] == [] {
      Snoc(w.log, Ticked, may);
    } else {
      var fired, w' := Fire(w), DoOps(Fire(w), script(w.calls));
      Snoc(w.log, Fired(w.lists[WORK][0]), may);
      OpsGoOn(fired, script(w.calls), may);
      DrainGoesOn(script, w', may);
      Chain(w.log, fired.log, w'.log, may);
      Chain(w.log, w'.log, Drain(script, w).log, may);
    }
  }

  lemma {:induction false} RelinkLog(w: Wheel, rest: seq<TimerId>)
    ensures Relink(w, rest).log == w.log
    decreases |rest|
  {
    if rest != [] {
      RelinkLog(Link(w, rest[0], Expiry(w, rest[0])), rest[1..]);
    }
  }

  lemma CascadeOneLog(w: Wheel, p: ListNo)
    ensures Cascade(w, p).log == w.log
  {
    RelinkLog(w.(lists := w.lists[p := []]), w.lists[p]);
  }

  lemma {:induction false} CascadeLog(w: Wheel, k: nat)
    requires 1 <= k <= 4
    ensures CascadeFrom(w, k).log == w.log
    decreases 4 - k
  {
    hide Floor, Relink;
    var p := LevelBase(k) + Index(k, w.now);
    CascadeOneLog(w, p);
    hide Cascade, Index, LevelBase;
    if Index(k, w.now) == 0 && k < 4 {
      CascadeLog(Cascade(w, p), k + 1);
    }
  }

  lemma TickGoesOn(script: Script, w: Wheel, may: Allowed)
    requires Keeps(script, may) && w.now + 1 < TIME_LIMIT
    ensures GoesOn(w.log, RunTick(script, w).log, may)
  {
    if w.now % TVR_SIZE == 0 {
      CascadeLog(w, 1);
    }
    var open := Open(CascadeAll(w));
    Snoc(w.log, Ticked, may);
    DrainGoesOn(script, open, may);
    Chain(w.log, open.log, RunTick(script, w).log, may);
  }

  lemma {:induction false} RunGoesOn(script: Script, w: Wheel, j: Deadline, may: Allowed)
    requires Keeps(script, may)
    ensures GoesOn(w.log, RunTo(script, w, j).log, may)
    decreases j + 1 - w.now
  {
    hide RunTick;
    if w.now <= j {
      TickGoesOn(script, w, may);
      RunGoesOn(script, RunTick(script, w), j, may);
      Chain(w.log, RunTick(script, w).log, RunTo(script, w, j).log, may);
    } else {
      Snoc(w.log, Ticked, may);
    }
  }

  /** A history without its last event. */
  lemma Front(script: Script, start: nat, log: seq<Event>)
    requires log != [] && Legal(script, start, log)
    ensures var front := log[..|log| - 1];
            && log == front + [log[|log| - 1]] && Legal(script, start, front)
            && Step(script, Final(script, start, front), log[|log| - 1]) == Some(Final(script, start, log))
  {
    var front, ev := log[..|log| - 1], log[|log| - 1];
    assert log == front + [ev];
    ReplayPrefix(script, start, front, [ev], |front|);
  }

  /** Nothing pends afterwards that did not before. */
  ghost predicate Shrinks(pend: map<TimerId, Arming>, pend': map<TimerId, Arming>) {
    forall t | t in pend' :: t in pend && pend'[t] == pend[t]
  }

  predicate Deletes(op: Op) {
    op.Del?
  }

  lemma {:induction false} PendingShrinks(script: Script, start: nat, log: seq<Event>, log': seq<Event>)
    requires GoesOn(log, log', Deletes) && Legal(script, start, log')
    ensures Legal(script, start, log) && Shrinks(Final(script, start, log).pend, Final(script, start, log').pend)
    decreases |log'|
  {
    if |log'| > |log| {
      var front := log'[..|log'| - 1];
      assert front[..|log|] == log && Within(log'[|log'| - 1], Deletes);
      Front(script, start, log');
      hide Replay;
      PendingShrinks(script, start, log, front);
    } else {
      assert log' == log;
    }
  }

  // Callbacks that do nothing to the wheel

  /** The timers that fired after the first n events, in this order. */
  function FiredSince(log: seq<Event>, n: nat): seq<TimerId> {
    if |log| <= n then []
    else
      var fired := FiredSince(log[..|log| - 1], n);
      if log[|log| - 1].Fired? then fired + [log[|log| - 1].t] else fired
  }

  predicate Silent(op: Op) {
    false
  }

  lemma {:induction false} FiredGone(script: Script, start: nat, log: seq<Event>, log': seq<Event>)
    requires GoesOn(log, log', Silent) && Legal(script, start, log')
    ensures var fired := FiredSince(log', |log|);
            && Legal(script, start, log) && NoDup(fired)
            && var pend := Final(script, start, log).pend;
            && Final(script, start, log').pend == pend - Elements(fired)
            && forall t | t in fired :: t in pend && pend[t].Due() < Final(script, start, log').now
    decreases |log'|
  {
    if |log'| > |log| {
      var front, ev := log'[..|log'| - 1], log'[|log'| - 1];
      assert front[..|log|] == log && Within(ev, Silent);
      Front(script, start, log');
      hide Replay;
      FiredGone(script, start, log, front);
      if ev.Fired? {
        ConsNoDup(ev.t, FiredSince(front, |log|));
        assert Elements(FiredSince(log', |log|)) == Elements(FiredSince(front, |log|)) + {ev.t};
      }
    } else {
      assert log' == log;
    }
  }

  /** `timers_run` calls back exactly the timers that are due by the tick it is given, each
      once, and takes them away. */
  lemma RunFires(script: Script, start: nat, w: Wheel, j: Deadline)
    requires Idle(script, start, w) && Keeps(script, Silent)
    ensures var r := RunTo(script, w, j); var pend := Pending(script, start, w); var fired := FiredSince(r.log, |w.log|);
            && Idle(script, start, r) && NoDup(fired)
            && (forall t :: t in fired <==> t in pend && pend[t].Due() <= j)
            && Pending(script, start, r) == pend - Elements(fired)
  {
    RunIdle(script, start, w, j);
    RunGoesOn(script, w, j, Silent);
    AllAhead(script, start, w);
    var r := RunTo(script, w, j);
    FiredGone(script, start, w.log, r.log);
    hide RunTo, NoDup, Linked, Matches, Replay;
  }

  /** What a request does to what pends. */
  lemma RequestPending(script: Script, start: nat, w: Wheel, op: Op)
    requires Idle(script, start, w)
    ensures Idle(script, start, DoOp(w, op))
    ensures Pending(script, start, DoOp(w, op)) ==
            match op
            case Mod(t, e) => Pending(script, start, w)[t := Arming(e, w.now)]
            case Del(t) => Pending(script, start, w) - {t}
  {
    OpGood(script, start, w, [], op);
    ReplaySnoc(script, start, w.log, Did(op));
    assert DoOp(w, op).log == w.log + [Did(op)];
    hide Linked, Matches;
  }
}
