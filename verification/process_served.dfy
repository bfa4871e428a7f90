/** What becomes of the messages of a process that is served. */
module ProcessServed {
  import D = Delivery
  import opened Seqs
  import opened Process
  import opened ProcessRuns
  import opened ProcessDomain

  type Script = (nat, D.Poff) -> Behaviour

  /** Which of the letters are deferred, when process p is called with each of them in
      turn. */
  function Deferred(letters: seq<Letter>, behave: Script, p: D.Poff, calls: nat): seq<Letter> {
    if letters == [] then []
    else (if behave(calls, p).recv == Badmatch then [letters[0]] else []) + Deferred(letters[1..], behave, p, calls + 1)
  }

  /** And which are consumed. */
  function Consumed(letters: seq<Letter>, behave: Script, p: D.Poff, calls: nat): set<nat> {
    if letters == [] then {}
    else (if behave(calls, p).recv == Ok then {letters[0].no} else {}) + Consumed(letters[1..], behave, p, calls + 1)
  }

  /** What n calls send to other domains. */
  function Mailed(n: nat, gid: D.Gid, behave: Script, p: D.Poff, calls: nat): seq<D.Msg> {
    if n == 0 then [] else Sent(gid, behave(calls, p).effects) + Mailed(n - 1, gid, behave, p, calls + 1)
  }

  /** The callback does nothing within its domain, and goes on. */
  predicate Quiet(b: Behaviour, gid: D.Gid) {
    b.recv != Exit && forall e | e in b.effects :: e.Say? && e.m.gid != gid
  }

  lemma {:induction false} QuietPerforms(s: Sched, gid: D.Gid, effects: seq<Effect>)
    requires forall e | e in effects :: e.Say? && e.m.gid != gid
    ensures PerformAll(s, gid, effects) == s && EffectsSafe(s, gid, effects)
    decreases |effects|
  {
    if effects != [] {
      QuietPerforms(s, gid, effects[..|effects| - 1]);
      assert effects[|effects| - 1] in effects;
    }
  }

  /** From s to s' process p has been called with these letters, and nothing else has
      happened. */
  predicate Served(s: Sched, s': Sched, p: D.Poff, letters: seq<Letter>, deferred: seq<Letter>, consumed: set<nat>) {
    && p in s.procs && s'.list == s.list && s'.busy == s.busy
    && s'.procs.Keys == s.procs.Keys && (forall q | q in s.procs && q != p :: s'.procs[q] == s.procs[q])
    && var was, proc := s.procs[p], s'.procs[p];
       && letters + proc.inbox.items == was.inbox.items && proc.arrived == was.arrived
       && proc.badmatch.items == was.badmatch.items + deferred && proc.eaten == was.eaten + consumed
  }

  lemma ServedBoth(s: Sched, mid: Sched, s': Sched, p: D.Poff, l: seq<Letter>, d: seq<Letter>, c: set<nat>, l': seq<Letter>, d': seq<Letter>, c': set<nat>)
    requires Served(s, mid, p, l, d, c) && Served(mid, s', p, l', d', c')
    ensures Served(s, s', p, l + l', d + d', c + c')
  {
    assert s.procs[p].badmatch.items + (d + d') == s.procs[p].badmatch.items + d + d';
    assert l + l' + s'.procs[p].inbox.items == l + (l' + s'.procs[p].inbox.items);
  }

  /** Where the scheduler is after a call with the first letter. */
  function CallOnce(s: Sched, gid: D.Gid, b: Behaviour): Sched
    requires Runs(s) && s.procs[s.running].inbox.items != []
  {
    Called(Next(s, TakeLetter), gid, b)
  }

  /** A call takes the first letter of the inbox, which is consumed, or else put behind the
      deferred ones. */
  lemma CallServes(s: Sched, gid: D.Gid, b: Behaviour)
    requires Runs(s) && s.procs[s.running].inbox.items != [] && TailValid(s.procs[s.running].badmatch) && Quiet(b, gid)
    ensures BehaviourSafe(Next(s, TakeLetter), gid, b) && b.recv != Exit
    ensures var s', l := CallOnce(s, gid, b), s.procs[s.running].inbox.items[0];
            && Runs(s') && s'.running == s.running
            && Served(s, s', s.running, [l], if b.recv == Badmatch then [l] else [], if b.recv == Ok then {l.no} else {})
  {
    QuietPerforms(Next(s, TakeLetter), gid, b.effects);
    hide PerformAll, EffectsSafe, Quiet, TailValid;
    CallReturns(s, b.recv);
  }

  lemma CallGood(s: Sched, gid: D.Gid, b: Behaviour)
    requires Good(s) && Runs(s) && s.procs[s.running].inbox.items != [] && Quiet(b, gid)
    ensures Good(CallOnce(s, gid, b)) && TailValid(s.procs[s.running].badmatch)
  {
    var taken := Next(s, TakeLetter);
    QuietPerforms(taken, gid, b.effects);
    GoodAt(s, s.running);
    TakeLetterGood(s);
    assert TailValid(s.procs[s.running].badmatch);
    hide Good, InOrder, Listed, PerformAll, EffectsSafe, Quiet, TailRight, TailValid;
    NextGoodIff(taken, ReturnStep(b.recv));
  }

  lemma CallReturns(s: Sched, recv: Recv)
    requires Runs(s) && s.procs[s.running].inbox.items != [] && TailValid(s.procs[s.running].badmatch) && recv != Exit
    ensures var s', l := Next(Next(s, TakeLetter), ReturnStep(recv)), s.procs[s.running].inbox.items[0];
            && s'.running == s.running
            && Served(s, s', s.running, [l], if recv == Badmatch then [l] else [], if recv == Ok then {l.no} else {})
  {
  }

  /** A process has gone through its inbox from the first letter to the last: each is
      consumed or deferred as its callback says, the deferred ones stand behind those deferred
      before, in the order of the inbox, and nobody else is concerned. */
  ghost predicate AllServed(s: Sched, o: Outcome, gid: D.Gid, behave: Script, calls: nat)
    requires s.running in s.procs
  {
    var p, letters := s.running, s.procs[s.running].inbox.items;
    && o.end == Done && o.calls == calls + |letters| && o.sent == Mailed(|letters|, gid, behave, p, calls)
    && Served(s, o.s, p, letters, Deferred(letters, behave, p, calls), Consumed(letters, behave, p, calls))
  }

  /** So `process_run` serves a process whose callbacks stay within their own. */
  lemma {:induction false} ServedInOrder(s: Sched, gid: D.Gid, behave: Script, calls: nat, limit: nat)
    requires Good(s) && Runs(s) && calls + |s.procs[s.running].inbox.items| <= limit
    requires forall k | calls <= k < calls + |s.procs[s.running].inbox.items| :: Quiet(behave(k, s.running), gid)
    ensures AllServed(s, RunProcess(s, gid, behave, calls, limit), gid, behave, calls)
    decreases |s.procs[s.running].inbox.items|
  {
    hide Good, Quiet, RunProcess, CallOnce, Sent, Served;
    if s.procs[s.running].inbox.items == [] {
      NothingServed(s, gid, behave, calls, limit);
    } else {
      FirstServed(s, gid, behave, calls, limit);
      ServedInOrder(CallOnce(s, gid, behave(calls, s.running)), gid, behave, calls + 1, limit);
      ServedOn(s, gid, behave, calls, limit);
    }
  }

  lemma FirstOf(letters: seq<Letter>, gid: D.Gid, behave: Script, p: D.Poff, calls: nat)
    requires letters != []
    ensures var b, l := behave(calls, p), letters[0];
            && Deferred(letters, behave, p, calls) == (if b.recv == Badmatch then [l] else []) + Deferred(letters[1..], behave, p, calls + 1)
            && Consumed(letters, behave, p, calls) == (if b.recv == Ok then {l.no} else {}) + Consumed(letters[1..], behave, p, calls + 1)
            && Mailed(|letters|, gid, behave, p, calls) == Sent(gid, b.effects) + Mailed(|letters| - 1, gid, behave, p, calls + 1)
  {
    hide Sent;
  }

  lemma ServedOn(s: Sched, gid: D.Gid, behave: Script, calls: nat, limit: nat)
    requires FirstGoes(s, gid, behave, calls, limit)
    requires AllServed(CallOnce(s, gid, behave(calls, s.running)), RunProcess(CallOnce(s, gid, behave(calls, s.running)), gid, behave, calls + 1, limit), gid, behave, calls + 1)
    ensures AllServed(s, RunProcess(s, gid, behave, calls, limit), gid, behave, calls)
  {
    var p, letters := s.running, s.procs[s.running].inbox.items;
    var b, l, rest := behave(calls, p), letters[0], letters[1..];
    var mid := CallOnce(s, gid, b);
    FirstOf(letters, gid, behave, p, calls);
    assert [l] + rest == letters && |rest| == |letters| - 1;
    hide Deferred, Consumed, Mailed, CallOnce, RunProcess, Sent, Served;
    ServedBoth(s, mid, RunProcess(mid, gid, behave, calls + 1, limit).s, p,
               [l], if b.recv == Badmatch then [l] else [], if b.recv == Ok then {l.no} else {},
               rest, Deferred(rest, behave, p, calls + 1), Consumed(rest, behave, p, calls + 1));
  }

  /** The first call. */
  ghost predicate FirstGoes(s: Sched, gid: D.Gid, behave: Script, calls: nat, limit: nat) {
    && Runs(s) && s.procs[s.running].inbox.items != []
    && var b, l, mid := behave(calls, s.running), s.procs[s.running].inbox.items[0], CallOnce(s, gid, behave(calls, s.running));
       && Runs(mid) && mid.running == s.running && mid.procs[s.running].inbox.items == s.procs[s.running].inbox.items[1..]
       && Served(s, mid, s.running, [l], if b.recv == Badmatch then [l] else [], if b.recv == Ok then {l.no} else {})
       && RunProcess(s, gid, behave, calls, limit) == Plus(Sent(gid, b.effects), RunProcess(mid, gid, behave, calls + 1, limit))
  }

  lemma FirstServed(s: Sched, gid: D.Gid, behave: Script, calls: nat, limit: nat)
    requires Good(s) && Runs(s) && s.procs[s.running].inbox.items != [] && calls < limit && Quiet(behave(calls, s.running), gid)
    ensures FirstGoes(s, gid, behave, calls, limit) && Good(CallOnce(s, gid, behave(calls, s.running)))
  {
    hide Good, Quiet, RunProcess, CallOnce, Sent, Served, BehaviourSafe;
    var b, l := behave(calls, s.running), s.procs[s.running].inbox.items[0];
    CallGood(s, gid, b);
    CallServes(s, gid, b);
    RunOn(s, gid, behave, calls, limit);
    Shorter(s, CallOnce(s, gid, b), s.running, l, if b.recv == Badmatch then [l] else [], if b.recv == Ok then {l.no} else {});
  }

  lemma RunOn(s: Sched, gid: D.Gid, behave: Script, calls: nat, limit: nat)
    requires Runs(s) && s.procs[s.running].inbox.items != [] && calls < limit && behave(calls, s.running).recv != Exit
    requires BehaviourSafe(Next(s, TakeLetter), gid, behave(calls, s.running)) && Runs(CallOnce(s, gid, behave(calls, s.running)))
    ensures var b := behave(calls, s.running);
            RunProcess(s, gid, behave, calls, limit) == Plus(Sent(gid, b.effects), RunProcess(CallOnce(s, gid, b), gid, behave, calls + 1, limit))
  {
    RunTurn(s, gid, behave, calls, limit);
    hide RunProcess, Called, BehaviourSafe, Sent, Next;
  }

  lemma NothingServed(s: Sched, gid: D.Gid, behave: Script, calls: nat, limit: nat)
    requires Runs(s) && s.procs[s.running].inbox.items == []
    ensures var o := RunProcess(s, gid, behave, calls, limit);
            o.end == Done && o.calls == calls && o.sent == [] && Served(s, o.s, s.running, [], [], {})
  {
    RunTurn(s, gid, behave, calls, limit);
    hide RunProcess;
    ServedNone(s, Next(s, Pause), s.running);
  }

  lemma ServedNone(s: Sched, s': Sched, p: D.Poff)
    requires p in s.procs && s' == s.(running := s'.running) && s.procs[p].inbox.items == []
    ensures Served(s, s', p, [], [], {})
  {
  }

  lemma Shorter(s: Sched, mid: Sched, p: D.Poff, l: Letter, d: seq<Letter>, c: set<nat>)
    requires Served(s, mid, p, [l], d, c)
    ensures mid.procs[p].inbox.items == s.procs[p].inbox.items[1..]
  {
    assert s.procs[p].inbox.items[1..] == ([l] + mid.procs[p].inbox.items)[1..];
  }
}
