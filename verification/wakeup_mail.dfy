/** The mail of the domains under all interleavings of senders and workers: it is run in
    the order in which it was appended, and none of it gets lost. */
module WakeupMail {
  import opened Wakeup
  import opened WakeupRuns

  /** What waits for domain g, oldest first. */
  function Mail(st: State, g: Gid): seq<Msg>
    requires g < |st.doms|
  {
    st.doms[g].local + st.doms[g].remote
  }

  /** What a step appends for g. */
  function Appends(step: Step, g: Gid): seq<Msg> {
    if step.Append? && step.victim == g then step.msgs else []
  }

  /** What a step of thread t takes from it. */
  function Takes(st: State, t: Tid, step: Step, g: Gid): seq<Msg>
    requires Enabled(st, t, step)
  {
    if step.Consume? && st.threads[t].pc.gid == g then [st.doms[g].local[0]] else []
  }

  function Appended(run: seq<Move>, g: Gid): seq<Msg> {
    if run == [] then [] else Appends(run[0].step, g) + Appended(run[1..], g)
  }

  function Taken(st: State, run: seq<Move>, g: Gid): seq<Msg>
    requires EnabledAll(st, run)
    decreases |run|
  {
    if run == [] then [] else Takes(st, run[0].t, run[0].step, g) + Taken(Next(st, run[0].t, run[0].step), run[1..], g)
  }

  lemma MailStep(st: State, t: Tid, step: Step, g: Gid)
    requires Enabled(st, t, step) && g < |st.doms|
    ensures |Next(st, t, step).doms| == |st.doms|
    ensures Takes(st, t, step, g) + Mail(Next(st, t, step), g) == Mail(st, g) + Appends(step, g)
  {
    hide Ends, NotEmpty, FirstNode;
    var d, d' := st.doms[g], Next(st, t, step).doms[g];
    if step.Append? && step.victim == g {
      assert d.local + (d.remote + step.msgs) == d.local + d.remote + step.msgs;
    } else if step.Splice? && st.threads[t].pc.gid == g {
      assert d'.local + d'.remote == d.local + d.remote;
    } else if step.Consume? && st.threads[t].pc.gid == g {
      assert [d.local[0]] + d.local[1..] == d.local;
    } else {
      assert d'.local == d.local && d'.remote == d.remote;
    }
  }

  lemma Chain(first: seq<Msg>, more: seq<Msg>, mid: seq<Msg>, end: seq<Msg>, before: seq<Msg>, x: seq<Msg>, y: seq<Msg>)
    requires first + mid == before + x && more + end == mid + y
    ensures (first + more) + end == before + (x + y)
  {
    assert (first + more) + end == first + (more + end);
    assert first + (mid + y) == (first + mid) + y;
    assert (before + x) + y == before + (x + y);
  }

  /** Over every run: what the workers have taken from a domain's inboxes, followed by what
      still waits there, is what waited there before and was appended since, in order. */
  lemma {:induction false} MailKept(st: State, run: seq<Move>, g: Gid)
    requires EnabledAll(st, run) && g < |st.doms|
    ensures g < |After(st, run).doms|
    ensures Taken(st, run, g) + Mail(After(st, run), g) == Mail(st, g) + Appended(run, g)
    decreases |run|
  {
    hide Enabled, Next, Takes, Appends, Mail;
    if run != [] {
      var m, rest := run[0], run[1..];
      var mid := Next(st, m.t, m.step);
      MailStep(st, m.t, m.step, g);
      MailKept(mid, rest, g);
      Chain(Takes(st, m.t, m.step, g), Taken(mid, rest, g), Mail(mid, g), Mail(After(mid, rest), g),
            Mail(st, g), Appends(m.step, g), Appended(rest, g));
    }
  }
}
