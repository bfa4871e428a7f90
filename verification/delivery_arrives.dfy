/** Messages arrive: what an action does to what a process has still to get, and how all of
    it comes to be consumed. */
module DeliveryArrives {
  import opened Delivery

  /** What a process has still to get from a source. */
  function Due(net: Net, k: Pair): seq<Msg>
    requires Live(net, k)
  {
    Of(k, net.doms[k.gid].inbox[k.poff]) + InFlight(net, k)
  }

  /** Messages are handed on, within and between domains, or consumed. */
  predicate Moves(a: Action) {
    a.Flush? || a.Splice? || a.Dispatch? || a.Consume?
  }

  /** Of the four queues on the way to a process, the first that is not empty, and what
      empties it. */
  function Move(net: Net, k: Pair): Action
    requires Live(net, k)
  {
    if OutboxOf(net, k.src, k.gid) != [] then Flush(k.src, k.gid)
    else if net.doms[k.gid].remote != [] then Splice(k.gid)
    else if net.doms[k.gid].local != [] then Dispatch(k.gid)
    else Consume(k.gid, k.poff)
  }

  predicate AllEmpty(net: Net, k: Pair)
    requires Live(net, k)
  {
    && OutboxOf(net, k.src, k.gid) == [] && net.doms[k.gid].remote == [] && net.doms[k.gid].local == []
    && net.doms[k.gid].inbox[k.poff] == []
  }

  /** How much is in these queues; a flush or a splice empties one at once. */
  ghost predicate Less(net: Net, net': Net, k: Pair)
    requires Live(net, k) && Live(net', k)
  {
    var o, o' := |OutboxOf(net, k.src, k.gid)|, |OutboxOf(net', k.src, k.gid)|;
    var d, d' := net.doms[k.gid], net'.doms[k.gid];
    o' < o || (o' == o && (|d'.remote| < |d.remote| || (d'.remote == d.remote &&
    (|d'.local| < |d.local| || (d'.local == d.local && |d'.inbox[k.poff]| < |d.inbox[k.poff]|)))))
  }

  lemma FlushMoves(net: Net, k: Pair)
    requires Live(net, k) && OutboxOf(net, k.src, k.gid) != []
    ensures Enabled(net, Flush(k.src, k.gid))
    ensures var net' := Apply(net, Flush(k.src, k.gid)); Live(net', k) && Less(net, net', k)
  {
    FlushDoms(net, k.src, k.gid);
    hide FlushTo;
  }

  lemma DispatchMoves(net: Net, k: Pair)
    requires Placed(net) && Live(net, k) && net.doms[k.gid].local != []
    ensures Enabled(net, Dispatch(k.gid))
    ensures var net' := Apply(net, Dispatch(k.gid)); Live(net', k) && Less(net, net', k)
  {
    LocalHead(net, k.gid);
    DeliverOf(net.doms[k.gid].inbox, net.doms[k.gid].local[0], k);
    DispatchLeaves(net, k.gid, k);
    hide Deliver, Placed, Of, OutboxOf;
  }

  lemma MoveRight(net: Net, k: Pair)
    requires Placed(net) && Live(net, k) && !AllEmpty(net, k)
    ensures Moves(Move(net, k)) && Enabled(net, Move(net, k))
    ensures var net' := Apply(net, Move(net, k)); Live(net', k) && Less(net, net', k) && net'.sent == net.sent
  {
    hide Placed, Deliver;
    if OutboxOf(net, k.src, k.gid) != [] {
      FlushMoves(net, k);
    } else if net.doms[k.gid].remote != [] {
      hide Less, Live;
      SpliceMoves(net, k);
    } else if net.doms[k.gid].local != [] {
      hide Less, Live;
      DispatchMoves(net, k);
    } else {
      hide Less, Live;
      ConsumeMoves(net, k);
    }
  }

  lemma SpliceMoves(net: Net, k: Pair)
    requires Live(net, k) && net.doms[k.gid].remote != []
    ensures Enabled(net, Splice(k.gid))
    ensures var net' := Apply(net, Splice(k.gid)); Live(net', k) && Less(net, net', k)
  {
    assert OutboxOf(Apply(net, Splice(k.gid)), k.src, k.gid) == OutboxOf(net, k.src, k.gid);
  }

  lemma ConsumeMoves(net: Net, k: Pair)
    requires Live(net, k) && net.doms[k.gid].inbox[k.poff] != []
    ensures Enabled(net, Consume(k.gid, k.poff))
    ensures var net' := Apply(net, Consume(k.gid, k.poff)); Live(net', k) && Less(net, net', k)
  {
    assert OutboxOf(Apply(net, Consume(k.gid, k.poff)), k.src, k.gid) == OutboxOf(net, k.src, k.gid);
  }

  /** From every net that keeps the invariant, and for every live process and every source:
      handing messages on and consuming them, with nothing sent, comes to where the process
      has consumed all that the source sent to it. */
  lemma {:induction false} AllArrives(net: Net, k: Pair) returns (run: seq<Action>)
    requires Inv(net) && Live(net, k)
    ensures EnabledAll(net, run) && forall a | a in run :: Moves(a)
    ensures var net' := ApplyAll(net, run); Live(net', k) && net'.sent == net.sent && net'.consumed(k) == net.sent(k)
    decreases |OutboxOf(net, k.src, k.gid)|, |net.doms[k.gid].remote|, |net.doms[k.gid].local|, |net.doms[k.gid].inbox[k.poff]|
  {
    if AllEmpty(net, k) {
      run := [];
      assert Fifo(net, k);
    } else {
      var a := Move(net, k);
      MoveRight(net, k);
      ApplyInv(net, a);
      hide Inv, Apply, Enabled, Move, Moves;
      var rest := AllArrives(Apply(net, a), k);
      run := [a] + rest;
      assert run[1..] == rest;
    }
  }

  /** Whatever happened before. */
  lemma ArrivesFromAnywhere(actions: seq<Action>, k: Pair)
    requires EnabledAll(Init(), actions) && Live(ApplyAll(Init(), actions), k)
    ensures var net := ApplyAll(Init(), actions);
            exists run :: EnabledAll(net, run) && (forall a | a in run :: Moves(a)) && ApplyAll(net, run).consumed(k) == net.sent(k)
  {
    RunInv(Init(), actions);
    hide Inv, Live;
    var run := AllArrives(ApplyAll(Init(), actions), k);
  }

  /** A callback takes one message, the first of its inbox; for no other process, and from no
      other source, is anything different. */
  lemma ConsumeTakes(net: Net, g: Gid, p: Poff, k: Pair)
    requires Inv(net) && Enabled(net, Consume(g, p)) && Live(net, k)
    ensures var net', m := Apply(net, Consume(g, p)), net.doms[g].inbox[p][0];
            && Live(net', k) && net'.sent == net.sent
            && net'.consumed(k) == net.consumed(k) + (if k == Pair(m.src, g, p) then [m] else [])
            && Due(net, k) == (if k == Pair(m.src, g, p) then [m] else []) + Due(net', k)
            && net'.doms == net.doms[g := net.doms[g].(inbox := net.doms[g].inbox[p := net.doms[g].inbox[p][1..]])]
  {
    var net', m := Apply(net, Consume(g, p)), net.doms[g].inbox[p][0];
    ApplyInv(net, Consume(g, p));
    assert Live(net', k) && Fifo(net', k) && Fifo(net, k);
    hide Inv, Of, InFlight;
    var x := if k == Pair(m.src, g, p) then [m] else [];
    assert net'.consumed(k) == net.consumed(k) + x;
    SameBack(net.consumed(k), Due(net, k), x, Due(net', k));
  }

  lemma SameBack<T>(c: seq<T>, due: seq<T>, x: seq<T>, due': seq<T>)
    requires c + due == (c + x) + due'
    ensures due == x + due'
  {
    assert due == (c + due)[|c|..];
    assert x + due' == ((c + x) + due')[|c|..];
  }

  /** A message sent comes last of what those have to get whom it concerns, and nobody
      else. */
  lemma SendReaches(net: Net, m: Msg, k: Pair)
    requires Inv(net) && Enabled(net, Send(m)) && Live(net, k)
    ensures var net' := Apply(net, Send(m));
            && Live(net', k) && net'.consumed == net.consumed
            && net'.sent(k) == net.sent(k) + (if Concerns(m, k) then [m] else [])
            && Due(net', k) == Due(net, k) + if Concerns(m, k) then [m] else []
  {
    var net' := Apply(net, Send(m));
    ApplyInv(net, Send(m));
    SendDoms(net, m);
    assert Live(net', k);
    assert Fifo(net', k) && Fifo(net, k);
    hide Inv, Of, InFlight, Deliver;
    SameFront(net.consumed(k), Due(net, k), Due(net', k), if Concerns(m, k) then [m] else []);
  }

  /** Handing messages on changes nothing of what anybody has to get. */
  lemma HandingOnKeeps(net: Net, a: Action, k: Pair)
    requires Inv(net) && Enabled(net, a) && Live(net, k) && (a.Flush? || a.Splice? || a.Dispatch?)
    ensures var net' := Apply(net, a);
            Live(net', k) && net'.consumed == net.consumed && net'.sent == net.sent && Due(net', k) == Due(net, k)
  {
    var net' := Apply(net, a);
    ApplyInv(net, a);
    StaysLive(net, a, k);
    assert Fifo(net', k) && Fifo(net, k);
    hide Inv, Of, InFlight, Deliver, FlushTo;
    SameFront(net.consumed(k), Due(net, k), Due(net', k), []);
    assert Due(net, k) + [] == Due(net, k);
    assert net.consumed(k) + Due(net', k) == net.consumed(k) + Due(net, k) + [];
  }

  /** The actions but its exit leave a live process alive. */
  lemma StaysLive(net: Net, a: Action, k: Pair)
    requires Placed(net) && Enabled(net, a) && Live(net, k) && a != Exit(k.gid, k.poff)
    ensures Live(Apply(net, a), k)
  {
    if a.Dispatch? && a.gid == k.gid {
      LocalHead(net, k.gid);
    } else if a.Flush? {
      FlushDoms(net, a.src, a.victim);
    } else if a.Send? {
      SendDoms(net, a.m);
    }
    hide Placed, FlushTo, SendTo;
  }

  /** The messages that the sends among these actions send. */
  function Sends(actions: seq<Action>): seq<Msg> {
    if actions == [] then [] else (if actions[0].Send? then [actions[0].m] else []) + Sends(actions[1..])
  }

  lemma SentStep(net: Net, a: Action, k: Pair)
    requires Inv(net) && Enabled(net, a) && Live(net, k) && !Renews(a, k) && a != Exit(k.gid, k.poff)
    ensures Live(Apply(net, a), k) && Apply(net, a).sent(k) == net.sent(k) + Of(k, Sends([a]))
  {
    StaysLive(net, a, k);
    assert [a][1..] == [];
    if a.Send? {
      OfOne(k, a.m);
    }
    hide Inv, FlushTo, Of;
    assert Of(k, []) == [] by { OfNone(k, []); }
  }

  /** Over every run in which a process lives on: what is sent to it is what the sends of
      the run send to it. */
  lemma {:induction false} RunSends(net: Net, actions: seq<Action>, k: Pair)
    requires Inv(net) && EnabledAll(net, actions) && Live(net, k)
    requires forall a | a in actions :: !Renews(a, k) && a != Exit(k.gid, k.poff)
    ensures Live(ApplyAll(net, actions), k) && ApplyAll(net, actions).sent(k) == net.sent(k) + Of(k, Sends(actions))
    decreases |actions|
  {
    hide Inv, Enabled, Apply, Live, Renews, Of;
    if actions == [] {
      OfNone(k, []);
    } else {
      var a, rest := actions[0], actions[1..];
      assert a in actions && forall b | b in rest :: b in actions;
      SentStep(net, a, k);
      ApplyInv(net, a);
      RunSends(Apply(net, a), rest, k);
      SendsFirst(actions);
      hide Sends;
      OfConcat(k, Sends([a]), Sends(rest));
    }
  }

  lemma SendsFirst(actions: seq<Action>)
    requires actions != []
    ensures Sends(actions) == Sends([actions[0]]) + Sends(actions[1..])
  {
    assert [actions[0]][1..] == [];
  }

  /** A spawn adds one process, an exit takes one out, and no other action does either. */
  lemma LivesChange(net: Net, a: Action, k: Pair)
    requires Inv(net) && Enabled(net, a)
    ensures Live(Apply(net, a), k) <==> (Live(net, k) || Renews(a, k)) && a != Exit(k.gid, k.poff)
  {
    if Live(Apply(net, a), k) {
      LiveBefore(net, a, k);
    }
    if Live(net, k) && a != Exit(k.gid, k.poff) {
      StaysLive(net, a, k);
    }
  }

  /** A new process has an empty inbox, and what is on its way to come. */
  lemma SpawnExpects(net: Net, k: Pair)
    requires Inv(net) && Enabled(net, Spawn(k.gid, k.poff))
    ensures var net' := Apply(net, Spawn(k.gid, k.poff));
            && Live(net', k) && net'.doms[k.gid].inbox[k.poff] == [] && net'.consumed(k) == []
            && Due(net', k) == InFlight(net, k) == net'.sent(k)
  {
    var net' := Apply(net, Spawn(k.gid, k.poff));
    assert OutboxOf(net', k.src, k.gid) == OutboxOf(net, k.src, k.gid);
    hide Inv, Concerns;
    OfNone(k, []);
  }

  /** That processes and domains come and go is nothing to the others. */
  lemma OthersKeep(net: Net, a: Action, k: Pair)
    requires Inv(net) && Enabled(net, a) && Live(net, k) && (a.Spawn? || a.Exit? || a.Open?) && a != Exit(k.gid, k.poff)
    ensures var net' := Apply(net, a);
            Live(net', k) && Due(net', k) == Due(net, k) && net'.sent(k) == net.sent(k) && net'.consumed(k) == net.consumed(k)
  {
    hide Inv, Of;
    var net' := Apply(net, a);
    OutboxKept(net, a, k);
  }

  lemma OutboxKept(net: Net, a: Action, k: Pair)
    requires Enabled(net, a) && (a.Spawn? || a.Exit? || a.Open?)
    ensures OutboxOf(Apply(net, a), k.src, k.gid) == OutboxOf(net, k.src, k.gid)
  {
    hide Of;
  }
}
