/** The path of a message from a send to the callback that consumes it, across
    domains: outbox, remote inbox, local inbox, inbox of the process.

    Every action is one atomic section of the source: what one thread does to its
    own domain, or what it does to another one under `remote_inbox_lock`.  Runs
    are arbitrary interleavings of such actions. */
module Delivery {
  import opened Pid

  type Gid = nat
  type Poff = nat

  /** `target` is (gid, poff), poff 0 meaning broadcast; `gc`: the type is MSG_GC. */
  datatype Msg = Msg(src: Gid, gid: Gid, poff: Poff, gc: bool, body: nat)

  /** The queues of a domain; the keys of `inbox` are its live processes. */
  datatype Dom = Dom(outbox: map<Gid, seq<Msg>>, remote: seq<Msg>, local: seq<Msg>, inbox: map<Poff, seq<Msg>>)

  /** A source domain and a target process. */
  datatype Pair = Pair(src: Gid, gid: Gid, poff: Poff)

  /** The domains, what each process has still to expect or has had from each source
      since it was spawned, and what it has consumed of that. */
  datatype Net = Net(doms: map<Gid, Dom>, sent: Pair -> seq<Msg>, consumed: Pair -> seq<Msg>)

  /** Message m is one that process (k.gid, k.poff) gets from domain k.src. */
  predicate Concerns(m: Msg, k: Pair) {
    m.src == k.src && m.gid == k.gid && (m.poff == k.poff || (m.poff == 0 && !m.gc))
  }

  function Of(k: Pair, msgs: seq<Msg>): seq<Msg> {
    if msgs == [] then []
    else (if Concerns(msgs[0], k) then [msgs[0]] else []) + Of(k, msgs[1..])
  }

  lemma {:induction false} OfConcat(k: Pair, a: seq<Msg>, b: seq<Msg>)
    ensures Of(k, a + b) == Of(k, a) + Of(k, b)
  {
    if a == [] {
      assert a + b == b;
    } else {
      assert (a + b)[1..] == a[1..] + b;
      OfConcat(k, a[1..], b);
    }
  }

  lemma OfOne(k: Pair, m: Msg)
    ensures Of(k, [m]) == if Concerns(m, k) then [m] else []
  {
    assert [m][1..] == [];
  }

  lemma {:induction false} OfNone(k: Pair, msgs: seq<Msg>)
    requires forall m | m in msgs :: !Concerns(m, k)
    ensures Of(k, msgs) == []
  {
    if msgs != [] {
      assert msgs[0] in msgs;
      OfNone(k, msgs[1..]);
    }
  }

  function Boxes(outbox: seq<seq<Msg>>): map<Gid, seq<Msg>> {
    map v: Gid | v < |outbox| :: outbox[v]
  }

  lemma BoxesUpdate(outbox: seq<seq<Msg>>, v: Gid, msgs: seq<Msg>)
    requires v < |outbox|
    ensures Boxes(outbox[v := msgs]) == Boxes(outbox)[v := msgs]
    ensures v in Boxes(outbox) && Boxes(outbox)[v] == outbox[v]
  {
  }

  function Outbox(d: Dom, g: Gid): seq<Msg> {
    if g in d.outbox then d.outbox[g] else []
  }

  function OutboxOf(net: Net, s: Gid, v: Gid): seq<Msg> {
    if s in net.doms then Outbox(net.doms[s], v) else []
  }

  predicate Live(net: Net, k: Pair) {
    k.gid in net.doms && k.poff in net.doms[k.gid].inbox && k.poff != 0
  }

  /** What is on its way from k.src to the process, oldest first. */
  function InFlight(net: Net, k: Pair): seq<Msg>
    requires k.gid in net.doms
  {
    var d := net.doms[k.gid];
    Of(k, d.local) + Of(k, d.remote) + Of(k, OutboxOf(net, k.src, k.gid))
  }

  /** `dispatch_msg_single`, `dispatch_msg_broadcast` and `dispatch_special`, as far as
      inboxes go. */
  function Deliver(inbox: map<Poff, seq<Msg>>, m: Msg): map<Poff, seq<Msg>> {
    if m.poff != 0 then
      if m.poff in inbox then inbox[m.poff := inbox[m.poff] + [m]] else inbox
    else if m.gc then inbox
    else map p | p in inbox :: inbox[p] + [m]
  }

  datatype Action =
    | Send(m: Msg)
    | Flush(src: Gid, victim: Gid)
    | Splice(gid: Gid)
    | Dispatch(gid: Gid)
    | Consume(gid: Gid, poff: Poff)
    | Spawn(gid: Gid, poff: Poff)
    | Exit(gid: Gid, poff: Poff)
    | Open(gid: Gid)

  predicate Enabled(net: Net, a: Action) {
    match a
    case Send(m) => m.src in net.doms && m.gid < MAX_DOMAINS
    case Flush(s, v) => s in net.doms
    case Splice(g) => g in net.doms
    case Dispatch(g) => g in net.doms && net.doms[g].local != []
    case Consume(g, p) => g in net.doms && p in net.doms[g].inbox && net.doms[g].inbox[p] != []
    case Spawn(g, p) => g in net.doms && p !in net.doms[g].inbox && p != 0
    case Exit(g, p) => g in net.doms && p in net.doms[g].inbox
    case Open(g) => 0 < g < MAX_DOMAINS && g !in net.doms
  }

  /** `_send_indirect`: straight into the inboxes at home, into the outbox otherwise. */
  function SendTo(net: Net, m: Msg): Net
    requires m.src in net.doms
  {
    var d := net.doms[m.src];
    var d' := if m.gid == m.src then d.(inbox := Deliver(d.inbox, m))
              else d.(outbox := d.outbox[m.gid := Outbox(d, m.gid) + [m]]);
    net.(doms := net.doms[m.src := d'],
         sent := (k: Pair) => if Concerns(m, k) && Live(net, k) then net.sent(k) + [m] else net.sent(k))
  }

  /** One turn of `send_flush_outbox`: under the victim's lock, or dropped when there
      is no such domain. */
  function FlushTo(net: Net, s: Gid, v: Gid): Net
    requires s in net.doms
  {
    var d := net.doms[s];
    var emptied := net.(doms := net.doms[s := d.(outbox := d.outbox[v := []])]);
    if v in net.doms then
      var to := emptied.doms[v];
      emptied.(doms := emptied.doms[v := to.(remote := to.remote + Outbox(d, v))])
    else emptied
  }

  lemma SendDoms(net: Net, m: Msg)
    requires m.src in net.doms
    ensures var doms, doms' := net.doms, SendTo(net, m).doms;
            && doms'.Keys == doms.Keys
            && (forall g | g in doms && g != m.src :: doms'[g] == doms[g])
            && doms'[m.src] == if m.gid == m.src then doms[m.src].(inbox := Deliver(doms[m.src].inbox, m))
                               else doms[m.src].(outbox := doms[m.src].outbox[m.gid := Outbox(doms[m.src], m.gid) + [m]])
  {
  }

  /** What a turn of the flush does, domain by domain. */
  lemma FlushDoms(net: Net, s: Gid, v: Gid)
    requires s in net.doms
    ensures var doms, doms' := net.doms, FlushTo(net, s, v).doms;
            && doms'.Keys == doms.Keys
            && (forall g | g in doms && g != s && g != v :: doms'[g] == doms[g])
            && (s != v ==> doms'[s] == doms[s].(outbox := doms[s].outbox[v := []]))
            && (v in doms && s != v ==> doms'[v] == doms[v].(remote := doms[v].remote + Outbox(doms[s], v)))
            && (s == v ==> doms'[s] == doms[s].(outbox := doms[s].outbox[v := []], remote := doms[v].remote + Outbox(doms[s], v)))
  {
  }

  function Apply(net: Net, a: Action): Net
    requires Enabled(net, a)
  {
    match a
    case Send(m) => SendTo(net, m)
    case Flush(s, v) => FlushTo(net, s, v)
    case Splice(g) =>
      var d := net.doms[g];
      net.(doms := net.doms[g := d.(local := d.local + d.remote, remote := [])])
    case Dispatch(g) =>
      var d := net.doms[g];
      net.(doms := net.doms[g := d.(local := d.local[1..], inbox := Deliver(d.inbox, d.local[0]))])
    case Consume(g, p) =>
      var d := net.doms[g];
      var m := d.inbox[p][0];
      var pair := Pair(m.src, g, p);
      net.(doms := net.doms[g := d.(inbox := d.inbox[p := d.inbox[p][1..]])],
           consumed := (k: Pair) => if k == pair then net.consumed(k) + [m] else net.consumed(k))
    case Spawn(g, p) =>
      var d := net.doms[g];
      net.(doms := net.doms[g := d.(inbox := d.inbox[p := []])],
           sent := (k: Pair) => if k.gid == g && k.poff == p then InFlight(net, k) else net.sent(k),
           consumed := (k: Pair) => if k.gid == g && k.poff == p then [] else net.consumed(k))
    case Exit(g, p) =>
      var d := net.doms[g];
      net.(doms := net.doms[g := d.(inbox := d.inbox - {p})])
    case Open(g) =>
      net.(doms := net.doms[g := Dom(Boxes(seq(MAX_DOMAINS, _ => [])), [], [], map[])])
  }

  ghost predicate OutboxPlaced(g: Gid, outbox: map<Gid, seq<Msg>>) {
    forall v, m | v in outbox && m in outbox[v] :: m.src == g && m.gid == v && v != g
  }

  ghost predicate FromOthers(g: Gid, msgs: seq<Msg>) {
    forall m | m in msgs :: m.gid == g && m.src != g
  }

  ghost predicate ForProcess(g: Gid, p: Poff, msgs: seq<Msg>) {
    forall m | m in msgs :: Concerns(m, Pair(m.src, g, p))
  }

  ghost predicate InboxPlaced(g: Gid, inbox: map<Poff, seq<Msg>>) {
    forall p | p in inbox :: p != 0 && ForProcess(g, p, inbox[p])
  }

  /** Messages are where they can be: an outbox holds what its owner sent to others,
      the domain's inboxes hold what others sent to it, and a process inbox holds what
      concerns that process. */
  ghost predicate DomPlaced(g: Gid, d: Dom) {
    OutboxPlaced(g, d.outbox) && FromOthers(g, d.remote) && FromOthers(g, d.local) && InboxPlaced(g, d.inbox)
  }

  ghost predicate Placed(net: Net) {
    forall g | g in net.doms :: DomPlaced(g, net.doms[g])
  }

  /** First in, first out, and nothing lost or doubled: what was sent to a process is
      what it consumed, followed by its inbox, followed by what is in flight. */
  predicate Fifo(net: Net, k: Pair)
    requires Live(net, k)
  {
    net.sent(k) == net.consumed(k) + (Of(k, net.doms[k.gid].inbox[k.poff]) + InFlight(net, k))
  }

  ghost predicate Conserved(net: Net) {
    forall k | Live(net, k) :: Fifo(net, k)
  }

  ghost predicate Inv(net: Net) {
    Placed(net) && Conserved(net)
  }

  lemma DeliverOf(inbox: map<Poff, seq<Msg>>, m: Msg, k: Pair)
    requires k.poff in inbox && k.poff != 0 && m.gid == k.gid
    ensures Deliver(inbox, m).Keys == inbox.Keys
    ensures Of(k, Deliver(inbox, m)[k.poff]) == Of(k, inbox[k.poff]) + if Concerns(m, k) then [m] else []
  {
    OfConcat(k, inbox[k.poff], [m]);
    OfOne(k, m);
  }

  lemma DeliverPlaced(g: Gid, inbox: map<Poff, seq<Msg>>, m: Msg)
    requires InboxPlaced(g, inbox) && m.gid == g
    ensures InboxPlaced(g, Deliver(inbox, m))
  {
    var inbox' := Deliver(inbox, m);
    forall p | p in inbox' ensures p != 0 && ForProcess(g, p, inbox'[p]) {
      assert p in inbox && ForProcess(g, p, inbox[p]);
    }
  }

  lemma OutboxAppended(g: Gid, d: Dom, m: Msg)
    requires OutboxPlaced(g, d.outbox) && m.src == g && m.gid != g
    ensures OutboxPlaced(g, d.outbox[m.gid := Outbox(d, m.gid) + [m]])
  {
    var box := Outbox(d, m.gid) + [m];
    forall x | x in box ensures x.src == g && x.gid == m.gid {
      assert x == m || x in Outbox(d, m.gid);
    }
    hide Outbox;
    BoxReplaced(g, d.outbox, m.gid, box);
  }

  lemma BoxReplaced(g: Gid, outbox: map<Gid, seq<Msg>>, v: Gid, box: seq<Msg>)
    requires OutboxPlaced(g, outbox) && forall x | x in box :: x.src == g && x.gid == v && v != g
    ensures OutboxPlaced(g, outbox[v := box])
  {
    var outbox' := outbox[v := box];
    forall w, x: Msg | w in outbox' && x in outbox'[w] ensures x.src == g && x.gid == w && w != g {
      if w != v {
        assert outbox'[w] == outbox[w];
        assert x in outbox[w];
      }
    }
    assert OutboxPlaced(g, outbox');
  }

  lemma SendPlaced(net: Net, m: Msg)
    requires Placed(net) && Enabled(net, Send(m))
    ensures Placed(SendTo(net, m))
  {
    var net' := SendTo(net, m);
    SendDoms(net, m);
    hide SendTo, OutboxPlaced, InboxPlaced, FromOthers, Deliver;
    var d := net.doms[m.src];
    assert DomPlaced(m.src, d);
    if m.gid == m.src {
      DeliverPlaced(m.src, d.inbox, m);
    } else {
      OutboxAppended(m.src, d, m);
    }
    forall g | g in net'.doms ensures DomPlaced(g, net'.doms[g]) {
      assert DomPlaced(g, net.doms[g]);
    }
  }

  lemma OutboxEmptied(g: Gid, outbox: map<Gid, seq<Msg>>, v: Gid)
    requires OutboxPlaced(g, outbox)
    ensures OutboxPlaced(g, outbox[v := []])
  {
    BoxReplaced(g, outbox, v, []);
  }

  lemma OutboxFromOwner(g: Gid, d: Dom, v: Gid)
    requires DomPlaced(g, d) && v != g
    ensures FromOthers(v, Outbox(d, v)) && OutboxPlaced(g, d.outbox[v := []])
  {
    OutboxEmptied(g, d.outbox, v);
  }

  lemma FlushPlaced(net: Net, s: Gid, v: Gid)
    requires Placed(net) && Enabled(net, Flush(s, v))
    ensures Placed(FlushTo(net, s, v))
  {
    var net' := FlushTo(net, s, v);
    FlushDoms(net, s, v);
    hide FlushTo, OutboxPlaced, InboxPlaced;
    assert DomPlaced(s, net.doms[s]);
    if s == v {
      hide FromOthers;
      NoMailToSelf(s, net.doms[s]);
    } else {
      OutboxFromOwner(s, net.doms[s], v);
    }
    forall g | g in net'.doms ensures DomPlaced(g, net'.doms[g]) {
      assert DomPlaced(g, net.doms[g]);
    }
  }

  lemma HeadIn(msgs: seq<Msg>)
    ensures msgs == [] || exists m :: m in msgs
  {
    if msgs != [] {
      assert msgs[0] in msgs;
    }
  }

  lemma NoMailToSelf(g: Gid, d: Dom)
    requires DomPlaced(g, d)
    ensures Outbox(d, g) == [] && OutboxPlaced(g, d.outbox[g := []])
  {
    var box := Outbox(d, g);
    HeadIn(box);
    OutboxEmptied(g, d.outbox, g);
    assert forall m | m in box :: m.gid == g && m.gid != g;
  }

  lemma OneDomPlaced(net: Net, net': Net, g: Gid, d: Dom)
    requires Placed(net) && DomPlaced(g, d) && net'.doms == net.doms[g := d]
    ensures Placed(net')
  {
    hide DomPlaced;
  }

  lemma TailPlaced(g: Gid, inbox: map<Poff, seq<Msg>>, p: Poff)
    requires InboxPlaced(g, inbox) && p in inbox && inbox[p] != []
    ensures InboxPlaced(g, inbox[p := inbox[p][1..]])
  {
    assert ForProcess(g, p, inbox[p]);
    assert ForProcess(g, p, inbox[p][1..]);
  }

  lemma LocalHead(net: Net, g: Gid)
    requires Placed(net) && Enabled(net, Dispatch(g))
    ensures net.doms[g].local[0].gid == g
  {
    assert DomPlaced(g, net.doms[g]) && net.doms[g].local[0] in net.doms[g].local;
  }

  lemma DispatchPlaced(net: Net, g: Gid)
    requires Placed(net) && Enabled(net, Dispatch(g))
    ensures Placed(Apply(net, Dispatch(g)))
  {
    var d := net.doms[g];
    var d' := d.(local := d.local[1..], inbox := Deliver(d.inbox, d.local[0]));
    LocalHead(net, g);
    DeliverPlaced(g, d.inbox, d.local[0]);
    assert DomPlaced(g, d') by {
      hide OutboxPlaced, InboxPlaced, Deliver;
    }
    OneDomPlaced(net, Apply(net, Dispatch(g)), g, d');
  }

  lemma ConsumePlaced(net: Net, g: Gid, p: Poff)
    requires Placed(net) && Enabled(net, Consume(g, p))
    ensures Placed(Apply(net, Consume(g, p)))
  {
    hide OutboxPlaced, InboxPlaced, FromOthers;
    var d := net.doms[g];
    TailPlaced(g, d.inbox, p);
    OneDomPlaced(net, Apply(net, Consume(g, p)), g, d.(inbox := d.inbox[p := d.inbox[p][1..]]));
  }

  lemma SplicePlaced(net: Net, g: Gid)
    requires Placed(net) && Enabled(net, Splice(g))
    ensures Placed(Apply(net, Splice(g)))
  {
    hide OutboxPlaced, InboxPlaced;
    var d := net.doms[g];
    assert DomPlaced(g, d);
    OneDomPlaced(net, Apply(net, Splice(g)), g, d.(local := d.local + d.remote, remote := []));
  }

  lemma LifePlaced(net: Net, a: Action)
    requires Placed(net) && Enabled(net, a) && (a.Spawn? || a.Exit? || a.Open?)
    ensures Placed(Apply(net, a))
  {
    hide OutboxPlaced, FromOthers;
    if a.Open? {
      NewPlaced(a.gid);
    } else {
      assert DomPlaced(a.gid, net.doms[a.gid]);
    }
    OneDomPlaced(net, Apply(net, a), a.gid, Apply(net, a).doms[a.gid]);
  }

  lemma NewPlaced(g: Gid)
    ensures DomPlaced(g, Dom(Boxes(seq(MAX_DOMAINS, _ => [])), [], [], map[]))
  {
  }

  lemma ApplyPlaced(net: Net, a: Action)
    requires Placed(net) && Enabled(net, a)
    ensures Placed(Apply(net, a))
  {
    hide Placed;
    match a {
      case Send(m) => SendPlaced(net, m);
      case Flush(s, v) => FlushPlaced(net, s, v);
      case Splice(g) => SplicePlaced(net, g);
      case Dispatch(g) => DispatchPlaced(net, g);
      case Consume(g, p) => ConsumePlaced(net, g, p);
      case _ => LifePlaced(net, a);
    }
  }

  /** Nothing is in flight within a domain. */
  lemma NothingFromHome(net: Net, k: Pair)
    requires Placed(net) && k.gid in net.doms && k.src == k.gid
    ensures InFlight(net, k) == []
  {
    var d := net.doms[k.gid];
    assert DomPlaced(k.gid, d);
    OfNone(k, d.local);
    OfNone(k, d.remote);
    OfNone(k, OutboxOf(net, k.src, k.gid));
  }

  /** An outbox holds nothing for a pair with another source. */
  lemma NothingFromOthers(net: Net, s: Gid, v: Gid, k: Pair)
    requires Placed(net) && k.src != s
    ensures Of(k, OutboxOf(net, s, v)) == []
  {
    if s in net.doms {
      assert DomPlaced(s, net.doms[s]);
      OfNone(k, Outbox(net.doms[s], v));
    }
  }

  /** What a message to another domain adds, for every pair. */
  lemma OutboxAfterSend(net: Net, m: Msg, k: Pair)
    requires Enabled(net, Send(m)) && m.gid != m.src
    ensures Of(k, OutboxOf(SendTo(net, m), k.src, k.gid))
         == Of(k, OutboxOf(net, k.src, k.gid)) + if Concerns(m, k) then [m] else []
  {
    if k.src == m.src && k.gid == m.gid {
      OfConcat(k, Outbox(net.doms[m.src], m.gid), [m]);
      OfOne(k, m);
    }
  }

  lemma SendAbroadFifo(net: Net, m: Msg, k: Pair)
    requires Enabled(net, Send(m)) && Live(net, k) && Fifo(net, k) && m.gid != m.src
    ensures Live(SendTo(net, m), k) && Fifo(SendTo(net, m), k)
  {
    hide Of, Concerns, Outbox, OutboxOf, Deliver;
    OutboxAfterSend(net, m, k);
    var x := if Concerns(m, k) then [m] else [];
    var d := net.doms[k.gid];
    assert SendTo(net, m).doms[k.gid].(outbox := d.outbox) == d;
    Append(net.consumed(k), Of(k, d.inbox[k.poff]), Of(k, d.local), Of(k, d.remote), Of(k, OutboxOf(net, k.src, k.gid)), x);
  }

  lemma SendHomeFifo(net: Net, m: Msg, k: Pair)
    requires Placed(net) && Enabled(net, Send(m)) && Live(net, k) && Fifo(net, k) && m.gid == m.src
    ensures Live(SendTo(net, m), k) && Fifo(SendTo(net, m), k)
  {
    hide Placed, Of, Deliver;
    var net' := SendTo(net, m);
    assert OutboxOf(net', k.src, k.gid) == OutboxOf(net, k.src, k.gid);
    if k.gid == m.src {
      DeliverOf(net.doms[m.src].inbox, m, k);
      if Concerns(m, k) {
        NothingFromHome(net, k);
        assert InFlight(net', k) == [];
      }
    }
  }

  lemma Append<T>(c: seq<T>, a: seq<T>, l: seq<T>, r: seq<T>, o: seq<T>, x: seq<T>)
    ensures (c + (a + (l + r + o))) + x == c + (a + (l + r + (o + x)))
  {
  }

  lemma FlushFifo(net: Net, s: Gid, v: Gid, k: Pair)
    requires Placed(net) && Enabled(net, Flush(s, v)) && Live(net, k) && Fifo(net, k)
    ensures Live(FlushTo(net, s, v), k) && Fifo(FlushTo(net, s, v), k)
  {
    hide Placed, Of, Concerns;
    var net' := FlushTo(net, s, v);
    if k.gid == v {
      OfConcat(k, net.doms[v].remote, OutboxOf(net, s, v));
      if k.src != s {
        NothingFromOthers(net, s, v, k);
        assert OutboxOf(net', k.src, v) == OutboxOf(net, k.src, v);
      } else {
        assert OutboxOf(net', s, v) == [];
        assert Of(k, []) == [] by { OfNone(k, []); }
      }
      assert InFlight(net', k) == InFlight(net, k);
    } else {
      assert OutboxOf(net', k.src, k.gid) == OutboxOf(net, k.src, k.gid);
    }
  }

  lemma SpliceFifo(net: Net, g: Gid, k: Pair)
    requires Enabled(net, Splice(g)) && Live(net, k) && Fifo(net, k)
    ensures Live(Apply(net, Splice(g)), k) && Fifo(Apply(net, Splice(g)), k)
  {
    hide Of, Concerns;
    var net' := Apply(net, Splice(g));
    assert OutboxOf(net', k.src, k.gid) == OutboxOf(net, k.src, k.gid);
    if k.gid == g {
      OfConcat(k, net.doms[g].local, net.doms[g].remote);
      OfNone(k, []);
      assert InFlight(net', k) == InFlight(net, k);
    }
  }

  lemma DispatchFifo(net: Net, g: Gid, k: Pair)
    requires Placed(net) && Enabled(net, Dispatch(g)) && Live(net, k) && Fifo(net, k)
    ensures Live(Apply(net, Dispatch(g)), k) && Fifo(Apply(net, Dispatch(g)), k)
  {
    hide Of, Concerns, Deliver, Placed, Outbox;
    var net' := Apply(net, Dispatch(g));
    DispatchLeaves(net, g, k);
    if k.gid == g {
      var local := net.doms[g].local;
      LocalHead(net, g);
      assert local == [local[0]] + local[1..];
      DeliverOf(net.doms[g].inbox, local[0], k);
      OfConcat(k, [local[0]], local[1..]);
      OfOne(k, local[0]);
    }
  }

  lemma DispatchLeaves(net: Net, g: Gid, k: Pair)
    requires Enabled(net, Dispatch(g))
    ensures OutboxOf(Apply(net, Dispatch(g)), k.src, k.gid) == OutboxOf(net, k.src, k.gid)
  {
  }

  lemma ConsumeFifo(net: Net, g: Gid, p: Poff, k: Pair)
    requires Placed(net) && Enabled(net, Consume(g, p)) && Live(net, k) && Fifo(net, k)
    ensures Live(Apply(net, Consume(g, p)), k) && Fifo(Apply(net, Consume(g, p)), k)
  {
    hide Of;
    var net' := Apply(net, Consume(g, p));
    assert OutboxOf(net', k.src, k.gid) == OutboxOf(net, k.src, k.gid);
    if k.gid == g && k.poff == p {
      var inbox := net.doms[g].inbox[p];
      assert DomPlaced(g, net.doms[g]) && inbox[0] in inbox && inbox == [inbox[0]] + inbox[1..];
      OfConcat(k, [inbox[0]], inbox[1..]);
      OfOne(k, inbox[0]);
    }
  }

  /** A new process starts with nothing consumed and expects what is already in flight
      to its id. */
  lemma SpawnFifo(net: Net, g: Gid, p: Poff, k: Pair)
    requires Enabled(net, Spawn(g, p)) && Live(Apply(net, Spawn(g, p)), k)
    requires (k.gid == g && k.poff == p) || (Live(net, k) && Fifo(net, k))
    ensures Fifo(Apply(net, Spawn(g, p)), k)
  {
    hide Of, Concerns;
    var net' := Apply(net, Spawn(g, p));
    assert OutboxOf(net', k.src, k.gid) == OutboxOf(net, k.src, k.gid);
    OfNone(k, []);
    assert InFlight(net', k) == InFlight(net, k);
  }

  lemma ExitFifo(net: Net, g: Gid, p: Poff, k: Pair)
    requires Enabled(net, Exit(g, p)) && Live(Apply(net, Exit(g, p)), k)
    requires Live(net, k) && Fifo(net, k)
    ensures Fifo(Apply(net, Exit(g, p)), k)
  {
    hide Of, Concerns;
    var net' := Apply(net, Exit(g, p));
    assert OutboxOf(net', k.src, k.gid) == OutboxOf(net, k.src, k.gid);
  }

  lemma OpenFifo(net: Net, g: Gid, k: Pair)
    requires Enabled(net, Open(g)) && Live(Apply(net, Open(g)), k)
    requires Live(net, k) && Fifo(net, k)
    ensures Fifo(Apply(net, Open(g)), k)
  {
    hide Of, Concerns;
    var net' := Apply(net, Open(g));
    assert OutboxOf(net', k.src, k.gid) == OutboxOf(net, k.src, k.gid);
  }

  predicate Renews(a: Action, k: Pair) {
    a == Spawn(k.gid, k.poff)
  }

  /** Who is live after an action was live before it, or was spawned by it. */
  lemma LiveBefore(net: Net, a: Action, k: Pair)
    requires Enabled(net, a) && Live(Apply(net, a), k)
    ensures Live(net, k) || Renews(a, k)
  {
    hide Of, InFlight, Concerns;
  }

  lemma ApplyFifo(net: Net, a: Action, k: Pair)
    requires Inv(net) && Enabled(net, a) && Live(Apply(net, a), k)
    ensures Fifo(Apply(net, a), k)
  {
    LiveBefore(net, a, k);
    hide Placed, Fifo, Live, Enabled;
    match a {
      case Send(m) =>
        if m.gid == m.src { SendHomeFifo(net, m, k); } else { SendAbroadFifo(net, m, k); }
      case Flush(s, v) => FlushFifo(net, s, v, k);
      case Splice(g) => SpliceFifo(net, g, k);
      case Dispatch(g) => DispatchFifo(net, g, k);
      case Consume(g, p) => ConsumeFifo(net, g, p, k);
      case Spawn(g, p) => SpawnFifo(net, g, p, k);
      case Exit(g, p) => ExitFifo(net, g, p, k);
      case Open(g) => OpenFifo(net, g, k);
    }
  }

  lemma ApplyInv(net: Net, a: Action)
    requires Inv(net) && Enabled(net, a)
    ensures Inv(Apply(net, a))
  {
    ApplyPlaced(net, a);
    forall k | Live(Apply(net, a), k) ensures Fifo(Apply(net, a), k) {
      ApplyFifo(net, a, k);
    }
  }

  function Init(): Net {
    Net(map[], (k: Pair) => [], (k: Pair) => [])
  }

  predicate EnabledAll(net: Net, actions: seq<Action>)
    decreases |actions|
  {
    actions == [] || (Enabled(net, actions[0]) && EnabledAll(Apply(net, actions[0]), actions[1..]))
  }

  function ApplyAll(net: Net, actions: seq<Action>): Net
    requires EnabledAll(net, actions)
    decreases |actions|
  {
    if actions == [] then net else ApplyAll(Apply(net, actions[0]), actions[1..])
  }

  lemma {:induction false} ApplyAllSnoc(net: Net, actions: seq<Action>, a: Action)
    requires EnabledAll(net, actions) && Enabled(ApplyAll(net, actions), a)
    ensures EnabledAll(net, actions + [a])
    ensures ApplyAll(net, actions + [a]) == Apply(ApplyAll(net, actions), a)
    decreases |actions|
  {
    hide Apply, Enabled;
    if actions == [] {
      assert [a][1..] == [];
    } else {
      assert (actions + [a])[1..] == actions[1..] + [a];
      ApplyAllSnoc(Apply(net, actions[0]), actions[1..], a);
    }
  }

  lemma {:induction false} RunInv(net: Net, actions: seq<Action>)
    requires Inv(net) && EnabledAll(net, actions)
    ensures Inv(ApplyAll(net, actions))
    decreases |actions|
  {
    hide Inv, Apply, Enabled;
    if actions != [] {
      ApplyInv(net, actions[0]);
      RunInv(Apply(net, actions[0]), actions[1..]);
    }
  }

  predicate IsPrefix<T(==)>(a: seq<T>, b: seq<T>) {
    |a| <= |b| && a == b[..|a|]
  }

  /** In every interleaving, what a live process consumed from a source is a prefix of
      what that source sent it, in the order it was sent; and once nothing is left in
      its inbox or in flight, it is all of it. */
  lemma FifoDelivery(actions: seq<Action>, k: Pair)
    requires EnabledAll(Init(), actions) && Live(ApplyAll(Init(), actions), k)
    ensures var net := ApplyAll(Init(), actions);
            IsPrefix(net.consumed(k), net.sent(k))
            && (net.consumed(k) == net.sent(k) <==> Of(k, net.doms[k.gid].inbox[k.poff]) + InFlight(net, k) == [])
  {
    RunInv(Init(), actions);
    assert Fifo(ApplyAll(Init(), actions), k);
  }

  /** `send_broadcast` over the list of domains */
  function Broadcast(s: Gid, gids: seq<Gid>, gc: bool, body: nat): seq<Action> {
    if gids == [] then [] else [Send(Msg(s, gids[0], 0, gc, body))] + Broadcast(s, gids[1..], gc, body)
  }

  /** What a broadcast sends. */
  lemma {:induction false} BroadcastSends(net: Net, s: Gid, gids: seq<Gid>, gc: bool, body: nat, k: Pair)
    requires EnabledAll(net, Broadcast(s, gids, gc, body)) && Live(net, k) && k.src == s
    requires forall i, j | 0 <= i < j < |gids| :: gids[i] != gids[j]
    ensures Live(ApplyAll(net, Broadcast(s, gids, gc, body)), k)
    ensures ApplyAll(net, Broadcast(s, gids, gc, body)).sent(k)
         == net.sent(k) + if k.gid in gids && !gc then [Msg(s, k.gid, 0, gc, body)] else []
    ensures ApplyAll(net, Broadcast(s, gids, gc, body)).consumed == net.consumed
    decreases gids
  {
    if gids != [] {
      var actions := Broadcast(s, gids, gc, body);
      assert actions[1..] == Broadcast(s, gids[1..], gc, body);
      BroadcastSends(Apply(net, actions[0]), s, gids[1..], gc, body, k);
    }
  }

  /** A broadcast to every domain reaches every live process exactly once: what the process
      has still to get is what it had to get before, and behind it the message.  A
      collection request reaches none. */
  lemma BroadcastReachesAll(net: Net, s: Gid, gids: seq<Gid>, gc: bool, body: nat, k: Pair)
    requires Inv(net) && EnabledAll(net, Broadcast(s, gids, gc, body)) && Live(net, k) && k.src == s
    requires forall i, j | 0 <= i < j < |gids| :: gids[i] != gids[j]
    ensures Live(ApplyAll(net, Broadcast(s, gids, gc, body)), k)
    ensures var net' := ApplyAll(net, Broadcast(s, gids, gc, body));
            var due := Of(k, net.doms[k.gid].inbox[k.poff]) + InFlight(net, k);
            var due' := Of(k, net'.doms[k.gid].inbox[k.poff]) + InFlight(net', k);
            && Fifo(net', k)
            && net'.sent(k) == net.sent(k) + (if k.gid in gids && !gc then [Msg(s, k.gid, 0, gc, body)] else [])
            && net'.consumed == net.consumed
            && due' == due + (if k.gid in gids && !gc then [Msg(s, k.gid, 0, gc, body)] else [])
  {
    RunInv(net, Broadcast(s, gids, gc, body));
    BroadcastSends(net, s, gids, gc, body, k);
    var net' := ApplyAll(net, Broadcast(s, gids, gc, body));
    assert Fifo(net, k) && Fifo(net', k);
    hide Of, InFlight, ApplyAll, EnabledAll, Inv;
    SameFront(net.consumed(k), Of(k, net.doms[k.gid].inbox[k.poff]) + InFlight(net, k),
              Of(k, net'.doms[k.gid].inbox[k.poff]) + InFlight(net', k),
              if k.gid in gids && !gc then [Msg(s, k.gid, 0, gc, body)] else []);
  }

  lemma SameFront<T>(c: seq<T>, due: seq<T>, due': seq<T>, x: seq<T>)
    requires c + due' == (c + due) + x
    ensures due' == due + x
  {
    assert due' == (c + due')[|c|..];
    assert due + x == ((c + due) + x)[|c|..];
  }
}
