/** The queues of `struct domain` and `struct base` as objects, and the loops that move
    messages between domains, against the actions of module Delivery. */
module DeliveryBase {
  import opened Delivery
  import opened Pid

  class Domain {
    const gid: Gid
    var outbox: seq<seq<Msg>>
    var remote: seq<Msg>
    var local: seq<Msg>
    var inbox: map<Poff, seq<Msg>>
    /** Is the domain in the run queue: the inverse of what `msqueue_is_enqueued` says. */
    var queued: bool
    /** How often the ingress callback was called. */
    var pokes: nat

    constructor (gid: Gid)
      ensures this.gid == gid && Sized() && !queued && pokes == 0
      ensures View() == Dom(Boxes(seq(MAX_DOMAINS, _ => [])), [], [], map[])
    {
      this.gid := gid;
      outbox, remote, local, inbox := seq(MAX_DOMAINS, _ => []), [], [], map[];
      queued, pokes := false, 0;
    }

    ghost predicate Sized()
      reads this
    {
      |outbox| == MAX_DOMAINS
    }

    ghost function View(): Dom
      reads this
    {
      Dom(Boxes(outbox), remote, local, inbox)
    }
  }

  function Flushes(s: Gid, n: nat): seq<Action> {
    if n == 0 then [] else Flushes(s, n - 1) + [Flush(s, n - 1)]
  }

  lemma {:induction false} BroadcastSnoc(s: Gid, gids: seq<Gid>, g: Gid, gc: bool, body: nat)
    ensures Broadcast(s, gids + [g], gc, body) == Broadcast(s, gids, gc, body) + [Send(Msg(s, g, 0, gc, body))]
  {
    if gids == [] {
      assert [g][1..] == [];
    } else {
      assert (gids + [g])[1..] == gids[1..] + [g];
      BroadcastSnoc(s, gids[1..], g, gc, body);
    }
  }

  /** How many non-empty outboxes below n have a domain to go to. */
  function Served(outbox: seq<seq<Msg>>, gidToDomain: seq<Domain?>, n: nat): nat
    requires n <= |outbox| && n <= |gidToDomain|
  {
    if n == 0 then 0
    else Served(outbox, gidToDomain, n - 1) + if outbox[n - 1] != [] && gidToDomain[n - 1] != null then 1 else 0
  }

  class Base {
    var gidToDomain: seq<Domain?>
    ghost var net: Net

    /** The net has this domain, as it is. */
    ghost predicate Mirrors(g: Gid)
      requires g < |gidToDomain|
      reads this, gidToDomain[g]
    {
      var d := gidToDomain[g];
      if d == null then g !in net.doms
      else g in net.doms && d.gid == g && d.Sized() && net.doms[g] == d.View()
    }

    ghost predicate Valid()
      reads this, gidToDomain
    {
      && |gidToDomain| == MAX_DOMAINS
      && gidToDomain[0] == null
      && (forall g | 0 <= g < |gidToDomain| :: Mirrors(g))
      && (forall g | g in net.doms :: g < MAX_DOMAINS)
    }

    lemma Apart(g: Gid, v: Gid)
      requires Valid() && g < MAX_DOMAINS && v < MAX_DOMAINS && g != v && gidToDomain[g] != null
      ensures gidToDomain[g] != gidToDomain[v]
    {
      assert Mirrors(g) && Mirrors(v);
    }

    /** Messages within a domain do not go through its outbox. */
    lemma OwnOutboxEmpty(d: Domain)
      requires Valid() && Has(d) && Placed(net)
      ensures d.outbox[d.gid] == []
    {
      assert Mirrors(d.gid) && DomPlaced(d.gid, net.doms[d.gid]);
      NoMailToSelf(d.gid, net.doms[d.gid]);
    }

    ghost predicate Has(d: Domain)
      reads this, d
    {
      |gidToDomain| == MAX_DOMAINS && d.gid < MAX_DOMAINS && gidToDomain[d.gid] == d && d.Sized()
    }

    constructor ()
      ensures Valid() && net == Init()
    {
      gidToDomain := seq(MAX_DOMAINS, _ => null);
      net := Init();
    }

    /** `drain_message_queue` on an outbox */
    method DrainOutbox(d: Domain, v: Gid)
      requires d.Sized() && v < MAX_DOMAINS
      modifies d`outbox
      ensures d.outbox == old(d.outbox)[v := []]
    {
      while d.outbox[v] != []
        invariant d.Sized() && d.outbox == old(d.outbox)[v := d.outbox[v]]
        decreases |d.outbox[v]|
      {
        d.outbox := d.outbox[v := d.outbox[v][1..]];
      }
    }

    /** What a turn of the loop in `send_flush_outbox` does to its two domains. */
    method MoveOutbox(d: Domain, v: Gid, victim: Domain?) returns (sent: bool)
      requires d.Sized() && v < MAX_DOMAINS && victim != d
      modifies d`outbox, victim
      ensures sent == (old(d.outbox[v]) != [] && victim != null)
      ensures d.outbox == old(d.outbox[v := []])
      ensures victim != null ==> victim.View() == old(victim.View()).(remote := old(victim.remote) + old(d.outbox[v]))
      ensures victim != null ==> victim.outbox == old(victim.outbox) && victim.queued == old(victim.queued)
      ensures victim != null ==> victim.pokes == old(victim.pokes) + (if sent && !victim.queued then 1 else 0)
    {
      sent := false;
      if d.outbox[v] != [] {
        if victim == null {
          DrainOutbox(d, v);
        } else {
          victim.remote := victim.remote + d.outbox[v];
          d.outbox := d.outbox[v := []];
          if !victim.queued {
            victim.pokes := victim.pokes + 1;
          }
          sent := true;
        }
      }
    }

    /** One turn of the loop in `send_flush_outbox`.  A domain's outbox to itself is
        empty: see Placed. */
    method FlushOne(d: Domain, v: Gid) returns (sent: bool)
      requires Valid() && Has(d) && v < MAX_DOMAINS && (v == d.gid ==> d.outbox[v] == [])
      modifies this`net, d`outbox, gidToDomain[v]
      ensures Valid() && Enabled(old(net), Flush(d.gid, v)) && net == Apply(old(net), Flush(d.gid, v))
      ensures d.outbox == old(d.outbox[v := []])
      ensures sent == (old(d.outbox[v]) != [] && gidToDomain[v] != null)
      ensures gidToDomain[v] != null ==>
                && gidToDomain[v].queued == old(gidToDomain[v].queued)
                && gidToDomain[v].pokes == old(gidToDomain[v].pokes) + (if sent && !gidToDomain[v].queued then 1 else 0)
    {
      hide Boxes, FlushTo;
      var victim := gidToDomain[v];
      assert Mirrors(d.gid) && Mirrors(v);
      FlushDoms(net, d.gid, v);
      BoxesUpdate(d.outbox, v, []);
      if v == d.gid {
        sent := false;
        assert d.outbox[v := []] == d.outbox;
      } else {
        sent := MoveOutbox(d, v, victim);
      }
      net := Apply(net, Flush(d.gid, v));
      assert Mirrors(d.gid) && Mirrors(v);
      forall g | 0 <= g < |gidToDomain| && g != d.gid && g != v ensures Mirrors(g) {
        assert old(Mirrors(g));
      }
    }

    /** `send_flush_outbox` */
    method SendFlushOutbox(d: Domain) returns (counter: nat)
      requires Valid() && Has(d) && Placed(net)
      modifies this`net, d`outbox, gidToDomain
      ensures Valid() && Has(d)
      ensures EnabledAll(old(net), Flushes(d.gid, MAX_DOMAINS)) && net == ApplyAll(old(net), Flushes(d.gid, MAX_DOMAINS))
      ensures d.outbox == seq(MAX_DOMAINS, _ => [])
      ensures counter == Served(old(d.outbox), gidToDomain, MAX_DOMAINS)
      ensures forall v | 0 <= v < MAX_DOMAINS && gidToDomain[v] != null ::
                && gidToDomain[v].queued == old(gidToDomain[v].queued)
                && gidToDomain[v].pokes == old(gidToDomain[v].pokes) + (if old(d.outbox[v]) != [] && !gidToDomain[v].queued then 1 else 0)
    {
      hide Mirrors, Apply, Enabled, Placed;
      OwnOutboxEmpty(d);
      counter := 0;
      var v := 0;
      while v < MAX_DOMAINS
        invariant 0 <= v <= MAX_DOMAINS && Valid() && Has(d)
        invariant EnabledAll(old(net), Flushes(d.gid, v)) && net == ApplyAll(old(net), Flushes(d.gid, v))
        invariant forall g | 0 <= g < MAX_DOMAINS :: d.outbox[g] == if g < v then [] else old(d.outbox[g])
        invariant counter == Served(old(d.outbox), gidToDomain, v)
        invariant forall g | 0 <= g < MAX_DOMAINS && gidToDomain[g] != null ::
                && gidToDomain[g].queued == old(gidToDomain[g].queued)
                && gidToDomain[g].pokes == old(gidToDomain[g].pokes) + (if g < v && old(d.outbox[g]) != [] && !gidToDomain[g].queued then 1 else 0)
      {
        forall g | 0 <= g < MAX_DOMAINS && g != v && gidToDomain[g] != null ensures gidToDomain[g] != gidToDomain[v] {
          Apart(g, v);
        }
        var sent := FlushOne(d, v);
        if sent {
          counter := counter + 1;
        }
        ApplyAllSnoc(old(net), Flushes(d.gid, v), Flush(d.gid, v));
        v := v + 1;
      }
      assert d.outbox == seq(MAX_DOMAINS, _ => []);
    }

    /** `_send_indirect`, with the name already resolved */
    method SendIndirect(d: Domain, m: Msg)
      requires Valid() && Has(d) && m.src == d.gid && m.gid < MAX_DOMAINS
      modifies this`net, d`inbox, d`outbox
      ensures Valid() && Has(d) && Enabled(old(net), Send(m)) && net == Apply(old(net), Send(m))
    {
      hide Boxes, SendTo, Deliver;
      assert Mirrors(d.gid);
      SendDoms(net, m);
      BoxesUpdate(d.outbox, m.gid, d.outbox[m.gid] + [m]);
      if m.gid == d.gid {
        d.inbox := Deliver(d.inbox, m);
      } else {
        d.outbox := d.outbox[m.gid := d.outbox[m.gid] + [m]];
      }
      net := Apply(net, Send(m));
      assert Mirrors(d.gid);
      forall g | 0 <= g < |gidToDomain| && g != d.gid ensures Mirrors(g) {
        assert old(Mirrors(g));
      }
    }

    /** `send_broadcast` */
    method SendBroadcast(d: Domain, gids: seq<Gid>, gc: bool, body: nat)
      requires Valid() && Has(d) && forall g | g in gids :: g < MAX_DOMAINS
      modifies this`net, d`inbox, d`outbox
      ensures Valid() && Has(d)
      ensures EnabledAll(old(net), Broadcast(d.gid, gids, gc, body))
      ensures net == ApplyAll(old(net), Broadcast(d.gid, gids, gc, body))
    {
      hide Mirrors, Apply, Enabled;
      var i := 0;
      assert forall j | 0 <= j < |gids| :: gids[j] in gids;
      while i < |gids|
        invariant 0 <= i <= |gids| && Valid() && Has(d)
        invariant EnabledAll(old(net), Broadcast(d.gid, gids[..i], gc, body))
        invariant net == ApplyAll(old(net), Broadcast(d.gid, gids[..i], gc, body))
      {
        SendIndirect(d, Msg(d.gid, gids[i], 0, gc, body));
        ApplyAllSnoc(old(net), Broadcast(d.gid, gids[..i], gc, body), Send(Msg(d.gid, gids[i], 0, gc, body)));
        BroadcastSnoc(d.gid, gids[..i], gids[i], gc, body);
        assert gids[..i] + [gids[i]] == gids[..i + 1];
        i := i + 1;
      }
      assert gids[..i] == gids;
    }

    /** The start of `domain_run`, under the inbox lock. */
    method SpliceRemote(d: Domain)
      requires Valid() && Has(d)
      modifies this`net, d`remote, d`local
      ensures Valid() && Has(d) && Enabled(old(net), Splice(d.gid)) && net == Apply(old(net), Splice(d.gid))
      ensures d.remote == [] && d.local == old(d.local) + old(d.remote)
    {
      hide Boxes;
      assert Mirrors(d.gid);
      d.local := d.local + d.remote;
      d.remote := [];
      net := Apply(net, Splice(d.gid));
      assert Mirrors(d.gid);
      forall g | 0 <= g < |gidToDomain| && g != d.gid ensures Mirrors(g) {
        assert old(Mirrors(g));
      }
    }

    /** `domain_new`; null stands for the fatal exit when there are too many. */
    method DomainNew() returns (d: Domain?)
      requires Valid()
      modifies this
      ensures Valid()
      ensures d == null <==> forall g | 1 <= g < MAX_DOMAINS :: old(gidToDomain)[g] != null
      ensures d == null ==> net == old(net)
      ensures d != null ==> fresh(d) && Has(d) && d.queued && Enabled(old(net), Open(d.gid)) && net == Apply(old(net), Open(d.gid))
    {
      hide Boxes;
      var taken := seq(MAX_DOMAINS, g requires 0 <= g < |gidToDomain| reads this => gidToDomain[g] != null);
      var gid := FindFreeGid(taken);
      assert forall g | 1 <= g < MAX_DOMAINS :: taken[g] <==> gidToDomain[g] != null;
      if gid == 0 {
        return null;
      }
      assert Mirrors(gid);
      d := new Domain(gid);
      d.queued := true;
      gidToDomain := gidToDomain[gid := d];
      net := Apply(net, Open(gid));
      forall g | 0 <= g < |gidToDomain| ensures Mirrors(g) {
        assert g != gid ==> old(Mirrors(g));
      }
    }
  }
}
