/** upqueue.h: a queue that is two pointers and a chain of `next` links, against the
    sequence it stands for.

    `last` may be stale: after a splice in front of an empty queue, or after
    deleting the last element, it is NULL although the queue is not empty. */
module UpQueue {
  /** The value of a `next` field. */
  datatype Link = Null | Poison | Ptr(node: Node)

  class Node {
    var next: Link

    /** `INIT_QUEUE_HEAD` */
    constructor ()
      ensures next == Poison
    {
      next := Poison;
    }

    /** `queue_is_enqueued` */
    predicate IsEnqueued()
      reads this
    {
      next != Poison
    }
  }

  ghost predicate Distinct(items: seq<Node>) {
    forall i, j | 0 <= i < j < |items| :: items[i] != items[j]
  }

  ghost predicate Disjoint(a: seq<Node>, b: seq<Node>) {
    forall n | n in a :: n !in b
  }

  /** Each node but the last points at the one after it. */
  ghost predicate Links(items: seq<Node>)
    reads items
  {
    forall i | 0 <= i < |items| - 1 :: items[i].next == Ptr(items[i + 1])
  }

  /** A chain of distinct nodes, ended by NULL. */
  ghost predicate Chained(items: seq<Node>)
    reads items
  {
    Distinct(items) && Links(items) && (items != [] ==> items[|items| - 1].next == Null)
  }

  lemma DistinctJoin(a: seq<Node>, b: seq<Node>)
    requires Distinct(a) && Distinct(b) && Disjoint(a, b)
    ensures Distinct(a + b)
  {
    forall i, j | 0 <= i < j < |a + b| ensures (a + b)[i] != (a + b)[j] {
      if i < |a| <= j {
        assert a[i] in a && b[j - |a|] in b;
      }
    }
  }

  lemma ChainJoin(a: seq<Node>, b: seq<Node>)
    requires a != [] && Distinct(a) && Links(a) && Chained(b) && Disjoint(a, b)
    requires a[|a| - 1].next == if b == [] then Null else Ptr(b[0])
    ensures Chained(a + b)
  {
    DistinctJoin(a, b);
    if b == [] {
      assert a + b == a;
    }
  }

  ghost predicate Split(all: seq<Node>, prefix: seq<Node>, item: Node, suffix: seq<Node>) {
    all == prefix + [item] + suffix
  }

  lemma SplitFacts(all: seq<Node>, prefix: seq<Node>, item: Node, suffix: seq<Node>)
    requires Distinct(all) && Split(all, prefix, item, suffix)
    ensures item !in prefix && item !in suffix && Disjoint(prefix, suffix) && item in all
    ensures prefix != [] ==> prefix[|prefix| - 1] in all
    ensures suffix != [] ==> suffix[0] in all
  {
    assert all[|prefix|] == item;
    assert forall i | 0 <= i < |prefix| :: prefix[i] == all[i];
    assert forall j | 0 <= j < |suffix| :: suffix[j] == all[|prefix| + 1 + j];
  }

  lemma SplitStep(all: seq<Node>, prefix: seq<Node>, item: Node, suffix: seq<Node>, node: Node)
    requires Split(all, prefix, item, suffix) && node in suffix
    ensures Split(all, prefix + [item], suffix[0], suffix[1..])
    ensures node == suffix[0] || node in suffix[1..]
  {
    assert suffix == [suffix[0]] + suffix[1..];
  }

  lemma SplitStart(all: seq<Node>, node: Node)
    requires node in all
    ensures Split(all, [], all[0], all[1..]) && (node == all[0] || node in all[1..])
  {
    assert all == [all[0]] + all[1..];
  }

  class Root {
    var first: Node?
    var last: Node?
    /** The queue this root stands for. */
    ghost var items: seq<Node>

    /** The chain from `first` is the queue; `last` is its end, or NULL. */
    ghost predicate Valid()
      reads this, items
    {
      && Chained(items)
      && first == (if items == [] then null else items[0])
      && (last == null || (items != [] && last == items[|items| - 1]))
    }

    /** `last` can be trusted. */
    ghost predicate TailValid()
      reads this
    {
      last == (if items == [] then null else items[|items| - 1])
    }

    /** `INIT_QUEUE_ROOT` */
    constructor ()
      ensures Valid() && TailValid() && items == []
    {
      first, last, items := null, null, [];
    }

    /** `queue_empty` */
    predicate Empty()
      reads this
    {
      first == null
    }

    /** `queue_put`.  With a stale `last` the whole queue is dropped. */
    method Put(node: Node) returns (wasEmpty: bool)
      requires Valid() && node !in items
      modifies this, node, if last == null then {} else {last}
      ensures Valid() && TailValid()
      ensures items == if old(last) == null then [node] else old(items) + [node]
      ensures wasEmpty <==> old(last) == null
      ensures old(TailValid()) ==> items == old(items) + [node] && (wasEmpty <==> old(items) == [])
    {
      node.next := Null;
      if last != null {
        last.next := Ptr(node);
        last := node;
        items := items + [node];
        return false;
      } else {
        first := node;
        last := node;
        items := [node];
        return true;
      }
    }

    /** `queue_put_head` */
    method PutHead(node: Node) returns (wasEmpty: bool)
      requires Valid() && node !in items
      modifies this, node
      ensures Valid() && items == [node] + old(items)
      ensures wasEmpty <==> old(items) == []
      ensures old(TailValid()) <==> TailValid()
    {
      node.next := if first == null then Null else Ptr(first);
      if first != null {
        first := node;
        wasEmpty := false;
      } else {
        first := node;
        last := node;
        wasEmpty := true;
      }
      items := [node] + items;
    }

    /** `queue_get` */
    method Get() returns (item: Node?)
      requires Valid()
      modifies this, if items == [] then {} else {items[0]}
      ensures Valid() && (old(TailValid()) ==> TailValid())
      ensures old(items) == [] ==> item == null && items == [] && last == old(last)
      ensures old(items) != [] ==> item == old(items)[0] && items == old(items)[1..] && item.next == Poison
      ensures last == if items == [] then null else old(last)
    {
      if first == null {
        return null;
      }
      item := first;
      first := match item.next {
        case Ptr(n) => n
        case _ => null
      };
      if first == null {
        last := null;
      }
      item.next := Poison;
      assert items[1..] != [] ==> items[1] == items[1..][0];
      items := items[1..];
    }
  }

  /** The branch of `queue_splice` for a dst with a known end. */
  method SpliceBehind(src: Root, dst: Root)
    requires src != dst && src.Valid() && dst.Valid() && Disjoint(src.items, dst.items)
    requires src.first != null && dst.last != null
    modifies dst, dst.last
    ensures dst.items == old(dst.items) + src.items && dst.last == src.last && dst.Valid() && src.items != []
  {
    ghost var before, added := dst.items, src.items;
    assert dst.last in before && forall i | 0 <= i < |added| :: added[i] in added;
    dst.last.next := Ptr(src.first);
    dst.last := src.last;
    dst.items := dst.items + src.items;
    assert dst.items[|dst.items| - 1] == added[|added| - 1];
    ChainJoin(before, added);
  }

  lemma EmptyDistinct()
    ensures Distinct([])
  {
  }

  /** `queue_splice`.  With a stale `last` in dst, what dst held is dropped. */
  method Splice(src: Root, dst: Root)
    requires src != dst && src.Valid() && dst.Valid() && Disjoint(src.items, dst.items)
    modifies src, dst, if dst.last == null then {} else {dst.last}
    ensures src.Valid() && src.items == [] && dst.Valid()
    ensures dst.items == if old(dst.last) == null && old(src.items) != [] then old(src.items) else old(dst.items) + old(src.items)
    ensures old(dst.TailValid()) ==> dst.items == old(dst.items) + old(src.items)
    ensures old(src.TailValid()) && old(dst.TailValid()) ==> dst.TailValid() && src.TailValid()
  {
    hide Distinct, Disjoint;
    if src.first == null {
      return;
    }
    if dst.last != null {
      SpliceBehind(src, dst);
    } else {
      dst.first := src.first;
      dst.last := src.last;
      dst.items := src.items;
    }
    src.first, src.last, src.items := null, null, [];
    EmptyDistinct();
  }

  /** Links a non-empty src in front of dst. */
  method PrependOnto(src: Root, dst: Root)
    requires src != dst && src.Valid() && dst.Valid() && Disjoint(src.items, dst.items)
    requires src.first != null && src.last != null
    modifies dst, src.last
    ensures dst.items == src.items + old(dst.items) && dst.last == old(dst.last) && dst.Valid() && src.items != []
  {
    var first := dst.first;
    ghost var prefix, rest := src.items, dst.items;
    assert src.last in prefix && forall i | 0 <= i < |rest| :: rest[i] in rest;
    dst.first := src.first;
    src.last.next := if first == null then Null else Ptr(first);
    dst.items := src.items + dst.items;
    ChainJoin(prefix, rest);
  }

  /** `queue_splice_prepend`.  Nothing is lost; when dst was empty its `last` is stale
      afterwards. */
  method SplicePrepend(src: Root, dst: Root)
    requires src != dst && src.Valid() && src.TailValid() && dst.Valid() && Disjoint(src.items, dst.items)
    modifies src, dst, if src.last == null then {} else {src.last}
    ensures src.Valid() && src.TailValid() && src.items == [] && dst.Valid()
    ensures dst.items == old(src.items) + old(dst.items) && dst.last == old(dst.last)
    ensures old(dst.TailValid()) ==> (dst.TailValid() <==> old(dst.items) != [] || old(src.items) == [])
  {
    if src.first == null {
      return;
    }
    PrependOnto(src, dst);
    src.first, src.last, src.items := null, null, [];
  }

  twostate lemma StaysValid(r: Root)
    requires old(r.Valid()) && unchanged(r) && forall n | n in r.items :: unchanged(n)
    ensures r.Valid()
  {
    forall i | 0 <= i < |r.items| ensures r.items[i].next == old(r.items[i].next) {
      assert r.items[i] in r.items;
    }
  }

  /** One turn of the loop in `queue_slow_del`: item moves to the back of `to`, and
      the next one is taken off `from`. */
  method MoveOne(to: Root, item: Node, from: Root) returns (next: Node)
    requires to != from && to.Valid() && to.TailValid() && from.Valid() && from.TailValid()
    requires item !in to.items && item !in from.items && Disjoint(to.items, from.items) && from.items != []
    modifies to, item, if to.last == null then {} else {to.last}, from, from.items[0]
    ensures to.Valid() && to.TailValid() && to.items == old(to.items) + [item] && to.last == item
    ensures from.Valid() && from.TailValid() && from.items == old(from.items)[1..]
    ensures next == old(from.items)[0] && next.next == Poison
  {
    label before:
    assert to.items != [] ==> to.last in to.items;
    var wasEmpty := to.Put(item);
    StaysValid@before(from);
    label put:
    assert from.items[0] in from.items && forall n | n in to.items :: n in old(to.items) || n == item;
    var taken := from.Get();
    next := taken;
    StaysValid@put(to);
  }

  /** The loop of `queue_slow_del`: takes elements off root until it meets node, and
      puts those before it on newRoot. */
  method TakePrefix(node: Node, root: Root, newRoot: Root) returns (ghost prefix: seq<Node>, ghost suffix: seq<Node>)
    requires root != newRoot && root.Valid() && root.TailValid() && node in root.items
    requires newRoot.Valid() && newRoot.TailValid() && newRoot.items == []
    modifies root, newRoot, root.items
    ensures Split(old(root.items), prefix, node, suffix) && node.next == Poison
    ensures root.Valid() && root.TailValid() && root.items == suffix
    ensures newRoot.Valid() && newRoot.TailValid() && newRoot.items == prefix
    ensures newRoot.last == if prefix == [] then null else prefix[|prefix| - 1]
  {
    ghost var all := root.items;
    assert Distinct(all);
    SplitStart(all, node);
    hide Chained, Distinct, Links, Disjoint, Split, Root.Valid, Root.TailValid;
    var taken := root.Get();
    var item: Node := taken;
    prefix, suffix := [], root.items;
    while item != node
      invariant item.next == Poison
      invariant Split(all, prefix, item, suffix) && (node == item || node in suffix)
      invariant newRoot.Valid() && newRoot.TailValid() && newRoot.items == prefix
      invariant root.Valid() && root.TailValid() && root.items == suffix
      invariant newRoot.last == if prefix == [] then null else prefix[|prefix| - 1]
      decreases |suffix|
    {
      SplitFacts(all, prefix, item, suffix);
      SplitStep(all, prefix, item, suffix, node);
      var next := MoveOne(newRoot, item, root);
      prefix, item, suffix := prefix + [item], next, suffix[1..];
    }
  }

  /** `queue_slow_del`: leaves the prefix and the suffix of the element; `last` is stale
      afterwards just when the element was last and not alone. */
  method SlowDel(node: Node, root: Root) returns (ghost prefix: seq<Node>, ghost suffix: seq<Node>)
    requires root.Valid() && root.TailValid() && node in root.items
    modifies root, root.items
    ensures old(root.items) == prefix + [node] + suffix
    ensures root.Valid() && root.items == prefix + suffix && node.next == Poison
    ensures root.TailValid() <==> prefix == [] || suffix != []
  {
    ghost var all := root.items;
    var newRoot := new Root();
    prefix, suffix := TakePrefix(node, root, newRoot);
    SplitFacts(all, prefix, node, suffix);
    hide Chained, Distinct, Links, Disjoint, Root.Valid, Root.TailValid;
    SplicePrepend(newRoot, root);
  }

  /** A run that loses a queue: `queue_slow_del` of the last of several elements, then a
      `queue_put`. */
  method SlowDelThenPut(root: Root, node: Node, added: Node)
    requires root.Valid() && root.TailValid() && |root.items| >= 2 && node == root.items[|root.items| - 1]
    requires added !in root.items
    modifies root, root.items, added
    ensures root.Valid() && root.items == [added]
  {
    ghost var all := root.items;
    assert node in all;
    ghost var prefix, suffix := SlowDel(node, root);
    LastHasNoSuffix(all, prefix, node, suffix);
    var wasEmpty := root.Put(added);
  }

  lemma LastHasNoSuffix(all: seq<Node>, prefix: seq<Node>, node: Node, suffix: seq<Node>)
    requires Distinct(all) && |all| >= 2 && node == all[|all| - 1] && all == prefix + [node] + suffix
    ensures suffix == [] && prefix == all[..|all| - 1] && prefix != []
  {
    assert all[|prefix|] == node;
  }
}
