/** umap.c: a table of slots that hands out numbers and forgets them again, so that
    an old number is not soon taken for a new one. */
module UMap {
  import opened Wrappers
  import opened Seqs

  /** One table entry: the number it is allocated under, 0 when free, and the pointer. */
  datatype Slot<+P> = Slot(no: nat, ptr: Option<P>)

  lemma MulGrows(d: int, n: nat)
    requires n > 0
    ensures d >= 1 ==> d * n >= n
    ensures d <= -1 ==> d * n <= 0 - n
  {
    if d >= 1 {
      assert d * n == n + (d - 1) * n;
    } else if d <= -1 {
      assert d * n == (0 - n) + (d + 1) * n;
    }
  }

  lemma ModIs(a: int, w: int, n: nat, r: nat)
    requires n > 0 && r < n && a == w * n + r
    ensures a % n == r
  {
    var q := a / n;
    assert (w - q) * n == a % n - r;
    MulGrows(w - q, n);
  }

  /** Distance from `counter` to the next larger number congruent to idx. */
  function Jump(size: nat, idx: nat, counter: nat): (x: nat)
    requires idx < size
    ensures 1 <= x <= size
  {
    var x := (size + idx - counter % size) % size;
    if x == 0 then size else x
  }

  lemma JumpLands(size: nat, idx: nat, counter: nat)
    requires idx < size
    ensures (counter + Jump(size, idx, counter)) % size == idx
  {
    var c, q := counter % size, counter / size;
    var s := size + idx - c;
    var x := Jump(size, idx, counter);
    var w := s / size;
    assert counter == q * size + c;
    assert s == w * size + s % size;
    if s % size == 0 {
      assert counter + x == (q - w + 2) * size + idx;
      ModIs(counter + x, q - w + 2, size, idx);
    } else {
      assert counter + x == (q - w + 1) * size + idx;
      ModIs(counter + x, q - w + 1, size, idx);
    }
  }

  /** The number handed out for slot idx when the last one was `counter`. */
  function NextNumber(size: nat, max: nat, idx: nat, counter: nat): nat
    requires idx < size < max
  {
    if counter + Jump(size, idx, counter) < max then counter + Jump(size, idx, counter) else Jump(size, idx, 0)
  }

  /** c' may be handed out right after c: a little further on, or, when the numbers
      are about to run out, from the beginning again. */
  predicate Follows(size: nat, max: nat, c: nat, c': nat) {
    (c < c' <= c + size && c' < max) || (max <= c + size && 1 <= c' <= size)
  }

  lemma NextFollows(size: nat, max: nat, idx: nat, counter: nat)
    requires idx < size < max
    ensures var n := NextNumber(size, max, idx, counter);
            n % size == idx && 0 < n < max && Follows(size, max, counter, n)
  {
    JumpLands(size, idx, counter);
    JumpLands(size, idx, 0);
  }

  /** A history of issued numbers, after the initial counter. */
  ghost predicate History(size: nat, max: nat, issued: seq<nat>) {
    forall k | 0 < k < |issued| :: Follows(size, max, issued[k - 1], issued[k])
  }

  ghost predicate Restarts(issued: seq<nat>, i: nat, j: nat) {
    exists k :: 0 < k < |issued| && i < k <= j && issued[k] <= issued[k - 1]
  }

  /** Numbers grow by at most the table size, and starting over costs the whole range. */
  lemma {:induction false} Climb(size: nat, max: nat, issued: seq<nat>, i: nat, j: nat)
    requires 0 < size < max && History(size, max, issued) && i <= j < |issued|
    ensures issued[j] <= issued[i] + size * (j - i)
    ensures if Restarts(issued, i, j) then issued[j] + (max - size) <= issued[i] + size * (j - i)
            else issued[i] + (j - i) <= issued[j]
    decreases j
  {
    if i < j {
      Climb(size, max, issued, i, j - 1);
      assert Follows(size, max, issued[j - 1], issued[j]);
      assert size * (j - i) == size * (j - 1 - i) + size;
      if issued[j] <= issued[j - 1] {
        assert Restarts(issued, i, j);
      } else if Restarts(issued, i, j - 1) {
        assert Restarts(issued, i, j);
      }
    }
  }

  /** A number comes back only after (k + 1) * map_sz >= max_counter further calls. */
  lemma ReuseIsLate(size: nat, max: nat, issued: seq<nat>, i: nat, j: nat)
    requires 0 < size < max && History(size, max, issued)
    requires i < j < |issued| && issued[i] == issued[j]
    ensures (j - i + 1) * size >= max
  {
    Climb(size, max, issued, i, j);
    assert (j - i + 1) * size == size * (j - i) + size;
  }

  /** The slot of a number. */
  function SlotOf(no: nat, size: nat): (r: nat)
    requires size > 0
    ensures r < size
  {
    no % size
  }

  /** The free queue holds exactly the unused slots, once each; a slot in use holds a
      number congruent to its index. */
  ghost predicate Tidy<P>(data: seq<Slot<P>>, free: seq<nat>, max: nat) {
    && (forall i | 0 <= i < |data| :: data[i].no == 0 <==> i in free)
    && (forall i | 0 <= i < |data| && data[i].no == 0 :: data[i].ptr == None)
    && (forall i | 0 <= i < |data| && data[i].no != 0 :: SlotOf(data[i].no, |data|) == i && data[i].no < max)
    && (forall i | i in free :: i < |data|)
    && (forall i, j | 0 <= i < j < |free| :: free[i] != free[j])
  }

  ghost function Numbers<P>(data: seq<Slot<P>>): set<nat> {
    set i | 0 <= i < |data| && data[i].no != 0 :: data[i].no
  }

  /** The finite map that a table stands for. */
  ghost function Table<P>(data: seq<Slot<P>>): map<nat, Option<P>>
    requires |data| > 0
  {
    map no | no in Numbers(data) :: data[SlotOf(no, |data|)].ptr
  }

  lemma InNumbers<P>(data: seq<Slot<P>>, free: seq<nat>, max: nat, no: nat)
    requires |data| > 0 && Tidy(data, free, max)
    ensures no in Numbers(data) <==> no != 0 && data[SlotOf(no, |data|)].no == no
  {
  }

  lemma TidySet<P>(data: seq<Slot<P>>, free: seq<nat>, max: nat, no: nat, ptr: Option<P>)
    requires free != [] && Tidy(data, free, max) && |data| > 0
    requires 0 < no < max && SlotOf(no, |data|) == free[0]
    ensures Tidy(data[free[0] := Slot(no, ptr)], free[1..], max)
  {
    assert free == [free[0]] + free[1..];
    assert forall x :: x in free <==> x == free[0] || x in free[1..];
  }

  lemma TableSet<P>(data: seq<Slot<P>>, free: seq<nat>, max: nat, no: nat, ptr: Option<P>)
    requires free != [] && Tidy(data, free, max) && |data| > 0
    requires 0 < no < max && SlotOf(no, |data|) == free[0]
    ensures var data' := data[free[0] := Slot(no, ptr)];
            Tidy(data', free[1..], max) && Table(data') == Table(data)[no := ptr] && no !in Table(data)
  {
    var data' := data[free[0] := Slot(no, ptr)];
    TidySet(data, free, max, no, ptr);
    assert free[0] in free && data[free[0]].no == 0;
    hide Tidy, SlotOf;
    forall n: nat
      ensures n in Numbers(data) <==> n != 0 && data[SlotOf(n, |data|)].no == n
      ensures n in Numbers(data') <==> n != 0 && data'[SlotOf(n, |data|)].no == n
    {
      InNumbers(data, free, max, n);
      InNumbers(data', free[1..], max, n);
    }
    hide Numbers;
    assert Table(data').Keys == Table(data)[no := ptr].Keys;
  }

  lemma TidyClear<P>(data: seq<Slot<P>>, free: seq<nat>, max: nat, no: nat)
    requires |data| > 0 && Tidy(data, free, max) && no != 0 && data[SlotOf(no, |data|)].no == no
    ensures Tidy(data[SlotOf(no, |data|) := Slot(0, None)], free + [SlotOf(no, |data|)], max)
  {
    var idx := SlotOf(no, |data|);
    var free' := free + [idx];
    assert forall i | 0 <= i < |data| :: i in free' <==> i in free || i == idx;
  }

  lemma TableClear<P>(data: seq<Slot<P>>, free: seq<nat>, max: nat, no: nat)
    requires |data| > 0 && Tidy(data, free, max) && no != 0 && data[SlotOf(no, |data|)].no == no
    ensures var data' := data[SlotOf(no, |data|) := Slot(0, None)];
            Tidy(data', free + [SlotOf(no, |data|)], max) && Table(data') == Table(data) - {no}
  {
    var data', free' := data[SlotOf(no, |data|) := Slot(0, None)], free + [SlotOf(no, |data|)];
    TidyClear(data, free, max, no);
    hide Tidy, SlotOf;
    forall n: nat
      ensures n in Numbers(data) <==> n != 0 && data[SlotOf(n, |data|)].no == n
      ensures n in Numbers(data') <==> n != 0 && data'[SlotOf(n, |data|)].no == n
    {
      InNumbers(data, free, max, n);
      InNumbers(data', free', max, n);
    }
    hide Numbers;
    assert Table(data').Keys == (Table(data) - {no}).Keys;
  }

  lemma InTable<P>(data: seq<Slot<P>>, no: nat)
    requires |data| > 0
    ensures no in Table(data) <==> no in Numbers(data)
    ensures no !in Numbers(data) ==> Table(data) - {no} == Table(data)
  {
  }

  ghost function UsedTo<P>(data: seq<Slot<P>>, k: nat): set<nat>
    requires k <= |data|
  {
    set i | 0 <= i < k && data[i].no != 0 :: data[i].no
  }

  ghost function FreeTo<P>(data: seq<Slot<P>>, k: nat): set<nat>
    requires k <= |data|
  {
    set i | 0 <= i < k && data[i].no == 0
  }

  lemma Distinct<P>(data: seq<Slot<P>>, free: seq<nat>, max: nat, k: nat)
    requires Tidy(data, free, max) && k < |data| && data[k].no != 0
    ensures data[k].no !in UsedTo(data, k)
  {
    forall i | 0 <= i < k && data[i].no != 0 ensures data[i].no != data[k].no {
      assert SlotOf(data[i].no, |data|) == i && SlotOf(data[k].no, |data|) == k;
    }
  }

  lemma FreeStep<P>(data: seq<Slot<P>>, k: nat)
    requires k < |data|
    ensures FreeTo(data, k + 1) == if data[k].no == 0 then FreeTo(data, k) + {k} else FreeTo(data, k)
    ensures k !in FreeTo(data, k)
  {
  }

  lemma UsedStep<P>(data: seq<Slot<P>>, k: nat)
    requires k < |data|
    ensures UsedTo(data, k + 1) == if data[k].no == 0 then UsedTo(data, k) else UsedTo(data, k) + {data[k].no}
  {
  }

  /** One more slot is either in use or free. */
  lemma SlotSplit<P>(data: seq<Slot<P>>, free: seq<nat>, max: nat, k: nat)
    requires Tidy(data, free, max) && k < |data|
    ensures |UsedTo(data, k + 1)| + |FreeTo(data, k + 1)| == |UsedTo(data, k)| + |FreeTo(data, k)| + 1
  {
    hide Tidy, UsedTo, FreeTo;
    FreeStep(data, k);
    UsedStep(data, k);
    if data[k].no != 0 {
      Distinct(data, free, max, k);
    }
  }

  lemma {:induction false} SlotsSplit<P>(data: seq<Slot<P>>, free: seq<nat>, max: nat, k: nat)
    requires Tidy(data, free, max) && k <= |data|
    ensures |UsedTo(data, k)| + |FreeTo(data, k)| == k
  {
    hide Tidy, SlotOf;
    if k == 0 {
      assert UsedTo(data, k) == {} && FreeTo(data, k) == {};
    } else {
      SlotsSplit(data, free, max, k - 1);
      SlotSplit(data, free, max, k - 1);
    }
  }

  lemma TableCount<P>(data: seq<Slot<P>>, free: seq<nat>, max: nat)
    requires |data| > 0 && Tidy(data, free, max)
    ensures |Table(data)| + |free| == |data|
  {
    SlotsSplit(data, free, max, |data|);
    SizeOfElements(free);
    assert FreeTo(data, |data|) == Elements(free);
    assert UsedTo(data, |data|) == Numbers(data);
    assert Table(data).Keys == Numbers(data);
  }

  lemma FirstFree<P>(data: seq<Slot<P>>, free: seq<nat>, max: nat)
    requires Tidy(data, free, max) && free != []
    ensures free[0] < |data|
  {
    assert free[0] in free;
  }

  lemma HistorySnoc(size: nat, max: nat, issued: seq<nat>, no: nat)
    requires History(size, max, issued) && issued != [] && Follows(size, max, issued[|issued| - 1], no)
    ensures History(size, max, issued + [no])
  {
  }

  // The order in which slots are used again

  /** A slot is taken from the front of the free queue, or put at its end. */
  datatype Turn = Take | Give(slot: nat)

  predicate Plays(free: seq<nat>, turns: seq<Turn>)
    decreases |turns|
  {
    turns == [] || ((turns[0] == Take ==> free != []) && Plays(Turned(free, turns[0]), turns[1..]))
  }

  /** The queue after a turn: see Map.Add and Map.Del. */
  function Turned(free: seq<nat>, turn: Turn): seq<nat> {
    match turn
    case Take => if free == [] then [] else free[1..]
    case Give(slot) => free + [slot]
  }

  function FreeAfter(free: seq<nat>, turns: seq<Turn>): seq<nat>
    decreases |turns|
  {
    if turns == [] then free else FreeAfter(Turned(free, turns[0]), turns[1..])
  }

  /** The slots taken, in order. */
  function Taken(free: seq<nat>, turns: seq<Turn>): seq<nat>
    decreases |turns|
  {
    if turns == [] then []
    else (if turns[0] == Take then free[..if free == [] then 0 else 1] else []) + Taken(Turned(free, turns[0]), turns[1..])
  }

  function Given(turns: seq<Turn>): seq<nat> {
    if turns == [] then [] else (if turns[0].Give? then [turns[0].slot] else []) + Given(turns[1..])
  }

  /** First freed, first used. */
  lemma {:induction false} TakenInOrder(free: seq<nat>, turns: seq<Turn>)
    requires Plays(free, turns)
    ensures Taken(free, turns) + FreeAfter(free, turns) == free + Given(turns)
    decreases |turns|
  {
    if turns != [] {
      var turn, rest := turns[0], turns[1..];
      var free' := Turned(free, turn);
      TakenInOrder(free', rest);
      var first, given := if turn == Take then free[..1] else [], if turn.Give? then [turn.slot] else [];
      assert first + free' == free + given;
      Regroup(first, Taken(free', rest), FreeAfter(free', rest), free', Given(rest), free, given);
      hide Turned, Plays;
    }
  }

  lemma Regroup(first: seq<nat>, taken: seq<nat>, after: seq<nat>, mid: seq<nat>, more: seq<nat>, free: seq<nat>, given: seq<nat>)
    requires taken + after == mid + more && first + mid == free + given
    ensures (first + taken) + after == free + (given + more)
  {
    assert (first + taken) + after == first + (taken + after);
    assert first + (mid + more) == (first + mid) + more;
    assert (free + given) + more == free + (given + more);
  }

  /** A slot that is freed is taken again only when all those that were free before it have
      been, in their order. */
  lemma FreedSlotWaits(free: seq<nat>, x: nat, turns: seq<Turn>)
    requires x !in free && Plays(free + [x], turns)
    ensures var taken := Taken(free + [x], turns);
            x in taken ==> |free| < |taken| && taken[..|free|] == free && taken[|free|] == x
  {
    TakenInOrder(free + [x], turns);
    var taken, all := Taken(free + [x], turns), free + [x] + Given(turns);
    if i :| 0 <= i < |taken| && taken[i] == x {
      assert taken[i] == all[i];
      assert all[..|free|] == free && all[|free|] == x;
      assert i >= |free|;
      assert taken == all[..|taken|];
    }
  }

  class Map<P> {
    var counter: nat
    const maxCounter: nat
    const size: nat
    const data: array<Slot<P>>
    var freeItems: seq<nat>
    /** The initial counter and every number handed out since. */
    ghost var issued: seq<nat>

    ghost predicate Valid()
      reads this, data
    {
      && 0 < size < maxCounter && data.Length == size
      && Tidy(data[..], freeItems, maxCounter)
      && 0 < |issued| && issued[|issued| - 1] == counter && History(size, maxCounter, issued)
    }

    /** The numbers in use, and what they stand for. */
    ghost function Live(): map<nat, Option<P>>
      reads this, data
      requires data.Length > 0
    {
      Table(data[..])
    }

    /** `umap_new` */
    constructor (size: nat, maxCounter: nat)
      requires 0 < size < maxCounter
      ensures Valid() && Live() == map[] && fresh(data)
      ensures this.size == size && this.maxCounter == maxCounter && issued == [1]
      ensures freeItems == seq(size, k => k)
    {
      counter := 1;
      this.maxCounter := maxCounter;
      this.size := size;
      data := new Slot<P>[size](i => Slot(0, None));
      freeItems := [];
      issued := [1];
      new;
      for i := 0 to size
        modifies this`freeItems
        invariant freeItems == seq(i, k => k)
      {
        freeItems := freeItems + [i];
      }
      forall i | 0 <= i < size ensures i in freeItems {
        assert freeItems[i] == i;
      }
      assert Numbers(data[..]) == {};
    }

    /** `umap_get`: the stored pointer of a live number, NULL for any other. */
    method Get(no: nat) returns (ptr: Option<P>)
      requires Valid()
      ensures ptr == if no in Live() then Live()[no] else None
    {
      InNumbers(data[..], freeItems, maxCounter, no);
      var d := data[no % size];
      if d.no != no {
        return None;
      }
      return d.ptr;
    }

    /** The `count_again` part of `umap_add`. */
    method Count(idx: nat) returns (restarts: nat)
      requires idx < size < maxCounter
      modifies this`counter
      ensures counter == NextNumber(size, maxCounter, idx, old(counter))
      ensures restarts <= 1
    {
      restarts := 0;
      var again := true;
      while again
        invariant restarts <= 1
        invariant again && restarts == 0 ==> counter == old(counter)
        invariant again && restarts == 1 ==> counter == 0 && old(counter) + Jump(size, idx, old(counter)) >= maxCounter
        invariant !again ==> counter == NextNumber(size, maxCounter, idx, old(counter))
        decreases again, 1 - restarts
      {
        var x := (size + idx - counter % size) % size;
        if x == 0 {
          x := size;
        }
        assert x == Jump(size, idx, counter);
        counter := counter + x;
        again := counter >= maxCounter;
        if again {
          counter := 0;
          restarts := restarts + 1;
        }
      }
    }

    /** `umap_add`: 0 when and only when the table is full, a new number otherwise. */
    method Add(ptr: Option<P>) returns (no: nat)
      requires Valid()
      modifies this`counter, this`freeItems, this`issued, data
      ensures Valid()
      ensures no == 0 <==> |old(Live())| == size
      ensures no == 0 ==> Live() == old(Live()) && issued == old(issued)
      ensures no != 0 ==> no !in old(Live()) && no < maxCounter && Live() == old(Live())[no := ptr] && issued == old(issued) + [no]
      ensures freeItems == if no == 0 then old(freeItems) else Turned(old(freeItems), Take)
      ensures no != 0 ==> old(freeItems) != [] && SlotOf(no, size) == old(freeItems)[0]
    {
      hide Tidy, Table, NextNumber, Follows, History;
      TableCount(data[..], freeItems, maxCounter);
      if freeItems == [] {
        return 0;
      }
      var idx := freeItems[0];
      FirstFree(data[..], freeItems, maxCounter);
      NextFollows(size, maxCounter, idx, counter);
      var restarts := Count(idx);
      no := counter;
      TableSet(data[..], freeItems, maxCounter, no, ptr);
      freeItems := freeItems[1..];
      data[idx] := Slot(no, ptr);
      HistorySnoc(size, maxCounter, issued, no);
      issued := issued + [no];
      assert data[..] == old(data[..])[idx := Slot(no, ptr)];
    }

    /** `umap_del`: forgets a live number, and leaves the table alone for any other,
        except that number 0 with slot 0 free puts that slot on the free queue again. */
    method Del(no: nat)
      requires Valid()
      modifies this`freeItems, data
      ensures Valid() <==> !(no == 0 && old(data[0].no) == 0)
      ensures Live() == old(Live()) - {no}
      ensures no in old(Live()) ==> freeItems == Turned(old(freeItems), Give(SlotOf(no, size)))
      ensures no !in old(Live()) && no != 0 ==> freeItems == old(freeItems) && data[..] == old(data[..])
    {
      ghost var before := data[..];
      InNumbers(before, freeItems, maxCounter, no);
      InTable(before, no);
      hide Tidy, Table, Numbers, History;
      var idx := no % size;
      if data[idx].no != no {
        return;
      }
      if no != 0 {
        TableClear(before, freeItems, maxCounter, no);
      }
      data[idx] := Slot(0, None);
      freeItems := freeItems + [idx];
      assert data[..] == before[idx := Slot(0, None)];
      if no == 0 {
        assert data[..] == before;
        DoublyFree(before, old(freeItems), maxCounter);
      }
    }
  }

  lemma DoublyFree<P>(data: seq<Slot<P>>, free: seq<nat>, max: nat)
    requires |data| > 0 && Tidy(data, free, max) && data[0].no == 0
    ensures !Tidy(data, free + [0], max)
  {
    var k :| 0 <= k < |free| && free[k] == 0;
    assert (free + [0])[k] == (free + [0])[|free|];
  }
}
