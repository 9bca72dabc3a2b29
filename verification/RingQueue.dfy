/** The ring buffer queue: elements in an array that is used round and round, and grows when it is full. */
module RingQueue {
  import opened Basics

  /** The slot `i` places behind `first`, round the end of an array. */
  function Slot(first: nat, i: nat, size: nat): (r: nat)
    requires first < size && i <= size
    ensures r < size
  {
    if first + i < size then first + i else first + i - size
  }

  lemma NextSlot(first: nat, i: nat, size: nat)
    requires first < size && i < size
    ensures (Slot(first, i, size) + 1) % size == Slot(first, i + 1, size)
  {
  }

  /** The elements stand in their slots, one behind the other. */
  ghost predicate Ring<T>(slots: seq<Option<T>>, first: nat, contents: seq<T>) {
    && first < |slots| && |contents| <= |slots|
    && forall i | 0 <= i < |contents| :: slots[Slot(first, i, |slots|)] == Some(contents[i])
  }

  lemma Pushed<T>(slots: seq<Option<T>>, first: nat, contents: seq<T>, elem: T)
    requires Ring(slots, first, contents) && |contents| < |slots|
    ensures Ring(slots[Slot(first, |contents|, |slots|) := Some(elem)], first, contents + [elem])
  {
    var size := |slots|;
    forall i | 0 <= i < |contents| ensures Slot(first, i, size) != Slot(first, |contents|, size) {
    }
  }

  lemma Popped<T>(slots: seq<Option<T>>, first: nat, contents: seq<T>)
    requires Ring(slots, first, contents) && contents != []
    ensures slots[first] == Some(contents[0])
    ensures Ring(slots[first := None], Slot(first, 1, |slots|), contents[1..])
  {
    var size := |slots|;
    assert slots[Slot(first, 0, size)] == Some(contents[0]);
    forall i | 0 <= i < |contents| - 1
      ensures slots[first := None][Slot(Slot(first, 1, size), i, size)] == Some(contents[1..][i])
    {
      assert Slot(Slot(first, 1, size), i, size) == Slot(first, i + 1, size) != first;
    }
  }

  class Queue<T> {
    // nil stands in the slots that are not in use
    var elems: array<Option<T>>
    var nelems: nat
    var popi: nat
    var pushi: nat
    // what is in the queue, from the front to the back
    ghost var contents: seq<T>

    constructor ()
      ensures Valid() && contents == [] && fresh(elems)
    {
      elems := new Option<T>[0];
      nelems, popi, pushi, contents := 0, 0, 0, [];
    }

    ghost predicate Valid()
      reads this, elems
    {
      && nelems == |contents|
      && (elems.Length == 0 ==> nelems == popi == pushi == 0)
      && (elems.Length > 0 ==> Ring(elems[..], popi, contents) && pushi == Slot(popi, nelems, elems.Length))
    }

    method Len() returns (n: nat)
      requires Valid()
      ensures n == |contents|
    {
      n := nelems;
    }

    method Push(elem: T)
      requires Valid()
      modifies this, elems
      ensures Valid() && (elems == old(elems) || fresh(elems))
      ensures contents == old(contents) + [elem]
    {
      hide Slot, Ring;
      RingSize(elems[..], popi, contents);
      if nelems == elems.Length {
        Expand();
        RingSize(elems[..], popi, contents);
      }
      Pushed(elems[..], popi, contents, elem);
      NextSlot(popi, nelems, elems.Length);
      elems[pushi] := Some(elem);
      nelems := nelems + 1;
      pushi := (pushi + 1) % elems.Length;
      contents := contents + [elem];
    }

    method Pop() returns (elem: Option<T>)
      requires Valid()
      modifies this, elems
      ensures Valid() && elems == old(elems)
      ensures old(contents) == [] ==> elem == None && contents == []
      ensures old(contents) != [] ==> elem == Some(old(contents)[0]) && contents == old(contents)[1..]
    {
      hide Slot, Ring;
      if nelems == 0 {
        return None;
      }
      RingSize(elems[..], popi, contents);
      Popped(elems[..], popi, contents);
      ShiftedEnd(popi, nelems, elems.Length);
      elem := elems[popi];
      elems[popi] := None;
      nelems := nelems - 1;
      NextSlot(popi, 0, elems.Length);
      popi := (popi + 1) % elems.Length;
      contents := contents[1..];
    }

    /** A larger array, with room between the back and the front. */
    method Expand()
      requires Valid() && nelems == elems.Length
      modifies this`elems, this`popi, this`pushi, elems
      ensures Valid() && fresh(elems) && elems.Length > nelems
    {
      var curcap := elems.Length;
      var newcap;
      if curcap == 0 {
        newcap := 8;
      } else if curcap < 1024 {
        newcap := curcap * 2;
      } else {
        newcap := curcap + curcap / 4;
      }
      var before := elems;
      var grown := new Option<T>[newcap](_ => None);
      ghost var all := elems[..];
      var first := popi;
      if popi == 0 {
        forall i | 0 <= i < curcap {
          grown[i] := before[i];
        }
        pushi := curcap;
      } else {
        var newpopi := newcap - (curcap - popi);
        forall i | 0 <= i < first {
          grown[i] := before[i];
        }
        forall i | 0 <= i < curcap - first {
          grown[newpopi + i] := before[first + i];
        }
        popi := newpopi;
      }
      forall i | 0 <= i < curcap {
        before[i] := None;
      }
      elems := grown;
      forall i | 0 <= i < nelems ensures elems[Slot(popi, i, newcap)] == Some(contents[i]) {
        assert all[Slot(first, i, curcap)] == Some(contents[i]);
      }
      assert Ring(elems[..], popi, contents);
    }
  }

  lemma RingSize<T>(slots: seq<Option<T>>, first: nat, contents: seq<T>)
    ensures Ring(slots, first, contents) ==> first < |slots| && |contents| <= |slots|
  {
  }

  lemma ShiftedEnd(first: nat, n: nat, size: nat)
    requires first < size && 0 < n <= size
    ensures Slot(first, 0, size) == first && Slot(Slot(first, 1, size), n - 1, size) == Slot(first, n, size)
  {
  }

  // An operation on a queue.
  datatype Operation<T> = PushOf(elem: T) | PopOf

  /** The queue as a plain sequence: what is in it and what the pops have given. */
  function Fifo<T>(ops: seq<Operation<T>>): (r: (seq<T>, seq<Option<T>>)) {
    if ops == [] then ([], [])
    else
      var (q, out) := Fifo(ops[..|ops| - 1]);
      match ops[|ops| - 1]
      case PushOf(elem) => (q + [elem], out)
      case PopOf => if q == [] then (q, out + [None]) else (q[1..], out + [Some(q[0])])
  }

  /** Any sequence of operations gives what a first-in-first-out sequence gives. */
  method Run<T>(ops: seq<Operation<T>>) returns (out: seq<Option<T>>, left: nat)
    ensures out == Fifo(ops).1 && left == |Fifo(ops).0|
  {
    var queue := new Queue<T>();
    out := [];
    for k := 0 to |ops|
      invariant fresh(queue) && fresh(queue.elems) && queue.Valid()
      invariant (queue.contents, out) == Fifo(ops[..k])
    {
      assert ops[..k + 1][..k] == ops[..k];
      match ops[k] {
        case PushOf(elem) => queue.Push(elem);
        case PopOf =>
          var elem := queue.Pop();
          out := out + [elem];
      }
    }
    assert ops[..|ops|] == ops;
    left := queue.Len();
  }

  /** The elements popped are the ones pushed, in the order of the pushes, with the rest still in the queue. */
  lemma {:induction false} InOrder<T>(ops: seq<Operation<T>>)
    ensures PoppedFrom(Fifo(ops).1) + Fifo(ops).0 == PushedIn(ops)
  {
    if ops != [] {
      InOrder(ops[..|ops| - 1]);
      var q, out := Fifo(ops[..|ops| - 1]).0, Fifo(ops[..|ops| - 1]).1;
      hide PoppedFrom;
      match ops[|ops| - 1] {
        case PushOf(elem) => Joined(PoppedFrom(out), q, [elem]);
        case PopOf =>
          PoppedOne(out, if q == [] then None else Some(q[0]));
          if q != [] {
            Joined(PoppedFrom(out), [q[0]], q[1..]);
            assert [q[0]] + q[1..] == q;
          }
      }
    } else {
      assert PoppedFrom<T>([]) == [];
    }
  }

  lemma Joined<T>(a: seq<T>, b: seq<T>, c: seq<T>)
    ensures (a + b) + c == a + (b + c)
  {
  }

  lemma PoppedOne<T>(out: seq<Option<T>>, last: Option<T>)
    ensures PoppedFrom(out + [last]) == PoppedFrom(out) + if last.Some? then [last.value] else []
  {
    assert (out + [last])[..|out|] == out;
  }

  function PushedIn<T>(ops: seq<Operation<T>>): (r: seq<T>) {
    if ops == [] then []
    else PushedIn(ops[..|ops| - 1]) + match ops[|ops| - 1] case PushOf(elem) => [elem] case PopOf => []
  }

  function PoppedFrom<T>(out: seq<Option<T>>): (r: seq<T>) {
    if out == [] then []
    else PoppedFrom(out[..|out| - 1]) + match out[|out| - 1] case Some(elem) => [elem] case None => []
  }
}
