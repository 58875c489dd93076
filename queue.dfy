/**
 * The bounded circular queue used as a node's delivery mailbox: a fixed array
 * of slots, a head, a tail and a three-valued fill state. The number of queued
 * items is never stored; it follows from the state and the head/tail distance.
 *
 * `Ring` is a value snapshot of the queue's fields; `PutStep` and `GetStep`
 * are the field updates the Go code performs once its wait loop lets it
 * through, and the lemmas below say what they do to the abstract contents.
 * The class `Queue` holds the same fields and is proved against them.
 */
module Queue {
  import opened Wrappers

  /** The fill state: nothing queued, every slot queued, or strictly between. */
  datatype QState = Empty | Full | Middle

  /** The queue's fields as a value; its size is |items|. */
  datatype Ring<T> = Ring(items: seq<T>, head: int, tail: int, state: QState)

  /** Representation invariant: both indices address a slot, and head == tail
      exactly when the queue is empty or full. */
  predicate Inv<T>(r: Ring<T>)
  {
    && |r.items| >= 1
    && 0 <= r.head < |r.items|
    && 0 <= r.tail < |r.items|
    && (r.head == r.tail <==> r.state != Middle)
  }

  /** How many items are queued: 0 when empty, the size when full, otherwise
      the distance from head forward to tail. */
  function Count<T>(r: Ring<T>): (n: nat)
    requires Inv(r)
    ensures n <= |r.items|
    ensures n == 0 <==> r.state == Empty
    ensures n == |r.items| <==> r.state == Full
  {
    match r.state
    case Empty => 0
    case Full => |r.items|
    case Middle => if r.head < r.tail then r.tail - r.head else r.tail + |r.items| - r.head
  }

  /** The slot holding the i-th queued item, counting from head and wrapping once. */
  function Slot<T>(r: Ring<T>, i: nat): (k: nat)
    requires Inv(r) && i < |r.items|
    ensures k < |r.items|
  {
    if r.head + i < |r.items| then r.head + i else r.head + i - |r.items|
  }

  /** The queued items, oldest first. */
  function Contents<T>(r: Ring<T>): (s: seq<T>)
    requires Inv(r)
    ensures |s| == Count(r)
  {
    seq(Count(r), i requires 0 <= i < Count(r) => r.items[Slot(r, i)])
  }

  /** The Go code advances an index with `(i + 1) % size`. */
  lemma NextIndex(i: int, n: int)
    requires 0 <= i < n
    ensures (i + 1) % n == if i + 1 == n then 0 else i + 1
  {
  }

  /** What Put does once the queue is not full: store at tail, advance tail
      modulo the size, and become Full when tail catches up with head. */
  function PutStep<T>(r: Ring<T>, v: T): (r': Ring<T>)
    requires Inv(r) && r.state != Full
    ensures Inv(r') && |r'.items| == |r.items|
    ensures r'.items[r.tail] == v
  {
    NextIndex(r.tail, |r.items|);
    var tail := (r.tail + 1) % |r.items|;
    Ring(r.items[r.tail := v], r.head, tail, if tail == r.head then Full else Middle)
  }

  /** What Get does once the queue is not empty: take the item at head, advance
      head modulo the size, and become Empty when head catches up with tail. */
  function GetStep<T>(r: Ring<T>): (res: (T, Ring<T>))
    requires Inv(r) && r.state != Empty
    ensures Inv(res.1) && res.1.items == r.items
  {
    NextIndex(r.head, |r.items|);
    var head := (r.head + 1) % |r.items|;
    (r.items[r.head], Ring(r.items, head, r.tail, if r.tail == head then Empty else Middle))
  }

  /** Put keeps the invariant, appends v to the contents, and the state becomes
      Full exactly when the count reaches the size. */
  lemma PutStepSpec<T>(r: Ring<T>, v: T)
    requires Inv(r) && r.state != Full
    ensures Inv(PutStep(r, v)) && |PutStep(r, v).items| == |r.items|
    ensures Contents(PutStep(r, v)) == Contents(r) + [v]
    ensures PutStep(r, v).state == Full <==> Count(r) + 1 == |r.items|
  {
    var r' := PutStep(r, v);
    NextIndex(r.tail, |r.items|);
    assert Count(r') == Count(r) + 1;
    assert Slot(r, Count(r)) == r.tail;
    forall i | 0 <= i < Count(r')
      ensures Contents(r')[i] == (Contents(r) + [v])[i]
    {
      assert Slot(r', i) == Slot(r, i);
    }
  }

  /** Get keeps the invariant, returns the oldest item and drops it from the
      contents, and the state becomes Empty exactly when the count reaches 0. */
  lemma GetStepSpec<T>(r: Ring<T>)
    requires Inv(r) && r.state != Empty
    ensures Inv(GetStep(r).1) && |GetStep(r).1.items| == |r.items|
    ensures GetStep(r).0 == Contents(r)[0]
    ensures Contents(GetStep(r).1) == Contents(r)[1..]
    ensures GetStep(r).1.state == Empty <==> Count(r) == 1
  {
    var r' := GetStep(r).1;
    NextIndex(r.head, |r.items|);
    assert Count(r') == Count(r) - 1;
    forall i | 0 <= i < Count(r')
      ensures Contents(r')[i] == Contents(r)[1..][i]
    {
      assert Slot(r', i) == Slot(r, i + 1);
    }
  }

  /** The queue after putting xs one by one, none of them blocking. */
  function PutAll<T>(r: Ring<T>, xs: seq<T>): (r': Ring<T>)
    requires Inv(r) && Count(r) + |xs| <= |r.items|
    ensures Inv(r') && |r'.items| == |r.items|
    ensures Contents(r') == Contents(r) + xs
    decreases |xs|
  {
    if xs == [] then r
    else
      PutStepSpec(r, xs[0]);
      var r' := PutAll(PutStep(r, xs[0]), xs[1..]);
      assert Contents(r) + [xs[0]] + xs[1..] == Contents(r) + xs;
      r'
  }

  /** The n items taken by n gets, none of them blocking, and the queue after them. */
  function GetAll<T>(r: Ring<T>, n: nat): (res: (seq<T>, Ring<T>))
    requires Inv(r) && n <= Count(r)
    ensures Inv(res.1) && |res.1.items| == |r.items|
    ensures res.0 == Contents(r)[..n]
    ensures Contents(res.1) == Contents(r)[n..]
    decreases n
  {
    if n == 0 then ([], r)
    else
      GetStepSpec(r);
      var (v, r1) := GetStep(r);
      var (vs, r2) := GetAll(r1, n - 1);
      assert [v] + Contents(r)[1..][..n - 1] == Contents(r)[..n];
      ([v] + vs, r2)
  }

  /** FIFO: on an empty queue, up to size puts followed by as many gets return
      the items in put order and leave the queue empty again, so the gets
      count exactly the puts. */
  lemma {:induction false} Fifo<T>(r: Ring<T>, xs: seq<T>)
    requires Inv(r) && r.state == Empty && |xs| <= |r.items|
    ensures GetAll(PutAll(r, xs), |xs|).0 == xs
    ensures GetAll(PutAll(r, xs), |xs|).1.state == Empty
  {
    var full := PutAll(r, xs);
    assert Contents(r) == [];
    assert Contents(full) == xs;
    var (out, after) := GetAll(full, |xs|);
    assert out == xs[..|xs|] == xs;
    assert Contents(after) == [];
  }

  /** A queue: its fields are updated in place by Get and Put. */
  class Queue<T(0)> {
    var state: QState
    var head: int
    var tail: int
    var size: int
    var items: array<T>

    /** The fields as a Ring value. */
    ghost function Model(): Ring<T>
      reads this, items
    {
      Ring(items[..], head, tail, state)
    }

    ghost predicate Valid()
      reads this, items
    {
      items.Length == size && Inv(Model())
    }

    /** The queued items, oldest first. */
    ghost function Elements(): seq<T>
      reads this, items
      requires Valid()
    {
      Contents(Model())
    }

    /** An empty queue of `size` slots with head and tail at slot 0. */
    constructor (size: int)
      requires size > 0
      ensures Valid() && fresh(items)
      ensures this.size == size && head == 0 && tail == 0 && state == Empty
      ensures Elements() == []
    {
      this.state := Empty;
      this.head := 0;
      this.tail := 0;
      this.size := size;
      this.items := new T[size];
    }

    /** NewQueue: no queue for size 0, otherwise an empty queue of that many
        slots. (A negative size makes the slot allocation fail, so callers
        must not pass one.) */
    static method NewQueue(size: int) returns (q: Queue?<T>)
      requires size >= 0
      ensures q == null <==> size == 0
      ensures q != null ==> fresh(q) && fresh(q.items) && q.Valid()
      ensures q != null ==> q.size == size && q.head == 0 && q.tail == 0 && q.state == Empty
      ensures q != null ==> q.Elements() == []
    {
      if size == 0 {
        return null;
      }
      q := new Queue(size);
    }

    /** Blocking get. The Go code spins until the state is not Empty; in a
        sequential model that wait is the precondition. Writes no slot. */
    method Get() returns (v: T)
      requires Valid() && state != Empty
      modifies this
      ensures Valid() && items == old(items) && size == old(size)
      ensures (v, Model()) == GetStep(old(Model()))
      ensures v == old(Elements())[0] && Elements() == old(Elements())[1..]
      ensures state == Empty <==> Elements() == []
    {
      GetStepSpec(Model());
      v := items[head];
      head := (head + 1) % size;
      if tail == head {
        state := Empty;
      } else {
        state := Middle;
      }
    }

    /** Blocking put. The Go code spins until the state is not Full; in a
        sequential model that wait is the precondition. Writes only slot tail. */
    method Put(v: T)
      requires Valid() && state != Full
      modifies this, items
      ensures Valid() && items == old(items) && size == old(size)
      ensures Model() == PutStep(old(Model()), v)
      ensures items[..] == old(items[..])[old(tail) := v]
      ensures Elements() == old(Elements()) + [v]
      ensures state == Full <==> |Elements()| == size
    {
      PutStepSpec(Model(), v);
      items[tail] := v;
      tail := (tail + 1) % size;
      if tail == head {
        state := Full;
      } else {
        state := Middle;
      }
    }

    /** Non-blocking put: returns true when the item was dropped because the
        queue is full, and then changes nothing; otherwise behaves as Put. */
    method PutNoWait(v: T) returns (isFull: bool)
      requires Valid()
      modifies this, items
      ensures Valid() && items == old(items) && size == old(size)
      ensures isFull <==> old(state) == Full
      ensures isFull ==> Model() == old(Model())
      ensures !isFull ==> Model() == PutStep(old(Model()), v)
      ensures Elements() == if isFull then old(Elements()) else old(Elements()) + [v]
    {
      if state == Full {
        return true;
      }
      Put(v);
      isFull := false;
    }

    /** Non-blocking get: the Go code's pair (value, hasAny) as an Option. It is
        None and nothing changes when the queue is empty; otherwise it behaves
        as Get. */
    method GetNoWait() returns (r: Option<T>)
      requires Valid()
      modifies this
      ensures Valid() && items == old(items) && size == old(size)
      ensures r.Some? <==> old(state) != Empty
      ensures r.None? ==> Model() == old(Model())
      ensures r.Some? ==> (r.value, Model()) == GetStep(old(Model()))
      ensures r.Some? ==> [r.value] + Elements() == old(Elements())
    {
      if state == Empty {
        return None;
      }
      var v := Get();
      r := Some(v);
    }
  }
}
