/** The history buffer of include/tavernmx/ringbuffer.h. */
module RingBuffers {
  import opened Collections

  /** A position of the iterator, stepped around `capacity` slots. */
  function Next(pos: nat, capacity: nat): nat
    requires pos < capacity
  {
    if pos + 1 == capacity then 0 else pos + 1
  }

  function Previous(pos: nat, capacity: nat): nat
    requires pos < capacity
  {
    if pos == 0 then capacity - 1 else pos - 1
  }

  /** The slot `k` places after `start`, without a modulus. */
  function Slot(start: nat, k: nat, capacity: nat): nat
    requires start < capacity && k <= capacity
  {
    if start + k < capacity then start + k else start + k - capacity
  }

  /** The buffer's own `(pos + 1) % capacity` is the iterator's step. */
  lemma Wrap(pos: nat, capacity: nat)
    requires pos < capacity
    ensures (pos + 1) % capacity == Next(pos, capacity)
  {
    if pos + 1 == capacity {
      assert capacity % capacity == 0;
    }
  }

  /** How many slots lie from `tail` up to `head`. */
  function Distance(tail: nat, head: nat, capacity: nat): (n: nat)
    requires head < capacity && tail < capacity
    ensures n < capacity && Slot(tail, n, capacity) == head
  {
    if head >= tail then head - tail else capacity + head - tail
  }

  /** Stepping the head adds one to the distance, until the head meets the tail. */
  lemma Advances(tail: nat, head: nat, capacity: nat)
    requires head < capacity && tail < capacity
    ensures Next(head, capacity) == tail <==> Distance(tail, head, capacity) + 1 == capacity
    ensures Next(head, capacity) != tail ==>
              Distance(tail, Next(head, capacity), capacity) == Distance(tail, head, capacity) + 1
    ensures Distance(Next(tail, capacity), tail, capacity) == capacity - 1
  {
  }

  /** The `n` slots from `tail` on all hold an item. */
  ghost predicate Filled<T>(slots: seq<Option<T>>, tail: nat, n: nat) {
    && tail < |slots|
    && n < |slots|
    && forall k :: 0 <= k < n ==> slots[Slot(tail, k, |slots|)].Some?
  }

  /** The items of the `n` slots from `tail` on. */
  ghost function Window<T>(slots: seq<Option<T>>, tail: nat, n: nat): (s: seq<T>)
    requires Filled(slots, tail, n)
    ensures |s| == n
  {
    seq(n, k requires 0 <= k < n => slots[Slot(tail, k, |slots|)].value)
  }

  /** Writing the slot after a window extends it. */
  lemma WindowExtends<T>(slots: seq<Option<T>>, tail: nat, n: nat, value: T)
    requires Filled(slots, tail, n)
    ensures var slots' := slots[Slot(tail, n, |slots|) := Some(value)];
            if n + 1 < |slots| then
              && Filled(slots', tail, n + 1)
              && Window(slots', tail, n + 1) == Window(slots, tail, n) + [value]
            else
              && Filled(slots', Next(tail, |slots|), n)
              && Window(slots', Next(tail, |slots|), n) == (Window(slots, tail, n) + [value])[1..]
  {
    var head := Slot(tail, n, |slots|);
    var slots' := slots[head := Some(value)];
    forall k | 0 <= k <= n
      ensures slots'[Slot(tail, k, |slots|)] ==
              if k == n then Some(value) else slots[Slot(tail, k, |slots|)]
    {
    }
    if n + 1 == |slots| {
      forall k | 0 <= k < n
        ensures Slot(Next(tail, |slots|), k, |slots|) == Slot(tail, k + 1, |slots|)
      {
      }
    }
  }

  /** The window after an insertion: the head steps on, and so does the tail if the head meets it. */
  lemma WindowMoves<T>(slots: seq<Option<T>>, tail: nat, head: nat, value: T)
    requires head < |slots| && tail < |slots| && Filled(slots, tail, Distance(tail, head, |slots|))
    ensures var slots', head' := slots[head := Some(value)], Next(head, |slots|);
            var tail' := if head' == tail then Next(tail, |slots|) else tail;
            && Filled(slots', tail', Distance(tail', head', |slots|))
            && Window(slots', tail', Distance(tail', head', |slots|)) ==
               Last(Window(slots, tail, Distance(tail, head, |slots|)) + [value], |slots| - 1)
  {
    hide Filled, Window;
    var n := Distance(tail, head, |slots|);
    WindowExtends(slots, tail, n, value);
    Advances(tail, head, |slots|);
    hide Slot, Distance, Next;
  }

  class RingBuffer<T> {
    const data: array<Option<T>>
    var head: nat
    var tail: nat

    ghost predicate Valid()
      reads this, data
    {
      && head < data.Length
      && tail < data.Length
      && Filled(data[..], tail, Distance(tail, head, data.Length))
    }

    /** The accessible items, oldest first. */
    ghost function Contents(): (s: seq<T>)
      requires Valid()
      reads this, data
    {
      Window(data[..], tail, Distance(tail, head, data.Length))
    }

    constructor (capacity: nat)
      requires 0 < capacity
      ensures Valid() && fresh(data) && data.Length == capacity
      ensures Contents() == []
    {
      data := new Option<T>[capacity](_ => None);
      head, tail := 0, 0;
    }

    method Empty() returns (b: bool)
      requires Valid()
      ensures b <==> Contents() == []
    {
      b := head == tail;
    }

    method Full() returns (b: bool)
      requires Valid()
      ensures b <==> |Contents()| == data.Length - 1
    {
      Wrap(head, data.Length);
      b := (head + 1) % data.Length == tail;
    }

    /** One short of the truth about a full buffer: it reports the capacity, not what can be read. */
    method Size() returns (n: nat)
      requires Valid()
      ensures n == if |Contents()| == data.Length - 1 then data.Length else |Contents()|
    {
      var full := Full();
      if full {
        return data.Length;
      }
      n := if head >= tail then head - tail else data.Length + head - tail;
    }

    method Tail() returns (x: Option<T>)
      requires Valid()
      ensures x == if Contents() == [] then None else Some(Contents()[0])
    {
      var empty := Empty();
      if empty {
        return None;
      }
      assert data[..][Slot(tail, 0, data.Length)].Some?;
      x := data[tail];
    }

    method Insert(value: T)
      requires Valid()
      modifies this, data
      ensures Valid()
      ensures Contents() == Last(old(Contents()) + [value], data.Length - 1)
    {
      ghost var slots := data[..];
      WindowMoves(slots, tail, head, value);
      Wrap(head, data.Length);
      Wrap(tail, data.Length);
      hide Filled, Window, Distance, Last, Next;
      data[head] := Some(value);
      assert data[..] == slots[head := Some(value)];
      head := (head + 1) % data.Length;
      if tail == head {
        tail := (tail + 1) % data.Length;
      }
    }

    method Reset()
      requires Valid()
      modifies this, data
      ensures Valid() && Contents() == []
      ensures forall i :: 0 <= i < data.Length ==> data[i] == None
    {
      for i := 0 to data.Length
        invariant head < data.Length && tail < data.Length
        invariant forall j :: 0 <= j < i ==> data[j] == None
      {
        data[i] := None;
      }
      head := tail;
    }

    /** `for (auto& item : buffer)`, and the null check every dereference needs. */
    method Forward() returns (items: seq<T>)
      requires Valid()
      ensures items == Contents()
    {
      items := [];
      var pos := tail;
      ghost var n := Distance(tail, head, data.Length);
      while pos != head
        invariant |items| <= n
        invariant pos == Slot(tail, |items|, data.Length)
        invariant items == Contents()[..|items|]
        decreases n - |items|
      {
        assert data[..][Slot(tail, |items|, data.Length)].Some?;
        items := items + [data[pos].value];
        pos := Next(pos, data.Length);
      }
    }

    /** `rbegin()` to `rend()`: each dereference steps a copy of the position back first. */
    method Backward() returns (items: seq<T>)
      requires Valid()
      ensures items == Reversed(Contents())
    {
      items := [];
      var pos := head;
      ghost var n := Distance(tail, head, data.Length);
      while pos != tail
        invariant |items| <= n
        invariant pos == Slot(tail, n - |items|, data.Length)
        invariant items == Reversed(Contents())[..|items|]
        decreases n - |items|
      {
        pos := Previous(pos, data.Length);
        assert pos == Slot(tail, n - |items| - 1, data.Length);
        assert data[..][pos].Some?;
        items := items + [data[pos].value];
      }
    }
  }

  /** A run of the two operations that change a buffer. */
  datatype Operation<T> = Insert(value: T) | Reset

  /** What `RingBuffer.Insert` and `RingBuffer.Reset` are specified to do, one after the other. */
  function ContentsAfter<T>(ops: seq<Operation<T>>, capacity: nat): seq<T>
    requires 0 < capacity
  {
    if ops == [] then []
    else
      var before := ContentsAfter(ops[..|ops| - 1], capacity);
      match ops[|ops| - 1]
      case Insert(value) => Last(before + [value], capacity - 1)
      case Reset => []
  }

  /** Everything inserted since the last reset. */
  function SinceReset<T>(ops: seq<Operation<T>>): seq<T> {
    if ops == [] then []
    else match ops[|ops| - 1]
      case Insert(value) => SinceReset(ops[..|ops| - 1]) + [value]
      case Reset => []
  }

  /** Over any run, a buffer holds the last capacity - 1 items inserted since the last reset. */
  lemma {:induction false} KeepsTheLatest<T>(ops: seq<Operation<T>>, capacity: nat)
    requires 0 < capacity
    ensures ContentsAfter(ops, capacity) == Last(SinceReset(ops), capacity - 1)
  {
    if ops != [] {
      var earlier := ops[..|ops| - 1];
      KeepsTheLatest(earlier, capacity);
      if ops[|ops| - 1].Insert? {
        LastOfAppend(SinceReset(earlier), [ops[|ops| - 1].value], capacity - 1);
      }
    }
  }

}
