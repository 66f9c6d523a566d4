/**
  The stacks of the playground: the Int-only `IntStack`, the generic
  `Stack<Element>` with its extensions, and `IntStack2`, an Int stack that
  conforms to `Container`. Each keeps its items in a Swift array, the last
  element being the top; here that array is the sequence field `items`.

  Swift raises a runtime trap when `removeLast` is called on an empty array,
  when a subscript is out of range, and when `suffix` builds an empty or
  reversed range; these show up as `requires` clauses.
*/
module Stacks {
  import opened Wrappers
  import opened Containers

  /** All items of `s` but the last one. */
  function Init<T>(s: seq<T>): seq<T>
    requires |s| > 0
  {
    s[..|s| - 1]
  }

  /** The last item of `s`. */
  function Last<T>(s: seq<T>): T
    requires |s| > 0
  {
    s[|s| - 1]
  }

  /** `IntStack`: the non-generic stack of `Int`s. */
  class IntStack {
    var items: seq<int>

    constructor ()
      ensures items == []
    {
      items := [];
    }

    /** `push`: `item` becomes the new top, below it the old items. */
    method Push(item: int)
      modifies this
      ensures items == old(items) + [item]
    {
      items := items + [item];
    }

    /** `pop`: removes and returns the top item. */
    method Pop() returns (x: int)
      requires |items| > 0
      modifies this
      ensures x == Last(old(items))
      ensures items == Init(old(items))
    {
      x := items[|items| - 1];
      items := items[..|items| - 1];
    }
  }

  /** `Stack<Element>`: the generic stack. */
  class Stack<T> {
    var items: seq<T>

    constructor ()
      ensures items == []
    {
      items := [];
    }

    /** `count`: the number of items. */
    function Count(): nat
      reads this
    {
      |items|
    }

    /** The subscript `self[i]`: the item at position `i`, counted from the bottom. */
    function At(i: int): T
      reads this
      requires 0 <= i < Count()
    {
      items[i]
    }

    /** `push`: `item` becomes the new top; the items below it are unchanged. */
    method Push(item: T)
      modifies this
      ensures items == old(items) + [item]
      ensures Count() == old(Count()) + 1
      ensures forall i :: 0 <= i < old(Count()) ==> At(i) == old(At(i))
      ensures TopItem() == Some(item)
    {
      items := items + [item];
    }

    /** `pop`: removes and returns the top item. */
    method Pop() returns (x: T)
      requires Count() > 0
      modifies this
      ensures Some(x) == old(TopItem())
      ensures items == Init(old(items))
      ensures Count() == old(Count()) - 1
    {
      x := items[|items| - 1];
      items := items[..|items| - 1];
    }

    /** `append`, the `Container` requirement: does exactly what `push` does. */
    method Append(item: T)
      modifies this
      ensures items == old(items) + [item]
      ensures Count() == old(Count()) + 1
      ensures TopItem() == Some(item)
    {
      Push(item);
    }

    /** `topItem`: absent on an empty stack, otherwise the last item pushed that is still there. */
    function TopItem(): (r: Option<T>)
      reads this
      ensures r.None? <==> Count() == 0
      ensures r.Some? ==> items == Init(items) + [r.value]
    {
      if |items| == 0 then None else Some(items[|items| - 1])
    }

    /**
      `suffix(size)`: a new stack holding the last `size` items of this one,
      in their order here (its top is this stack's top); this stack is not
      changed.
    */
    method Suffix(size: int) returns (r: Stack<T>)
      requires 0 <= size <= Count()
      ensures fresh(r)
      ensures r.Count() == size
      ensures r.items == items[Count() - size..]
      ensures items == items[..Count() - size] + r.items
      ensures items == old(items)
    {
      r := new Stack<T>();
      for index := Count() - size to Count()
        invariant r.items == items[Count() - size..index]
      {
        r.Append(At(index));
      }
      assert items == items[..Count() - size] + items[Count() - size..];
    }
  }

  /**
    `isTop`, an extension of `Stack` for `Equatable` elements: the stack is
    not empty and its top item equals `item`.
  */
  function IsTop<T(==)>(s: Stack<T>, item: T): (b: bool)
    reads s
    ensures b <==> s.Count() > 0 && s.At(s.Count() - 1) == item
    ensures b <==> s.TopItem() == Some(item)
  {
    match LastOrNone(s.items)
    case None => false
    case Some(top) => top == item
  }

  /** Swift's `Array.last`: the last element, or `None` for an empty array. */
  function LastOrNone<T>(s: seq<T>): Option<T>
  {
    if |s| == 0 then None else Some(s[|s| - 1])
  }

  /** On a stack of a single item, its top is also the first item. */
  lemma IsTopStartsWithSingle<T>(s: Stack<T>, item: T)
    requires s.Count() == 1
    ensures IsTop(s, item) <==> StartsWith(s.items, item)
  {
  }

  /** Pushing `x` and popping again returns `x` and restores the stack. */
  method PushPopRestores<T>(s: Stack<T>, x: T) returns (y: T)
    modifies s
    ensures y == x
    ensures s.items == old(s.items)
  {
    s.Push(x);
    y := s.Pop();
  }

  /** `IntStack2`: `IntStack` with the conformance to `Container` added. */
  class IntStack2 {
    var items: seq<int>

    constructor ()
      ensures items == []
    {
      items := [];
    }

    /** `push`: `item` becomes the new top, below it the old items. */
    method Push(item: int)
      modifies this
      ensures items == old(items) + [item]
    {
      items := items + [item];
    }

    /** `pop`: removes and returns the top item. */
    method Pop() returns (x: int)
      requires |items| > 0
      modifies this
      ensures x == Last(old(items))
      ensures items == Init(old(items))
    {
      x := items[|items| - 1];
      items := items[..|items| - 1];
    }

    /** `append`, the `Container` requirement: does exactly what `push` does. */
    method Append(item: int)
      modifies this
      ensures items == old(items) + [item]
    {
      Push(item);
    }

    /** `count`: the number of items. */
    function Count(): nat
      reads this
    {
      |items|
    }

    /** The subscript `self[i]`: the item at position `i`, counted from the bottom. */
    function At(i: int): int
      reads this
      requires 0 <= i < Count()
    {
      items[i]
    }
  }
}
