/** The path tracker: a last-in-first-out stack of visited rooms. */
module PathTracker {
  import opened Wrappers

  /**
   * `Stack<T>`. `items` lists the values held by the linked nodes from the top node down;
   * `count` is the node counter the class keeps beside them.
   */
  class Stack<T> {
    var items: seq<T>
    var count: nat

    ghost predicate Valid()
      reads this
    {
      count == |items|
    }

    constructor ()
      ensures Valid() && items == []
    {
      items := [];
      count := 0;
    }

    function IsEmpty(): (r: bool)
      reads this
      requires Valid()
      ensures r <==> Size() == 0
    {
      items == []
    }

    function Size(): (r: nat)
      reads this
      requires Valid()
      ensures r == |items|
    {
      count
    }

    /** `top()`: the most recently pushed value, or the "Stack is empty." exception. */
    function Top(): (r: Result<T>)
      reads this
      requires Valid()
      ensures r.Failure? <==> Size() == 0
      ensures r.Success? ==> r.value == items[0]
    {
      if IsEmpty() then Failure("Stack is empty.") else Success(items[0])
    }

    method Push(value: T)
      requires Valid()
      modifies this
      ensures Valid() && items == [value] + old(items)
      ensures Top() == Success(value) && Size() == old(Size()) + 1
    {
      items := [value] + items;
      count := count + 1;
    }

    /** Removes the top value; on an empty stack it does nothing. */
    method Pop()
      requires Valid()
      modifies this
      ensures Valid()
      ensures old(items) == [] ==> items == []
      ensures old(items) != [] ==> items == old(items)[1..] && Size() == old(Size()) - 1
    {
      if IsEmpty() {
        return;
      }
      items := items[1..];
      count := count - 1;
    }
  }
}
