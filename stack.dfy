/** The synchronised LIFO of stack.go: a singly linked list of immutable
    elements, a pointer to the most recent one and a size counter. The
    mutex is left out; the model is the sequential behaviour. */
module LinkedStack {
  import opened Wrappers

  /** One link of the list. Elements are never changed after creation, so
      their fields are constants; `contents` lists the values from this
      element to the bottom of the stack. */
  class Element<T> {
    const data: T
    const next: Element?<T>
    ghost const contents: seq<T>

    ghost predicate Valid()
      decreases |contents|
    {
      && contents != []
      && contents[0] == data
      && (next == null ==> contents == [data])
      && (next != null ==> contents == [data] + next.contents && next.Valid())
    }

    constructor (data: T, next: Element?<T>)
      requires next != null ==> next.Valid()
      ensures Valid()
      ensures this.data == data && this.next == next
      ensures contents == [data] + (if next == null then [] else next.contents)
    {
      this.data := data;
      this.next := next;
      this.contents := [data] + (if next == null then [] else next.contents);
    }
  }

  class Stack<T> {
    var head: Element?<T>
    var size: int
    /** The values on the stack, the most recent first. */
    ghost var contents: seq<T>

    /** The counter is the number of elements reachable from `head`, and those
        elements hold exactly `contents`. */
    ghost predicate Valid()
      reads this
    {
      && size == |contents|
      && (head == null <==> contents == [])
      && (head != null ==> head.Valid() && head.contents == contents)
    }

    /** NewStack: an empty stack. */
    constructor ()
      ensures Valid() && contents == []
    {
      head := null;
      size := 0;
      contents := [];
    }

    method Push(data: T)
      requires Valid()
      modifies this
      ensures Valid()
      ensures contents == [data] + old(contents)
      ensures size == old(size) + 1
    {
      head := new Element(data, head);
      size := size + 1;
      contents := [data] + contents;
    }

    /** The most recently pushed value, removed; None, and no change, on an
        empty stack. */
    method Pop() returns (r: Option<T>)
      requires Valid()
      modifies this
      ensures Valid()
      ensures old(contents) == [] ==> r == None && contents == [] && size == 0
      ensures old(contents) != [] ==>
        r == Some(old(contents)[0]) && contents == old(contents)[1..] && size == old(size) - 1
    {
      if head == null {
        return None;
      }
      var h := head;
      assert h.next != null ==> h.contents[1..] == h.next.contents;
      r := Some(h.data);
      head := h.next;
      size := size - 1;
      contents := contents[1..];
    }

    /** The most recent value; the source dereferences `head` unconditionally,
        so the stack must not be empty. */
    function Top(): (r: T)
      requires Valid() && contents != []
      reads this
      ensures r == contents[0]
    {
      head.data
    }

    function Len(): (n: int)
      requires Valid()
      reads this
      ensures n == |contents|
    {
      size
    }

    function IsEmpty(): (b: bool)
      requires Valid()
      reads this
      ensures b <==> contents == []
    {
      size == 0
    }
  }

  /** Pushing a value and popping it again gives the value back and the
      stack as it was. */
  method PushPop<T>(s: Stack<T>, x: T) returns (r: Option<T>)
    requires s.Valid()
    modifies s
    ensures s.Valid() && r == Some(x)
    ensures s.contents == old(s.contents) && s.size == old(s.size)
  {
    s.Push(x);
    r := s.Pop();
  }

  /** The scenario of stack_test.go: push 0 to 99, checking the top after each
      push, check the length, pop 100 times, check the stack is empty. */
  method PushLenPop() returns (tops: seq<int>, len: int, popped: seq<int>, empty: bool)
    ensures |tops| == 100 && forall i :: 0 <= i < 100 ==> tops[i] == i
    ensures len == 100
    ensures |popped| == 100 && forall i :: 0 <= i < 100 ==> popped[i] + i == 99
    ensures empty
  {
    var stack := new Stack<int>();
    tops := [];
    var i := 0;
    while i < 100
      invariant 0 <= i <= 100
      invariant stack.Valid()
      invariant |stack.contents| == i
      invariant forall k :: 0 <= k < i ==> stack.contents[k] == i - 1 - k
      invariant |tops| == i && forall k :: 0 <= k < i ==> tops[k] == k
    {
      stack.Push(i);
      tops := tops + [stack.Top()];
      i := i + 1;
    }
    len := stack.Len();
    popped := [];
    i := 0;
    while i < 100
      invariant 0 <= i <= 100
      invariant stack.Valid()
      invariant |stack.contents| == 100 - i
      invariant forall k :: 0 <= k < 100 - i ==> stack.contents[k] == 99 - i - k
      invariant |popped| == i && forall k :: 0 <= k < i ==> popped[k] + k == 99
    {
      var j := stack.Pop();
      popped := popped + [j.value];
      i := i + 1;
    }
    empty := stack.IsEmpty();
  }
}
