/** The frame stack the handlers import (github.com/dihedron/jted/stack), seen
    through the calls handler.go and print_handler.go make on it: Clear, Push,
    Pop, Len, and a Top that returns nil on an empty stack. Frames are kept as
    a sequence, innermost last. */
module FrameStack {
  import opened Wrappers
  import opened Utils

  /** Top: the innermost frame, or nothing on an empty stack. */
  function Top(stack: seq<Node>): (r: Option<Node>)
    ensures r.Some? <==> stack != []
    ensures r.Some? ==> r.value == stack[|stack| - 1]
  {
    if stack == [] then None else Some(stack[|stack| - 1])
  }

  /** The stack after its innermost frame is flagged as a container. */
  function MarkTop(stack: seq<Node>): (r: seq<Node>)
    ensures |r| == |stack|
    ensures stack != [] ==> r[..|r| - 1] == stack[..|stack| - 1]
    ensures stack != [] ==> r[|r| - 1] == stack[|stack| - 1].(container := true)
  {
    if stack == [] then [] else stack[|stack| - 1 := stack[|stack| - 1].(container := true)]
  }

  /** Marking is idempotent: a frame becomes a container once and stays one. */
  lemma MarkTopIdempotent(stack: seq<Node>)
    ensures MarkTop(MarkTop(stack)) == MarkTop(stack)
  {
  }
}
