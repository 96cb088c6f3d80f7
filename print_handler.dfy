/** The tracing handler (print_handler.go). It follows the document with the
    same stack of frames and the same pending-text slot as the templating
    handler, but builds no template: it prints one coloured line per event,
    showing pre-authored placeholders in green and literal values in red.

    A printed line is modelled as a sequence of spans, each carrying its text
    and the colour it is printed in; `Erase` recovers the characters that
    reach the terminal once the colour codes are ignored. */
module Tracing {
  import opened Wrappers
  import opened Xml
  import opened Utils
  import opened FrameStack
  import Templating

  datatype Span = Plain(text: string) | Bold(text: string) | Green(text: string) | Red(text: string)

  type Line = seq<Span>

  /** The text of a line without its colours. */
  function Erase(line: Line): string
  {
    if line == [] then "" else Erase(line[..|line| - 1]) + line[|line| - 1].text
  }

  lemma {:induction false} EraseAppend(a: Line, b: Line)
    ensures Erase(a + b) == Erase(a) + Erase(b)
    decreases |b|
  {
    if b == [] {
      assert a + b == a;
    } else {
      assert (a + b)[..|a + b| - 1] == a + b[..|b| - 1];
      EraseAppend(a, b[..|b| - 1]);
    }
  }

  lemma EraseSingle(x: Span)
    ensures Erase([x]) == x.text
  {
    assert [x][..0] == [];
  }

  /** The text of consecutive spans, span by span. */
  lemma EraseSpans(a: Span, b: Span, c: Span)
    ensures Erase([a, b, c]) == a.text + b.text + c.text
  {
    assert [a, b, c] == [a] + [b] + [c];
    EraseAppend([a] + [b], [c]);
    EraseAppend([a], [b]);
    EraseSingle(a);
    EraseSingle(b);
    EraseSingle(c);
  }

  datatype TraceState = TraceState(stack: seq<Node>, data: string, lines: seq<Line>)

  /** One attribute of a parent's opening line: its value in green exactly
      when it is already a placeholder. */
  function HighlightedAttr(a: Attr): Line
  {
    [Plain(" " + a.name + "=\""), if PatternMatches(a.value) then Green(a.value) else Plain(a.value), Plain("\"")]
  }

  /** All attributes of an opening line, in document order. */
  function HighlightedAttrs(attrs: seq<Attr>): (r: Line)
    ensures |r| == 3 * |attrs|
  {
    if attrs == [] then [] else HighlightedAttrs(attrs[..|attrs| - 1]) + HighlightedAttr(attrs[|attrs| - 1])
  }

  /** Three spans per attribute, the middle one its value: green exactly when
      the value is already a placeholder, plain otherwise. */
  lemma {:induction false} HighlightedAttrsShape(attrs: seq<Attr>)
    ensures var r := HighlightedAttrs(attrs);
      forall i :: 0 <= i < |attrs| ==>
        && r[3 * i] == Plain(" " + attrs[i].name + "=\"")
        && r[3 * i + 1].text == attrs[i].value
        && (r[3 * i + 1].Green? <==> PatternMatches(attrs[i].value))
        && (r[3 * i + 1].Plain? <==> !PatternMatches(attrs[i].value))
        && r[3 * i + 2] == Plain("\"")
    decreases |attrs|
  {
    if attrs != [] {
      var init := attrs[..|attrs| - 1];
      HighlightedAttrsShape(init);
      var r := HighlightedAttrs(attrs);
      var h := HighlightedAttrs(init);
      assert r == h + HighlightedAttr(attrs[|attrs| - 1]);
      forall i | 0 <= i < |attrs|
        ensures r[3 * i] == Plain(" " + attrs[i].name + "=\"")
        ensures r[3 * i + 1].text == attrs[i].value
        ensures r[3 * i + 1].Green? <==> PatternMatches(attrs[i].value)
        ensures r[3 * i + 1].Plain? <==> !PatternMatches(attrs[i].value)
        ensures r[3 * i + 2] == Plain("\"")
      {
        if i < |init| {
          assert attrs[i] == init[i];
          assert r[3 * i] == h[3 * i] && r[3 * i + 1] == h[3 * i + 1] && r[3 * i + 2] == h[3 * i + 2];
        } else {
          assert 3 * i == |h|;
        }
      }
    }
  }

  /** Highlighting changes only colours: the text is the attributes as the
      templating handler writes them. */
  lemma {:induction false} EraseHighlightedAttrs(attrs: seq<Attr>)
    ensures Erase(HighlightedAttrs(attrs)) == Templating.AttrsText(attrs)
    decreases |attrs|
  {
    if attrs != [] {
      var init := attrs[..|attrs| - 1];
      var a := attrs[|attrs| - 1];
      EraseHighlightedAttrs(init);
      EraseAppend(HighlightedAttrs(init), HighlightedAttr(a));
      var h := HighlightedAttr(a);
      EraseSpans(h[0], h[1], h[2]);
      assert h == [h[0], h[1], h[2]];
    }
  }

  /** The attribute loop of OnStartElement. */
  method FormatAttributes(attrs: seq<Attr>) returns (buffer: Line)
    ensures buffer == HighlightedAttrs(attrs)
  {
    buffer := [];
    var i := 0;
    while i < |attrs|
      invariant 0 <= i <= |attrs|
      invariant buffer == HighlightedAttrs(attrs[..i])
    {
      assert attrs[..i + 1][..i] == attrs[..i];
      assert HighlightedAttrs(attrs[..i + 1]) == HighlightedAttrs(attrs[..i]) + HighlightedAttr(attrs[i]);
      if PatternMatches(attrs[i].value) {
        buffer := buffer + [Plain(" " + attrs[i].name + "=\""), Green(attrs[i].value), Plain("\"")];
      } else {
        buffer := buffer + [Plain(" " + attrs[i].name + "=\""), Plain(attrs[i].value), Plain("\"")];
      }
      i := i + 1;
    }
    assert attrs[..|attrs|] == attrs;
  }

  function ProcInstLine(target: string, inst: string): Line
  {
    [Plain("<?" + target + " " + inst + "?>\n")]
  }

  /** The deferred opening line of a parent: the tag in bold. */
  function StartLine(depth: int, e: StartElement): Line
  {
    [Plain(Tab(depth) + "<"), Bold(e.name)] + HighlightedAttrs(e.attr) + [Plain(">\n")]
  }

  /** A closing tag, as every end line finishes. */
  function CloseTail(name: string): Line
  {
    [Plain("</"), Bold(name), Plain(">\n")]
  }

  /** The line for an element whose content is shown in `value`. */
  function ValueLine(depth: int, e: StartElement, value: Span, name: string): Line
  {
    [Plain(Tab(depth) + "<"), Bold(e.name), Plain(Templating.AttrsText(e.attr) + ">")] + [value] + CloseTail(name)
  }

  /** The span showing an element's content: pending text in green if it is
      already a placeholder and in red otherwise; `???` in red when there
      is none. */
  function Content(data: string): Span
  {
    if data == "" then Red("???")
    else if PatternMatches(data) then Green(data)
    else Red(data)
  }

  function TraceAfterStartDocument(lines: seq<Line>): (r: TraceState)
    ensures r.stack == [] && r.data == "" && r.lines == lines
  {
    TraceState([], "", lines)
  }

  function TraceAfterProcInst(s: TraceState, target: string, inst: string): (r: TraceState)
    ensures r.stack == s.stack && r.data == s.data
    ensures r.lines == s.lines + [ProcInstLine(target, inst)]
  {
    s.(lines := s.lines + [ProcInstLine(target, inst)])
  }

  /** OnStartElement: the parent's opening line is printed the first time a
      child starts; a frame is pushed. */
  function TraceAfterStartElement(s: TraceState, e: StartElement): (r: TraceState)
    ensures r.stack == MarkTop(s.stack) + [NewNode(e)] && r.data == s.data
    ensures s.stack != [] && !s.stack[|s.stack| - 1].container ==>
      r.lines == s.lines + [StartLine(|s.stack| - 1, s.stack[|s.stack| - 1].xml)]
    ensures s.stack == [] || s.stack[|s.stack| - 1].container ==> r.lines == s.lines
  {
    match Top(s.stack)
    case Some(parent) =>
      if !parent.container then
        TraceState(MarkTop(s.stack) + [NewNode(e)], s.data, s.lines + [StartLine(|s.stack| - 1, parent.xml)])
      else
        assert MarkTop(s.stack) == s.stack;
        s.(stack := s.stack + [NewNode(e)])
    case None => s.(stack := [NewNode(e)])
  }

  /** OnEndElement: exactly one line, always ending in the closing tag; the
      frame is popped and the pending text cleared. None is the panic on an
      empty stack. */
  function TraceAfterEndElement(s: TraceState, name: string): (r: Option<TraceState>)
    ensures r.Some? <==> s.stack != []
    ensures r.Some? ==> r.value.stack == s.stack[..|s.stack| - 1] && r.value.data == ""
    ensures r.Some? ==> |r.value.lines| == |s.lines| + 1 && r.value.lines[..|s.lines|] == s.lines
    ensures r.Some? ==> (r.value.lines[|s.lines|] ==
      if s.data == "" && s.stack[|s.stack| - 1].container then [Plain(Tab(|s.stack| - 1))] + CloseTail(name)
      else ValueLine(|s.stack| - 1, s.stack[|s.stack| - 1].xml, Content(s.data), name))
  {
    if s.stack == [] then None
    else
      var depth := |s.stack| - 1;
      var top := s.stack[depth];
      var line :=
        if s.data == "" && top.container then [Plain(Tab(depth))] + CloseTail(name)
        else ValueLine(depth, top.xml, Content(s.data), name);
      Some(TraceState(s.stack[..depth], "", s.lines + [line]))
  }

  function TraceAfterCharData(s: TraceState, text: string): (r: TraceState)
    ensures r.stack == s.stack && r.lines == s.lines
    ensures Blank(text) ==> r.data == s.data
    ensures !Blank(text) ==> r.data == TrimSpace(text) && r.data != ""
  {
    TrimSpaceSpec(text);
    var data := TrimSpace(text);
    if |data| > 0 then s.(data := data) else s
  }

  function TraceStep(s: TraceState, t: Token): Option<TraceState>
  {
    match t
    case ProcInst(target, inst) => Some(TraceAfterProcInst(s, target, inst))
    case StartTag(e) => Some(TraceAfterStartElement(s, e))
    case EndTag(name) => TraceAfterEndElement(s, name)
    case CharData(text) => Some(TraceAfterCharData(s, text))
    case Comment(_) => Some(s)
  }

  function TraceRun(s: TraceState, tokens: seq<Token>): Option<TraceState>
    decreases |tokens|
  {
    if tokens == [] then Some(s)
    else match TraceStep(s, tokens[0])
      case None => None
      case Some(s') => TraceRun(s', tokens[1..])
  }

  lemma {:induction false} TraceRunSnoc(s: TraceState, a: seq<Token>, t: Token)
    ensures TraceRun(s, a + [t]) == match TraceRun(s, a) case None => None case Some(u) => TraceStep(u, t)
    decreases |a|
  {
    if a == [] {
      assert a + [t] == [t];
      match TraceStep(s, t)
      case None =>
      case Some(v) => assert TraceRun(v, []) == Some(v);
    } else {
      assert (a + [t])[0] == a[0] && (a + [t])[1..] == a[1..] + [t];
      match TraceStep(s, a[0])
      case None =>
      case Some(s') => TraceRunSnoc(s', a[1..], t);
    }
  }

  /** Every end line finishes with the element's closing tag: the tracer
      never collapses an element to `<T/>`. */
  lemma EndLineCloses(s: TraceState, name: string)
    requires s.stack != []
    ensures var lines := TraceAfterEndElement(s, name).value.lines;
      var line := lines[|lines| - 1];
      |line| >= 3 && line[|line| - 3..] == CloseTail(name)
  {
    var depth := |s.stack| - 1;
    var top := s.stack[depth];
    var lines := TraceAfterEndElement(s, name).value.lines;
    var line := lines[|lines| - 1];
    if s.data == "" && top.container {
      assert line == [Plain(Tab(depth))] + CloseTail(name);
    } else {
      assert line == [Plain(Tab(depth) + "<"), Bold(top.xml.name), Plain(Templating.AttrsText(top.xml.attr) + ">"), Content(s.data)] + CloseTail(name);
    }
  }

  /** What an end line shows between the tags: pending text in green
      exactly when it is a placeholder and in red otherwise; `???` in red for
      an empty element that is not a container; nothing for a container,
      whose line is only its indentation and closing tag. */
  lemma ContentShows(s: TraceState, name: string)
    requires s.stack != []
    ensures var depth := |s.stack| - 1;
      var top := s.stack[depth];
      var line := TraceAfterEndElement(s, name).value.lines[|s.lines|];
      && (s.data != "" ==>
            |line| == 7 && line[3].text == s.data
            && (line[3].Green? <==> PatternMatches(s.data))
            && (line[3].Red? <==> !PatternMatches(s.data)))
      && (s.data == "" && !top.container ==> |line| == 7 && line[3] == Red("???"))
      && (s.data == "" && top.container ==> line == [Plain(Tab(depth)), Plain("</"), Bold(name), Plain(">\n")])
  {
  }

  /** Without colours, an end line is the template's line for the same
      element: its closing line for a container, otherwise its leaf line
      holding the text shown. */
  lemma EndLineErases(s: TraceState, name: string)
    requires s.stack != []
    ensures var depth := |s.stack| - 1;
      var top := s.stack[depth];
      var line := TraceAfterEndElement(s, name).value.lines[|s.lines|];
      Erase(line) ==
        if s.data == "" && top.container then Templating.CloseLine(depth, name)
        else Templating.LeafLine(depth, top.xml, name, Templating.Filled(Content(s.data).text, "", ""))
  {
    var depth := |s.stack| - 1;
    var top := s.stack[depth];
    if s.data == "" && top.container {
      CloseLineErases(depth, name);
    } else {
      ValueLineErases(depth, top.xml, Content(s.data), name);
    }
  }

  /** Where the template keeps the element's text as it is, a pre-authored
      placeholder or a container's closing tag, the tracer prints, without
      colours, exactly the line the templating handler writes. */
  lemma EndLineIsTemplateLine(s: Templating.State, ts: TraceState, name: string, all: bool)
    requires s.stack == ts.stack && s.data == ts.data && s.stack != []
    requires (s.data != "" && PatternMatches(s.data)) || (s.data == "" && s.stack[|s.stack| - 1].container)
    ensures Templating.AfterEndElement(s, name, all).Some?
    ensures var r := Templating.AfterEndElement(s, name, all).value;
      Erase(TraceAfterEndElement(ts, name).value.lines[|ts.lines|]) == r.template[|s.template|..]
  {
    EndLineErases(ts, name);
    var r := Templating.AfterEndElement(s, name, all).value;
    var depth := |s.stack| - 1;
    var top := s.stack[depth];
    if s.data == "" && top.container {
      assert r.template == s.template + Templating.CloseLine(depth, name);
    } else {
      assert r.template == s.template + Templating.LeafLine(depth, top.xml, name, Templating.Filled(s.data, s.data, Templating.Filler));
    }
  }

  /** The printed opening line of a parent is, without colours, the line the
      templating handler writes into the template. */
  lemma StartLineErases(depth: int, e: StartElement)
    ensures Erase(StartLine(depth, e)) == Templating.OpenLine(depth, e)
  {
    var head: Line := [Plain(Tab(depth) + "<"), Bold(e.name)];
    var attrs := HighlightedAttrs(e.attr);
    EraseAppend(head + attrs, [Plain(">\n")]);
    EraseAppend(head, attrs);
    EraseAppend([head[0]], [head[1]]);
    assert head == [head[0]] + [head[1]];
    EraseSingle(head[0]);
    EraseSingle(head[1]);
    EraseSingle(Plain(">\n"));
    EraseHighlightedAttrs(e.attr);
  }

  lemma CloseTailErases(name: string)
    ensures Erase(CloseTail(name)) == "</" + name + ">\n"
  {
    var c := CloseTail(name);
    EraseSpans(c[0], c[1], c[2]);
    assert c == [c[0], c[1], c[2]];
  }

  /** A value line is, without colours, the template's leaf line holding the
      shown text; the tracer shows a pre-authored placeholder exactly where
      the template keeps it, and the literal value where the template puts
      the derived placeholder. */
  lemma ValueLineErases(depth: int, e: StartElement, value: Span, name: string)
    ensures Erase(ValueLine(depth, e, value, name))
         == Templating.LeafLine(depth, e, name, Templating.Filled(value.text, "", ""))
  {
    var head: Line := [Plain(Tab(depth) + "<"), Bold(e.name), Plain(Templating.AttrsText(e.attr) + ">")];
    EraseAppend(head + [value], CloseTail(name));
    EraseAppend(head, [value]);
    EraseSpans(head[0], head[1], head[2]);
    assert head == [head[0], head[1], head[2]];
    EraseSingle(value);
    CloseTailErases(name);
    Regroup(Tab(depth), e.name, Templating.AttrsText(e.attr), value.text, name);
  }

  /** The coloured spans split the line at other places than the template's
      format string does. */
  lemma Regroup(tab: string, tag: string, attrs: string, content: string, name: string)
    ensures (tab + "<") + tag + (attrs + ">") + content + ("</" + name + ">\n")
         == tab + "<" + tag + attrs + ">" + content + "</" + name + ">\n"
  {
    var l := tab + "<" + tag;
    assert l + (attrs + ">") == l + attrs + ">";
    var m := l + attrs + ">" + content;
    assert m + ("</" + name + ">\n") == m + "</" + name + ">\n";
  }

  /** A container's closing line is, without colours, the template's. */
  lemma CloseLineErases(depth: int, name: string)
    ensures Erase([Plain(Tab(depth))] + CloseTail(name)) == Templating.CloseLine(depth, name)
  {
    EraseAppend([Plain(Tab(depth))], CloseTail(name));
    EraseSingle(Plain(Tab(depth)));
    CloseTailErases(name);
  }

  /** The tracer keeps the same stack and pending text as the templating
      handler: wherever the templating handler gets through a run of tokens,
      the tracer does too, and both end with equal frames and text. */
  lemma {:induction false} TraceAgrees(s: Templating.State, ts: TraceState, tokens: seq<Token>, all: bool)
    requires s.stack == ts.stack && s.data == ts.data
    requires Templating.Run(s, tokens, all).Some?
    ensures TraceRun(ts, tokens).Some?
    ensures TraceRun(ts, tokens).value.stack == Templating.Run(s, tokens, all).value.stack
    ensures TraceRun(ts, tokens).value.data == Templating.Run(s, tokens, all).value.data
    decreases |tokens|
  {
    if tokens != [] {
      var u := Templating.Step(s, tokens[0], all).value;
      var tu := TraceStep(ts, tokens[0]).value;
      assert u.stack == tu.stack && u.data == tu.data;
      TraceAgrees(u, tu, tokens[1..], all);
    }
  }

  /** The tracer of print_handler.go; `lines` is what it prints, in order. */
  class PrintHandler {
    var stack: seq<Node>
    var data: string
    var buffer: string
    var lines: seq<Line>

    function Abstract(): TraceState
      reads this
    {
      TraceState(stack, data, lines)
    }

    constructor ()
      ensures Abstract() == TraceState([], "", []) && buffer == ""
    {
      stack, data, buffer, lines := [], "", "", [];
    }

    method OnStartDocument()
      modifies this
      ensures Abstract() == TraceAfterStartDocument(old(lines)) && buffer == ""
    {
      stack := [];
      data := "";
      buffer := "";
    }

    method OnProcessingInstruction(target: string, inst: string)
      modifies this
      ensures Abstract() == TraceAfterProcInst(old(Abstract()), target, inst)
      ensures buffer == old(buffer)
    {
      lines := lines + [[Plain("<?" + target + " " + inst + "?>\n")]];
    }

    method OnStartElement(element: StartElement)
      modifies this
      ensures Abstract() == TraceAfterStartElement(old(Abstract()), element)
      ensures buffer == old(buffer)
    {
      var parent := Top(stack);
      if parent.Some? && !parent.value.container {
        var top := parent.value;
        stack := MarkTop(stack);
        var attrs := FormatAttributes(top.xml.attr);
        lines := lines + [[Plain(Tab(|stack| - 1) + "<"), Bold(top.xml.name)] + attrs + [Plain(">\n")]];
      }
      stack := stack + [NewNode(element)];
    }

    method OnEndElement(name: string)
      requires stack != []
      modifies this
      ensures Some(Abstract()) == TraceAfterEndElement(old(Abstract()), name)
      ensures buffer == old(buffer)
    {
      var depth := |stack| - 1;
      var top := stack[depth].xml;
      var attrs := Templating.WriteAttributes(top.attr);
      var head := [Plain(Tab(depth) + "<"), Bold(top.name), Plain(attrs + ">")];
      var tail := [Plain("</"), Bold(name), Plain(">\n")];
      var line: Line;
      if |data| > 0 {
        if PatternMatches(data) {
          line := head + [Green(data)] + tail;
        } else {
          line := head + [Red(data)] + tail;
        }
        data := "";
      } else if stack[depth].container {
        line := [Plain(Tab(depth))] + tail;
      } else {
        line := head + [Red("???")] + tail;
      }
      lines := lines + [line];
      stack := stack[..depth];
    }

    method OnCharacterData(text: string)
      modifies this
      ensures Abstract() == TraceAfterCharData(old(Abstract()), text)
      ensures buffer == old(buffer)
    {
      var trimmed := TrimSpace(text);
      if |trimmed| > 0 {
        data := trimmed;
      }
    }

    method OnComment(text: string)
      ensures Abstract() == old(Abstract())
    {
    }
  }
}
