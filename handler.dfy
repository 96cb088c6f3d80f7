/** The templating handler (handler.go). It sees the document as a stream of
    SAX events and writes, in one pass, a template with the same tags in which
    every leaf value is replaced by a `{{- Name -}}` placeholder, together with
    a map from each placeholder name to the value it replaced.

    The trick is the deferred opening tag: an element's opening line is
    written only when its first child starts, because only then is it known
    not to be an empty leaf; a leaf is written whole when it ends.

    The per-event transitions are pure functions on `State` (stack, pending
    text, parameters, template); the `Handler` class updates its fields in
    place and is proved to follow them. */
module Templating {
  import opened Wrappers
  import opened Xml
  import opened Utils
  import opened Names
  import opened FrameStack

  /** The value bound to a parameter that has no literal value. */
  const Filler := "<value>"

  datatype State = State(
    stack: seq<Node>,
    data: string,
    parameters: map<string, string>,
    template: string)

  /** The template reference written in place of a value. */
  function Placeholder(name: string): string
  {
    "{{- " + name + " -}}"
  }

  /** One attribute as the handler formats it: ` name="value"`, unescaped. */
  function AttrText(a: Attr): string
  {
    " " + a.name + "=\"" + a.value + "\""
  }

  /** All attributes in document order. */
  function AttrsText(attrs: seq<Attr>): string
  {
    if attrs == [] then "" else AttrsText(attrs[..|attrs| - 1]) + AttrText(attrs[|attrs| - 1])
  }

  lemma {:induction false} AttrsTextAppend(a: seq<Attr>, b: seq<Attr>)
    ensures AttrsText(a + b) == AttrsText(a) + AttrsText(b)
    decreases |b|
  {
    if b == [] {
      assert a + b == a;
    } else {
      var init := b[..|b| - 1];
      var last := AttrText(b[|b| - 1]);
      assert (a + b)[..|a + b| - 1] == a + init;
      assert (a + b)[|a + b| - 1] == b[|b| - 1];
      AttrsTextAppend(a, init);
      assert AttrsText(a + b) == AttrsText(a) + AttrsText(init) + last;
      assert AttrsText(b) == AttrsText(init) + last;
    }
  }

  /** The attribute loop of OnStartElement and OnEndElement. */
  method WriteAttributes(attrs: seq<Attr>) returns (buffer: string)
    ensures buffer == AttrsText(attrs)
  {
    buffer := "";
    var i := 0;
    while i < |attrs|
      invariant 0 <= i <= |attrs|
      invariant buffer == AttrsText(attrs[..i])
    {
      assert attrs[..i + 1][..i] == attrs[..i];
      buffer := buffer + AttrText(attrs[i]);
      i := i + 1;
    }
    assert attrs[..|attrs|] == attrs;
  }

  /** The deferred opening line of a container. */
  function OpenLine(depth: int, e: StartElement): string
  {
    Tab(depth) + "<" + e.name + AttrsText(e.attr) + ">\n"
  }

  /** The closing line of a container. */
  function CloseLine(depth: int, name: string): string
  {
    Tab(depth) + "</" + name + ">\n"
  }

  /** The opening line the start of a child writes for its parent, if the
      parent is not yet known to be a container. */
  function Opening(stack: seq<Node>): string
  {
    match Top(stack)
    case Some(parent) => if parent.container then "" else OpenLine(|stack| - 1, parent.xml)
    case None => ""
  }

  /** What a leaf element turns into: a line holding `content`, with `key`
      bound to `value`, or a self-closed tag and no binding. */
  datatype Leaf = Filled(content: string, key: string, value: string) | Collapsed

  /** The decisions that do not need a parameter name, or a tag to derive one
      from: deriving a name from "" would panic. */
  predicate CanDecide(tag: string, text: string, all: bool)
  {
    tag != "" || (text != "" && PatternMatches(text)) || (text == "" && !all)
  }

  /** How an element with pending text `text`, or an empty leaf, is written. */
  function Decide(tag: string, text: string, all: bool): Leaf
    requires CanDecide(tag, text, all)
  {
    if text != "" then
      if PatternMatches(text) then Filled(text, text, Filler)
      else Filled(Placeholder(Templatise(tag)), Templatise(tag), text)
    else if all then Filled(Placeholder(Templatise(tag)), Templatise(tag), Filler)
    else Collapsed
  }

  function LeafLine(depth: int, e: StartElement, name: string, leaf: Leaf): string
  {
    match leaf
    case Filled(content, _, _) => Tab(depth) + "<" + e.name + AttrsText(e.attr) + ">" + content + "</" + name + ">\n"
    case Collapsed => Tab(depth) + "<" + e.name + AttrsText(e.attr) + "/>\n"
  }

  function Bind(m: map<string, string>, leaf: Leaf): map<string, string>
  {
    match leaf
    case Filled(_, key, value) => m[key := value]
    case Collapsed => m
  }

  /** OnStartDocument: everything is cleared. */
  function AfterStartDocument(): (r: State)
    ensures r.stack == [] && r.data == "" && r.parameters == map[] && r.template == ""
  {
    State([], "", map[], "")
  }

  /** A processing instruction as the handler writes it. */
  function ProcInstLine(target: string, inst: string): string
  {
    "<?" + target + " " + inst + "?>\n"
  }

  /** OnProcessingInstruction: the instruction is copied to the template. */
  function AfterProcInst(s: State, target: string, inst: string): (r: State)
    ensures r.stack == s.stack && r.data == s.data && r.parameters == s.parameters
    ensures r.template == s.template + ProcInstLine(target, inst)
  {
    s.(template := s.template + ProcInstLine(target, inst))
  }

  /** OnStartElement: the parent, if it was not yet a container, becomes one
      and gets its opening line; then a fresh frame is pushed. */
  function AfterStartElement(s: State, e: StartElement): (r: State)
    ensures |r.stack| == |s.stack| + 1
    ensures r.stack[..|s.stack|] == MarkTop(s.stack) && r.stack[|s.stack|] == NewNode(e)
    ensures r.data == s.data && r.parameters == s.parameters
    ensures r.template == s.template + Opening(s.stack)
  {
    match Top(s.stack)
    case Some(parent) =>
      if !parent.container then
        State(MarkTop(s.stack) + [NewNode(e)], s.data, s.parameters,
              s.template + OpenLine(|s.stack| - 1, parent.xml))
      else
        assert MarkTop(s.stack) == s.stack;
        s.(stack := s.stack + [NewNode(e)])
    case None => s.(stack := [NewNode(e)])
  }

  /** OnEndElement: pending text becomes a placeholder (or is kept verbatim if
      already one); without pending text a container gets its closing line and
      an empty leaf is collapsed, or given a placeholder when `all` is set.
      The frame is popped. None is the panic on an empty stack, or when a
      placeholder name would be derived from an empty tag. */
  function AfterEndElement(s: State, name: string, all: bool): (r: Option<State>)
    ensures r.Some? <==> (s.stack != [] &&
      var top := s.stack[|s.stack| - 1];
      (s.data == "" && top.container) || CanDecide(top.xml.name, s.data, all))
    ensures r.Some? ==> r.value.stack == s.stack[..|s.stack| - 1] && r.value.data == ""
    ensures r.Some? ==> |r.value.template| > |s.template| && r.value.template[..|s.template|] == s.template
    ensures r.Some? ==> s.parameters.Keys <= r.value.parameters.Keys
  {
    if s.stack == [] then None
    else
      var depth := |s.stack| - 1;
      var top := s.stack[depth];
      var popped := s.stack[..depth];
      if s.data == "" && top.container then
        Some(State(popped, "", s.parameters, s.template + CloseLine(depth, name)))
      else if CanDecide(top.xml.name, s.data, all) then
        var leaf := Decide(top.xml.name, s.data, all);
        Some(State(popped, "", Bind(s.parameters, leaf), s.template + LeafLine(depth, top.xml, name, leaf)))
      else
        None
  }

  /** OnCharacterData: non-blank text, trimmed, replaces the pending text;
      blank text (the indentation between tags) is ignored. */
  function AfterCharData(s: State, text: string): (r: State)
    ensures r.stack == s.stack && r.parameters == s.parameters && r.template == s.template
    ensures Blank(text) ==> r.data == s.data
    ensures !Blank(text) ==> r.data == TrimSpace(text) && r.data != ""
  {
    TrimSpaceSpec(text);
    var data := TrimSpace(text);
    if |data| > 0 then s.(data := data) else s
  }

  /** The handler's reaction to one token; comments are ignored. */
  function Step(s: State, t: Token, all: bool): Option<State>
  {
    match t
    case ProcInst(target, inst) => Some(AfterProcInst(s, target, inst))
    case StartTag(e) => Some(AfterStartElement(s, e))
    case EndTag(name) => AfterEndElement(s, name, all)
    case CharData(text) => Some(AfterCharData(s, text))
    case Comment(_) => Some(s)
  }

  /** The handler's state after a sequence of tokens; None if it panicked. */
  function Run(s: State, tokens: seq<Token>, all: bool): Option<State>
    decreases |tokens|
  {
    if tokens == [] then Some(s)
    else match Step(s, tokens[0], all)
      case None => None
      case Some(s') => Run(s', tokens[1..], all)
  }

  /** The parser's event order: OnStartDocument, then every token. */
  function Parse(tokens: seq<Token>, all: bool): Option<State>
  {
    Run(AfterStartDocument(), tokens, all)
  }

  lemma {:induction false} RunAppend(s: State, a: seq<Token>, b: seq<Token>, all: bool)
    ensures Run(s, a + b, all) == match Run(s, a, all) case None => None case Some(t) => Run(t, b, all)
    decreases |a|
  {
    if a == [] {
      assert a + b == b;
    } else {
      assert (a + b)[0] == a[0] && (a + b)[1..] == a[1..] + b;
      match Step(s, a[0], all)
      case None =>
      case Some(s') => RunAppend(s', a[1..], b, all);
    }
  }

  /** Running a prefix and then one more token. */
  lemma RunSnoc(s: State, a: seq<Token>, t: Token, all: bool)
    ensures Run(s, a + [t], all) == match Run(s, a, all) case None => None case Some(u) => Step(u, t, all)
  {
    RunAppend(s, a, [t], all);
    match Run(s, a, all)
    case None =>
    case Some(u) =>
      match Step(u, t, all)
      case None =>
      case Some(v) => assert Run(v, [], all) == Some(v);
  }

  lemma RunThen(s: State, a: seq<Token>, b: seq<Token>, m: State, all: bool)
    requires Run(s, a, all) == Some(m)
    ensures Run(s, a + b, all) == Run(m, b, all)
  {
    RunAppend(s, a, b, all);
  }

  lemma RunCons(s: State, t: Token, rest: seq<Token>, m: State, all: bool)
    requires Step(s, t, all) == Some(m)
    ensures Run(s, [t] + rest, all) == Run(m, rest, all)
  {
    assert ([t] + rest)[0] == t && ([t] + rest)[1..] == rest;
  }

  lemma RunOne(s: State, t: Token, all: bool)
    ensures Run(s, [t], all) == Step(s, t, all)
  {
    match Step(s, t, all)
    case None =>
    case Some(v) => assert Run(v, [], all) == Some(v);
  }

  /** The end tag of a leaf: the frame the leaf pushed is popped and the leaf
      is written and bound as decided from its pending text. */
  lemma LeafEnd(s: State, e: StartElement, all: bool)
    requires s.stack != [] && s.stack[|s.stack| - 1] == NewNode(e) && CanDecide(e.name, s.data, all)
    ensures var leaf := Decide(e.name, s.data, all);
      AfterEndElement(s, e.name, all) == Some(State(s.stack[..|s.stack| - 1], "", Bind(s.parameters, leaf),
        s.template + LeafLine(|s.stack| - 1, e, e.name, leaf)))
  {
  }

  /** How much one token deepens the stack. */
  function Delta(t: Token): int
  {
    match t
    case StartTag(_) => 1
    case EndTag(_) => -1
    case _ => 0
  }

  /** The number of start tags minus the number of end tags. */
  function Depth(tokens: seq<Token>): int
  {
    if tokens == [] then 0 else Delta(tokens[0]) + Depth(tokens[1..])
  }

  /** `t` begins with `s`: the template buffer is only ever appended to. */
  predicate Extends(t: string, s: string)
  {
    |s| <= |t| && t[..|s|] == s
  }

  lemma ExtendsTransitive(a: string, b: string, c: string)
    requires Extends(b, a) && Extends(c, b)
    ensures Extends(c, a)
  {
    assert c[..|b|][..|a|] == c[..|a|];
  }

  /** One token moves the stack by its delta, appends to the template and
      never drops a parameter. */
  lemma StepShape(s: State, t: Token, all: bool)
    requires Step(s, t, all).Some?
    ensures var u := Step(s, t, all).value;
      && |u.stack| == |s.stack| + Delta(t)
      && Extends(u.template, s.template)
      && s.parameters.Keys <= u.parameters.Keys
  {
  }

  /** Whatever the tokens, a run that does not panic leaves the stack deeper
      by the number of unclosed start tags, has only appended to the template,
      and has never removed a parameter. */
  lemma {:induction false} RunShape(s: State, tokens: seq<Token>, all: bool)
    requires Run(s, tokens, all).Some?
    ensures var t := Run(s, tokens, all).value;
      && |t.stack| == |s.stack| + Depth(tokens)
      && Extends(t.template, s.template)
      && s.parameters.Keys <= t.parameters.Keys
    decreases |tokens|
  {
    if tokens != [] {
      var s' := Step(s, tokens[0], all).value;
      StepShape(s, tokens[0], all);
      RunShape(s', tokens[1..], all);
      ExtendsTransitive(s.template, s'.template, Run(s, tokens, all).value.template);
    }
  }

  /** A balanced token sequence that the handler runs through leaves the
      stack empty, from an empty stack. */
  lemma ParseBalanced(tokens: seq<Token>, all: bool)
    requires Parse(tokens, all).Some? && Depth(tokens) == 0
    ensures Parse(tokens, all).value.stack == []
  {
    RunShape(AfterStartDocument(), tokens, all);
  }

  /** A token that can never change what the handler writes or binds:
      a comment, or blank character data. */
  predicate Inert(t: Token)
  {
    t.Comment? || (t.CharData? && Blank(t.text))
  }

  function Strip(tokens: seq<Token>): (r: seq<Token>)
    ensures forall i :: 0 <= i < |r| ==> !Inert(r[i])
  {
    if tokens == [] then []
    else if Inert(tokens[0]) then Strip(tokens[1..])
    else [tokens[0]] + Strip(tokens[1..])
  }

  /** Comments and the whitespace between tags are ignored: removing them
      from the document changes nothing the handler produces. */
  lemma {:induction false} RunStrip(s: State, tokens: seq<Token>, all: bool)
    ensures Run(s, Strip(tokens), all) == Run(s, tokens, all)
    decreases |tokens|
  {
    if tokens != [] {
      var rest := Strip(tokens[1..]);
      if Inert(tokens[0]) {
        assert Step(s, tokens[0], all) == Some(s);
        RunStrip(s, tokens[1..], all);
      } else {
        assert ([tokens[0]] + rest)[1..] == rest;
        match Step(s, tokens[0], all)
        case None =>
        case Some(s') => RunStrip(s', tokens[1..], all);
      }
    }
  }

  /** A parent's opening line is written once: the first child start marks
      it a container, and later children write nothing for it. */
  lemma OpeningOnce(s: State, a: StartElement, b: StartElement, name: string, all: bool)
    requires s.stack != [] && s.data == ""
    requires AfterEndElement(AfterStartElement(s, a), name, all).Some?
    ensures var closed := AfterEndElement(AfterStartElement(s, a), name, all).value;
      && AfterStartElement(s, a).template == s.template + Opening(s.stack)
      && Opening(closed.stack) == ""
      && AfterStartElement(closed, b).template == closed.template
  {
  }

  /** The outcomes of an end tag with pending text: a pre-authored
      placeholder is kept and bound to the filler, any other text is replaced
      by the placeholder derived from the tag and bound to it. */
  lemma EndElementWithText(s: State, name: string, all: bool)
    requires s.stack != [] && s.data != ""
    requires AfterEndElement(s, name, all).Some?
    ensures var top := s.stack[|s.stack| - 1];
      var r := AfterEndElement(s, name, all).value;
      var depth := |s.stack| - 1;
      && (PatternMatches(s.data) ==>
            r.template == s.template + (Tab(depth) + "<" + top.xml.name + AttrsText(top.xml.attr) + ">" + s.data + "</" + name + ">\n")
            && r.parameters == s.parameters[s.data := Filler])
      && (!PatternMatches(s.data) ==>
            r.template == s.template +
              (Tab(depth) + "<" + top.xml.name + AttrsText(top.xml.attr) + ">" + Placeholder(Templatise(top.xml.name)) + "</" + name + ">\n")
            && r.parameters == s.parameters[Templatise(top.xml.name) := s.data])
  {
  }

  /** The outcomes of an end tag without pending text: a container gets only
      its closing tag; an empty leaf collapses to `<T attrs/>`, or, when every
      leaf is parameterised, gets a placeholder bound to the filler. */
  lemma EndElementWithoutText(s: State, name: string, all: bool)
    requires s.stack != [] && s.data == ""
    requires AfterEndElement(s, name, all).Some?
    ensures var top := s.stack[|s.stack| - 1];
      var depth := |s.stack| - 1;
      var r := AfterEndElement(s, name, all).value;
      && (top.container ==>
            r.template == s.template + (Tab(depth) + "</" + name + ">\n") && r.parameters == s.parameters)
      && (!top.container && !all ==>
            r.template == s.template + (Tab(depth) + "<" + top.xml.name + AttrsText(top.xml.attr) + "/>\n")
            && r.parameters == s.parameters)
      && (!top.container && all ==>
            r.template == s.template +
              (Tab(depth) + "<" + top.xml.name + AttrsText(top.xml.attr) + ">" + Placeholder(Templatise(top.xml.name)) + "</" + name + ">\n")
            && r.parameters == s.parameters[Templatise(top.xml.name) := Filler])
  {
  }

  /** An end tag binds at most one key, and binding a key that is already
      present overwrites its value. */
  lemma EndElementBindsOne(s: State, name: string, all: bool)
    requires AfterEndElement(s, name, all).Some?
    ensures var m := AfterEndElement(s, name, all).value.parameters;
      m == s.parameters || exists k :: k in m && m == s.parameters[k := m[k]]
  {
    var top := s.stack[|s.stack| - 1];
    if !(s.data == "" && top.container) {
      var leaf := Decide(top.xml.name, s.data, all);
      if leaf.Filled? {
        assert AfterEndElement(s, name, all).value.parameters == s.parameters[leaf.key := leaf.value];
      }
    }
  }

  /** Three tokens run as three transitions, stopping at the first panic. */
  lemma RunThree(s: State, t0: Token, t1: Token, t2: Token, all: bool)
    ensures Run(s, [t0, t1, t2], all) ==
      if Step(s, t0, all).None? then None
      else if Step(Step(s, t0, all).value, t1, all).None? then None
      else Step(Step(Step(s, t0, all).value, t1, all).value, t2, all)
  {
    var t := [t0, t1, t2];
    assert t[1..] == [t1, t2] && t[1..][1..] == [t2];
    match Step(s, t0, all)
    case None =>
    case Some(m0) =>
      match Step(m0, t1, all)
      case None =>
      case Some(m1) =>
        RunOne(m1, t2, all);
  }

  /** The three tokens of a leaf element holding text. */
  lemma LeafRun(s: State, a: StartElement, x: string, all: bool)
    requires !Blank(x)
    ensures Run(s, [StartTag(a), CharData(x), EndTag(a.name)], all)
         == AfterEndElement(AfterCharData(AfterStartElement(s, a), x), a.name, all)
  {
    RunThree(s, StartTag(a), CharData(x), EndTag(a.name), all);
  }

  /** A leaf holding text binds the name derived from its tag to the trimmed
      text, and leaves no pending text behind. */
  lemma LeafBinds(s: State, a: StartElement, x: string, all: bool)
    requires a.name != "" && !Blank(x) && !PatternMatches(TrimSpace(x))
    ensures var r := AfterEndElement(AfterCharData(AfterStartElement(s, a), x), a.name, all);
      && r.Some? && r.value.data == ""
      && r.value.parameters == s.parameters[Templatise(a.name) := TrimSpace(x)]
  {
    var s1 := AfterCharData(AfterStartElement(s, a), x);
    assert s1.stack[|s1.stack| - 1] == NewNode(a);
    EndElementWithText(s1, a.name, all);
  }

  /** Two sibling leaves bind their names in document order. */
  lemma TwoLeaves(s: State, a: StartElement, b: StartElement, x: string, y: string, all: bool)
    requires a.name != "" && b.name != ""
    requires !Blank(x) && !Blank(y) && !PatternMatches(TrimSpace(x)) && !PatternMatches(TrimSpace(y))
    ensures var r := Run(s, [StartTag(a), CharData(x), EndTag(a.name)] + [StartTag(b), CharData(y), EndTag(b.name)], all);
      r.Some? && r.value.parameters == s.parameters[Templatise(a.name) := TrimSpace(x)][Templatise(b.name) := TrimSpace(y)]
  {
    var first := [StartTag(a), CharData(x), EndTag(a.name)];
    var second := [StartTag(b), CharData(y), EndTag(b.name)];
    LeafRun(s, a, x, all);
    LeafBinds(s, a, x, all);
    var mid := Run(s, first, all).value;
    LeafRun(mid, b, y, all);
    LeafBinds(mid, b, y, all);
    RunAppend(s, first, second, all);
  }

  /** When two sibling leaves derive the same parameter name, the later
      value wins. */
  lemma LaterBindingWins(s: State, a: StartElement, b: StartElement, x: string, y: string, key: string, all: bool)
    requires a.name != "" && b.name != "" && Templatise(a.name) == key && Templatise(b.name) == key
    requires !Blank(x) && !Blank(y) && !PatternMatches(TrimSpace(x)) && !PatternMatches(TrimSpace(y))
    ensures var r := Run(s, [StartTag(a), CharData(x), EndTag(a.name)] + [StartTag(b), CharData(y), EndTag(b.name)], all);
      r.Some? && r.value.parameters == s.parameters[key := TrimSpace(y)]
  {
    TwoLeaves(s, a, b, x, y, all);
  }

  /** The handler of handler.go: its fields are updated in place, event by
      event, exactly as the transition functions above prescribe. */
  class Handler {
    var stack: seq<Node>
    var data: string
    var buffer: string
    const all: bool
    var template: string
    var parameters: map<string, string>

    function Abstract(): State
      reads this
    {
      State(stack, data, parameters, template)
    }

    constructor (all: bool)
      ensures this.all == all
      ensures Abstract() == AfterStartDocument() && buffer == ""
    {
      this.all := all;
      stack, data, buffer, template, parameters := [], "", "", "", map[];
    }

    method OnStartDocument()
      modifies this
      ensures Abstract() == AfterStartDocument() && buffer == ""
    {
      stack := [];
      data := "";
      parameters := map[];
      buffer := "";
      template := "";
    }

    method OnProcessingInstruction(target: string, inst: string)
      modifies this
      ensures Abstract() == AfterProcInst(old(Abstract()), target, inst)
      ensures buffer == old(buffer)
    {
      template := template + ("<?" + target + " " + inst + "?>\n");
    }

    method OnStartElement(element: StartElement)
      modifies this
      ensures Abstract() == AfterStartElement(old(Abstract()), element)
      ensures buffer == old(buffer)
    {
      var parent := Top(stack);
      if parent.Some? && !parent.value.container {
        var top := parent.value;
        stack := MarkTop(stack);
        var attrs := WriteAttributes(top.xml.attr);
        template := template + (Tab(|stack| - 1) + "<" + top.xml.name + attrs + ">\n");
      }
      stack := stack + [NewNode(element)];
    }

    method OnEndElement(name: string)
      requires AfterEndElement(Abstract(), name, all).Some?
      modifies this
      ensures Some(Abstract()) == AfterEndElement(old(Abstract()), name, all)
      ensures buffer == old(buffer)
    {
      var depth := |stack| - 1;
      var top := stack[depth].xml;
      var attrs := WriteAttributes(top.attr);
      if |data| > 0 {
        if PatternMatches(data) {
          template := template + (Tab(depth) + "<" + top.name + attrs + ">" + data + "</" + name + ">\n");
          parameters := parameters[data := Filler];
        } else {
          var parameter := Templatise(top.name);
          template := template + (Tab(depth) + "<" + top.name + attrs + ">" + Placeholder(parameter) + "</" + name + ">\n");
          parameters := parameters[parameter := data];
        }
        data := "";
      } else if stack[depth].container {
        template := template + (Tab(depth) + "</" + name + ">\n");
      } else if all {
        var parameter := Templatise(top.name);
        template := template + (Tab(depth) + "<" + top.name + attrs + ">" + Placeholder(parameter) + "</" + name + ">\n");
        parameters := parameters[parameter := Filler];
      } else {
        template := template + (Tab(depth) + "<" + top.name + attrs + "/>\n");
      }
      stack := stack[..depth];
    }

    method OnCharacterData(text: string)
      modifies this
      ensures Abstract() == AfterCharData(old(Abstract()), text)
      ensures buffer == old(buffer)
    {
      var trimmed := TrimSpace(text);
      if |trimmed| > 0 {
        data := trimmed;
      }
    }

    method OnComment(text: string)
      ensures Abstract() == old(Abstract())
    {
    }
  }
}
