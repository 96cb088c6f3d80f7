/** What the single pass computes, stated over the document tree. An element
    either is empty, holds one piece of text, or holds child elements (the
    handler keeps one pending-text slot per document, so mixed content is
    outside what it is designed for). Running the templating handler over
    the tokens of such a tree writes exactly what a recursive pretty-printer
    writes, and binds the parameters of the leaves in document order. */
module Documents {
  import opened Wrappers
  import opened Xml
  import opened Utils
  import Names
  import opened FrameStack
  import opened Templating

  datatype Element = Element(start: StartElement, content: Content)
  datatype Content = Empty | Text(raw: string) | Children(kids: seq<Element>)

  /** Tag names are non-empty, text is not only white space, and a container
      has at least one child. */
  predicate WellFormed(e: Element)
    decreases e
  {
    && e.start.name != ""
    && match e.content
       case Empty => true
       case Text(raw) => !Blank(raw)
       case Children(kids) => kids != [] && forall i :: 0 <= i < |kids| ==> WellFormed(kids[i])
  }

  /** The tokens of an element, as the tokenizer delivers them once the
      white space between tags has been dropped. */
  function Tokens(e: Element): seq<Token>
    decreases e, 1
  {
    [StartTag(e.start)] + (Body(e) + [EndTag(e.start.name)])
  }

  function Body(e: Element): seq<Token>
    decreases e, 0
  {
    match e.content
    case Empty => []
    case Text(raw) => [CharData(raw)]
    case Children(kids) => ForestTokens(kids)
  }

  function ForestTokens(kids: seq<Element>): seq<Token>
    decreases kids
  {
    if kids == [] then [] else Tokens(kids[0]) + ForestTokens(kids[1..])
  }

  /** The pending text an element leaves before its end tag. */
  function LeafText(e: Element): string
  {
    match e.content
    case Text(raw) => TrimSpace(raw)
    case _ => ""
  }

  /** The template text of an element at nesting depth `depth`. */
  function TemplateOf(e: Element, depth: nat, all: bool): string
    requires WellFormed(e)
    decreases e
  {
    match e.content
    case Children(kids) =>
      OpenLine(depth, e.start) + ForestTemplate(kids, depth + 1, all) + CloseLine(depth, e.start.name)
    case _ =>
      LeafLine(depth, e.start, e.start.name, Decide(e.start.name, LeafText(e), all))
  }

  function ForestTemplate(kids: seq<Element>, depth: nat, all: bool): string
    requires forall i :: 0 <= i < |kids| ==> WellFormed(kids[i])
    decreases kids
  {
    if kids == [] then "" else TemplateOf(kids[0], depth, all) + ForestTemplate(kids[1..], depth, all)
  }

  /** The leaves as they are written, in document order. */
  function LeavesOf(e: Element, all: bool): seq<Leaf>
    requires WellFormed(e)
    decreases e
  {
    match e.content
    case Children(kids) => ForestLeaves(kids, all)
    case _ => [Decide(e.start.name, LeafText(e), all)]
  }

  function ForestLeaves(kids: seq<Element>, all: bool): seq<Leaf>
    requires forall i :: 0 <= i < |kids| ==> WellFormed(kids[i])
    decreases kids
  {
    if kids == [] then [] else LeavesOf(kids[0], all) + ForestLeaves(kids[1..], all)
  }

  /** The parameters after binding the leaves one after the other. */
  function BindAll(m: map<string, string>, leaves: seq<Leaf>): map<string, string>
    decreases |leaves|
  {
    if leaves == [] then m else BindAll(Bind(m, leaves[0]), leaves[1..])
  }

  lemma {:induction false} BindAllAppend(m: map<string, string>, a: seq<Leaf>, b: seq<Leaf>)
    ensures BindAll(m, a + b) == BindAll(BindAll(m, a), b)
    decreases |a|
  {
    if a == [] {
      assert a + b == b;
    } else {
      assert (a + b)[0] == a[0] && (a + b)[1..] == a[1..] + b;
      BindAllAppend(Bind(m, a[0]), a[1..], b);
    }
  }

  /** Binding only adds keys. */
  lemma {:induction false} BindAllKeys(m: map<string, string>, leaves: seq<Leaf>)
    ensures m.Keys <= BindAll(m, leaves).Keys
    ensures forall i :: 0 <= i < |leaves| && leaves[i].Filled? ==> leaves[i].key in BindAll(m, leaves)
    decreases |leaves|
  {
    if leaves != [] {
      BindAllKeys(Bind(m, leaves[0]), leaves[1..]);
      forall i | 0 <= i < |leaves| && leaves[i].Filled? ensures leaves[i].key in BindAll(m, leaves) {
        if i > 0 { assert leaves[1..][i - 1] == leaves[i]; }
      }
    }
  }

  /** The three tokens of a leaf holding text: the end tag finds the
      trimmed text pending. */
  lemma TextLeafRun(s: State, e: Element, all: bool)
    requires WellFormed(e) && e.content.Text? && s.data == ""
    ensures var leaf := Decide(e.start.name, LeafText(e), all);
      Run(s, Tokens(e), all) == Some(State(MarkTop(s.stack), "", Bind(s.parameters, leaf),
        s.template + Opening(s.stack) + LeafLine(|s.stack|, e.start, e.start.name, leaf)))
  {
    var close := [EndTag(e.start.name)];
    var s0 := AfterStartElement(s, e.start);
    var s1 := AfterCharData(s0, e.content.raw);
    RunCons(s, StartTag(e.start), Body(e) + close, s0, all);
    assert Body(e) + close == [CharData(e.content.raw)] + close;
    RunCons(s0, CharData(e.content.raw), close, s1, all);
    RunOne(s1, EndTag(e.start.name), all);
    assert s1.stack[|s1.stack| - 1] == NewNode(e.start);
    LeafEnd(s1, e.start, all);
  }

  /** The two tokens of an empty leaf: the end tag finds no pending text. */
  lemma EmptyLeafRun(s: State, e: Element, all: bool)
    requires WellFormed(e) && e.content.Empty? && s.data == ""
    ensures var leaf := Decide(e.start.name, "", all);
      Run(s, Tokens(e), all) == Some(State(MarkTop(s.stack), "", Bind(s.parameters, leaf),
        s.template + Opening(s.stack) + LeafLine(|s.stack|, e.start, e.start.name, leaf)))
  {
    var close := [EndTag(e.start.name)];
    var s0 := AfterStartElement(s, e.start);
    RunCons(s, StartTag(e.start), Body(e) + close, s0, all);
    assert Body(e) + close == close;
    RunOne(s0, EndTag(e.start.name), all);
    assert s0.stack[|s0.stack| - 1] == NewNode(e.start);
    LeafEnd(s0, e.start, all);
  }

  /** Regrouping template text; stated over variables so that the solver
      does not unfold the texts it is applied to. */
  lemma Assoc(a: string, b: string, c: string)
    ensures a + b + c == a + (b + c)
  {
  }

  /** The end tag of a container whose children have all been closed. */
  lemma CloseContainer(s: State, e: StartElement, all: bool)
    requires s.stack != [] && s.stack[|s.stack| - 1] == Node(e, true) && s.data == ""
    ensures Run(s, [EndTag(e.name)], all)
         == Some(State(s.stack[..|s.stack| - 1], "", s.parameters, s.template + CloseLine(|s.stack| - 1, e.name)))
  {
    RunOne(s, EndTag(e.name), all);
  }

  /** A container: its opening line is written when its first child starts,
      its closing line when it ends. */
  lemma ContainerRun(s: State, e: Element, all: bool)
    requires WellFormed(e) && e.content.Children? && s.data == ""
    ensures Run(s, Tokens(e), all) == Some(State(MarkTop(s.stack), "",
      BindAll(s.parameters, LeavesOf(e, all)), s.template + Opening(s.stack) + TemplateOf(e, |s.stack|, all)))
    decreases e, 0
  {
    var kids := e.content.kids;
    var d := |s.stack|;
    var name := e.start.name;
    var close := [EndTag(name)];
    var s0 := AfterStartElement(s, e.start);
    RunCons(s, StartTag(e.start), ForestTokens(kids) + close, s0, all);
    assert s0.stack == MarkTop(s.stack) + [NewNode(e.start)];
    assert Opening(s0.stack) == OpenLine(d, e.start);
    ForestRun(s0, kids, all);
    var forest := ForestTemplate(kids, d + 1, all);
    var s1 := State(MarkTop(s0.stack), "", BindAll(s.parameters, ForestLeaves(kids, all)),
                    s0.template + OpenLine(d, e.start) + forest);
    RunThen(s0, ForestTokens(kids), close, s1, all);
    assert s1.stack == MarkTop(s.stack) + [Node(e.start, true)];
    CloseContainer(s1, e.start, all);
    assert s1.stack[..|s1.stack| - 1] == MarkTop(s.stack);
    var head := s.template + Opening(s.stack);
    Assoc(head, OpenLine(d, e.start), forest);
    Assoc(head, OpenLine(d, e.start) + forest, CloseLine(d, name));
  }

  /** The tree theorem for one element: from any stack, with no pending text,
      the element's tokens write the parent's deferred opening line if it was
      still owed, then the element's template text, and bind its leaves in
      document order; the parent is left marked as a container. */
  lemma ElementRun(s: State, e: Element, all: bool)
    requires WellFormed(e) && s.data == ""
    ensures Run(s, Tokens(e), all) == Some(State(MarkTop(s.stack), "",
      BindAll(s.parameters, LeavesOf(e, all)), s.template + Opening(s.stack) + TemplateOf(e, |s.stack|, all)))
    decreases e, 1
  {
    if e.content.Children? {
      ContainerRun(s, e, all);
    } else {
      LeafElementRun(s, e, all);
    }
  }

  /** A leaf, empty or holding text, binds its one leaf. */
  lemma LeafElementRun(s: State, e: Element, all: bool)
    requires WellFormed(e) && !e.content.Children? && s.data == ""
    ensures Run(s, Tokens(e), all) == Some(State(MarkTop(s.stack), "",
      BindAll(s.parameters, LeavesOf(e, all)), s.template + Opening(s.stack) + TemplateOf(e, |s.stack|, all)))
  {
    if e.content.Text? {
      TextLeafRun(s, e, all);
    } else {
      EmptyLeafRun(s, e, all);
    }
    var leaf := Decide(e.start.name, LeafText(e), all);
    assert BindAll(Bind(s.parameters, leaf), []) == Bind(s.parameters, leaf);
  }

  /** The tree theorem for a non-empty sequence of siblings. */
  lemma ForestRun(s: State, kids: seq<Element>, all: bool)
    requires kids != [] && forall i :: 0 <= i < |kids| ==> WellFormed(kids[i])
    requires s.data == ""
    ensures Run(s, ForestTokens(kids), all) == Some(State(MarkTop(s.stack), "",
      BindAll(s.parameters, ForestLeaves(kids, all)), s.template + Opening(s.stack) + ForestTemplate(kids, |s.stack|, all)))
    decreases kids
  {
    var d := |s.stack|;
    var first := kids[0];
    var rest := kids[1..];
    ElementRun(s, first, all);
    var head := s.template + Opening(s.stack);
    var s1 := State(MarkTop(s.stack), "", BindAll(s.parameters, LeavesOf(first, all)), head + TemplateOf(first, d, all));
    RunThen(s, Tokens(first), ForestTokens(rest), s1, all);
    BindAllAppend(s.parameters, LeavesOf(first, all), ForestLeaves(rest, all));
    if rest == [] {
      assert Run(s1, [], all) == Some(s1);
      assert BindAll(s1.parameters, []) == s1.parameters;
      assert ForestTemplate(kids, d, all) == TemplateOf(first, d, all) + "";
      assert TemplateOf(first, d, all) + "" == TemplateOf(first, d, all);
    } else {
      ForestRun(s1, rest, all);
      MarkTopIdempotent(s.stack);
      assert Opening(s1.stack) == "" by {
        if s.stack != [] {
          assert s1.stack[|s1.stack| - 1].container;
        }
      }
      Assoc(head, TemplateOf(first, d, all), ForestTemplate(rest, d, all));
    }
  }

  /** A parent's opening line is written once, whatever its first child:
      after any well-formed child has been read, the parent is a container
      and the start of a later sibling writes nothing for it. */
  lemma OpeningOnceAfterChild(s: State, first: Element, b: StartElement, all: bool)
    requires s.stack != [] && s.data == "" && WellFormed(first)
    ensures var r := Run(s, Tokens(first), all);
      && r.Some?
      && r.value.template == s.template + Opening(s.stack) + TemplateOf(first, |s.stack|, all)
      && AfterStartElement(r.value, b).template == r.value.template
  {
    ElementRun(s, first, all);
    var r := Run(s, Tokens(first), all).value;
    assert r.stack[|r.stack| - 1].container;
    assert Opening(r.stack) == "";
    assert r.template + "" == r.template;
  }

  /** A whole document: processing instructions, then one root element. */
  datatype Document = Document(prolog: seq<(string, string)>, root: Element)

  function PrologTokens(prolog: seq<(string, string)>): seq<Token>
  {
    if prolog == [] then [] else [ProcInst(prolog[0].0, prolog[0].1)] + PrologTokens(prolog[1..])
  }

  function PrologTemplate(prolog: seq<(string, string)>): string
  {
    if prolog == [] then "" else ProcInstLine(prolog[0].0, prolog[0].1) + PrologTemplate(prolog[1..])
  }

  function DocumentTokens(d: Document): seq<Token>
  {
    PrologTokens(d.prolog) + Tokens(d.root)
  }

  lemma {:induction false} PrologRun(s: State, prolog: seq<(string, string)>, all: bool)
    ensures Run(s, PrologTokens(prolog), all) == Some(s.(template := s.template + PrologTemplate(prolog)))
    decreases |prolog|
  {
    if prolog != [] {
      var s1 := AfterProcInst(s, prolog[0].0, prolog[0].1);
      PrologRun(s1, prolog[1..], all);
      assert PrologTokens(prolog)[0] == ProcInst(prolog[0].0, prolog[0].1);
      assert PrologTokens(prolog)[1..] == PrologTokens(prolog[1..]);
      assert Run(s, PrologTokens(prolog), all) == Run(s1, PrologTokens(prolog[1..]), all);
      Assoc(s.template, ProcInstLine(prolog[0].0, prolog[0].1), PrologTemplate(prolog[1..]));
    } else {
      assert s.template + "" == s.template;
    }
  }

  /** The whole document: the handler ends with an empty stack and no
      pending text, the template is the prolog followed by the root's
      template text, and the parameters are the root's leaves bound in
      document order. */
  lemma DocumentRun(d: Document, all: bool)
    requires WellFormed(d.root)
    ensures Parse(DocumentTokens(d), all) == Some(State([], "",
      BindAll(map[], LeavesOf(d.root, all)), PrologTemplate(d.prolog) + TemplateOf(d.root, 0, all)))
  {
    var s0 := AfterStartDocument();
    PrologRun(s0, d.prolog, all);
    var s1 := s0.(template := PrologTemplate(d.prolog));
    ElementRun(s1, d.root, all);
    RunAppend(s0, PrologTokens(d.prolog), Tokens(d.root), all);
    assert "" + PrologTemplate(d.prolog) == PrologTemplate(d.prolog);
  }

  /** Every leaf that is written with a placeholder has its name bound after
      the document. */
  lemma DocumentBindsEveryLeaf(d: Document, all: bool)
    requires WellFormed(d.root)
    ensures var leaves := LeavesOf(d.root, all);
      && Parse(DocumentTokens(d), all).Some?
      && forall i :: 0 <= i < |leaves| && leaves[i].Filled? ==>
           leaves[i].key in Parse(DocumentTokens(d), all).value.parameters
  {
    DocumentRun(d, all);
    BindAllKeys(map[], LeavesOf(d.root, all));
  }

  /** A small job configuration, `<job><name>Build</name><url/></job>`:
      the text leaf becomes a placeholder bound to its value; the empty leaf
      collapses, or gets a placeholder bound to the filler when every leaf is
      parameterised. */
  lemma JobExample(job: Element, name: Element, url: Element, all: bool)
    requires name == Element(StartElement("name", []), Text("Build"))
    requires url == Element(StartElement("url", []), Empty)
    requires job == Element(StartElement("job", []), Children([name, url]))
    ensures var r := Parse(DocumentTokens(Document([], job)), all);
      && r.Some? && r.value.stack == []
      && (!all ==> r.value.template == "<job>\n" + "  <name>{{- Name -}}</name>\n" + "  <url/>\n" + "</job>\n"
                   && r.value.parameters == map["Name" := "Build"])
      && (all ==> r.value.template == "<job>\n" + "  <name>{{- Name -}}</name>\n" + "  <url>{{- Url -}}</url>\n" + "</job>\n"
                  && r.value.parameters == map["Name" := "Build", "Url" := Filler])
  {
    JobNameLeaf(name, all);
    JobUrlLeaf(url, all);
    JobShape(job, name, url, all);
    DocumentRun(Document([], job), all);
    JobLines();
    var leaves := LeavesOf(name, all) + LeavesOf(url, all);
    JobText(TemplateOf(name, 1, all), TemplateOf(url, 1, all));
    JobBinds(leaves, all);
  }

  lemma JobLines()
    ensures OpenLine(0, StartElement("job", [])) == "<job>\n"
    ensures CloseLine(0, "job") == "</job>\n"
  {
    assert Tab(0) == "";
    assert AttrsText([]) == "";
  }

  /** The job's template text, regrouped over variables. */
  lemma JobText(a: string, b: string)
    ensures PrologTemplate([]) + ("<job>\n" + (a + b) + "</job>\n") == "<job>\n" + a + b + "</job>\n"
  {
    assert PrologTemplate([]) == "";
  }

  lemma JobBinds(leaves: seq<Leaf>, all: bool)
    ensures !all && leaves == [Filled("{{- Name -}}", "Name", "Build")] + [Collapsed] ==>
      BindAll(map[], leaves) == map["Name" := "Build"]
    ensures all && leaves == [Filled("{{- Name -}}", "Name", "Build")] + [Filled("{{- Url -}}", "Url", Filler)] ==>
      BindAll(map[], leaves) == map["Name" := "Build", "Url" := Filler]
  {
    if |leaves| == 2 {
      var m := Bind(map[], leaves[0]);
      var last := leaves[1..];
      assert last == [leaves[1]] && last[1..] == [];
      assert BindAll(map[], leaves) == BindAll(m, last);
      assert BindAll(m, last) == Bind(m, leaves[1]);
    }
  }

  lemma NameKey()
    ensures Names.Templatise("name") == "Name"
  {
    Names.TemplatiseCamel("name");
  }

  lemma UrlKey()
    ensures Names.Templatise("url") == "Url"
  {
    Names.TemplatiseCamel("url");
  }

  lemma JobNameLeaf(name: Element, all: bool)
    requires name == Element(StartElement("name", []), Text("Build"))
    ensures WellFormed(name)
    ensures LeavesOf(name, all) == [Filled("{{- Name -}}", "Name", "Build")]
    ensures TemplateOf(name, 1, all) == "  <name>{{- Name -}}</name>\n"
  {
    BuildTrimmed();
    DecideName(all);
    NameLine();
  }

  lemma BuildTrimmed()
    ensures !Blank("Build") && TrimSpace("Build") == "Build"
  {
    var build := "Build";
    assert !IsSpace(build[0]) && !IsSpace(build[|build| - 1]);
    assert TrimStart(build) == 0 && TrimEnd(build) == |build|;
    assert build[0..|build|] == build;
  }

  lemma DecideName(all: bool)
    ensures Decide("name", "Build", all) == Filled("{{- Name -}}", "Name", "Build")
  {
    NameKey();
    assert !PatternMatches("Build");
  }

  lemma NameLine()
    ensures LeafLine(1, StartElement("name", []), "name", Filled("{{- Name -}}", "Name", "Build"))
         == "  <name>{{- Name -}}</name>\n"
  {
    assert Tab(1) == "  ";
    assert AttrsText([]) == "";
  }

  lemma JobUrlLeaf(url: Element, all: bool)
    requires url == Element(StartElement("url", []), Empty)
    ensures WellFormed(url)
    ensures !all ==> (LeavesOf(url, all) == [Collapsed]
      && TemplateOf(url, 1, all) == "  <url/>\n")
    ensures all ==> (LeavesOf(url, all) == [Filled("{{- Url -}}", "Url", Filler)]
      && TemplateOf(url, 1, all) == "  <url>{{- Url -}}</url>\n")
  {
    if all {
      FillUrl();
      UrlLine();
    } else {
      assert Decide("url", "", false) == Collapsed;
      CollapsedLine();
    }
  }

  lemma FillUrl()
    ensures Decide("url", "", true) == Filled("{{- Url -}}", "Url", Filler)
  {
    DecideAll("url");
    UrlKey();
    UrlPlaceholder();
  }

  lemma UrlPlaceholder()
    ensures Placeholder("Url") == "{{- Url -}}"
  {
  }

  /** With every leaf parameterised, an empty leaf binds its key to the filler. */
  lemma DecideAll(tag: string)
    requires tag != ""
    ensures Decide(tag, "", true) == Filled(Placeholder(Names.Templatise(tag)), Names.Templatise(tag), Filler)
  {
  }

  lemma UrlLine()
    ensures LeafLine(1, StartElement("url", []), "url", Filled("{{- Url -}}", "Url", Filler))
         == "  <url>{{- Url -}}</url>\n"
  {
    assert Tab(1) == "  ";
    assert AttrsText([]) == "";
  }

  lemma CollapsedLine()
    ensures LeafLine(1, StartElement("url", []), "url", Collapsed) == "  <url/>\n"
  {
    assert Tab(1) == "  ";
    assert AttrsText([]) == "";
  }

  lemma JobShape(job: Element, name: Element, url: Element, all: bool)
    requires WellFormed(name) && WellFormed(url)
    requires job.start.name != "" && job.content == Children([name, url])
    ensures WellFormed(job)
    ensures LeavesOf(job, all) == LeavesOf(name, all) + LeavesOf(url, all)
    ensures TemplateOf(job, 0, all) ==
      OpenLine(0, job.start) + (TemplateOf(name, 1, all) + TemplateOf(url, 1, all)) + CloseLine(0, job.start.name)
  {
    TwoKids(name, url, 1, all);
  }

  lemma TwoKids(a: Element, b: Element, depth: nat, all: bool)
    requires WellFormed(a) && WellFormed(b)
    ensures ForestLeaves([a, b], all) == LeavesOf(a, all) + LeavesOf(b, all)
    ensures ForestTemplate([a, b], depth, all) == TemplateOf(a, depth, all) + TemplateOf(b, depth, all)
  {
    var kids := [a, b];
    assert kids[1..] == [b] && kids[1..][1..] == [];
    OneKid(b, depth, all);
  }

  lemma OneKid(b: Element, depth: nat, all: bool)
    requires WellFormed(b)
    ensures ForestLeaves([b], all) == LeavesOf(b, all)
    ensures ForestTemplate([b], depth, all) == TemplateOf(b, depth, all)
  {
    assert [b][1..] == [];
    assert ForestLeaves([b], all) == LeavesOf(b, all) + [];
    assert ForestTemplate([b], depth, all) == TemplateOf(b, depth, all) + "";
  }
}
