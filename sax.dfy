/** The SAX driver of sax/parser.go, reduced to its event order: the handler
    sees OnStartDocument, then one call per token in document order. The
    tokenizer itself (encoding/xml) is not part of this model; the tokens it
    would produce are the input. */
module Sax {
  import opened Wrappers
  import opened Xml
  import Templating
  import Tracing

  /** The type switch of the parse loop: one token, one handler call. */
  method Dispatch(h: Templating.Handler, t: Token)
    requires Templating.Step(h.Abstract(), t, h.all).Some?
    modifies h
    ensures Some(h.Abstract()) == Templating.Step(old(h.Abstract()), t, h.all)
  {
    match t {
      case StartTag(e) => h.OnStartElement(e);
      case CharData(text) => h.OnCharacterData(text);
      case EndTag(name) => h.OnEndElement(name);
      case Comment(text) => h.OnComment(text);
      case ProcInst(target, inst) => h.OnProcessingInstruction(target, inst);
    }
  }

  /** Drives the templating handler over a token stream that does not make it
      panic; afterwards its state is the one the transitions prescribe. */
  method ParseTemplate(h: Templating.Handler, tokens: seq<Token>)
    requires Templating.Parse(tokens, h.all).Some?
    modifies h
    ensures h.Abstract() == Templating.Parse(tokens, h.all).value
  {
    h.OnStartDocument();
    ghost var start := h.Abstract();
    var i := 0;
    while i < |tokens|
      invariant 0 <= i <= |tokens|
      invariant start == Templating.AfterStartDocument()
      invariant Templating.Run(start, tokens[..i], h.all) == Some(h.Abstract())
      invariant Templating.Run(h.Abstract(), tokens[i..], h.all) == Templating.Parse(tokens, h.all)
    {
      Templating.RunSnoc(start, tokens[..i], tokens[i], h.all);
      assert tokens[..i + 1] == tokens[..i] + [tokens[i]];
      assert tokens[i..][1..] == tokens[i + 1..];
      Dispatch(h, tokens[i]);
      i := i + 1;
    }
    assert tokens[..|tokens|] == tokens;
  }

  method DispatchTrace(h: Tracing.PrintHandler, t: Token)
    requires Tracing.TraceStep(h.Abstract(), t).Some?
    modifies h
    ensures Some(h.Abstract()) == Tracing.TraceStep(old(h.Abstract()), t)
  {
    match t {
      case StartTag(e) => h.OnStartElement(e);
      case CharData(text) => h.OnCharacterData(text);
      case EndTag(name) => h.OnEndElement(name);
      case Comment(text) => h.OnComment(text);
      case ProcInst(target, inst) => h.OnProcessingInstruction(target, inst);
    }
  }

  /** Drives the tracer the same way; it prints after whatever was printed
      before. */
  method ParseTrace(h: Tracing.PrintHandler, tokens: seq<Token>)
    requires Tracing.TraceRun(Tracing.TraceAfterStartDocument(h.lines), tokens).Some?
    modifies h
    ensures h.Abstract() == Tracing.TraceRun(Tracing.TraceAfterStartDocument(old(h.lines)), tokens).value
  {
    h.OnStartDocument();
    ghost var start := h.Abstract();
    var i := 0;
    while i < |tokens|
      invariant 0 <= i <= |tokens|
      invariant start == Tracing.TraceAfterStartDocument(old(h.lines))
      invariant Tracing.TraceRun(start, tokens[..i]) == Some(h.Abstract())
      invariant Tracing.TraceRun(h.Abstract(), tokens[i..]) == Tracing.TraceRun(start, tokens)
    {
      Tracing.TraceRunSnoc(start, tokens[..i], tokens[i]);
      assert tokens[..i + 1] == tokens[..i] + [tokens[i]];
      assert tokens[i..][1..] == tokens[i + 1..];
      DispatchTrace(h, tokens[i]);
      i := i + 1;
    }
    assert tokens[..|tokens|] == tokens;
  }
}
