# jted: XML configuration to template, verified model

jted reads an XML configuration file in a single SAX pass. It writes a
template copy of the file in which every leaf value is replaced by a
placeholder `{{- Name -}}`, and collects a map from each placeholder name to
the value it replaced. This project models that engine in Dafny:

- the templating handler and its six event methods (`Templating`);
- the tracing handler that prints one coloured line per event (`Tracing`);
- the helpers: stack frames, indentation, the "already a placeholder" regular
  expression, white-space trimming (`Utils`), and the tag-to-parameter-name
  transformation (`Names`);
- the linked-list LIFO (`LinkedStack`);
- the parser's event order, as the loop that drives either handler (`Sax`).

Each handler is modelled twice. A pure transition function per event acts on
the state `(stack, data, parameters, template)`; the properties are proved
about these functions. A class keeps the same fields and updates them in
place, and each event method is proved to perform exactly its transition.
A Go panic is `None` in the transition: an end tag on an empty stack, or a
parameter name derived from an empty tag.

`Documents` states what the single pass computes over a document tree. Take
a well-formed element: each element is empty, holds non-blank text, or holds
child elements. The handler writes for it exactly what a recursive
pretty-printer writes, binds its leaves in document order, and ends with an
empty stack.

The code writes placeholders bare, as `{{- Name -}}`. It reserves no names
and uses no `.parameters.` prefix. The filler value is `<value>`. There is no
manifest renderer.

## Model

| member | source | states |
|---|---|---|
| Utils.NewNode | utils.go:13-16 | a fresh frame carries its start tag and is not a container |
| Utils.Tab | utils.go:35-39 | the indentation for `count` levels is 2·abs(count) blanks |
| Utils.TabOfLevel | utils.go:35-39 | for a non-negative level the indentation is exactly 2·count spaces |
| Utils.TrimSpace | handler.go:130 | `strings.TrimSpace` never lengthens its input, and a non-empty result starts and ends on a character that is not white space |
| Utils.TrimSpaceSpec | handler.go:130 | `strings.TrimSpace` keeps a contiguous slice with white space only before and after it and no white space at its ends; it is empty exactly when the input is all white space |
| Utils.PatternMatches | utils.go:29 | the regular expression read as the engine runs it; every match is at least four characters long, starts with `{{` and ends with `}}` |
| Utils.PatternMatchesTemplated | utils.go:29 | `^{{[^}}]*}}$` accepts exactly the strings that are `{{`, then characters other than `}`, then `}}` |
| Utils.PatternAnchored | utils.go:29 | the pattern is anchored at the end: a match followed by any character other than `}` no longer matches |
| FrameStack.Top | handler.go:68 | the stack package's Top yields the innermost frame, or nothing exactly when the stack is empty |
| FrameStack.MarkTop | handler.go:68-69 | flagging the top frame as a container changes that frame's flag and nothing else |
| FrameStack.MarkTopIdempotent | handler.go:68-69 | flagging twice is flagging once: a frame becomes a container once |
| Names.Title | utils.go:47 | strings.Title on ASCII keeps the length, title-cases the first character and every character after a separator, and leaves the others alone |
| Names.TitleChanges | utils.go:47 | Title only raises lower-case letters, so it adds and removes no dot |
| Names.SplitDots | utils.go:46 | strings.Split on "." yields at least one piece, no piece holds a dot, and joining the pieces with dots gives the input back |
| Names.CamelSplit | utils.go:50 | camelcase.Split yields non-empty words whose concatenation is the input, and no words exactly for the empty string |
| Names.Templatise | utils.go:43-54 | the parameter name: the dotted branch when the tag holds a dot, the camel-case branch otherwise; the empty dot-free tag, which would panic, is excluded; what each branch yields is stated by Names.TemplatiseDotted and Names.TemplatiseCamel |
| Names.TemplatiseDotted | utils.go:45-48 | a dotted tag becomes its segments title-cased and joined without separator; the result has no dot and is the tag without its dots, with some letters raised |
| Names.TemplatiseCamel | utils.go:49-53 | a dot-free tag keeps every character except the first, which is title-cased |
| Names.CamelHead | utils.go:50-51 | the first camel-case word is a non-empty prefix of the tag that Title changes only in its first character |
| Names.TemplatiseDoSomething | utils.go:41-42 | the documented example: `doSomething` becomes `DoSomething` |
| Templating.AttrsTextAppend | handler.go:90-94 | the attribute text of a concatenation is the concatenation of the attribute texts, so attributes appear in document order |
| Templating.WriteAttributes | handler.go:73-77 | the attribute loop writes ` name="value"` for every attribute in order |
| Templating.AfterStartDocument | handler.go:42-48 | the start of a document leaves the stack, pending text, parameters and template empty |
| Templating.Handler.OnStartDocument | handler.go:42-48 | the method clears every field as the transition prescribes |
| Templating.AfterProcInst | handler.go:52-55 | a processing instruction appends exactly `<?target inst?>` and a newline to the template and changes nothing else |
| Templating.Handler.OnProcessingInstruction | handler.go:52-55 | the method performs that transition in place |
| Templating.AfterStartElement | handler.go:62-83 | a start tag pushes one fresh frame, marks the parent a container, appends the parent's opening line if it was still owed, and keeps the pending text and the parameters |
| Templating.Handler.OnStartElement | handler.go:62-83 | the method performs that transition in place |
| Templating.OpeningOnce | handler.go:68-78 | a parent's opening line is written once: after a first child has closed, a second child's start tag writes nothing |
| Templating.AfterEndElement | handler.go:87-125 | an end tag succeeds exactly when the stack is non-empty and the leaf decision needs no name from an empty tag; it pops one frame, clears the pending text, appends to the template and keeps every parameter key |
| Templating.Handler.OnEndElement | handler.go:87-125 | the method performs that transition in place |
| Templating.EndElementWithText | handler.go:95-108 | with pending text: text matching the pattern is written verbatim and bound to `<value>`; other text is replaced by the placeholder derived from the tag and bound to that name |
| Templating.EndElementWithoutText | handler.go:109-121 | without pending text: a container gets only `</T>`; an empty leaf collapses to `<T attrs/>`, or with `all` gets a placeholder bound to `<value>`; parameters change only in the last case |
| Templating.EndElementBindsOne | handler.go:95-121 | an end tag binds at most one key, overwriting any earlier value |
| Templating.AfterCharData | handler.go:129-134 | blank text leaves the pending text unchanged; other text replaces it with the trimmed, non-empty text |
| Templating.Handler.OnCharacterData | handler.go:129-134 | the method performs that transition in place |
| Templating.Handler.OnComment | handler.go:139-141 | a comment changes nothing |
| Templating.RunStrip | handler.go:129-141 | removing comments and blank character data from a token stream changes no outcome of the run |
| Templating.RunAppend | handler.go:42-141 | running two token sequences one after the other is running their concatenation, stopping at the first panic |
| Templating.RunShape | handler.go:62-134 | a run that does not panic deepens the stack by the start tags minus the end tags, only appends to the template and never removes a parameter |
| Templating.ParseBalanced | handler.go:81-123 | a balanced token stream leaves the stack empty |
| Templating.LeafBinds | handler.go:95-108 | a leaf holding text that is not a placeholder binds the name derived from its tag to its trimmed text |
| Templating.TwoLeaves | handler.go:95-108 | two sibling leaves bind their names in document order |
| Templating.LaterBindingWins | handler.go:105 | when two siblings derive the same name, the later value is the one kept |
| Documents.OpeningOnceAfterChild | handler.go:68-81 | whatever the first child, once it has been read the parent's opening line has been written, and a later sibling's start tag writes nothing more for it |
| Documents.ElementRun | handler.go:62-125 | from any state without pending text, an element's tokens write the parent's owed opening line and then the element's pretty-printed template, bind its leaves in document order, and leave the parent marked as a container |
| Documents.DocumentRun | handler.go:42-141 | a whole document ends with an empty stack and no pending text; its template is the processing instructions then the root's template text, and its parameters are the root's leaves bound in order |
| Documents.DocumentBindsEveryLeaf | handler.go:95-121 | every leaf written with a placeholder has its name bound at the end of the document |
| Documents.JobExample | handler.go:95-121 | `<job><name>Build</name><url/></job>` gives a template with a `Name` placeholder bound to `Build`, and a collapsed `<url/>`, or with `all` a `Url` placeholder bound to `<value>` |
| Tracing.TraceAfterStartDocument | print_handler.go:22-26 | the start of a document empties the stack and the pending text; what was printed stays printed |
| Tracing.PrintHandler.OnStartDocument | print_handler.go:22-26 | the method clears the stack, pending text and buffer |
| Tracing.TraceAfterProcInst | print_handler.go:31-34 | a processing instruction prints one line and changes nothing else |
| Tracing.PrintHandler.OnProcessingInstruction | print_handler.go:31-34 | the method performs that transition in place |
| Tracing.TraceAfterStartElement | print_handler.go:38-56 | a start tag pushes one fresh frame; the parent's opening line is printed exactly when the parent was not yet a container |
| Tracing.PrintHandler.OnStartElement | print_handler.go:38-56 | the method performs that transition in place |
| Tracing.HighlightedAttrsShape | print_handler.go:44-48 | each attribute of an opening line prints its name plain and its value green exactly when the value matches the pattern, plain otherwise |
| Tracing.FormatAttributes | print_handler.go:42-51 | the attribute loop builds exactly those highlighted attributes |
| Tracing.EraseHighlightedAttrs | print_handler.go:44-48 | highlighting changes only colours: the printed text is the templating handler's attribute text |
| Tracing.TraceAfterEndElement | print_handler.go:60-83 | an end tag succeeds exactly on a non-empty stack, prints exactly one line, pops one frame and clears the pending text; the line is the container's closing line when there is no pending text and the frame is a container, otherwise the value line showing the content span |
| Tracing.PrintHandler.OnEndElement | print_handler.go:60-83 | the method performs that transition in place |
| Tracing.ContentShows | print_handler.go:68-79 | in the printed end line, pending text is shown green exactly when it matches the pattern and red otherwise; an empty non-container shows `???` in red; a container's line holds only its indentation and closing tag |
| Tracing.EndLineErases | print_handler.go:68-79 | without colours, the printed end line is the template's closing line for a container and otherwise the template's leaf line holding the shown text |
| Tracing.EndLineIsTemplateLine | print_handler.go:68-76 | for a pre-authored placeholder or a container, the printed end line without colours is exactly the line the templating handler appends to the template |
| Tracing.EndLineCloses | print_handler.go:75-79 | every end line finishes with the closing tag, so the tracer never collapses an element |
| Tracing.StartLineErases | print_handler.go:52 | a printed opening line, without colours, is the template's opening line |
| Tracing.ValueLineErases | print_handler.go:70-79 | a printed value line, without colours, is the template's leaf line holding the shown text |
| Tracing.CloseLineErases | print_handler.go:76 | a printed closing line, without colours, is the template's closing line |
| Tracing.TraceAfterCharData | print_handler.go:87-93 | blank text keeps the pending text; other text replaces it with the trimmed text |
| Tracing.PrintHandler.OnCharacterData | print_handler.go:87-93 | the method performs that transition in place |
| Tracing.PrintHandler.OnComment | print_handler.go:97-99 | a comment changes nothing |
| Tracing.TraceAgrees | print_handler.go:22-99 | on any token stream the templating handler runs through, the tracer runs through it too, with the same stack and pending text |
| LinkedStack.Stack.constructor | stack.go:18-22 | a new stack is empty and its counter is zero |
| LinkedStack.Stack.Push | stack.go:25-33 | a push prepends the value and adds one to the counter; the counter stays the number of linked elements |
| LinkedStack.Stack.Pop | stack.go:36-46 | on a non-empty stack, pop returns the most recent value, drops it, and subtracts one from the counter; on an empty stack it returns nothing and changes nothing |
| LinkedStack.Stack.Top | stack.go:49-51 | on a non-empty stack, Top returns the most recent value without changing the stack |
| LinkedStack.Stack.Len | stack.go:54-56 | the length is the number of values on the stack |
| LinkedStack.Stack.IsEmpty | stack.go:59-61 | the stack is empty exactly when it holds no values |
| LinkedStack.PushPop | stack.go:25-46 | pushing a value and popping gives the value back and leaves the stack as it was |
| LinkedStack.PushLenPop | stack_test.go:5-29 | after pushing 0 to 99 the top is each value just pushed and the length is 100; popping 100 times yields 99 down to 0, and the stack is then empty |
| Sax.Dispatch | sax/parser.go:82-95 | the type switch calls the handler method for the token's kind, which performs that token's transition |
| Sax.DispatchTrace | sax/parser.go:82-95 | the same type switch over the tracer |
| Sax.ParseTemplate | sax/parser.go:55-98 | the parser calls OnStartDocument, then one handler method per token in order; the handler then holds the state the transitions prescribe |
| Sax.ParseTrace | sax/parser.go:55-98 | the same driver over the tracer: each line is printed after whatever was printed before |

## Left out

- Reading and tokenizing XML (encoding/xml): the token stream is the input, after whitespace has been dropped between tags where the tree theorem needs it.
- The parser's error-handler loop: the token stream is given, so no read error occurs.
- The unsupported-token branch, reached for example by a `<!DOCTYPE …>` directive: it only logs and changes no handler state, so leaving that kind of token out of `Token` loses nothing.
- `OnEndDocument`, `Close` and `OnError`: they only write files, dump the parameters or forward an error.
- Every `fmt.Printf` of the templating handler: it is terminal output. The tracer's output is modelled, as a list of lines.
- The bold, green and red colour codes: each printed span carries an abstract colour tag instead, and `Erase` gives the bare text.
- The `sync.Mutex` of stack.go: the model is sequential.
- The unsynchronised `head == nil` test in Pop, made before the lock is taken, is a race only under concurrency, so it is not modelled.
- The handlers import a separate stack package with `Clear` and a `Top` that returns nil on an empty stack. That package is not part of this model. The handlers' stack is a sequence of frames with an optional top (`FrameStack`).
- A frame is flagged as a container by replacing the top value. The source instead mutates a `*Node` that the stack points to. No other reference to a frame exists, so no aliasing is lost.
- Names.Title and Names.CamelSplit: the library functions are modelled on ASCII letters and digits. Non-ASCII letters, Unicode title case and the other Unicode classes of camelcase.Split are not modelled. (Utils.IsSpace is exact: it is Go's full Unicode white-space set.)
- Utils.Tab: the function models `fmt`'s padding with a negative width as left-justification to abs(width). The handlers only pass non-negative levels.
- The `size` field of stack.go is an unbounded integer: Go's `int` overflow after 2^63 pushes is not modelled.
- main.go and the HCL rendering: command-line handling and file I/O are not part of this model.
- Sax.ParseTemplate: it does not model the return value of `Parse`. The shadowed `err` makes it nil whatever is read.
- Documents: the tree theorem covers elements that are empty, hold non-blank text, or hold only child elements. Mixed content is outside it, because the handler keeps a single pending-text slot.
- Templating.LeafRun, Templating.LeafBinds, Templating.TwoLeaves and Templating.LaterBindingWins: their text is required to be non-blank. The blank case is the empty leaf, which Templating.EndElementWithoutText covers.
