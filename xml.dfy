/** The tokens that Go's encoding/xml decoder hands to the SAX handlers, reduced
    to the fields the handlers read (local names only, no namespaces). */
module Xml {

  /** One attribute of a start tag, in document order. */
  datatype Attr = Attr(name: string, value: string)

  /** A start tag: its local name and its attributes, duplicates kept. */
  datatype StartElement = StartElement(name: string, attr: seq<Attr>)

  /** The structural tokens delivered between start and end of document. */
  datatype Token =
    | ProcInst(target: string, inst: string)
    | StartTag(element: StartElement)
    | EndTag(name: string)
    | CharData(text: string)
    | Comment(text: string)
}
