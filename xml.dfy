/** The slice of an XML tree that the extractor sees: an element as the
    streaming tokenizer hands it over, and one match event of the stream. */
module Xml {

  datatype Option<+T> = None | Some(value: T)

  /** An element with its tag, attribute map, direct text (absent when the
      element has no text node before its first child) and child elements in
      document order. */
  datatype Element = Element(
    tag: string,
    attrib: map<string, string>,
    text: Option<string>,
    children: seq<Element>)

  /** One "end" event of the tokenizer: the element together with the line
      of the document its start tag stands on. */
  datatype Event = Event(sourceline: int, element: Element)

  /** The set of tags of a sequence of elements. */
  function TagsOf(cs: seq<Element>): set<string>
  {
    set c | c in cs :: c.tag
  }
}
