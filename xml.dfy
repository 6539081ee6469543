/**
 * The part of a parsed XML document (`xml.dom.minidom`) the manifest rules
 * read: element names, attributes by qualified name ("android:name"), child
 * elements in document order, and the line a parser may record.
 *
 * `line` stands for `getattr(node, 'lineNumber', None)`. `minidom.parse`
 * never sets `lineNumber`, so for a manifest read that way it is always None;
 * the model keeps it a parameter of the document.
 */
module Xml {
  import opened Wrappers
  import opened Findings

  datatype Element = Element(
    tag: string,
    attrs: map<string, string>,
    children: seq<Element>,
    line: Option<Position>)

  datatype Document = Document(root: Element)

  /**
   * `getElementsByTagName` over a sequence of sibling subtrees: every element
   * named `tag`, each before its descendants, subtrees in order.
   */
  function ElementsByTag(forest: seq<Element>, tag: string): (r: seq<Element>)
    ensures forall e :: e in r ==> e.tag == tag
    ensures forall e :: e in forest && e.tag == tag ==> e in r
    decreases forest
  {
    if forest == [] then []
    else
      var e := forest[0];
      var here := if e.tag == tag then [e] else [];
      var r := here + ElementsByTag(e.children, tag) + ElementsByTag(forest[1..], tag);
      assert forall x :: x in forest ==> x == e || x in forest[1..];
      r
  }

  /** Whatever is listed for the children of a top element is listed for the forest: nested elements are found. */
  lemma {:induction false} NestedListed(forest: seq<Element>, tag: string)
    ensures forall e, d :: e in forest && d in ElementsByTag(e.children, tag) ==> d in ElementsByTag(forest, tag)
    decreases forest
  {
    if forest != [] {
      NestedListed(forest[1..], tag);
      assert forall x :: x in forest ==> x == forest[0] || x in forest[1..];
    }
  }

  /** `document.getElementsByTagName(tag)`: the root element takes part. */
  function DocumentElementsByTag(d: Document, tag: string): seq<Element> {
    ElementsByTag([d.root], tag)
  }

  /** `element.getElementsByTagName(tag)`: descendants only, not the element itself. */
  function DescendantsByTag(e: Element, tag: string): seq<Element> {
    ElementsByTag(e.children, tag)
  }

  /** A root element named `tag` is the first element the document lists for `tag`. */
  lemma {:induction false} RootListedFirst(d: Document, tag: string)
    requires d.root.tag == tag
    ensures DocumentElementsByTag(d, tag) != [] && DocumentElementsByTag(d, tag)[0] == d.root
  {
    var r := d.root;
    assert [r][1..] == [];
    calc {
      DocumentElementsByTag(d, tag);
      [r] + ElementsByTag(r.children, tag) + ElementsByTag([], tag);
    }
  }
}
