/** A parsed XML document, as `xml.etree.ElementTree.fromstring` returns it, and the
    element queries the nmap adapter makes. Parsing itself is a parameter of the
    adapter; namespaces, text and tails are not modelled. */
module Xml {
  import opened Outcomes
  import Seqs

  /** An element: its tag, its attributes in document order (each name once), and its
      child elements. */
  datatype Element = Element(tag: string, attrs: seq<(string, string)>, children: seq<Element>)

  /** `e.get(key)` */
  function Attr(e: Element, key: string): (r: Option<string>)
    ensures r.Some? <==> exists i :: 0 <= i < |e.attrs| && e.attrs[i].0 == key
  {
    AttrIn(e.attrs, key)
  }

  function AttrIn(attrs: seq<(string, string)>, key: string): (r: Option<string>)
    ensures r.Some? <==> exists i :: 0 <= i < |attrs| && attrs[i].0 == key
  {
    if attrs == [] then None
    else if attrs[0].0 == key then Some(attrs[0].1)
    else
      var r := AttrIn(attrs[1..], key);
      assert forall i :: 0 < i < |attrs| ==> attrs[i] == attrs[1..][i - 1];
      r
  }

  /** Every element strictly below `e`, in document order. */
  function Descendants(e: Element): seq<Element>
    decreases e, 1
  {
    DescendantsOf(e, e.children)
  }

  function DescendantsOf(ghost parent: Element, cs: seq<Element>): seq<Element>
    requires forall c :: c in cs ==> c < parent
    decreases parent, 0, |cs|
  {
    if cs == [] then []
    else
      assert cs[0] in cs;
      assert forall c :: c in cs[1..] ==> c in cs;
      [cs[0]] + Descendants(cs[0]) + DescendantsOf(parent, cs[1..])
  }

  /** `e.findall(".//" + tag)`: the descendants with that tag, in document order. */
  function FindAll(e: Element, tag: string): (r: seq<Element>)
    ensures forall k :: 0 <= k < |r| ==> r[k].tag == tag
  {
    Seqs.FilterSatisfies(Descendants(e), (x: Element) => x.tag == tag);
    Seqs.Filter(Descendants(e), (x: Element) => x.tag == tag)
  }

  /** The first element of `es` with the tag whose attribute `key` is `value`. */
  function FirstWith(es: seq<Element>, tag: string, key: string, value: string): (r: Option<Element>)
    ensures r.Some? ==> r.value in es && r.value.tag == tag && Attr(r.value, key) == Some(value)
    ensures r.None? <==> forall x :: x in es ==> !(x.tag == tag && Attr(x, key) == Some(value))
  {
    if es == [] then None
    else if es[0].tag == tag && Attr(es[0], key) == Some(value) then Some(es[0])
    else FirstWith(es[1..], tag, key, value)
  }

  /** `e.find(".//" + tag + "[@" + key + "='" + value + "']")` */
  function FindWith(e: Element, tag: string, key: string, value: string): Option<Element>
  {
    FirstWith(Descendants(e), tag, key, value)
  }

  /** `e.find(tag)`: the first child with that tag. */
  function FindChild(e: Element, tag: string): (r: Option<Element>)
    ensures r.Some? ==> r.value in e.children && r.value.tag == tag
    ensures r.None? <==> forall c :: c in e.children ==> c.tag != tag
  {
    FirstChild(e.children, tag)
  }

  function FirstChild(cs: seq<Element>, tag: string): (r: Option<Element>)
    ensures r.Some? ==> r.value in cs && r.value.tag == tag
    ensures r.None? <==> forall c :: c in cs ==> c.tag != tag
  {
    if cs == [] then None
    else if cs[0].tag == tag then Some(cs[0])
    else FirstChild(cs[1..], tag)
  }

  // ---------------------------------------------------------------------------
  // properties

  /** The children of an element are among its descendants, in order, and so are
      their own descendants. */
  lemma {:induction false} ChildrenAreDescendants(parent: Element, cs: seq<Element>, c: Element)
    requires forall x :: x in cs ==> x < parent
    requires c in cs
    ensures c in DescendantsOf(parent, cs)
    ensures forall d :: d in Descendants(c) ==> d in DescendantsOf(parent, cs)
    decreases |cs|
  {
    if cs[0] != c {
      assert forall x :: x in cs[1..] ==> x in cs;
      assert c in cs[1..];
      ChildrenAreDescendants(parent, cs[1..], c);
    }
  }

  /** `findall` keeps exactly the descendants with the tag. */
  lemma FindAllMembership(e: Element, tag: string, x: Element)
    ensures x in FindAll(e, tag) <==> x in Descendants(e) && x.tag == tag
  {
    Seqs.FilterMembership(Descendants(e), (y: Element) => y.tag == tag, x);
  }

  /** A child with the tag is found by `findall` too. */
  lemma ChildFoundByFindAll(e: Element, tag: string, c: Element)
    requires c in e.children && c.tag == tag
    ensures c in FindAll(e, tag)
  {
    ChildrenAreDescendants(e, e.children, c);
    FindAllMembership(e, tag, c);
  }
}
