/**
 * The part of an ElementTree element that the decoders look at: its tag, its
 * attributes in document order and its child elements in document order.
 * Tags are plain strings: the namespace is never part of a lookup path.
 */
module Xml {
  import opened Wrappers

  datatype Element = Element(tag: string, attrs: seq<(string, string)>, children: seq<Element>)

  /** No attribute name occurs twice, as XML requires of a start tag. */
  predicate DistinctKeys(attrs: seq<(string, string)>) {
    forall i, j :: 0 <= i < j < |attrs| ==> attrs[i].0 != attrs[j].0
  }

  /** The value stored under `k`: the first pair with that key. */
  function Lookup(attrs: seq<(string, string)>, k: string): Option<string> {
    if attrs == [] then None
    else if attrs[0].0 == k then Some(attrs[0].1)
    else Lookup(attrs[1..], k)
  }

  /** Lookup finds the first pair with the key, and None exactly when no pair has it. */
  lemma {:induction false} LookupSpec(attrs: seq<(string, string)>, k: string)
    ensures Lookup(attrs, k).None? <==> forall i :: 0 <= i < |attrs| ==> attrs[i].0 != k
    ensures Lookup(attrs, k).Some? ==>
      exists i :: 0 <= i < |attrs| && attrs[i] == (k, Lookup(attrs, k).value) &&
        forall j :: 0 <= j < i ==> attrs[j].0 != k
  {
    if attrs != [] && attrs[0].0 != k {
      LookupSpec(attrs[1..], k);
      assert forall i :: 1 <= i < |attrs| ==> attrs[1..][i - 1] == attrs[i];
      if Lookup(attrs, k).Some? {
        var i :| 0 <= i < |attrs[1..]| && attrs[1..][i] == (k, Lookup(attrs, k).value) &&
          forall j :: 0 <= j < i ==> attrs[1..][j].0 != k;
        assert attrs[i + 1] == (k, Lookup(attrs, k).value);
      }
    }
  }

  /** `elem.get(k)`: the attribute's value, or None when it is absent. */
  function Attr(e: Element, k: string): Option<string> {
    Lookup(e.attrs, k)
  }

  /** `elem.get(k, d)`. */
  function Get(e: Element, k: string, d: string): (r: string)
    ensures Attr(e, k).None? ==> r == d
    ensures Attr(e, k).Some? ==> r == Attr(e, k).value
  {
    Attr(e, k).GetOr(d)
  }

  /** The elements of `cs` whose tag is `tag`, in order. */
  function WithTag(cs: seq<Element>, tag: string): (r: seq<Element>)
    ensures |r| <= |cs|
    ensures forall x :: x in r <==> x in cs && x.tag == tag
  {
    if cs == [] then []
    else (if cs[0].tag == tag then [cs[0]] else []) + WithTag(cs[1..], tag)
  }

  /** The first element of `cs` whose tag is `tag`. */
  function FirstWithTag(cs: seq<Element>, tag: string): Option<Element> {
    if cs == [] then None
    else if cs[0].tag == tag then Some(cs[0])
    else FirstWithTag(cs[1..], tag)
  }

  /** `elem.find("./tag")`: the first direct child with that tag. */
  function Find(e: Element, tag: string): Option<Element> {
    FirstWithTag(e.children, tag)
  }

  /** `elem.findall("./tag")`: every direct child with that tag, in document order. */
  function FindAll(e: Element, tag: string): seq<Element> {
    WithTag(e.children, tag)
  }

  /** The children tagged `tag` of every element of `parents`, parent by parent. */
  function ChildrenWithTag(parents: seq<Element>, tag: string): (r: seq<Element>)
    ensures forall x :: x in r <==> exists p :: p in parents && x in FindAll(p, tag)
  {
    if parents == [] then []
    else FindAll(parents[0], tag) + ChildrenWithTag(parents[1..], tag)
  }

  /** `elem.findall("./parentTag/tag")`. */
  function FindAllUnder(e: Element, parentTag: string, tag: string): seq<Element> {
    ChildrenWithTag(FindAll(e, parentTag), tag)
  }
}
