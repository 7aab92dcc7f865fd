/** The part of the host's syntax tree (PSI) the gutter-marker provider touches:
    an element's kind (is it a Python statement?), its text, and its
    `firstChild` link, plus the first-leaf descent the provider performs. */
module Psi {
  import opened Wrappers

  datatype ElementKind = PyStatement | OtherElement

  /** A PSI element. Its children are in document order, so `firstChild` is the
      head of `children`; an element without children is a leaf. */
  datatype Element = Element(kind: ElementKind, text: string, children: seq<Element>)

  function FirstChild(e: Element): Option<Element> {
    if e.children == [] then None else Some(e.children[0])
  }

  /** The element reached by following `firstChild` exactly `k` times, if the
      chain is that long. */
  function Descend(e: Element, k: nat): Option<Element> {
    if k == 0 then Some(e)
    else match FirstChild(e)
      case None => None
      case Some(c) => Descend(c, k - 1)
  }

  /** The number of `firstChild` links between `e` and its first leaf. */
  function FirstLeafDepth(e: Element): nat {
    if e.children == [] then 0 else 1 + FirstLeafDepth(e.children[0])
  }

  /** `getFirstLeafElement`: follows `firstChild` until an element has none.
      The result has no first child, it is reached from `e` by following
      `firstChild` links only, and a childless element is its own first leaf. */
  function GetFirstLeafElement(e: Element): (r: Element)
    ensures FirstChild(r) == None
    ensures Descend(e, FirstLeafDepth(e)) == Some(r)
    ensures FirstChild(e) == None ==> r == e
  {
    if e.children == [] then e else GetFirstLeafElement(e.children[0])
  }

  /** The descent does not stop early: every element before the first leaf on
      the `firstChild` chain has a first child, and the only childless element
      on the chain is the one `GetFirstLeafElement` returns. */
  lemma {:induction false} FirstLeafIsFirstChildless(e: Element, k: nat, x: Element)
    requires Descend(e, k) == Some(x)
    ensures k <= FirstLeafDepth(e)
    ensures FirstChild(x) == None <==> k == FirstLeafDepth(e)
    ensures FirstChild(x) == None ==> x == GetFirstLeafElement(e)
  {
    if k > 0 {
      FirstLeafIsFirstChildless(e.children[0], k - 1, x);
    }
  }

}
