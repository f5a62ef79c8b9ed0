/**
 * An already-parsed CleanerML document, and the two DOM queries the loader
 * uses on it: getElementsByTagName and getText.
 */
module Xml {

  /** A DOM node: text, a comment (ignored by every query), or an element. */
  datatype Node =
    | Text(data: string)
    | Comment(data: string)
    | Element(tag: string, attributes: map<string, string>, children: seq<Node>)

  /** getAttribute: the attribute's value, or "" when there is no such attribute. */
  function GetAttribute(n: Node, name: string): string
  {
    if n.Element? && name in n.attributes then n.attributes[name] else ""
  }

  /** One entry of a getElementsByTagName result; `direct` says whether its parentNode is the node queried. */
  datatype Hit = Hit(element: Node, direct: bool)

  /**
   * The elements named `tag` among `cs` and all their descendants, in document
   * (pre-)order; `direct` marks the nodes of `cs` themselves.
   */
  function HitsIn(cs: seq<Node>, tag: string, direct: bool): (r: seq<Hit>)
    ensures forall i :: 0 <= i < |r| ==> r[i].element.Element? && r[i].element.tag == tag
    ensures !direct ==> forall i :: 0 <= i < |r| ==> !r[i].direct
  {
    if cs == [] then []
    else
      var c := cs[0];
      (if c.Element? && c.tag == tag then [Hit(c, direct)] else [])
      + (if c.Element? then HitsIn(c.children, tag, false) else [])
      + HitsIn(cs[1..], tag, direct)
  }

  /** getElementsByTagName(tag) on `n`: its descendants named `tag`, `n` itself excluded. */
  function ElementsByTagName(n: Node, tag: string): (r: seq<Hit>)
    ensures forall i :: 0 <= i < |r| ==> r[i].element.Element? && r[i].element.tag == tag
  {
    if n.Element? then HitsIn(n.children, tag, true) else []
  }

  /** The child nodes of `n` (none for text and comments). */
  function ChildNodes(n: Node): seq<Node>
  {
    if n.Element? then n.children else []
  }

  /** getText: the data of the text nodes among `nodes`, concatenated; other nodes contribute nothing. */
  function GetText(nodes: seq<Node>): string
  {
    if nodes == [] then ""
    else (if nodes[0].Text? then nodes[0].data else "") + GetText(nodes[1..])
  }

  /** An element that is a direct child of `root` is found by getElementsByTagName, marked direct. */
  lemma {:induction false} DirectChildFound(cs: seq<Node>, tag: string, k: nat)
    requires k < |cs| && cs[k].Element? && cs[k].tag == tag
    ensures Hit(cs[k], true) in HitsIn(cs, tag, true)
  {
    if k > 0 {
      DirectChildFound(cs[1..], tag, k - 1);
      assert cs[1..][k - 1] == cs[k];
    }
  }

  /** Conversely, a hit marked direct is one of the queried nodes themselves: the `parentNode` test. */
  lemma {:induction false} DirectHitIsChild(cs: seq<Node>, tag: string, h: Hit)
    requires h in HitsIn(cs, tag, true) && h.direct
    ensures h.element in cs
  {
    var c := cs[0];
    var own := if c.Element? && c.tag == tag then [Hit(c, true)] else [];
    var below := if c.Element? then HitsIn(c.children, tag, false) else [];
    assert HitsIn(cs, tag, true) == own + below + HitsIn(cs[1..], tag, true);
    if h !in own {
      assert h !in below;
      DirectHitIsChild(cs[1..], tag, h);
    }
  }
}
