/**
 * An in-memory stand-in for the parts of the JSBML library that the species
 * marshalling uses: XML annotation nodes, the lookup of a child element by
 * tag, and the species element with its non-RDF annotation slot.
 * Namespace URIs, byte serialisation and the rest of the library are not modelled.
 */
module Jsbml {
  import opened Wrappers

  /** An XML node: an element with a tag, a namespace prefix and children, or a text node. */
  datatype XMLNode =
    | Element(tag: string, prefix: string, children: seq<XMLNode>)
    | Text(chars: string)
  {
    /** `getCharacters()`: the text of a text node; an element carries none. */
    function Characters(): string
    {
      if Text? then chars else ""
    }

    predicate IsElementNamed(name: string)
    {
      Element? && tag == name
    }
  }

  /** `addChild(child)`: appends `child` as the last child of the element `parent`. */
  function AddChild(parent: XMLNode, child: XMLNode): XMLNode
    requires parent.Element?
  {
    parent.(children := parent.children + [child])
  }

  /** A new element with a single text child, as built by `new XMLNode(triple)` and one `addChild`. */
  function TextElement(tag: string, prefix: string, payload: string): XMLNode
  {
    AddChild(Element(tag, prefix, []), Text(payload))
  }

  /** Index of the first element child named `name`, or -1 when there is none. */
  function IndexOfChildElement(children: seq<XMLNode>, name: string): (k: int)
    ensures -1 <= k < |children|
    ensures 0 <= k ==> children[k].IsElementNamed(name)
    ensures forall j :: 0 <= j < |children| && (k < 0 || j < k) ==> !children[j].IsElementNamed(name)
    decreases |children|
  {
    if children == [] then -1
    else if children[0].IsElementNamed(name) then 0
    else
      var k := IndexOfChildElement(children[1..], name);
      if k < 0 then -1 else k + 1
  }

  /** `getChildElement(name, "")`: the first element child named `name`, if any. */
  function GetChildElement(node: XMLNode, name: string): (r: Option<XMLNode>)
    ensures r.Some? ==> node.Element? && r.value in node.children && r.value.IsElementNamed(name)
    ensures r.None? <==> (node.Element? ==> forall c :: c in node.children ==> !c.IsElementNamed(name))
    ensures r.Some? ==>
      exists k :: 0 <= k < |node.children| && node.children[k] == r.value &&
        forall j :: 0 <= j < k ==> !node.children[j].IsElementNamed(name)
  {
    if node.Text? then None
    else
      var k := IndexOfChildElement(node.children, name);
      if k < 0 then None else Some(node.children[k])
  }

  /**
   * Looking up `name` among `before + middle + after`, where only `middle`
   * (at most one node) holds an element named `name`, finds that node.
   */
  lemma GetChildElementOfSplit(tag: string, prefix: string, name: string,
                               before: seq<XMLNode>, middle: seq<XMLNode>, after: seq<XMLNode>)
    requires forall c :: c in before + after ==> !c.IsElementNamed(name)
    requires |middle| <= 1 && forall c :: c in middle ==> c.IsElementNamed(name)
    ensures GetChildElement(Element(tag, prefix, before + middle + after), name) ==
      if middle == [] then None else Some(middle[0])
  {
    var cs := before + middle + after;
    if middle == [] {
      assert forall c :: c in cs ==> c in before + after;
    } else {
      assert cs[|before|] == middle[0];
      forall j | 0 <= j < |before| ensures !cs[j].IsElementNamed(name) {
        assert cs[j] in before + after;
      }
      var k := IndexOfChildElement(cs, name);
      assert k == |before|;
    }
  }

  /** `getChild(0).getCharacters()` on an element that has at least one child. */
  function FirstChildCharacters(node: XMLNode): string
    requires node.Element? && |node.children| > 0
  {
    node.children[0].Characters()
  }

  /** The tag of the block that holds a species' non-RDF annotation. */
  const AnnotationTag := "annotation"

  /**
   * The species element. `substanceUnits` is the one units field: `getUnits`,
   * `setUnits`, `getSubstanceUnits` and `setSubstanceUnits` all refer to it here.
   */
  datatype Species = Species(
    compartment: string,
    id: string,
    name: string,
    substanceUnits: string,
    level: int,
    version: int,
    boundaryCondition: bool,
    constant: bool,
    hasOnlySubstanceUnits: bool,
    nonRDFAnnotation: Option<XMLNode>)

  /**
   * `getAnnotation().setNonRDFAnnotation(node)`: a node that is not itself an
   * `annotation` element is wrapped in one, so the node becomes a child of
   * the stored annotation block.
   */
  function SetNonRDFAnnotation(s: Species, node: XMLNode): (r: Species)
    ensures r.nonRDFAnnotation.Some? && GetChildElement(r.nonRDFAnnotation.value, node.tag) == Some(node)
      <== node.Element? && node.tag != AnnotationTag
    ensures r == s.(nonRDFAnnotation := r.nonRDFAnnotation)
  {
    if node.IsElementNamed(AnnotationTag) then s.(nonRDFAnnotation := Some(node))
    else s.(nonRDFAnnotation := Some(Element(AnnotationTag, "", [node])))
  }
}
