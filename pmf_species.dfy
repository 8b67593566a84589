/**
 * The PMF species: an SBML species element plus three optional fields kept
 * in a `metadata` node of its non-RDF annotation:
 *
 *   <pmf:metadata>
 *     <dc:source>http://identifiers.org/ncim/CODE</dc:source>
 *     <pmmlab:detail>TEXT</pmmlab:detail>
 *     <pmmlab:desc>TEXT</pmmlab:desc>
 *   </pmf:metadata>
 *
 * The pure part (building and reading the metadata node) is given as
 * functions; the object with its constructors and setters as a class.
 */
module PmfSpecies {
  import opened Wrappers
  import opened JavaStrings
  import opened Jsbml

  const Level := 3
  const Version := 1

  /** The fixed flags every PMF species carries. */
  const BoundaryCondition := false
  const Constant := false
  const OnlySubstanceUnits := false

  const SourceNs := "dc"
  const SourceTag := "source"
  const DetailNs := "pmmlab"
  const DetailTag := "detail"
  const DescNs := "pmmlab"
  const DescTag := "desc"
  const MetadataNs := "pmf"
  const MetadataTag := "metadata"

  /** The persisted source payload is this prefix followed by the combase code. */
  const NcimPrefix := "http://identifiers.org/ncim/"

  /** The three optional fields; `None` is Java's `null`. */
  datatype OptionalFields = OptionalFields(
    combaseCode: Option<string>,
    detail: Option<string>,
    description: Option<string>)

  /**
   * The part of `s` after its last `/`; all of `s` when it has none.
   * That is the longest suffix of `s` without a `/`.
   */
  function SuffixAfterLastSlash(s: string): (r: string)
    ensures |r| <= |s| && r == s[|s| - |r|..]
    ensures '/' !in r
    ensures |r| < |s| ==> s[|s| - |r| - 1] == '/'
  {
    s[LastIndexOf(s, '/') + 1..]
  }

  function SourcePayload(code: string): string
  {
    NcimPrefix + code
  }

  // ----- serialising -----

  /** The child for one optional field: none when the field is null. */
  function OptionalChild(tag: string, prefix: string, payload: Option<string>): seq<XMLNode>
  {
    if payload.Some? then [TextElement(tag, prefix, payload.value)] else []
  }

  function SourceChild(code: Option<string>): seq<XMLNode>
  {
    OptionalChild(SourceTag, SourceNs, if code.Some? then Some(SourcePayload(code.value)) else None)
  }

  function Count(o: Option<string>): nat
  {
    if o.Some? then 1 else 0
  }

  /** Position of a metadata child in the fixed order source, detail, desc; 3 for anything else. */
  function ChildRank(n: XMLNode): nat
  {
    if n.IsElementNamed(SourceTag) then 0
    else if n.IsElementNamed(DetailTag) then 1
    else if n.IsElementNamed(DescTag) then 2
    else 3
  }

  lemma TagsDiffer()
    ensures SourceTag != DetailTag && SourceTag != DescTag && DetailTag != DescTag
    ensures MetadataTag != AnnotationTag
  {
  }

  /** The children of the `metadata` node, one per non-null field, in the fixed order. */
  function MetadataChildren(code: Option<string>, detail: Option<string>, description: Option<string>): seq<XMLNode>
  {
    SourceChild(code) + OptionalChild(DetailTag, DetailNs, detail) + OptionalChild(DescTag, DescNs, description)
  }

  /**
   * The `metadata` node for the given optional fields: present iff at least
   * one field is non-null, with one child per non-null field in the order
   * source, detail, desc, each holding a single text child.
   */
  function BuildMetadata(code: Option<string>, detail: Option<string>, description: Option<string>): (r: Option<XMLNode>)
    ensures r.Some? <==> code.Some? || detail.Some? || description.Some?
    ensures r.Some? ==> r.value.IsElementNamed(MetadataTag) && r.value.prefix == MetadataNs
    ensures r.Some? ==> |r.value.children| == Count(code) + Count(detail) + Count(description)
    ensures r.Some? ==> forall i :: 0 <= i < |r.value.children| ==>
      r.value.children[i].Element? && |r.value.children[i].children| == 1 && r.value.children[i].children[0].Text?
    ensures r.Some? ==> forall i, j :: 0 <= i < j < |r.value.children| ==>
      ChildRank(r.value.children[i]) < ChildRank(r.value.children[j]) < 3
    ensures r.Some? ==>
      GetChildElement(r.value, SourceTag) ==
        (if code.Some? then Some(TextElement(SourceTag, SourceNs, SourcePayload(code.value))) else None)
    ensures r.Some? ==>
      GetChildElement(r.value, DetailTag) ==
        (if detail.Some? then Some(TextElement(DetailTag, DetailNs, detail.value)) else None)
    ensures r.Some? ==>
      GetChildElement(r.value, DescTag) ==
        (if description.Some? then Some(TextElement(DescTag, DescNs, description.value)) else None)
  {
    if code.None? && detail.None? && description.None? then None
    else
      MetadataLookups(code, detail, description);
      MetadataChildrenShape(code, detail, description);
      Some(Element(MetadataTag, MetadataNs, MetadataChildren(code, detail, description)))
  }

  /** An optional child is at most one element, carrying the given tag and one text child. */
  lemma OptionalChildShape(tag: string, prefix: string, payload: Option<string>)
    ensures |OptionalChild(tag, prefix, payload)| == Count(payload)
    ensures forall c :: c in OptionalChild(tag, prefix, payload) ==>
      c.IsElementNamed(tag) && |c.children| == 1 && c.children[0].Text?
  {
  }

  /** Each of `source`, `detail`, `desc` is found in the built children exactly when its field is non-null. */
  lemma MetadataLookups(code: Option<string>, detail: Option<string>, description: Option<string>)
    ensures
      var m := Element(MetadataTag, MetadataNs, MetadataChildren(code, detail, description));
      GetChildElement(m, SourceTag) ==
        (if code.Some? then Some(TextElement(SourceTag, SourceNs, SourcePayload(code.value))) else None) &&
      GetChildElement(m, DetailTag) ==
        (if detail.Some? then Some(TextElement(DetailTag, DetailNs, detail.value)) else None) &&
      GetChildElement(m, DescTag) ==
        (if description.Some? then Some(TextElement(DescTag, DescNs, description.value)) else None)
  {
    TagsDiffer();
    var p := if code.Some? then Some(SourcePayload(code.value)) else None;
    var s, d, e := SourceChild(code), OptionalChild(DetailTag, DetailNs, detail), OptionalChild(DescTag, DescNs, description);
    OptionalChildShape(SourceTag, SourceNs, p);
    OptionalChildShape(DetailTag, DetailNs, detail);
    OptionalChildShape(DescTag, DescNs, description);
    assert [] + s + (d + e) == s + d + e;
    assert s + d + e + [] == s + d + e;
    GetChildElementOfSplit(MetadataTag, MetadataNs, SourceTag, [], s, d + e);
    GetChildElementOfSplit(MetadataTag, MetadataNs, DetailTag, s, d, e);
    GetChildElementOfSplit(MetadataTag, MetadataNs, DescTag, s + d, e, []);
  }

  /** The built children are one per non-null field, each a tagged element with one text child, in rank order. */
  lemma MetadataChildrenShape(code: Option<string>, detail: Option<string>, description: Option<string>)
    ensures var cs := MetadataChildren(code, detail, description);
      |cs| == Count(code) + Count(detail) + Count(description) &&
      (forall i :: 0 <= i < |cs| ==> cs[i].Element? && |cs[i].children| == 1 && cs[i].children[0].Text?) &&
      (forall i, j :: 0 <= i < j < |cs| ==> ChildRank(cs[i]) < ChildRank(cs[j]) < 3)
  {
    TagsDiffer();
    var p := if code.Some? then Some(SourcePayload(code.value)) else None;
    var s, d, e := SourceChild(code), OptionalChild(DetailTag, DetailNs, detail), OptionalChild(DescTag, DescNs, description);
    OptionalChildShape(SourceTag, SourceNs, p);
    OptionalChildShape(DetailTag, DetailNs, detail);
    OptionalChildShape(DescTag, DescNs, description);
    var cs := s + d + e;
    forall i | 0 <= i < |cs|
      ensures cs[i].Element? && |cs[i].children| == 1 && cs[i].children[0].Text?
      ensures i < |s| ==> ChildRank(cs[i]) == 0
      ensures |s| <= i < |s| + |d| ==> ChildRank(cs[i]) == 1
      ensures |s| + |d| <= i ==> ChildRank(cs[i]) == 2
    {
      if i < |s| { assert cs[i] in s; }
      else if i < |s| + |d| { assert cs[i] == d[i - |s|]; assert cs[i] in d; }
      else { assert cs[i] == e[i - |s| - |d|]; assert cs[i] in e; }
    }
  }

  /** The species element the 7-argument constructor builds. */
  function BuildSpecies(compartment: string, id: string, name: string, substanceUnits: string,
                        code: Option<string>, detail: Option<string>, description: Option<string>): (r: Species)
    ensures r.compartment == compartment && r.id == id && r.name == name && r.substanceUnits == substanceUnits
    ensures r.level == Level && r.version == Version
    ensures !r.boundaryCondition && !r.constant && !r.hasOnlySubstanceUnits
    ensures r.nonRDFAnnotation.Some? <==> code.Some? || detail.Some? || description.Some?
    ensures r.nonRDFAnnotation.Some? ==> GetChildElement(r.nonRDFAnnotation.value, MetadataTag) == BuildMetadata(code, detail, description)
  {
    var base := Species(compartment, id, name, substanceUnits, Level, Version,
                        BoundaryCondition, Constant, OnlySubstanceUnits, None);
    match BuildMetadata(code, detail, description)
    case None => base
    case Some(m) => TagsDiffer(); SetNonRDFAnnotation(base, m)
  }

  // ----- parsing -----

  /** `getChild(0)` is defined on this optional child: absent, or an element with a child. */
  predicate HasTextChild(n: Option<XMLNode>)
  {
    n.Some? ==> n.value.Element? && |n.value.children| > 0
  }

  /**
   * What the parsing constructor needs of a species to run without an
   * exception: when a non-RDF annotation is set, it has a `metadata` child,
   * and each of that child's `source`, `detail`, `desc` children that exists
   * has a child of its own.
   */
  predicate Parsable(s: Species)
  {
    s.nonRDFAnnotation.Some? ==>
      var m := GetChildElement(s.nonRDFAnnotation.value, MetadataTag);
      m.Some? &&
      HasTextChild(GetChildElement(m.value, SourceTag)) &&
      HasTextChild(GetChildElement(m.value, DetailTag)) &&
      HasTextChild(GetChildElement(m.value, DescTag))
  }

  /** The text of the `tag` child of `metadata`, if that child exists. */
  function ReadText(metadata: XMLNode, tag: string): (r: Option<string>)
    requires HasTextChild(GetChildElement(metadata, tag))
    ensures r.Some? <==> GetChildElement(metadata, tag).Some?
    ensures r.Some? ==> r.value == FirstChildCharacters(GetChildElement(metadata, tag).value)
  {
    match GetChildElement(metadata, tag)
    case None => None
    case Some(n) => Some(FirstChildCharacters(n))
  }

  /** The optional fields the parsing constructor reads from a species element. */
  function Parse(s: Species): (r: OptionalFields)
    requires Parsable(s)
    ensures s.nonRDFAnnotation.None? ==> r == OptionalFields(None, None, None)
    ensures r.combaseCode.Some? ==> '/' !in r.combaseCode.value
    ensures s.nonRDFAnnotation.Some? ==>
      var m := GetChildElement(s.nonRDFAnnotation.value, MetadataTag).value;
      (r.combaseCode.Some? <==> GetChildElement(m, SourceTag).Some?) &&
      (r.detail.Some? <==> GetChildElement(m, DetailTag).Some?) &&
      (r.description.Some? <==> GetChildElement(m, DescTag).Some?)
    ensures s.nonRDFAnnotation.Some? ==>
      var m := GetChildElement(s.nonRDFAnnotation.value, MetadataTag).value;
      var source, detail, desc := GetChildElement(m, SourceTag), GetChildElement(m, DetailTag), GetChildElement(m, DescTag);
      (source.Some? ==> r.combaseCode == Some(SuffixAfterLastSlash(FirstChildCharacters(source.value)))) &&
      (detail.Some? ==> r.detail == Some(FirstChildCharacters(detail.value))) &&
      (desc.Some? ==> r.description == Some(FirstChildCharacters(desc.value)))
  {
    if s.nonRDFAnnotation.None? then OptionalFields(None, None, None)
    else
      var m := GetChildElement(s.nonRDFAnnotation.value, MetadataTag).value;
      var source := ReadText(m, SourceTag);
      OptionalFields(
        if source.Some? then Some(SuffixAfterLastSlash(source.value)) else None,
        ReadText(m, DetailTag),
        ReadText(m, DescTag))
  }

  // ----- the object -----

  /**
   * The "don't blank out" rule of the optional-field setters: a null or
   * empty value leaves the field as it is.
   */
  function SetIfNonEmpty(current: Option<string>, value: Option<string>): (r: Option<string>)
    ensures IsNotEmpty(value) ==> r == value
    ensures !IsNotEmpty(value) ==> r == current
    ensures current.Some? ==> r.Some?
  {
    if IsNotEmpty(value) then value else current
  }

  /** The seven fields that structural equality compares. */
  datatype Projection = Projection(
    compartment: string,
    id: string,
    name: string,
    substanceUnits: string,
    combaseCode: Option<string>,
    detail: Option<string>,
    description: Option<string>)

  class PMFSpeciesImpl {
    var species: Species
    var combaseCode: Option<string>
    var detail: Option<string>
    var description: Option<string>

    /** Wraps an existing species element and reads its optional fields from its annotation. */
    constructor FromSpecies(species: Species)
      requires Parsable(species)
      ensures this.species == species
      ensures Fields() == Parse(species)
      ensures species.nonRDFAnnotation.None? ==> !IsSetCombaseCode() && !IsSetDetail() && !IsSetDescription()
    {
      this.species := species;
      var fields := Parse(species);
      combaseCode := fields.combaseCode;
      detail := fields.detail;
      description := fields.description;
    }

    /**
     * Builds a fresh species element with the fixed level, version and flags,
     * and, when any optional field is non-null, its `metadata` node, grown one
     * child at a time.
     */
    constructor (compartment: string, id: string, name: string, substanceUnits: string,
                 combaseCode: Option<string>, detail: Option<string>, description: Option<string>)
      ensures species == BuildSpecies(compartment, id, name, substanceUnits, combaseCode, detail, description)
      ensures Fields() == OptionalFields(combaseCode, detail, description)
      ensures (IsSetCombaseCode() <==> combaseCode.Some?) && (IsSetDetail() <==> detail.Some?)
      ensures IsSetDescription() <==> description.Some?
    {
      var s := Species(compartment, id, name, substanceUnits, Level, Version,
                       BoundaryCondition, Constant, OnlySubstanceUnits, None);
      this.combaseCode := None;
      this.detail := None;
      this.description := None;
      if combaseCode.Some? || detail.Some? || description.Some? {
        var metadataNode := Element(MetadataTag, MetadataNs, []);
        if combaseCode.Some? {
          var refNode := AddChild(Element(SourceTag, SourceNs, []), Text(SourcePayload(combaseCode.value)));
          metadataNode := AddChild(metadataNode, refNode);
          this.combaseCode := combaseCode;
        }
        assert metadataNode.children == SourceChild(combaseCode);
        if detail.Some? {
          var detailNode := AddChild(Element(DetailTag, DetailNs, []), Text(detail.value));
          metadataNode := AddChild(metadataNode, detailNode);
          this.detail := detail;
        }
        assert metadataNode.children == SourceChild(combaseCode) + OptionalChild(DetailTag, DetailNs, detail);
        if description.Some? {
          var descNode := AddChild(Element(DescTag, DescNs, []), Text(description.value));
          metadataNode := AddChild(metadataNode, descNode);
          this.description := description;
        }
        assert metadataNode.children == MetadataChildren(combaseCode, detail, description);
        s := SetNonRDFAnnotation(s, metadataNode);
      }
      species := s;
    }

    /** The 4-argument constructor: no optional fields, so no annotation. */
    constructor WithoutMetadata(compartment: string, id: string, name: string, substanceUnits: string)
      ensures species == BuildSpecies(compartment, id, name, substanceUnits, None, None, None)
      ensures species.nonRDFAnnotation.None?
      ensures !IsSetCombaseCode() && !IsSetDetail() && !IsSetDescription()
    {
      species := Species(compartment, id, name, substanceUnits, Level, Version,
                         BoundaryCondition, Constant, OnlySubstanceUnits, None);
      combaseCode, detail, description := None, None, None;
    }

    function Fields(): OptionalFields
      reads this
    {
      OptionalFields(combaseCode, detail, description)
    }

    function GetSpecies(): Species reads this { species }
    function GetCompartment(): string reads this { species.compartment }
    function GetId(): string reads this { species.id }
    function GetName(): string reads this { species.name }
    function GetUnits(): string reads this { species.substanceUnits }
    function GetCombaseCode(): Option<string> reads this { combaseCode }
    function GetDetail(): Option<string> reads this { detail }
    function GetDescription(): Option<string> reads this { description }

    predicate IsSetCombaseCode() reads this { combaseCode.Some? }
    predicate IsSetDetail() reads this { detail.Some? }
    predicate IsSetDescription() reads this { description.Some? }

    method SetCompartment(compartment: string)
      modifies this
      ensures species == old(species).(compartment := compartment)
      ensures Fields() == old(Fields())
    {
      species := species.(compartment := compartment);
    }

    method SetId(id: string)
      modifies this
      ensures species == old(species).(id := id)
      ensures Fields() == old(Fields())
    {
      species := species.(id := id);
    }

    method SetName(name: string)
      modifies this
      ensures species == old(species).(name := name)
      ensures Fields() == old(Fields())
    {
      species := species.(name := name);
    }

    method SetUnits(units: string)
      modifies this
      ensures species == old(species).(substanceUnits := units)
      ensures Fields() == old(Fields())
    {
      species := species.(substanceUnits := units);
    }

    method SetCombaseCode(combaseCode: Option<string>)
      modifies this
      ensures this.combaseCode == SetIfNonEmpty(old(this.combaseCode), combaseCode)
      ensures old(IsSetCombaseCode()) ==> IsSetCombaseCode()
      ensures species == old(species) && detail == old(detail) && description == old(description)
    {
      if IsNotEmpty(combaseCode) {
        this.combaseCode := combaseCode;
      }
    }

    method SetDetail(detail: Option<string>)
      modifies this
      ensures this.detail == SetIfNonEmpty(old(this.detail), detail)
      ensures old(IsSetDetail()) ==> IsSetDetail()
      ensures species == old(species) && combaseCode == old(combaseCode) && description == old(description)
    {
      if IsNotEmpty(detail) {
        this.detail := detail;
      }
    }

    method SetDescription(description: Option<string>)
      modifies this
      ensures this.description == SetIfNonEmpty(old(this.description), description)
      ensures old(IsSetDescription()) ==> IsSetDescription()
      ensures species == old(species) && combaseCode == old(combaseCode) && detail == old(detail)
    {
      if IsNotEmpty(description) {
        this.description := description;
      }
    }

    function Project(): Projection
      reads this
    {
      Projection(species.compartment, species.id, species.name, species.substanceUnits,
                 combaseCode, detail, description)
    }

    /** Structural equality over compartment, id, name, units and the three optional fields. */
    predicate Equals(other: PMFSpeciesImpl)
      reads this, other
      ensures Equals(other) <==> Project() == other.Project()
    {
      species.compartment == other.species.compartment &&
      species.id == other.species.id &&
      species.name == other.species.name &&
      species.substanceUnits == other.species.substanceUnits &&
      combaseCode == other.combaseCode &&
      detail == other.detail &&
      description == other.description
    }
  }
}
