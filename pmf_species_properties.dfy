/**
 * Properties of the PMF species marshalling: the suffix rule, the
 * build-then-parse round trip and what it loses, and the behaviour of the
 * object under its constructors, setters and structural equality.
 */
module PmfSpeciesProperties {
  import opened Wrappers
  import opened JavaStrings
  import opened Jsbml
  import opened PmfSpecies

  // ----- the suffix rule -----

  /** `SuffixAfterLastSlash(s)` is the only suffix of `s` that has no `/` and is all of `s` or follows a `/`. */
  lemma SuffixAfterLastSlashUnique(s: string, t: string)
    requires |t| <= |s| && t == s[|s| - |t|..]
    requires '/' !in t
    requires |t| == |s| || s[|s| - |t| - 1] == '/'
    ensures SuffixAfterLastSlash(s) == t
  {
  }

  /** A payload with no `/` is kept whole, and only such a payload is. */
  lemma SuffixAfterLastSlashIdentity(s: string)
    ensures SuffixAfterLastSlash(s) == s <==> '/' !in s
  {
    if '/' !in s {
      SuffixAfterLastSlashUnique(s, s);
    }
  }

  /** Text before a `/` never reaches the suffix. */
  lemma SuffixAfterLastSlashAppend(p: string, s: string)
    requires |p| > 0 && p[|p| - 1] == '/'
    ensures SuffixAfterLastSlash(p + s) == SuffixAfterLastSlash(s)
  {
    var t := SuffixAfterLastSlash(s);
    var ps := p + s;
    assert ps[|ps| - |t|..] == s[|s| - |t|..];
    if |t| < |s| {
      assert ps[|ps| - |t| - 1] == s[|s| - |t| - 1];
    } else {
      assert ps[|ps| - |t| - 1] == p[|p| - 1];
    }
    SuffixAfterLastSlashUnique(ps, t);
  }

  /** Parsing the source payload of `code` gives back the last segment of `code`, which is `code` iff it has no `/`. */
  lemma SourcePayloadSuffix(code: string)
    ensures SuffixAfterLastSlash(SourcePayload(code)) == SuffixAfterLastSlash(code)
    ensures SuffixAfterLastSlash(SourcePayload(code)) == code <==> '/' !in code
  {
    SuffixAfterLastSlashAppend(NcimPrefix, code);
    SuffixAfterLastSlashIdentity(code);
  }

  // ----- build then parse -----

  /** What the combase code becomes after one build and one parse. */
  function ReparsedCode(code: Option<string>): Option<string>
  {
    if code.Some? then Some(SuffixAfterLastSlash(code.value)) else None
  }

  /**
   * A built species can be parsed, and parsing it gives back detail and
   * description verbatim and the last `/`-segment of the combase code.
   */
  lemma BuildThenParse(compartment: string, id: string, name: string, substanceUnits: string,
                       code: Option<string>, detail: Option<string>, description: Option<string>)
    ensures var s := BuildSpecies(compartment, id, name, substanceUnits, code, detail, description);
      Parsable(s) && Parse(s) == OptionalFields(ReparsedCode(code), detail, description)
  {
    var s := BuildSpecies(compartment, id, name, substanceUnits, code, detail, description);
    if code.Some? {
      SourcePayloadSuffix(code.value);
    }
    if s.nonRDFAnnotation.Some? {
      var m := GetChildElement(s.nonRDFAnnotation.value, MetadataTag).value;
      assert m == BuildMetadata(code, detail, description).value;
    }
  }

  /** The round trip is exact iff the combase code is absent or has no `/`. */
  lemma BuildThenParseExact(compartment: string, id: string, name: string, substanceUnits: string,
                            code: Option<string>, detail: Option<string>, description: Option<string>)
    ensures var s := BuildSpecies(compartment, id, name, substanceUnits, code, detail, description);
      Parsable(s) &&
      (Parse(s) == OptionalFields(code, detail, description) <==> (code.Some? ==> '/' !in code.value))
  {
    BuildThenParse(compartment, id, name, substanceUnits, code, detail, description);
    if code.Some? {
      SuffixAfterLastSlashIdentity(code.value);
    }
  }

  /** The code "34-56-7" is stored as "http://identifiers.org/ncim/34-56-7" and read back unchanged. */
  lemma ExampleCombaseCode(compartment: string, id: string, name: string, substanceUnits: string)
    ensures GetChildElement(BuildMetadata(Some("34-56-7"), None, None).value, SourceTag) ==
      Some(TextElement(SourceTag, SourceNs, "http://identifiers.org/ncim/34-56-7"))
    ensures var s := BuildSpecies(compartment, id, name, substanceUnits, Some("34-56-7"), None, None);
      Parsable(s) && Parse(s).combaseCode == Some("34-56-7")
  {
    var code := "34-56-7";
    assert SourcePayload(code) == "http://identifiers.org/ncim/34-56-7";
    assert '/' !in code;
    BuildThenParseExact(compartment, id, name, substanceUnits, Some(code), None, None);
  }

  /** A code with a `/` does not survive: "a/b" comes back as "b". */
  lemma ExampleSlashInCode(compartment: string, id: string, name: string, substanceUnits: string)
    ensures var s := BuildSpecies(compartment, id, name, substanceUnits, Some("a/b"), None, None);
      Parsable(s) && Parse(s).combaseCode == Some("b")
  {
    BuildThenParse(compartment, id, name, substanceUnits, Some("a/b"), None, None);
    SuffixAfterLastSlashUnique("a/b", "b");
  }

  // ----- the object -----

  /** Structural equality is an equivalence on the projected fields. */
  lemma EqualsIsEquivalence(a: PMFSpeciesImpl, b: PMFSpeciesImpl, c: PMFSpeciesImpl)
    ensures a.Equals(a)
    ensures a.Equals(b) ==> b.Equals(a)
    ensures a.Equals(b) && b.Equals(c) ==> a.Equals(c)
  {
  }

  /** Two objects built from the same arguments are distinct yet structurally equal. */
  method BuildTwice(compartment: string, id: string, name: string, substanceUnits: string,
                    code: Option<string>, detail: Option<string>, description: Option<string>)
    returns (a: PMFSpeciesImpl, b: PMFSpeciesImpl)
    ensures a != b && a.Equals(b)
  {
    a := new PMFSpeciesImpl(compartment, id, name, substanceUnits, code, detail, description);
    b := new PMFSpeciesImpl(compartment, id, name, substanceUnits, code, detail, description);
  }

  /**
   * Wrapping the species element of a built object again gives an object
   * equal to the first iff the combase code is absent or has no `/`.
   */
  method BuildThenReparse(compartment: string, id: string, name: string, substanceUnits: string,
                          code: Option<string>, detail: Option<string>, description: Option<string>)
    returns (built: PMFSpeciesImpl, parsed: PMFSpeciesImpl)
    ensures parsed.species == built.species
    ensures parsed.Equals(built) <==> (code.Some? ==> '/' !in code.value)
    ensures parsed.detail == detail && parsed.description == description
  {
    built := new PMFSpeciesImpl(compartment, id, name, substanceUnits, code, detail, description);
    BuildThenParseExact(compartment, id, name, substanceUnits, code, detail, description);
    BuildThenParse(compartment, id, name, substanceUnits, code, detail, description);
    parsed := new PMFSpeciesImpl.FromSpecies(built.species);
  }

  /** After a detail of "x" is set, setting a null or empty detail leaves it at "x". */
  method BlankDetailIgnored(compartment: string, id: string, name: string, substanceUnits: string)
    returns (d: Option<string>)
    ensures d == Some("x")
  {
    var sp := new PMFSpeciesImpl.WithoutMetadata(compartment, id, name, substanceUnits);
    sp.SetDetail(Some("x"));
    sp.SetDetail(None);
    sp.SetDetail(Some(""));
    d := sp.GetDetail();
  }

  /**
   * The optional-field setters change only the cached fields, never the
   * annotation: after a code is set on a species built without metadata,
   * the code is set, yet the species has no annotation and parses to no code.
   */
  method SetterLeavesAnnotation(compartment: string, id: string, name: string, substanceUnits: string)
    returns (sp: PMFSpeciesImpl)
    ensures sp.IsSetCombaseCode() && sp.GetCombaseCode() == Some("x")
    ensures sp.species.nonRDFAnnotation.None?
    ensures Parsable(sp.species) && Parse(sp.species).combaseCode == None
  {
    sp := new PMFSpeciesImpl.WithoutMetadata(compartment, id, name, substanceUnits);
    sp.SetCombaseCode(Some("x"));
  }

  /** Once set, an optional field stays set whatever setters are called with. */
  method SettersNeverClear(sp: PMFSpeciesImpl, code: Option<string>, detail: Option<string>, description: Option<string>)
    modifies sp
    ensures old(sp.IsSetCombaseCode()) ==> sp.IsSetCombaseCode()
    ensures old(sp.IsSetDetail()) ==> sp.IsSetDetail()
    ensures old(sp.IsSetDescription()) ==> sp.IsSetDescription()
    ensures sp.species == old(sp.species)
  {
    sp.SetCombaseCode(code);
    sp.SetDetail(detail);
    sp.SetDescription(description);
  }
}
