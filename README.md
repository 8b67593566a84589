# PMF species annotation marshalling, in Dafny

This project models `PMFSpeciesImpl`, the class of the PMF-ML library that wraps an
SBML species element and keeps three optional fields of a predictive-microbiology
model — the combase code, a detail text and a description — in a `metadata` node
of the species' non-RDF annotation:

```
<pmf:metadata>
  <dc:source>http://identifiers.org/ncim/CODE</dc:source>
  <pmmlab:detail>TEXT</pmmlab:detail>
  <pmmlab:desc>TEXT</pmmlab:desc>
</pmf:metadata>
```

Files and modules:

- `wrappers.dfy` (`Wrappers`): `Option`, which stands for Java's nullable references.
- `java_strings.dfy` (`JavaStrings`): `String.lastIndexOf` and `StringUtils.isNotEmpty`.
- `jsbml.dfy` (`Jsbml`): an in-memory stand-in for the JSBML types the class uses: the
  `XMLNode` tree (element with tag, prefix and children, or text node), lookup of the
  first child element by tag (`getChildElement`), `addChild`, `getChild(0).getCharacters()`,
  and the `Species` element as a value with its identity fields, level, version, the
  three flags and an optional non-RDF annotation.
- `pmf_species.dfy` (`PmfSpecies`): the constants of the format (level 3, version 1, the
  tags `metadata`, `source`, `detail`, `desc`, the prefixes `pmf`, `dc`, `pmmlab`, the
  `http://identifiers.org/ncim/` prefix), the pure serialiser (`BuildMetadata`,
  `BuildSpecies`) and parser (`Parse`, `SuffixAfterLastSlash`), the "don't blank out"
  rule `SetIfNonEmpty`, and the class `PMFSpeciesImpl` with the species element and the
  three cached optional fields as fields, its three constructors, getters, `IsSet*`
  predicates, setters and structural `Equals`.
- `pmf_species_properties.dfy` (`PmfSpeciesProperties`): the suffix rule, the
  build-then-parse round trip with the exact condition under which it is lossless,
  worked examples, and client methods showing what the object's contracts give callers.

The getters (`GetCompartment`, `GetId`, `GetName`, `GetUnits`, `GetCombaseCode`,
`GetDetail`, `GetDescription`, `GetSpecies`) and the presence predicates (`IsSetCombaseCode`,
`IsSetDetail`, `IsSetDescription`, each "the field is not null") are plain field reads
(`PMFSpeciesImpl.java:132-183`, `:243-259`). They carry no contract of their own, so the
table below has no row for them; what they return is stated in the contracts of the
constructors, setters and client methods that use them (`PMFSpeciesImpl.constructor`,
`FromSpecies`, `WithoutMetadata`, the three optional setters, `BlankDetailIgnored`,
`SetterLeavesAnnotation`, `SettersNeverClear`).

The parser keeps only what follows the last `/` of the source payload
(`PMFSpeciesImpl.java:60`), so a code that itself contains `/` comes back as its last
segment; the round trip is exact only for codes without `/` (`BuildThenParseExact`,
`ExampleSlashInCode`).

The optional-field setters change only the cached fields and never the annotation
(`PMFSpeciesImpl.java:216-238`), so "an annotation exists iff some optional field is
non-null" holds at construction only: after `setCombaseCode` on a species built without
metadata the code is set, yet the species element has no annotation and parses to no
code (`SetterLeavesAnnotation`).

## Model

| member | source | states |
|---|---|---|
| JavaStrings.LastIndexOf | src/main/java/de/bund/bfr/pmfml/sbml/PMFSpeciesImpl.java:60 | the result is -1 or an index holding the character, and no later index holds it (-1 exactly when the character is absent) |
| Jsbml.IndexOfChildElement | src/main/java/de/bund/bfr/pmfml/sbml/PMFSpeciesImpl.java:53-57 | the result is -1 or the index of an element child with the tag, and no earlier child is such an element |
| Jsbml.GetChildElement | src/main/java/de/bund/bfr/pmfml/sbml/PMFSpeciesImpl.java:53-57 | a found node is the first element child with the tag; nothing is found exactly when no child is an element with the tag |
| Jsbml.SetNonRDFAnnotation | src/main/java/de/bund/bfr/pmfml/sbml/PMFSpeciesImpl.java:94 | only the annotation of the species changes, and the attached element can be found again as a child of the annotation |
| PmfSpecies.SuffixAfterLastSlash | src/main/java/de/bund/bfr/pmfml/sbml/PMFSpeciesImpl.java:60 | the result is a suffix of the payload without `/`, which is either the whole payload or preceded by a `/` |
| PmfSpecies.MetadataLookups | src/main/java/de/bund/bfr/pmfml/sbml/PMFSpeciesImpl.java:97-118 | in the built children, `source`, `detail` and `desc` are found exactly when their field is non-null, holding the prefixed code, the detail and the description |
| PmfSpecies.MetadataChildrenShape | src/main/java/de/bund/bfr/pmfml/sbml/PMFSpeciesImpl.java:97-118 | one child per non-null field, each an element with a single text child, in strictly increasing order source, detail, desc |
| PmfSpecies.BuildMetadata | src/main/java/de/bund/bfr/pmfml/sbml/PMFSpeciesImpl.java:91-118 | the metadata node exists iff some optional field is non-null; it is `pmf:metadata`, its children are counted, ordered and shaped as the fields dictate, and lookups find exactly the non-null fields with their payloads |
| PmfSpecies.BuildSpecies | src/main/java/de/bund/bfr/pmfml/sbml/PMFSpeciesImpl.java:84-94 | identity fields as given, level 3, version 1, all three flags false; an annotation exists iff some optional field is non-null, and its `metadata` child is the built metadata node |
| PmfSpecies.ReadText | src/main/java/de/bund/bfr/pmfml/sbml/PMFSpeciesImpl.java:64-73 | a text is read exactly when the child with the tag exists, and it is that child's first child's characters, verbatim |
| PmfSpecies.Parse | src/main/java/de/bund/bfr/pmfml/sbml/PMFSpeciesImpl.java:49-75 | with no non-RDF annotation all three fields are null; otherwise each field is non-null exactly when its child exists, the code being the part after the last `/` of the source child's text and detail and description that child's text verbatim; a parsed code never contains `/` |
| PmfSpecies.SetIfNonEmpty | src/main/java/de/bund/bfr/pmfml/sbml/PMFSpeciesImpl.java:216-238 | a non-null non-empty value replaces the field, anything else leaves it; a set field never becomes null |
| PmfSpecies.PMFSpeciesImpl.FromSpecies | src/main/java/de/bund/bfr/pmfml/sbml/PMFSpeciesImpl.java:49-75 | keeps the species element and caches its parsed fields; no annotation means nothing is set |
| PmfSpecies.PMFSpeciesImpl.constructor | src/main/java/de/bund/bfr/pmfml/sbml/PMFSpeciesImpl.java:81-120 | growing the metadata node child by child yields the built species; the cached fields are the arguments and each `IsSet*` holds iff its argument is non-null |
| PmfSpecies.PMFSpeciesImpl.WithoutMetadata | src/main/java/de/bund/bfr/pmfml/sbml/PMFSpeciesImpl.java:125-127 | the same species as the full constructor with three nulls: no annotation, nothing set |
| PmfSpecies.PMFSpeciesImpl.SetCompartment | src/main/java/de/bund/bfr/pmfml/sbml/PMFSpeciesImpl.java:188-190 | only the compartment of the species changes; the optional fields stay |
| PmfSpecies.PMFSpeciesImpl.SetId | src/main/java/de/bund/bfr/pmfml/sbml/PMFSpeciesImpl.java:195-197 | only the id of the species changes; the optional fields stay |
| PmfSpecies.PMFSpeciesImpl.SetName | src/main/java/de/bund/bfr/pmfml/sbml/PMFSpeciesImpl.java:202-204 | only the name of the species changes; the optional fields stay |
| PmfSpecies.PMFSpeciesImpl.SetUnits | src/main/java/de/bund/bfr/pmfml/sbml/PMFSpeciesImpl.java:209-211 | only the units of the species change; the optional fields stay |
| PmfSpecies.PMFSpeciesImpl.SetCombaseCode | src/main/java/de/bund/bfr/pmfml/sbml/PMFSpeciesImpl.java:216-220 | the code follows the don't-blank-out rule and stays set once set; species, detail and description unchanged |
| PmfSpecies.PMFSpeciesImpl.SetDetail | src/main/java/de/bund/bfr/pmfml/sbml/PMFSpeciesImpl.java:225-229 | the detail follows the don't-blank-out rule and stays set once set; species, code and description unchanged |
| PmfSpecies.PMFSpeciesImpl.SetDescription | src/main/java/de/bund/bfr/pmfml/sbml/PMFSpeciesImpl.java:234-238 | the description follows the don't-blank-out rule and stays set once set; species, code and detail unchanged |
| PmfSpecies.PMFSpeciesImpl.Equals | src/main/java/de/bund/bfr/pmfml/sbml/PMFSpeciesImpl.java:268-284 | equal iff the seven projected fields (compartment, id, name, units, code, detail, description) agree |
| PmfSpeciesProperties.SuffixAfterLastSlashUnique | src/main/java/de/bund/bfr/pmfml/sbml/PMFSpeciesImpl.java:60 | the extracted code is the only `/`-free suffix that is the whole payload or follows a `/` |
| PmfSpeciesProperties.SuffixAfterLastSlashIdentity | src/main/java/de/bund/bfr/pmfml/sbml/PMFSpeciesImpl.java:59-60 | the whole payload is kept iff it has no `/` |
| PmfSpeciesProperties.SuffixAfterLastSlashAppend | src/main/java/de/bund/bfr/pmfml/sbml/PMFSpeciesImpl.java:60 | text ending in `/` put in front of a payload does not change the extracted code |
| PmfSpeciesProperties.SourcePayloadSuffix | src/main/java/de/bund/bfr/pmfml/sbml/PMFSpeciesImpl.java:99 | parsing the source payload of a code gives the code's last segment, which is the code iff it has no `/` |
| PmfSpeciesProperties.BuildThenParse | src/main/java/de/bund/bfr/pmfml/sbml/PMFSpeciesImpl.java:49-120 | a built species always parses; detail and description come back verbatim, the code as its last `/`-segment, nulls as nulls |
| PmfSpeciesProperties.BuildThenParseExact | src/main/java/de/bund/bfr/pmfml/sbml/PMFSpeciesImpl.java:49-120 | build then parse returns exactly the three optional arguments iff the code is null or has no `/` |
| PmfSpeciesProperties.ExampleCombaseCode | src/main/java/de/bund/bfr/pmfml/sbml/PMFSpeciesImpl.java:97-101 | code "34-56-7" is stored as "http://identifiers.org/ncim/34-56-7" and parsed back as "34-56-7" |
| PmfSpeciesProperties.ExampleSlashInCode | src/main/java/de/bund/bfr/pmfml/sbml/PMFSpeciesImpl.java:57-61 | code "a/b" is parsed back as "b" |
| PmfSpeciesProperties.EqualsIsEquivalence | src/main/java/de/bund/bfr/pmfml/sbml/PMFSpeciesImpl.java:268-284 | structural equality is reflexive, symmetric and transitive |
| PmfSpeciesProperties.BuildTwice | src/main/java/de/bund/bfr/pmfml/sbml/PMFSpeciesImpl.java:81-120 | two objects built from the same arguments are distinct objects and structurally equal |
| PmfSpeciesProperties.BuildThenReparse | src/main/java/de/bund/bfr/pmfml/sbml/PMFSpeciesImpl.java:49-120 | wrapping a built object's species again gives the same detail and description, and an equal object iff the code is null or has no `/` |
| PmfSpeciesProperties.BlankDetailIgnored | src/main/java/de/bund/bfr/pmfml/sbml/PMFSpeciesImpl.java:225-229 | after the detail is set to "x", setting it to null and to "" leaves "x" |
| PmfSpeciesProperties.SetterLeavesAnnotation | src/main/java/de/bund/bfr/pmfml/sbml/PMFSpeciesImpl.java:216-220 | setting a code on a species built without metadata marks the code as set but adds no annotation, so parsing the species element finds no code |
| PmfSpeciesProperties.SettersNeverClear | src/main/java/de/bund/bfr/pmfml/sbml/PMFSpeciesImpl.java:216-259 | after any calls of the three optional-field setters every field that was set is still set, and the species element is unchanged |

## Left out

- XML byte serialisation, namespace-URI resolution and the internals of JSBML: the tree is an abstract `XMLNode` value and `getChildElement(tag, "")` is a lookup by tag alone.
- `Jsbml.SetNonRDFAnnotation` models the library as wrapping a node that is not itself an `annotation` element in one; this is an assumption about JSBML. The parsing constructor looks for `metadata` as a child of the stored annotation (`PMFSpeciesImpl.java:53-54`), and this wrapping is what makes a built species match that lookup.
- Aliasing: the Java build constructor attaches the metadata node to the species before adding its children and relies on the shared reference; the model grows the node first and attaches the finished value, which gives the same final species. The species element is a value held in a field, so changes made through a reference returned by `getSpecies` are not modelled.
- The identity fields (compartment, id, name, units) are non-null strings; a Java `null` there, and JSBML's checking of id syntax in `new Species(id, ...)` and `setId`, are not modelled.
- `getUnits`/`setUnits` and `getSubstanceUnits`/`setSubstanceUnits` are taken to be one field, an assumption about the library.
- The flag values `BOUNDARY_CONDITION`, `CONSTANT` and `ONLY_SUBSTANCE_UNITS` come from the `PMFSpecies` interface, which is not part of this model; they are fixed here as `false`.
- The parsing constructor's unguarded faults (no `metadata` child under a non-RDF annotation, or an optional child without a child of its own) are Java exceptions; `PmfSpecies.Parsable` states their absence as a precondition.
- `toString` is a diagnostic rendering, not a format.
- Java object identity and the `getClass` test in `equals`: equality is over the projected fields only (the `this == obj` shortcut agrees with it, by reflexivity).
- `PrimaryModelWData` (the model/data document pair) is not part of this model: its source is not available, and its test only checks that four accessors return the constructor's arguments.
