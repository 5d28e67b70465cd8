/**
 * `IgBlastToBenchlingMapper`: the Benchling payloads built from a DNA sequence and
 * its IgBLAST results. Each payload has a specification function and, where the
 * mapper fills it with loops, a method proved equal to that function.
 */
module IgBlastToBenchling {
  import opened Wrappers
  import opened Values
  import opened Dicts
  import opened Models
  import opened BenchlingFields
  import opened Utils
  import opened AaRegions

  const CdrKeys: seq<string> := ["cdr1", "cdr2", "cdr3"]
  const FwrKeys: seq<string> := ["fwr1", "fwr2", "fwr3", "fwr4"]
  const AlignmentKeys: seq<string> := ["v", "d", "j"]

  const SiteType: string := "Site"
  const AlignmentColor: string := "#704878"
  const ReplaceNamesFromParts: string := "REPLACE_NAMES_FROM_PARTS"

  /** The species IgBLAST supports, the keys of `SPECIES_MAPPING`. */
  const SpeciesNames: seq<string> := ["Homo sapiens", "Mus musculus", "Rattus norvegicus", "Macaca mulatta"]

  /** `SPECIES_MAPPING.get(species)`. */
  function SpeciesOrganism(species: Option<string>): (o: Option<Organism>)
    ensures o.Some? <==> species.Some? && species.value in SpeciesNames
  {
    match species
    case Some("Homo sapiens") => Some(Human)
    case Some("Mus musculus") => Some(Mouse)
    case Some("Rattus norvegicus") => Some(Rat)
    case Some("Macaca mulatta") => Some(RhesusMonkey)
    case _ => None
  }

  /** Distinct species go to distinct organisms, and no species goes to the rabbit organism. */
  lemma SpeciesMappingInjective(a: Option<string>, b: Option<string>)
    requires SpeciesOrganism(a).Some? && SpeciesOrganism(a) == SpeciesOrganism(b)
    ensures a == b
    ensures SpeciesOrganism(a) != Some(Rabbit)
  {
  }

  /** The key of `data_by_domain_system`, which also suffixes the field names. */
  function SystemName(system: DomainSystem): string {
    match system
    case Imgt => "IMGT"
    case Kabat => "Kabat"
  }

  /** The two region kinds annotated per numbering system. */
  datatype RegionKind = Cdr | Fwr {
    function Keys(): seq<string> {
      match this
      case Cdr => CdrKeys
      case Fwr => FwrKeys
    }

    function Color(): string {
      match this
      case Cdr => "#E2E3E5"
      case Fwr => "#395EA8"
    }

    /** `CDR1_IMGT` for `cdr1`; `fwr` becomes `FR`, as in `FR1_Kabat` for `fwr1`. */
    function Label(key: string, system: DomainSystem): string {
      match this
      case Cdr => Upper(key) + "_" + SystemName(system)
      case Fwr => Upper(Remove(key, 'w')) + "_" + SystemName(system)
    }
  }

  /** The names the two kinds give `cdr1` and `fwr1` under IMGT. */
  lemma LabelExamples()
    ensures Cdr.Label("cdr1", Imgt) == "CDR1_IMGT"
    ensures Fwr.Label("fwr1", Kabat) == "FR1_Kabat"
  {
    assert Upper("cdr1") == "CDR1";
    RemoveFwr1();
    assert Upper("fr1") == "FR1";
  }

  /** Removing `w` from `fwr1`, one character at a time. */
  lemma RemoveFwr1()
    ensures Remove("fwr1", 'w') == "fr1"
  {
    assert "f"[..0] == "" && Remove("f", 'w') == "f";
    assert "fw"[..1] == "f" && Remove("fw", 'w') == "f";
    assert "fwr"[..2] == "fw" && Remove("fwr", 'w') == "fr";
    assert "fwr1"[..3] == "fwr";
  }

  /** The region names in the order the search pattern lists them. */
  const SearchOrder: seq<string> := ["fwr1", "cdr1", "fwr2", "cdr2", "fwr3", "cdr3", "fwr4"]

  /** The keyword arguments of the region search: `fwr1=data.get('fwr1_aa')` and so on. */
  function RegionKwargs(data: Row): (kw: seq<(string, Value)>)
    ensures DistinctKeys(kw)
    ensures |kw| == |SearchOrder|
    ensures forall i :: 0 <= i < |kw| ==> kw[i] == (SearchOrder[i], RowGet(data, SearchOrder[i] + "_aa"))
  {
    seq(|SearchOrder|, i requires 0 <= i < |SearchOrder| => (SearchOrder[i], RowGet(data, SearchOrder[i] + "_aa")))
  }

  /** Every CDR and FWR key is one of the search's keyword arguments. */
  lemma RegionKeysAreSearched(kind: RegionKind, key: string) returns (i: nat)
    requires key in kind.Keys()
    ensures i < |SearchOrder| && SearchOrder[i] == key
  {
    if key == "fwr1" { i := 0; }
    else if key == "cdr1" { i := 1; }
    else if key == "fwr2" { i := 2; }
    else if key == "cdr2" { i := 3; }
    else if key == "fwr3" { i := 4; }
    else if key == "cdr3" { i := 5; }
    else { i := 6; }
  }

  const NoneNotString: string := "expected string or bytes-like object"
  const LineBreakUnsupported: string := "amino acids with a line break are outside the model"
  const NoneHasNoStart: string := "'NoneType' object has no attribute 'start'"

  /** `AaRegions.detect` on the sanitized amino acids, which may be None. */
  function Search(aminoAcids: Option<string>, kwargs: seq<(string, Value)>): (r: Result<Dict<string, AaRegion>>)
    ensures aminoAcids.None? ==> r == Err(NoneNotString)
    ensures aminoAcids.Some? && '\n' !in aminoAcids.value ==> r == Detect(aminoAcids.value, kwargs)
  {
    match aminoAcids
    case None => Err(NoneNotString)
    case Some(aa) => if '\n' in aa then Err(LineBreakUnsupported) else Detect(aa, kwargs)
  }

  /** The fields and annotations built so far. */
  datatype Annotated = Annotated(fields: map<string, Value>, annotations: seq<AaAnnotation>)

  /** The annotation of one CDR or FWR region. */
  function RegionAnnotation(kind: RegionKind, system: DomainSystem, key: string, region: AaRegion): AaAnnotation {
    AaAnnotation(kind.Color(), SiteType, Str(kind.Label(key, system)), region.start, region.end)
  }

  /** One iteration of the CDR or FWR loop: a str value sets the field and annotates its region. */
  function AnnotateRegion(acc: Annotated, data: Row, regions: Dict<string, AaRegion>, kind: RegionKind, system: DomainSystem, key: string): (r: Result<Annotated>)
  {
    match RowGet(data, key + "_aa")
    case Str(v) =>
      var name := kind.Label(key, system);
      (match Region(regions, key)
       case None => Err(NoneHasNoStart)
       case Some(region) =>
         Ok(Annotated(acc.fields[name := Str(v)], acc.annotations + [RegionAnnotation(kind, system, key, region)])))
    case _ => Ok(acc)
  }

  /** The CDR or FWR loop over `keys`, in order; the first missing region raises. */
  function AnnotateRegions(acc: Annotated, data: Row, regions: Dict<string, AaRegion>, kind: RegionKind, system: DomainSystem, keys: seq<string>): (r: Result<Annotated>)
    decreases |keys|
  {
    if keys == [] then Ok(acc)
    else
      match AnnotateRegions(acc, data, regions, kind, system, keys[..|keys| - 1])
      case Err(e) => Err(e)
      case Ok(a) => AnnotateRegion(a, data, regions, kind, system, keys[|keys| - 1])
  }

  /** One iteration of the loop over `data_by_domain_system`. */
  function AnnotateDomain(acc: Annotated, aminoAcids: Option<string>, system: DomainSystem, data: Option<Row>): Result<Annotated> {
    match data
    case None => Err(NoneHasNoGet)
    case Some(row) =>
      var regions :- Search(aminoAcids, RegionKwargs(row));
      var withCdrs :- AnnotateRegions(acc, row, regions, Cdr, system, CdrKeys);
      AnnotateRegions(withCdrs, row, regions, Fwr, system, FwrKeys)
  }

  /** The loop over `data_by_domain_system`, IMGT first. */
  function AnnotateDomains(acc: Annotated, aminoAcids: Option<string>, systems: seq<(DomainSystem, Option<Row>)>): Result<Annotated>
    decreases |systems|
  {
    if systems == [] then Ok(acc)
    else
      match AnnotateDomains(acc, aminoAcids, systems[..|systems| - 1])
      case Err(e) => Err(e)
      case Ok(a) => AnnotateDomain(a, aminoAcids, systems[|systems| - 1].0, systems[|systems| - 1].1)
  }

  /** Where a label carries its region's number. */
  function DigitPosition(kind: RegionKind): nat {
    match kind
    case Cdr => 3
    case Fwr => 2
  }

  /** The length of a label before the name of its numbering system. */
  function PrefixLength(kind: RegionKind): nat {
    match kind
    case Cdr => 5
    case Fwr => 4
  }

  /** The first letter of a label: `C` for CDRs, `F` for FWRs. */
  function Initial(kind: RegionKind): char {
    match kind
    case Cdr => 'C'
    case Fwr => 'F'
  }

  lemma RemoveFromFwr(d: char)
    requires d != 'w'
    ensures Remove("fwr" + [d], 'w') == "fr" + [d]
  {
    RemoveAppend("fwr", [d], 'w');
    assert "fwr"[..2] == "fw" && "fw"[..1] == "f" && "f"[..0] == "";
    assert Remove("fwr", 'w') == "fr";
    assert [d][..0] == [];
    assert Remove([d], 'w') == [d];
  }

  /** The shape of every CDR and FWR label. */
  lemma LabelShape(kind: RegionKind, key: string, system: DomainSystem)
    requires key in kind.Keys()
    ensures |kind.Label(key, system)| == PrefixLength(kind) + |SystemName(system)|
    ensures kind.Label(key, system)[0] == Initial(kind)
    ensures kind.Label(key, system)[DigitPosition(kind)] == key[|key| - 1]
  {
    match kind
    case Cdr =>
      assert |key| == 4 && key[0] == 'c' && '0' <= key[3] <= '9';
    case Fwr =>
      assert |key| == 4 && '0' <= key[3] <= '9';
      assert key == "fwr" + [key[3]];
      RemoveFromFwr(key[3]);
  }

  /** No two regions of any kind, in either numbering system, share a field name. */
  lemma LabelsDistinct(kind1: RegionKind, key1: string, system1: DomainSystem,
                       kind2: RegionKind, key2: string, system2: DomainSystem)
    requires key1 in kind1.Keys() && key2 in kind2.Keys()
    requires kind1.Label(key1, system1) == kind2.Label(key2, system2)
    ensures kind1 == kind2 && key1 == key2 && system1 == system2
  {
    LabelShape(kind1, key1, system1);
    LabelShape(kind2, key2, system2);
    assert Initial(kind1) == Initial(kind2);
    assert |SystemName(system1)| == |SystemName(system2)|;
    assert key1[|key1| - 1] == key2[|key2| - 1];
  }

  /** The field names the keys of one region kind get in one numbering system. */
  function LabelSet(kind: RegionKind, system: DomainSystem, keys: seq<string>): set<string> {
    set k | k in keys :: kind.Label(k, system)
  }

  /** `region` marks the text `v` in `aa`: it starts at an occurrence and spans `v` (an end of 0 closes the sequence). */
  ghost predicate Marks(aa: string, v: string, region: AaRegion) {
    region.start >= 0 && OccursAt(aa, v, region.start as nat) && region == Create(region.start, region.start + |v|, aa)
  }

  /** Every str-valued key has a region that marks its text. */
  ghost predicate Covered(aa: string, data: Row, regions: Dict<string, AaRegion>, keys: seq<string>) {
    forall k :: k in keys && RowGet(data, k + "_aa").Str? ==>
      Region(regions, k).Some? && Marks(aa, RowGet(data, k + "_aa").text, Region(regions, k).value)
  }

  /**
   * What the loop promises for one key: a str value is stored under the key's
   * label and annotated where it occurs; any other value leaves the label as it was.
   */
  ghost predicate KeyAnnotated(aa: string, acc: Annotated, r: Annotated, data: Row, kind: RegionKind, system: DomainSystem, key: string) {
    var name := kind.Label(key, system);
    match RowGet(data, key + "_aa")
    case Str(v) =>
      && name in r.fields && r.fields[name] == Str(v)
      && exists region :: Marks(aa, v, region) && RegionAnnotation(kind, system, key, region) in r.annotations
    case _ =>
      && (name in r.fields <==> name in acc.fields)
      && (name in acc.fields ==> r.fields[name] == acc.fields[name])
  }

  ghost predicate Annotates(aa: string, acc: Annotated, r: Annotated, data: Row, kind: RegionKind, system: DomainSystem, keys: seq<string>) {
    && acc.annotations <= r.annotations
    && forall k :: k in keys ==> KeyAnnotated(aa, acc, r, data, kind, system, k)
  }

  /** Every field outside `labels` is left as it was. */
  ghost predicate Preserves(acc: Annotated, r: Annotated, labels: set<string>) {
    forall x :: x !in labels ==> (x in r.fields <==> x in acc.fields) && (x in acc.fields ==> r.fields[x] == acc.fields[x])
  }

  /** One iteration on a str-valued key: its label is set and its region annotated. */
  lemma AnnotateStrStep(aa: string, acc: Annotated, a: Annotated, data: Row, regions: Dict<string, AaRegion>,
                        kind: RegionKind, system: DomainSystem, init: seq<string>, key: string)
    requires forall k :: k in init ==> k in kind.Keys()
    requires key in kind.Keys()
    requires RowGet(data, key + "_aa").Str?
    requires Region(regions, key).Some? && Marks(aa, RowGet(data, key + "_aa").text, Region(regions, key).value)
    requires Annotates(aa, acc, a, data, kind, system, init)
    requires Preserves(acc, a, LabelSet(kind, system, init))
    ensures AnnotateRegion(a, data, regions, kind, system, key).Ok?
    ensures Annotates(aa, acc, AnnotateRegion(a, data, regions, kind, system, key).value, data, kind, system, init + [key])
    ensures Preserves(acc, AnnotateRegion(a, data, regions, kind, system, key).value, LabelSet(kind, system, init + [key]))
  {
    var v := RowGet(data, key + "_aa").text;
    var name := kind.Label(key, system);
    var region := Region(regions, key).value;
    var r := Annotated(a.fields[name := Str(v)], a.annotations + [RegionAnnotation(kind, system, key, region)]);
    assert AnnotateRegion(a, data, regions, kind, system, key) == Ok(r);
    LabelSetSnoc(kind, system, init, key);
    PreservesUpdate(acc, a, r, LabelSet(kind, system, init), name, Str(v));
    forall k | k in init + [key]
      ensures KeyAnnotated(aa, acc, r, data, kind, system, k)
    {
      if k != key {
        assert k in init;
        if kind.Label(k, system) == name {
          LabelsDistinct(kind, k, system, kind, key, system);
        }
        KeyAnnotatedKept(aa, acc, a, r, data, kind, system, k, name, Str(v));
      } else {
        assert Marks(aa, v, region) && RegionAnnotation(kind, system, key, region) in r.annotations;
      }
    }
  }

  /** The labels of one more key. */
  lemma LabelSetSnoc(kind: RegionKind, system: DomainSystem, keys: seq<string>, key: string)
    ensures LabelSet(kind, system, keys + [key]) == LabelSet(kind, system, keys) + {kind.Label(key, system)}
  {
    assert forall k :: k in keys + [key] <==> k in keys || k == key;
  }

  /** Setting field `name` keeps every field outside `labels + {name}` as `acc` had it. */
  lemma PreservesUpdate(acc: Annotated, a: Annotated, r: Annotated, labels: set<string>, name: string, value: Value)
    requires Preserves(acc, a, labels)
    requires r.fields == a.fields[name := value]
    ensures Preserves(acc, r, labels + {name})
  {
  }

  /** Setting another label and appending annotations keeps what the loop promised for `k`. */
  lemma KeyAnnotatedKept(aa: string, acc: Annotated, a: Annotated, r: Annotated, data: Row,
                         kind: RegionKind, system: DomainSystem, k: string, name: string, value: Value)
    requires KeyAnnotated(aa, acc, a, data, kind, system, k)
    requires kind.Label(k, system) != name
    requires r.fields == a.fields[name := value] && a.annotations <= r.annotations
    ensures KeyAnnotated(aa, acc, r, data, kind, system, k)
  {
    if RowGet(data, k + "_aa").Str? {
      var region :| Marks(aa, RowGet(data, k + "_aa").text, region) && RegionAnnotation(kind, system, k, region) in a.annotations;
      assert RegionAnnotation(kind, system, k, region) in r.annotations;
    }
  }

  /** One iteration on any other key: nothing changes. */
  lemma AnnotateOtherStep(aa: string, acc: Annotated, a: Annotated, data: Row, regions: Dict<string, AaRegion>,
                          kind: RegionKind, system: DomainSystem, init: seq<string>, key: string)
    requires forall k :: k in init ==> k in kind.Keys()
    requires key in kind.Keys()
    requires !RowGet(data, key + "_aa").Str?
    requires Annotates(aa, acc, a, data, kind, system, init)
    requires Preserves(acc, a, LabelSet(kind, system, init))
    ensures AnnotateRegion(a, data, regions, kind, system, key) == Ok(a)
    ensures Annotates(aa, acc, a, data, kind, system, init + [key])
    ensures Preserves(acc, a, LabelSet(kind, system, init + [key]))
  {
    var name := kind.Label(key, system);
    forall k | k in init + [key]
      ensures KeyAnnotated(aa, acc, a, data, kind, system, k)
    {
      if k != key || key in init {
        assert k in init;
      } else if name in LabelSet(kind, system, init) {
        var k' :| k' in init && kind.Label(k', system) == name;
        LabelsDistinct(kind, k', system, kind, key, system);
      }
    }
  }

  /** The CDR or FWR loop sets the field and annotation of each str-valued key and touches nothing else. */
  lemma {:induction false} AnnotateRegionsSpec(aa: string, acc: Annotated, data: Row, regions: Dict<string, AaRegion>,
                                              kind: RegionKind, system: DomainSystem, keys: seq<string>)
    requires forall k :: k in keys ==> k in kind.Keys()
    requires Covered(aa, data, regions, keys)
    ensures AnnotateRegions(acc, data, regions, kind, system, keys).Ok?
    ensures Annotates(aa, acc, AnnotateRegions(acc, data, regions, kind, system, keys).value, data, kind, system, keys)
    ensures Preserves(acc, AnnotateRegions(acc, data, regions, kind, system, keys).value, LabelSet(kind, system, keys))
    decreases |keys|
  {
    if keys == [] {
      assert LabelSet(kind, system, keys) == {};
    } else {
      var init := keys[..|keys| - 1];
      var key := keys[|keys| - 1];
      assert keys == init + [key];
      assert Covered(aa, data, regions, init);
      AnnotateRegionsSpec(aa, acc, data, regions, kind, system, init);
      var a := AnnotateRegions(acc, data, regions, kind, system, init).value;
      if RowGet(data, key + "_aa").Str? {
        AnnotateStrStep(aa, acc, a, data, regions, kind, system, init, key);
      } else {
        AnnotateOtherStep(aa, acc, a, data, regions, kind, system, init, key);
      }
    }
  }

  /** Annotating later regions keeps what the earlier loops promised about other labels. */
  lemma AnnotatesExtend(aa: string, acc: Annotated, r1: Annotated, r2: Annotated, data: Row,
                        kind: RegionKind, system: DomainSystem, labels: set<string>)
    requires Annotates(aa, acc, r1, data, kind, system, kind.Keys())
    requires Preserves(r1, r2, labels) && r1.annotations <= r2.annotations
    requires forall k :: k in kind.Keys() ==> kind.Label(k, system) !in labels
    ensures Annotates(aa, acc, r2, data, kind, system, kind.Keys())
  {
    forall k | k in kind.Keys()
      ensures KeyAnnotated(aa, acc, r2, data, kind, system, k)
    {
      assert KeyAnnotated(aa, acc, r1, data, kind, system, k);
      if RowGet(data, k + "_aa").Str? {
        var v := RowGet(data, k + "_aa").text;
        var region :| Marks(aa, v, region) && RegionAnnotation(kind, system, k, region) in r1.annotations;
        assert RegionAnnotation(kind, system, k, region) in r2.annotations;
      }
    }
  }

  /** A key of one kind and system is never a name of another kind or system. */
  lemma LabelOutside(kind: RegionKind, system: DomainSystem, other: RegionKind, otherSystem: DomainSystem)
    requires kind != other || system != otherSystem
    ensures forall k :: k in kind.Keys() ==> kind.Label(k, system) !in LabelSet(other, otherSystem, other.Keys())
  {
    forall k | k in kind.Keys() && kind.Label(k, system) in LabelSet(other, otherSystem, other.Keys())
      ensures false
    {
      var k' :| k' in other.Keys() && other.Label(k', otherSystem) == kind.Label(k, system);
      LabelsDistinct(kind, k, system, other, k', otherSystem);
    }
  }

  /** The labels a numbering system writes. */
  function DomainLabels(system: DomainSystem): set<string> {
    LabelSet(Cdr, system, CdrKeys) + LabelSet(Fwr, system, FwrKeys)
  }

  /** A successful search covers every str-valued CDR and FWR of the row. */
  lemma SearchCovers(aa: string, row: Row, regions: Dict<string, AaRegion>, kind: RegionKind)
    requires '\n' !in aa
    requires Detect(aa, RegionKwargs(row)) == Ok(regions)
    ensures Covered(aa, row, regions, kind.Keys())
  {
    var kw := RegionKwargs(row);
    forall k | k in kind.Keys() && RowGet(row, k + "_aa").Str?
      ensures Region(regions, k).Some? && Marks(aa, RowGet(row, k + "_aa").text, Region(regions, k).value)
    {
      var i := RegionKeysAreSearched(kind, k);
      assert kw[i] == (k, RowGet(row, k + "_aa"));
      DetectFindsEachFragment(aa, kw, regions, i);
    }
  }

  /**
   * One numbering system: once its search succeeds, the CDR and FWR loops cannot
   * raise, every str-valued region is stored and annotated where it occurs, and
   * no field outside the system's labels changes.
   */
  lemma AnnotateDomainSpec(aa: string, acc: Annotated, system: DomainSystem, row: Row)
    requires Search(Some(aa), RegionKwargs(row)).Ok?
    ensures '\n' !in aa
    ensures AnnotateDomain(acc, Some(aa), system, Some(row)).Ok?
    ensures Annotates(aa, acc, AnnotateDomain(acc, Some(aa), system, Some(row)).value, row, Cdr, system, CdrKeys)
    ensures Annotates(aa, acc, AnnotateDomain(acc, Some(aa), system, Some(row)).value, row, Fwr, system, FwrKeys)
    ensures Preserves(acc, AnnotateDomain(acc, Some(aa), system, Some(row)).value, DomainLabels(system))
  {
    var regions := Search(Some(aa), RegionKwargs(row)).value;
    SearchCovers(aa, row, regions, Cdr);
    SearchCovers(aa, row, regions, Fwr);
    AnnotateRegionsSpec(aa, acc, row, regions, Cdr, system, CdrKeys);
    var a := AnnotateRegions(acc, row, regions, Cdr, system, CdrKeys).value;
    AnnotateRegionsSpec(aa, a, row, regions, Fwr, system, FwrKeys);
    var r := AnnotateRegions(a, row, regions, Fwr, system, FwrKeys).value;
    assert AnnotateDomain(acc, Some(aa), system, Some(row)) == Ok(r);
    LabelOutside(Cdr, system, Fwr, system);
    AnnotatesExtend(aa, acc, a, r, row, Cdr, system, LabelSet(Fwr, system, FwrKeys));
    assert Annotates(aa, a, r, row, Fwr, system, FwrKeys);
    forall k | k in FwrKeys
      ensures KeyAnnotated(aa, acc, r, row, Fwr, system, k)
    {
      assert KeyAnnotated(aa, a, r, row, Fwr, system, k);
      if !RowGet(row, k + "_aa").Str? {
        assert Fwr.Label(k, system) !in LabelSet(Cdr, system, CdrKeys) by {
          LabelOutside(Fwr, system, Cdr, system);
        }
      }
    }
  }

  /** The keyword arguments of the germline alignment search: `v_alignment=sanitize_sequence(...)` and so on. */
  function AlignmentKwargs(imgt: Row): (kw: seq<(string, Value)>)
    ensures DistinctKeys(kw)
    ensures |kw| == |AlignmentKeys|
    ensures forall i :: 0 <= i < |kw| ==>
      kw[i] == (AlignmentKeys[i] + "_alignment", OfOption(SanitizeSequence(RowGet(imgt, AlignmentKeys[i] + "_sequence_alignment_aa"))))
  {
    var kw := seq(|AlignmentKeys|, i requires 0 <= i < |AlignmentKeys| =>
      (AlignmentKeys[i] + "_alignment", OfOption(SanitizeSequence(RowGet(imgt, AlignmentKeys[i] + "_sequence_alignment_aa")))));
    assert forall i :: 0 <= i < |kw| ==> kw[i].0[0] == AlignmentKeys[i][0];
    kw
  }

  /** The loop over `ALIGNMENTS`: a detected region is annotated with the gene call as its name. */
  function AlignmentAnnotations(annotations: seq<AaAnnotation>, imgt: Row, regions: Dict<string, AaRegion>, keys: seq<string>): (r: seq<AaAnnotation>)
    decreases |keys|
  {
    if keys == [] then annotations
    else
      var before := AlignmentAnnotations(annotations, imgt, regions, keys[..|keys| - 1]);
      var key := keys[|keys| - 1];
      match Region(regions, key + "_alignment")
      case None => before
      case Some(region) => before + [AaAnnotation(AlignmentColor, SiteType, RowGet(imgt, key + "_call"), region.start, region.end)]
  }

  /** `sequence.fields.get(key).value`: a missing field raises. */
  function RequiredValue(fields: Fields, key: string): (r: Result<Value>)
    ensures r.Ok? <==> key in fields
    ensures r.Ok? ==> r.value == fields[key].value
  {
    if key in fields then Ok(fields[key].value) else Err(NoneHasNoValue)
  }

  /** `functions[0] if isinstance(functions, list) and len(functions) > 0 else ''`. */
  function FirstFunction(functions: Value): (v: Value)
    ensures functions.Items? && functions.values != [] ==> v == functions.values[0]
    ensures !(functions.Items? && functions.values != []) ==> v == Str("")
  {
    if functions.Items? && |functions.values| > 0 then functions.values[0] else Str("")
  }

  /** The fields set before the annotation loops: the IMGT version and those copied from the DNA entity. */
  function SchemaFields(sequence: DnaSequence, t: Option<DnaSchemaType>, imgtVersion: Option<string>): Result<map<string, Value>> {
    var base := map[AaSequenceFieldKey.ImgtVersion.Key() := OfOption(imgtVersion)];
    match t
    case Some(Sequence) =>
      var sourceClone :- RequiredValue(sequence.fields, DnaSequenceFieldKey.SourceClone.Key());
      var kind :- RequiredValue(sequence.fields, DnaSequenceFieldKey.Type.Key());
      Ok(base[AaSequenceFieldKey.SourceClone.Key() := sourceClone][AaSequenceFieldKey.Type.Key() := kind])
    case Some(Feature) =>
      var source :- RequiredValue(sequence.fields, DnaFeatureFieldKey.SequenceSource.Key());
      var functions :- RequiredValue(sequence.fields, DnaFeatureFieldKey.Functions.Key());
      Ok(base[AaSequenceFieldKey.SequenceSource.Key() := source][AaSequenceFieldKey.Type.Key() := FirstFunction(functions)])
    case None => Ok(base)
  }

  /** The fields and annotations the payload carries, whether it creates or updates. */
  function Annotate(sequence: DnaSequence, t: Option<DnaSchemaType>, imgtVersion: Option<string>, imgt: Row, kabatData: Option<Row>): Result<Annotated> {
    var aminoAcids := SanitizeSequence(RowGet(imgt, "sequence_alignment_aa"));
    var fields :- SchemaFields(sequence, t, imgtVersion);
    var domains :- AnnotateDomains(Annotated(fields, []), aminoAcids, [(Imgt, Some(imgt)), (Kabat, kabatData)]);
    var alignments :- Search(aminoAcids, AlignmentKwargs(imgt));
    Ok(Annotated(domains.fields, AlignmentAnnotations(domains.annotations, imgt, alignments, AlignmentKeys)))
  }

  /**
   * The request built from the annotated fields: a create named after the DNA
   * sequence and linked to it when no AA sequence exists yet, otherwise an update
   * that keeps the existing sequence's name, amino acids, aliases and custom fields.
   */
  function Request(config: Config, sequence: DnaSequence, imgt: Row, a: Annotated, existing: Option<AaSequence>): (req: AaSequenceRequest)
    ensures req.fields == a.fields && req.annotations == a.annotations && req.authorIds == config.authorIds
    ensures existing.None? ==>
      && req.AaSequenceCreate?
      && req.name == sequence.name + "_translation"
      && req.aminoAcids == SanitizeSequence(RowGet(imgt, "sequence_alignment_aa"))
      && req.customFields == map[DnaSequenceIdCustomField := Str(sequence.id)]
      && req.registryId == Some(config.registryId) && req.folderId == sequence.folderId
      && req.schemaId == config.aaSequenceSchemaId && req.namingStrategy == ReplaceNamesFromParts
    ensures existing.Some? ==>
      && req.AaSequenceUpdate?
      && req.name == existing.value.name && req.aminoAcids == Some(existing.value.aminoAcids)
      && req.aliases == existing.value.aliases && req.existingCustomFields == existing.value.customFields
      && req.registryId == existing.value.registryId && req.folderId == existing.value.folderId
      && req.schemaId == existing.value.schemaId
  {
    match existing
    case None =>
      AaSequenceCreate(
        sequence.name + "_translation",
        SanitizeSequence(RowGet(imgt, "sequence_alignment_aa")),
        a.annotations,
        a.fields,
        map[DnaSequenceIdCustomField := Str(sequence.id)],
        Some(config.registryId),
        sequence.folderId,
        config.aaSequenceSchemaId,
        ReplaceNamesFromParts,
        config.authorIds)
    case Some(aa) =>
      AaSequenceUpdate(
        aa.name,
        Some(aa.aminoAcids),
        a.annotations,
        a.fields,
        aa.registryId,
        aa.folderId,
        aa.schemaId,
        aa.aliases,
        aa.customFields,
        config.authorIds)
  }

  /** `to_aa_sequence_create_or_update`; `imgt_data.get` raises when there is no IMGT row. */
  function AaSequencePayload(config: Config, sequence: DnaSequence, t: Option<DnaSchemaType>, imgtVersion: Option<string>,
                             imgtData: Option<Row>, kabatData: Option<Row>, existing: Option<AaSequence>): (r: Result<AaSequenceRequest>)
    ensures imgtData.None? ==> r == Err(NoneHasNoGet)
    ensures imgtData.Some? ==>
      match Annotate(sequence, t, imgtVersion, imgtData.value, kabatData)
      case Err(e) => r == Err(e)
      case Ok(a) => r == Ok(Request(config, sequence, imgtData.value, a, existing))
  {
    match imgtData
    case None => Err(NoneHasNoGet)
    case Some(imgt) =>
      var a :- Annotate(sequence, t, imgtVersion, imgt, kabatData);
      Ok(Request(config, sequence, imgt, a, existing))
  }

  /** The keys of a payload set before the annotation loops are never CDR or FWR labels. */
  lemma SchemaFieldsAreNotLabels(sequence: DnaSequence, t: Option<DnaSchemaType>, imgtVersion: Option<string>,
                                 kind: RegionKind, key: string, system: DomainSystem)
    requires SchemaFields(sequence, t, imgtVersion).Ok?
    requires key in kind.Keys()
    ensures kind.Label(key, system) !in SchemaFields(sequence, t, imgtVersion).value
  {
    var fields := SchemaFields(sequence, t, imgtVersion).value;
    assert forall k :: k in fields ==> k in {"IMGT Version", "Source: Clone", "Type", "Sequence Source"};
    LabelShape(kind, key, system);
  }

  /** Once the annotation succeeds, both searches ran on the same sanitized amino acids and succeeded. */
  lemma AnnotateSearches(sequence: DnaSequence, t: Option<DnaSchemaType>, imgtVersion: Option<string>, imgt: Row, kabatData: Option<Row>)
    requires Annotate(sequence, t, imgtVersion, imgt, kabatData).Ok?
    ensures SanitizeSequence(RowGet(imgt, "sequence_alignment_aa")).Some?
    ensures kabatData.Some?
    ensures SchemaFields(sequence, t, imgtVersion).Ok?
    ensures Search(SanitizeSequence(RowGet(imgt, "sequence_alignment_aa")), RegionKwargs(imgt)).Ok?
    ensures Search(SanitizeSequence(RowGet(imgt, "sequence_alignment_aa")), RegionKwargs(kabatData.value)).Ok?
    ensures Search(SanitizeSequence(RowGet(imgt, "sequence_alignment_aa")), AlignmentKwargs(imgt)).Ok?
  {
    var aminoAcids := SanitizeSequence(RowGet(imgt, "sequence_alignment_aa"));
    var fields := SchemaFields(sequence, t, imgtVersion);
    assert fields.Ok?;
    var acc := Annotated(fields.value, []);
    AnnotateDomainsPair(acc, aminoAcids, (Imgt, Some(imgt)), (Kabat, kabatData));
    assert AnnotateDomains(acc, aminoAcids, [(Imgt, Some(imgt)), (Kabat, kabatData)]).Ok?;
    var first := AnnotateDomain(acc, aminoAcids, Imgt, Some(imgt));
    assert first.Ok?;
    assert AnnotateDomain(first.value, aminoAcids, Kabat, kabatData).Ok?;
  }

  /** The loop over the two numbering systems, unrolled. */
  lemma AnnotateDomainsPair(acc: Annotated, aminoAcids: Option<string>, s1: (DomainSystem, Option<Row>), s2: (DomainSystem, Option<Row>))
    ensures AnnotateDomains(acc, aminoAcids, [s1, s2]) ==
      match AnnotateDomain(acc, aminoAcids, s1.0, s1.1)
      case Err(e) => Err(e)
      case Ok(a) => AnnotateDomain(a, aminoAcids, s2.0, s2.1)
  {
    assert [s1, s2][..1] == [s1] && [s1][..0] == [];
    assert AnnotateDomains(acc, aminoAcids, [s1]) == AnnotateDomain(acc, aminoAcids, s1.0, s1.1);
  }

  /** Both numbering systems annotate their regions, and the Kabat pass keeps what the IMGT pass wrote. */
  lemma AnnotateDomainsSpec(aa: string, acc: Annotated, imgt: Row, kabat: Row)
    requires Search(Some(aa), RegionKwargs(imgt)).Ok? && Search(Some(aa), RegionKwargs(kabat)).Ok?
    ensures AnnotateDomains(acc, Some(aa), [(Imgt, Some(imgt)), (Kabat, Some(kabat))]).Ok?
    ensures forall kind: RegionKind :: Annotates(aa, acc, AnnotateDomains(acc, Some(aa), [(Imgt, Some(imgt)), (Kabat, Some(kabat))]).value, imgt, kind, Imgt, kind.Keys())
    ensures forall kind: RegionKind :: Annotates(aa, acc, AnnotateDomains(acc, Some(aa), [(Imgt, Some(imgt)), (Kabat, Some(kabat))]).value, kabat, kind, Kabat, kind.Keys())
    ensures Preserves(acc, AnnotateDomains(acc, Some(aa), [(Imgt, Some(imgt)), (Kabat, Some(kabat))]).value, DomainLabels(Imgt) + DomainLabels(Kabat))
  {
    AnnotateDomainsPair(acc, Some(aa), (Imgt, Some(imgt)), (Kabat, Some(kabat)));
    AnnotateDomainSpec(aa, acc, Imgt, imgt);
    var a := AnnotateDomain(acc, Some(aa), Imgt, Some(imgt)).value;
    AnnotateDomainSpec(aa, a, Kabat, kabat);
    var r := AnnotateDomain(a, Some(aa), Kabat, Some(kabat)).value;
    assert AnnotateDomains(acc, Some(aa), [(Imgt, Some(imgt)), (Kabat, Some(kabat))]) == Ok(r);
    forall kind: RegionKind
      ensures Annotates(aa, acc, r, imgt, kind, Imgt, kind.Keys())
      ensures Annotates(aa, acc, r, kabat, kind, Kabat, kind.Keys())
    {
      LabelOutside(kind, Imgt, Cdr, Kabat);
      LabelOutside(kind, Imgt, Fwr, Kabat);
      AnnotatesExtend(aa, acc, a, r, imgt, kind, Imgt, DomainLabels(Kabat));
      forall k | k in kind.Keys()
        ensures KeyAnnotated(aa, acc, r, kabat, kind, Kabat, k)
      {
        assert KeyAnnotated(aa, a, r, kabat, kind, Kabat, k);
        LabelOutside(kind, Kabat, Cdr, Imgt);
        LabelOutside(kind, Kabat, Fwr, Imgt);
        assert kind.Label(k, Kabat) !in DomainLabels(Imgt);
      }
    }
  }

  /**
   * What the payload says about one CDR or FWR of one numbering system: a str
   * value is stored under the region's label and annotated where it occurs in the
   * amino acids; any other value leaves no field of that name.
   */
  ghost predicate RegionStored(aa: string, fields: map<string, Value>, annotations: seq<AaAnnotation>,
                               row: Row, kind: RegionKind, system: DomainSystem, key: string) {
    var name := kind.Label(key, system);
    match RowGet(row, key + "_aa")
    case Str(v) =>
      && name in fields && fields[name] == Str(v)
      && exists region :: Marks(aa, v, region) && RegionAnnotation(kind, system, key, region) in annotations
    case _ => name !in fields
  }

  /** The field names the annotation loops may write. */
  function AllLabels(): set<string> {
    DomainLabels(Imgt) + DomainLabels(Kabat)
  }

  /**
   * `to_aa_sequence_create_or_update`, fields and annotations: every CDR and FWR
   * of both systems is stored as `RegionStored` says, and every other field is the
   * one set before the loops (IMGT version and the fields copied from the DNA entity).
   */
  lemma PayloadFields(config: Config, sequence: DnaSequence, t: Option<DnaSchemaType>, imgtVersion: Option<string>,
                      imgt: Row, kabatData: Option<Row>, existing: Option<AaSequence>, kind: RegionKind, key: string)
    requires AaSequencePayload(config, sequence, t, imgtVersion, Some(imgt), kabatData, existing).Ok?
    requires key in kind.Keys()
    ensures kabatData.Some? && SanitizeSequence(RowGet(imgt, "sequence_alignment_aa")).Some?
    ensures var req := AaSequencePayload(config, sequence, t, imgtVersion, Some(imgt), kabatData, existing).value;
      RegionStored(SanitizeSequence(RowGet(imgt, "sequence_alignment_aa")).value, req.fields, req.annotations, imgt, kind, Imgt, key)
    ensures var req := AaSequencePayload(config, sequence, t, imgtVersion, Some(imgt), kabatData, existing).value;
      RegionStored(SanitizeSequence(RowGet(imgt, "sequence_alignment_aa")).value, req.fields, req.annotations, kabatData.value, kind, Kabat, key)
    ensures SchemaFields(sequence, t, imgtVersion).Ok?
    ensures forall x :: x !in AllLabels() ==>
      var req := AaSequencePayload(config, sequence, t, imgtVersion, Some(imgt), kabatData, existing).value;
      var schema := SchemaFields(sequence, t, imgtVersion).value;
      && (x in req.fields <==> x in schema)
      && (x in schema ==> req.fields[x] == schema[x])
  {
    var a := Annotate(sequence, t, imgtVersion, imgt, kabatData).value;
    var req := AaSequencePayload(config, sequence, t, imgtVersion, Some(imgt), kabatData, existing).value;
    assert req.fields == a.fields && req.annotations == a.annotations;
    AnnotateFields(sequence, t, imgtVersion, imgt, kabatData, kind, key);
  }

  /** `PayloadFields` for the fields and annotations before the request is built. */
  lemma AnnotateFields(sequence: DnaSequence, t: Option<DnaSchemaType>, imgtVersion: Option<string>,
                       imgt: Row, kabatData: Option<Row>, kind: RegionKind, key: string)
    requires Annotate(sequence, t, imgtVersion, imgt, kabatData).Ok?
    requires key in kind.Keys()
    ensures kabatData.Some? && SanitizeSequence(RowGet(imgt, "sequence_alignment_aa")).Some?
    ensures var a := Annotate(sequence, t, imgtVersion, imgt, kabatData).value;
      RegionStored(SanitizeSequence(RowGet(imgt, "sequence_alignment_aa")).value, a.fields, a.annotations, imgt, kind, Imgt, key)
    ensures var a := Annotate(sequence, t, imgtVersion, imgt, kabatData).value;
      RegionStored(SanitizeSequence(RowGet(imgt, "sequence_alignment_aa")).value, a.fields, a.annotations, kabatData.value, kind, Kabat, key)
    ensures SchemaFields(sequence, t, imgtVersion).Ok?
    ensures Preserves(Annotated(SchemaFields(sequence, t, imgtVersion).value, []), Annotate(sequence, t, imgtVersion, imgt, kabatData).value, AllLabels())
  {
    AnnotateSearches(sequence, t, imgtVersion, imgt, kabatData);
    var aa := SanitizeSequence(RowGet(imgt, "sequence_alignment_aa")).value;
    var kabat := kabatData.value;
    var acc := Annotated(SchemaFields(sequence, t, imgtVersion).value, []);
    var domains := AnnotateShape(sequence, t, imgtVersion, imgt, kabat);
    var r := Annotate(sequence, t, imgtVersion, imgt, kabatData).value;
    AnnotateDomainsSpec(aa, acc, imgt, kabat);
    SchemaFieldsAreNotLabels(sequence, t, imgtVersion, kind, key, Imgt);
    SchemaFieldsAreNotLabels(sequence, t, imgtVersion, kind, key, Kabat);
    StoredAfter(aa, acc, domains, r, imgt, kind, Imgt, key);
    StoredAfter(aa, acc, domains, r, kabat, kind, Kabat, key);
  }

  /** The annotation is the two systems' pass followed by the alignment loop, which only appends. */
  lemma AnnotateShape(sequence: DnaSequence, t: Option<DnaSchemaType>, imgtVersion: Option<string>, imgt: Row, kabat: Row)
    returns (domains: Annotated)
    requires Annotate(sequence, t, imgtVersion, imgt, Some(kabat)).Ok?
    ensures SchemaFields(sequence, t, imgtVersion).Ok?
    ensures AnnotateDomains(Annotated(SchemaFields(sequence, t, imgtVersion).value, []),
      SanitizeSequence(RowGet(imgt, "sequence_alignment_aa")), [(Imgt, Some(imgt)), (Kabat, Some(kabat))]) == Ok(domains)
    ensures Annotate(sequence, t, imgtVersion, imgt, Some(kabat)).value.fields == domains.fields
    ensures domains.annotations <= Annotate(sequence, t, imgtVersion, imgt, Some(kabat)).value.annotations
  {
    AnnotateSearches(sequence, t, imgtVersion, imgt, Some(kabat));
    var aminoAcids := SanitizeSequence(RowGet(imgt, "sequence_alignment_aa"));
    var acc := Annotated(SchemaFields(sequence, t, imgtVersion).value, []);
    domains := AnnotateDomains(acc, aminoAcids, [(Imgt, Some(imgt)), (Kabat, Some(kabat))]).value;
    var alignments := Search(aminoAcids, AlignmentKwargs(imgt)).value;
    AlignmentAnnotationsExtend(domains.annotations, imgt, alignments, AlignmentKeys);
  }

  /** What the two systems' pass promised for a key survives the alignment loop. */
  lemma StoredAfter(aa: string, acc: Annotated, domains: Annotated, r: Annotated, row: Row, kind: RegionKind, system: DomainSystem, key: string)
    requires KeyAnnotated(aa, acc, domains, row, kind, system, key)
    requires r.fields == domains.fields && domains.annotations <= r.annotations
    requires kind.Label(key, system) !in acc.fields
    ensures RegionStored(aa, r.fields, r.annotations, row, kind, system, key)
  {
    if RowGet(row, key + "_aa").Str? {
      var region :| Marks(aa, RowGet(row, key + "_aa").text, region) && RegionAnnotation(kind, system, key, region) in domains.annotations;
      assert RegionAnnotation(kind, system, key, region) in r.annotations;
    }
  }

  /** The alignment loop only appends. */
  lemma {:induction false} AlignmentAnnotationsExtend(annotations: seq<AaAnnotation>, imgt: Row, regions: Dict<string, AaRegion>, keys: seq<string>)
    ensures annotations <= AlignmentAnnotations(annotations, imgt, regions, keys)
    decreases |keys|
  {
    if keys != [] {
      AlignmentAnnotationsExtend(annotations, imgt, regions, keys[..|keys| - 1]);
    }
  }

  /** The colour and name of each annotation, in order. */
  function Tags(annotations: seq<AaAnnotation>): (r: seq<(string, Value)>)
    ensures |r| == |annotations|
    ensures forall i :: 0 <= i < |r| ==> r[i] == (annotations[i].color, annotations[i].name)
  {
    seq(|annotations|, i requires 0 <= i < |annotations| => (annotations[i].color, annotations[i].name))
  }

  lemma TagsAppend(a: seq<AaAnnotation>, b: seq<AaAnnotation>)
    ensures Tags(a + b) == Tags(a) + Tags(b)
  {
  }

  /** The keys among `keys` whose value in the row is a str, in order. */
  function StrKeys(data: Row, keys: seq<string>): seq<string>
    decreases |keys|
  {
    if keys == [] then []
    else StrKeys(data, keys[..|keys| - 1]) + (if RowGet(data, keys[|keys| - 1] + "_aa").Str? then [keys[|keys| - 1]] else [])
  }

  /** The colour and label a region of each key gets. */
  function RegionTags(kind: RegionKind, system: DomainSystem, keys: seq<string>): (r: seq<(string, Value)>)
    ensures |r| == |keys|
    ensures forall i :: 0 <= i < |keys| ==> r[i] == (kind.Color(), Str(kind.Label(keys[i], system)))
  {
    seq(|keys|, i requires 0 <= i < |keys| => (kind.Color(), Str(kind.Label(keys[i], system))))
  }

  /** The V, D and J genes whose sanitized alignment is a str, in order. */
  function PresentAlignments(imgt: Row, keys: seq<string>): seq<string>
    decreases |keys|
  {
    if keys == [] then []
    else
      PresentAlignments(imgt, keys[..|keys| - 1]) +
      (if SanitizeSequence(RowGet(imgt, keys[|keys| - 1] + "_sequence_alignment_aa")).Some? then [keys[|keys| - 1]] else [])
  }

  /** The colour and gene call the alignment of each key gets. */
  function AlignmentTags(imgt: Row, keys: seq<string>): (r: seq<(string, Value)>)
    ensures |r| == |keys|
    ensures forall i :: 0 <= i < |keys| ==> r[i] == (AlignmentColor, RowGet(imgt, keys[i] + "_call"))
  {
    seq(|keys|, i requires 0 <= i < |keys| => (AlignmentColor, RowGet(imgt, keys[i] + "_call")))
  }

  /** The CDR or FWR loop appends one annotation per str-valued key, in key order. */
  lemma {:induction false} AnnotateRegionsTags(acc: Annotated, data: Row, regions: Dict<string, AaRegion>,
                                              kind: RegionKind, system: DomainSystem, keys: seq<string>)
    requires AnnotateRegions(acc, data, regions, kind, system, keys).Ok?
    ensures Tags(AnnotateRegions(acc, data, regions, kind, system, keys).value.annotations) ==
      Tags(acc.annotations) + RegionTags(kind, system, StrKeys(data, keys))
    decreases |keys|
  {
    if keys != [] {
      var init := keys[..|keys| - 1];
      var key := keys[|keys| - 1];
      AnnotateRegionsTags(acc, data, regions, kind, system, init);
      var a := AnnotateRegions(acc, data, regions, kind, system, init).value;
      var r := AnnotateRegions(acc, data, regions, kind, system, keys).value;
      if RowGet(data, key + "_aa").Str? {
        var region := Region(regions, key).value;
        assert r.annotations == a.annotations + [RegionAnnotation(kind, system, key, region)];
        TagsAppend(a.annotations, [RegionAnnotation(kind, system, key, region)]);
        assert RegionTags(kind, system, StrKeys(data, init) + [key]) ==
          RegionTags(kind, system, StrKeys(data, init)) + [(kind.Color(), Str(kind.Label(key, system)))];
      } else {
        assert StrKeys(data, keys) == StrKeys(data, init);
      }
    }
  }

  /** The alignment loop appends one annotation per detected alignment, in V, D, J order. */
  lemma {:induction false} AlignmentAnnotationsTags(annotations: seq<AaAnnotation>, imgt: Row, regions: Dict<string, AaRegion>, keys: seq<string>)
    requires forall k :: k in keys ==>
      (Region(regions, k + "_alignment").Some? <==> SanitizeSequence(RowGet(imgt, k + "_sequence_alignment_aa")).Some?)
    ensures Tags(AlignmentAnnotations(annotations, imgt, regions, keys)) ==
      Tags(annotations) + AlignmentTags(imgt, PresentAlignments(imgt, keys))
    decreases |keys|
  {
    if keys != [] {
      var init := keys[..|keys| - 1];
      var key := keys[|keys| - 1];
      AlignmentAnnotationsTags(annotations, imgt, regions, init);
      var before := AlignmentAnnotations(annotations, imgt, regions, init);
      assert key in keys;
      match Region(regions, key + "_alignment")
      case None =>
        assert PresentAlignments(imgt, keys) == PresentAlignments(imgt, init);
      case Some(region) =>
        var ann := AaAnnotation(AlignmentColor, SiteType, RowGet(imgt, key + "_call"), region.start, region.end);
        TagsAppend(before, [ann]);
        assert AlignmentTags(imgt, PresentAlignments(imgt, init) + [key]) ==
          AlignmentTags(imgt, PresentAlignments(imgt, init)) + [(AlignmentColor, RowGet(imgt, key + "_call"))];
    }
  }

  /** An alignment is detected exactly when its sanitized sequence is a str. */
  lemma AlignmentDetected(aa: string, imgt: Row, regions: Dict<string, AaRegion>, i: nat)
    requires '\n' !in aa
    requires Detect(aa, AlignmentKwargs(imgt)) == Ok(regions)
    requires i < |AlignmentKeys|
    ensures Region(regions, AlignmentKeys[i] + "_alignment").Some? <==>
      SanitizeSequence(RowGet(imgt, AlignmentKeys[i] + "_sequence_alignment_aa")).Some?
  {
    var kw := AlignmentKwargs(imgt);
    if SanitizeSequence(RowGet(imgt, AlignmentKeys[i] + "_sequence_alignment_aa")).Some? {
      DetectFindsEachFragment(aa, kw, regions, i);
    } else {
      DetectSkipsOthers(aa, kw, regions, i);
    }
  }

  /**
   * Annotation order: IMGT CDR1-3, IMGT FR1-4, Kabat CDR1-3, Kabat FR1-4 (each only
   * for a str value), then the V, D and J alignments that were detected, named by
   * their gene calls.
   */
  lemma PayloadAnnotationOrder(config: Config, sequence: DnaSequence, t: Option<DnaSchemaType>, imgtVersion: Option<string>,
                               imgt: Row, kabatData: Option<Row>, existing: Option<AaSequence>)
    requires AaSequencePayload(config, sequence, t, imgtVersion, Some(imgt), kabatData, existing).Ok?
    ensures kabatData.Some?
    ensures Tags(AaSequencePayload(config, sequence, t, imgtVersion, Some(imgt), kabatData, existing).value.annotations) ==
      RegionTags(Cdr, Imgt, StrKeys(imgt, CdrKeys)) + RegionTags(Fwr, Imgt, StrKeys(imgt, FwrKeys)) +
      RegionTags(Cdr, Kabat, StrKeys(kabatData.value, CdrKeys)) + RegionTags(Fwr, Kabat, StrKeys(kabatData.value, FwrKeys)) +
      AlignmentTags(imgt, PresentAlignments(imgt, AlignmentKeys))
  {
    var a := Annotate(sequence, t, imgtVersion, imgt, kabatData).value;
    AnnotateSearches(sequence, t, imgtVersion, imgt, kabatData);
    var kabat := kabatData.value;
    var domains := AnnotateShape(sequence, t, imgtVersion, imgt, kabat);
    var aa := SanitizeSequence(RowGet(imgt, "sequence_alignment_aa")).value;
    var acc := Annotated(SchemaFields(sequence, t, imgtVersion).value, []);
    AnnotateDomainsPair(acc, Some(aa), (Imgt, Some(imgt)), (Kabat, Some(kabat)));
    var first := AnnotateDomain(acc, Some(aa), Imgt, Some(imgt));
    assert first.Ok?;
    DomainsTags(aa, acc, imgt, kabat, first.value, domains);
    var alignments := Search(Some(aa), AlignmentKwargs(imgt)).value;
    forall k | k in AlignmentKeys
      ensures Region(alignments, k + "_alignment").Some? <==> SanitizeSequence(RowGet(imgt, k + "_sequence_alignment_aa")).Some?
    {
      var i :| 0 <= i < |AlignmentKeys| && AlignmentKeys[i] == k;
      AlignmentDetected(aa, imgt, alignments, i);
    }
    AlignmentAnnotationsTags(domains.annotations, imgt, alignments, AlignmentKeys);
    assert a.annotations == AlignmentAnnotations(domains.annotations, imgt, alignments, AlignmentKeys);
  }

  /** The tags the two systems' pass writes, starting from no annotation. */
  lemma DomainsTags(aa: string, acc: Annotated, imgt: Row, kabat: Row, a: Annotated, domains: Annotated)
    requires acc.annotations == []
    requires AnnotateDomain(acc, Some(aa), Imgt, Some(imgt)) == Ok(a)
    requires AnnotateDomain(a, Some(aa), Kabat, Some(kabat)) == Ok(domains)
    ensures Tags(domains.annotations) ==
      RegionTags(Cdr, Imgt, StrKeys(imgt, CdrKeys)) + RegionTags(Fwr, Imgt, StrKeys(imgt, FwrKeys)) +
      RegionTags(Cdr, Kabat, StrKeys(kabat, CdrKeys)) + RegionTags(Fwr, Kabat, StrKeys(kabat, FwrKeys))
  {
    var t1, t2 := RegionTags(Cdr, Imgt, StrKeys(imgt, CdrKeys)), RegionTags(Fwr, Imgt, StrKeys(imgt, FwrKeys));
    var t3, t4 := RegionTags(Cdr, Kabat, StrKeys(kabat, CdrKeys)), RegionTags(Fwr, Kabat, StrKeys(kabat, FwrKeys));
    DomainTags(aa, acc, Imgt, imgt, a);
    DomainTags(aa, a, Kabat, kabat, domains);
    assert Tags(acc.annotations) == [];
    Regroup(t1, t2, t3, t4);
  }

  /**
   * The regrouping of the four tag lists, kept generic so that the solver
   * does not unfold the tag functions into it.
   */
  lemma Regroup<T>(t1: seq<T>, t2: seq<T>, t3: seq<T>, t4: seq<T>)
    ensures ([] + t1 + t2) + t3 + t4 == t1 + t2 + t3 + t4
  {
  }

  /** The tags one system's pass appends. */
  lemma DomainTags(aa: string, acc: Annotated, system: DomainSystem, row: Row, r: Annotated)
    requires AnnotateDomain(acc, Some(aa), system, Some(row)) == Ok(r)
    ensures Tags(r.annotations) ==
      Tags(acc.annotations) + RegionTags(Cdr, system, StrKeys(row, CdrKeys)) + RegionTags(Fwr, system, StrKeys(row, FwrKeys))
  {
    var regions := Search(Some(aa), RegionKwargs(row)).value;
    AnnotateRegionsTags(acc, row, regions, Cdr, system, CdrKeys);
    var a := AnnotateRegions(acc, row, regions, Cdr, system, CdrKeys).value;
    AnnotateRegionsTags(a, row, regions, Fwr, system, FwrKeys);
  }


  /** The exceptions building a payload can raise. */
  const PayloadErrorMessages: set<string> := {NoneHasNoGet, NoneHasNoValue, NoneNotString, LineBreakUnsupported, ParseError}

  lemma SearchErrors(aminoAcids: Option<string>, kwargs: seq<(string, Value)>)
    ensures Search(aminoAcids, kwargs).Err? ==> Search(aminoAcids, kwargs).message in PayloadErrorMessages
  {
  }

  /** Once a system's search succeeds, its CDR and FWR loops never meet a missing region. */
  lemma AnnotateDomainErrors(acc: Annotated, aminoAcids: Option<string>, system: DomainSystem, data: Option<Row>)
    ensures AnnotateDomain(acc, aminoAcids, system, data).Err? ==> AnnotateDomain(acc, aminoAcids, system, data).message in PayloadErrorMessages
  {
    SearchErrors(aminoAcids, if data.Some? then RegionKwargs(data.value) else []);
    if data.Some? && Search(aminoAcids, RegionKwargs(data.value)).Ok? {
      AnnotateDomainSpec(aminoAcids.value, acc, system, data.value);
    }
  }

  /**
   * Building a payload fails only by the exceptions the IgBLAST data or the DNA
   * entity can cause: a missing row, a missing field, a missing or unmatched
   * amino-acid string. In particular `region.start` is never read from None.
   */
  lemma PayloadErrors(config: Config, sequence: DnaSequence, t: Option<DnaSchemaType>, imgtVersion: Option<string>,
                      imgtData: Option<Row>, kabatData: Option<Row>, existing: Option<AaSequence>)
    ensures var r := AaSequencePayload(config, sequence, t, imgtVersion, imgtData, kabatData, existing);
      r.Err? ==> r.message in PayloadErrorMessages && r.message != NoneHasNoStart
  {
    if imgtData.Some? {
      AnnotateErrors(sequence, t, imgtVersion, imgtData.value, kabatData);
    }
  }

  lemma AnnotateErrors(sequence: DnaSequence, t: Option<DnaSchemaType>, imgtVersion: Option<string>, imgt: Row, kabatData: Option<Row>)
    ensures Annotate(sequence, t, imgtVersion, imgt, kabatData).Err? ==>
      Annotate(sequence, t, imgtVersion, imgt, kabatData).message in PayloadErrorMessages
  {
    var aminoAcids := SanitizeSequence(RowGet(imgt, "sequence_alignment_aa"));
    var fields := SchemaFields(sequence, t, imgtVersion);
    SchemaFieldsErrors(sequence, t, imgtVersion);
    if fields.Ok? {
      AnnotateDomainsErrors(Annotated(fields.value, []), aminoAcids, (Imgt, Some(imgt)), (Kabat, kabatData));
      SearchErrors(aminoAcids, AlignmentKwargs(imgt));
    }
  }

  lemma SchemaFieldsErrors(sequence: DnaSequence, t: Option<DnaSchemaType>, imgtVersion: Option<string>)
    ensures SchemaFields(sequence, t, imgtVersion).Err? ==> SchemaFields(sequence, t, imgtVersion).message == NoneHasNoValue
  {
  }

  lemma AnnotateDomainsErrors(acc: Annotated, aminoAcids: Option<string>, s1: (DomainSystem, Option<Row>), s2: (DomainSystem, Option<Row>))
    ensures AnnotateDomains(acc, aminoAcids, [s1, s2]).Err? ==> AnnotateDomains(acc, aminoAcids, [s1, s2]).message in PayloadErrorMessages
  {
    AnnotateDomainsPair(acc, aminoAcids, s1, s2);
    AnnotateDomainErrors(acc, aminoAcids, s1.0, s1.1);
    var first := AnnotateDomain(acc, aminoAcids, s1.0, s1.1);
    if first.Ok? {
      AnnotateDomainErrors(first.value, aminoAcids, s2.0, s2.1);
    }
  }

  /** `copy_fields` and `copy_custom_fields`: fields with a value, reduced to that value. */
  function CopiedFields(original: Fields): (copy: map<string, Value>)
    ensures forall k :: k in copy <==> k in original && original[k].value != Null
    ensures forall k :: k in copy ==> copy[k] == original[k].value
  {
    map k | k in original && original[k].value != Null :: original[k].value
  }

  /** The keys a list names. */
  function KeySet(keys: seq<string>): set<string> {
    set k | k in keys
  }

  /** `to_dna_sequence_bulk_update`: the copied fields without the computed ones. */
  function BulkUpdatePayload(dna: DnaSequence, computedFields: seq<string>): (u: DnaSequenceBulkUpdate)
    ensures u.id == dna.id && u.name == dna.name && u.bases == dna.bases
    ensures u.folderId == dna.folderId && u.isCircular == dna.isCircular
    ensures u.customFields == CopiedFields(dna.customFields)
    ensures forall k :: k in u.fields <==> k in dna.fields && dna.fields[k].value != Null && k !in computedFields
    ensures forall k :: k in u.fields ==> u.fields[k] == dna.fields[k].value
  {
    DnaSequenceBulkUpdate(dna.id, dna.name, dna.bases, CopiedFields(dna.fields) - KeySet(computedFields),
      CopiedFields(dna.customFields), dna.folderId, dna.isCircular)
  }

  /** `to_dna_sequence_bulk_create`: a circular sequence linked back to its DNA sequence. */
  function BulkCreate(sequence: DnaSequence, germlineAlignment: Option<string>): (c: DnaSequenceBulkCreate)
    ensures c.name == sequence.name + "_germline_alignment"
    ensures c.bases == germlineAlignment && c.isCircular && c.folderId == sequence.folderId
    ensures c.customFields == map[DnaSequenceIdCustomField := Str(sequence.id)]
  {
    DnaSequenceBulkCreate(sequence.name + "_germline_alignment", germlineAlignment, true, sequence.folderId,
      map[DnaSequenceIdCustomField := Str(sequence.id)])
  }

  /** `copy_fields` and `copy_custom_fields`, inserting key by key. */
  method CopyFields(original: Fields) returns (copy: map<string, Value>)
    ensures copy == CopiedFields(original)
  {
    copy := map[];
    var rest := original.Keys;
    while rest != {}
      invariant rest <= original.Keys
      invariant forall k :: k in copy <==> k in original && k !in rest && original[k].value != Null
      invariant forall k :: k in copy ==> copy[k] == original[k].value
      decreases rest
    {
      var key :| key in rest;
      if original[key].value != Null {
        copy := copy[key := original[key].value];
      }
      rest := rest - {key};
    }
  }

  /** `to_dna_sequence_bulk_update`, deleting the computed fields one by one. */
  method ToDnaSequenceBulkUpdate(dna: DnaSequence, computedFields: seq<string>) returns (u: DnaSequenceBulkUpdate)
    ensures u == BulkUpdatePayload(dna, computedFields)
  {
    var fields := CopyFields(dna.fields);
    for i := 0 to |computedFields|
      invariant fields == CopiedFields(dna.fields) - KeySet(computedFields[..i])
    {
      assert KeySet(computedFields[..i + 1]) == KeySet(computedFields[..i]) + {computedFields[i]} by {
        assert computedFields[..i + 1] == computedFields[..i] + [computedFields[i]];
      }
      if computedFields[i] in fields {
        fields := fields - {computedFields[i]};
      }
    }
    assert computedFields[..|computedFields|] == computedFields;
    var customFields := CopyFields(dna.customFields);
    u := DnaSequenceBulkUpdate(dna.id, dna.name, dna.bases, fields, customFields, dna.folderId, dna.isCircular);
  }

  /** The CDR or FWR loop stops at its first error. */
  lemma {:induction false} AnnotateRegionsStops(acc: Annotated, data: Row, regions: Dict<string, AaRegion>,
                                               kind: RegionKind, system: DomainSystem, keys: seq<string>, i: nat)
    requires i <= |keys|
    requires AnnotateRegions(acc, data, regions, kind, system, keys[..i]).Err?
    ensures AnnotateRegions(acc, data, regions, kind, system, keys) == AnnotateRegions(acc, data, regions, kind, system, keys[..i])
    decreases |keys|
  {
    if i < |keys| {
      var init := keys[..|keys| - 1];
      assert init[..i] == keys[..i];
      AnnotateRegionsStops(acc, data, regions, kind, system, init, i);
    } else {
      assert keys[..i] == keys;
    }
  }

  /** The loop over the numbering systems stops at its first error. */
  lemma {:induction false} AnnotateDomainsStops(acc: Annotated, aminoAcids: Option<string>, systems: seq<(DomainSystem, Option<Row>)>, i: nat)
    requires i <= |systems|
    requires AnnotateDomains(acc, aminoAcids, systems[..i]).Err?
    ensures AnnotateDomains(acc, aminoAcids, systems) == AnnotateDomains(acc, aminoAcids, systems[..i])
    decreases |systems|
  {
    if i < |systems| {
      var init := systems[..|systems| - 1];
      assert init[..i] == systems[..i];
      AnnotateDomainsStops(acc, aminoAcids, init, i);
    } else {
      assert systems[..i] == systems;
    }
  }

  /** The `for cdr in CDRS` or `for fwr in FWRS` loop, writing into the fields and annotations. */
  method AnnotateRegionsLoop(acc: Annotated, data: Row, regions: Dict<string, AaRegion>, kind: RegionKind, system: DomainSystem)
    returns (r: Result<Annotated>)
    ensures r == AnnotateRegions(acc, data, regions, kind, system, kind.Keys())
  {
    var keys := kind.Keys();
    var fields, annotations := acc.fields, acc.annotations;
    for i := 0 to |keys|
      invariant AnnotateRegions(acc, data, regions, kind, system, keys[..i]) == Ok(Annotated(fields, annotations))
    {
      assert keys[..i + 1][..i] == keys[..i];
      var key := keys[i];
      var name := kind.Label(key, system);
      var value := RowGet(data, key + "_aa");
      if value.Str? {
        fields := fields[name := value];
        var region := Region(regions, key);
        if region.None? {
          AnnotateRegionsStops(acc, data, regions, kind, system, keys, i + 1);
          return Err(NoneHasNoStart);
        }
        annotations := annotations + [AaAnnotation(kind.Color(), SiteType, Str(name), region.value.start, region.value.end)];
      }
    }
    assert keys[..|keys|] == keys;
    return Ok(Annotated(fields, annotations));
  }

  /** One iteration of the loop over `data_by_domain_system`. */
  method AnnotateDomainStep(acc: Annotated, aminoAcids: Option<string>, system: DomainSystem, data: Option<Row>)
    returns (r: Result<Annotated>)
    ensures r == AnnotateDomain(acc, aminoAcids, system, data)
  {
    if data.None? {
      return Err(NoneHasNoGet);
    }
    var regions := Search(aminoAcids, RegionKwargs(data.value));
    if regions.Err? {
      return Err(regions.message);
    }
    var withCdrs := AnnotateRegionsLoop(acc, data.value, regions.value, Cdr, system);
    if withCdrs.Err? {
      return Err(withCdrs.message);
    }
    r := AnnotateRegionsLoop(withCdrs.value, data.value, regions.value, Fwr, system);
  }

  /** The `for alignment in ALIGNMENTS` loop. */
  method AlignmentLoop(annotations: seq<AaAnnotation>, imgt: Row, regions: Dict<string, AaRegion>) returns (r: seq<AaAnnotation>)
    ensures r == AlignmentAnnotations(annotations, imgt, regions, AlignmentKeys)
  {
    r := annotations;
    for i := 0 to |AlignmentKeys|
      invariant r == AlignmentAnnotations(annotations, imgt, regions, AlignmentKeys[..i])
    {
      assert AlignmentKeys[..i + 1][..i] == AlignmentKeys[..i];
      var name := RowGet(imgt, AlignmentKeys[i] + "_call");
      var region := Region(regions, AlignmentKeys[i] + "_alignment");
      if region.Some? {
        r := r + [AaAnnotation(AlignmentColor, SiteType, name, region.value.start, region.value.end)];
      }
    }
    assert AlignmentKeys[..|AlignmentKeys|] == AlignmentKeys;
  }

  /** `to_aa_sequence_create_or_update`, filling the fields and annotations in its loops. */
  method ToAaSequenceCreateOrUpdate(config: Config, sequence: DnaSequence, t: Option<DnaSchemaType>, imgtVersion: Option<string>,
                                    imgtData: Option<Row>, kabatData: Option<Row>, existing: Option<AaSequence>)
    returns (r: Result<AaSequenceRequest>)
    ensures r == AaSequencePayload(config, sequence, t, imgtVersion, imgtData, kabatData, existing)
  {
    if imgtData.None? {
      return Err(NoneHasNoGet);
    }
    var imgt := imgtData.value;
    var a := AnnotateLoops(sequence, t, imgtVersion, imgt, kabatData);
    if a.Err? {
      return Err(a.message);
    }
    r := Ok(Request(config, sequence, imgt, a.value, existing));
  }

  /** The fields and annotations of `to_aa_sequence_create_or_update`. */
  method AnnotateLoops(sequence: DnaSequence, t: Option<DnaSchemaType>, imgtVersion: Option<string>, imgt: Row, kabatData: Option<Row>)
    returns (r: Result<Annotated>)
    ensures r == Annotate(sequence, t, imgtVersion, imgt, kabatData)
  {
    var aminoAcids := SanitizeSequence(RowGet(imgt, "sequence_alignment_aa"));
    var schema := SchemaFields(sequence, t, imgtVersion);
    if schema.Err? {
      return Err(schema.message);
    }
    var systems := [(Imgt, Some(imgt)), (Kabat, kabatData)];
    var start := Annotated(schema.value, []);
    var acc := start;
    for s := 0 to |systems|
      invariant AnnotateDomains(start, aminoAcids, systems[..s]) == Ok(acc)
    {
      assert systems[..s + 1][..s] == systems[..s];
      var next := AnnotateDomainStep(acc, aminoAcids, systems[s].0, systems[s].1);
      if next.Err? {
        AnnotateDomainsStops(start, aminoAcids, systems, s + 1);
        return Err(next.message);
      }
      acc := next.value;
    }
    assert systems[..|systems|] == systems;
    var alignments := Search(aminoAcids, AlignmentKwargs(imgt));
    if alignments.Err? {
      return Err(alignments.message);
    }
    var annotations := AlignmentLoop(acc.annotations, imgt, alignments.value);
    r := Ok(Annotated(acc.fields, annotations));
  }
}
