/**
 * Variant extraction: from the records a VCF reader yields to the variant records of
 * the six-gene panel. The reader itself is outside the model; what it yields is a
 * sequence of steps, each a parsed record or the error the reader raised there (an
 * error while reading the header is an error at the first step).
 */
module VcfParser {
  import opened Wrappers
  import opened Text

  /** The gene panel; records of any other gene are dropped. */
  const RequiredGenes: seq<string> := ["CYP2D6", "CYP2C19", "CYP2C9", "SLCO1B1", "TPMT", "DPYD"]

  /**
   * The INFO `GENE` entry of a record: missing, a list of values (the reader's form for
   * an undeclared or multi-valued key), a single value (its form for `Number=1`), or
   * `True` (its form for a key without a value, a Flag). The reader gives `None` for a
   * `.` value, in a list as well as alone.
   */
  datatype GeneField = Absent | Values(values: seq<Option<string>>) | Single(value: Option<string>) | Flag

  /** A sample's called alleles; `None` for a call without GT, and `None` for a `.` allele. */
  datatype Sample = Sample(gtAlleles: Option<seq<Option<string>>>)

  /** A parsed record: ID (`None` for `.`), CHROM, POS, REF, the ALT list, INFO `GENE`, the samples. */
  datatype Record = Record(
    id: Option<string>,
    chrom: string,
    pos: int,
    ref: string,
    alts: seq<Option<string>>,
    gene: GeneField,
    samples: seq<Sample>)

  datatype ReadStep = Read(record: Record) | ReadError(message: string)

  datatype Variant = Variant(
    rsid: Option<string>,
    chromosome: string,
    position: int,
    genotype: string,
    gene: string,
    ref: string,
    alt: Option<string>)

  /** What `parse` returns: the variants, the genes seen, the success flag and the error text. */
  datatype ParseResult = ParseResult(
    variants: seq<Variant>,
    genesDetected: set<string>,
    success: bool,
    error: Option<string>)

  // ---------------------------------------------------------------------------
  // validate
  // ---------------------------------------------------------------------------

  /** `validate`: existence is checked before the extension. */
  function Validate(fileExists: bool, path: string): (r: (bool, string))
    ensures r.0 <==> fileExists && EndsWith(path, ".vcf")
    ensures !fileExists ==> r.1 == "File does not exist."
    ensures fileExists && !EndsWith(path, ".vcf") ==> r.1 == "Not a VCF file."
    ensures r.0 ==> r.1 == ""
  {
    if !fileExists then (false, "File does not exist.")
    else if !EndsWith(path, ".vcf") then (false, "Not a VCF file.")
    else (true, "")
  }

  // ---------------------------------------------------------------------------
  // Gene resolution for one record
  // ---------------------------------------------------------------------------

  /** The rsID fallback table. */
  const RsidGene: map<string, string> := map[
    "rs12248560" := "CYP2C19",
    "rs1057910" := "CYP2C9",
    "rs4149056" := "SLCO1B1",
    "rs1061170" := "CYP2D6",
    "rs1801133" := "DPYD",
    "rs1142345" := "TPMT"
  ]

  /** `_lookup_gene_by_rsid`: a panel gene for the six known rsIDs, nothing for any other. */
  function LookupGeneByRsid(rsid: string): (g: Option<string>)
    ensures g.Some? <==> rsid in RsidGene
    ensures g.Some? ==> g.value in RequiredGenes
  {
    if rsid in RsidGene then Some(RsidGene[rsid]) else None
  }

  /** The fallback table names six rsIDs, one for each gene of the panel. */
  lemma RsidTableCoversPanel()
    ensures |RsidGene| == 6
    ensures RsidGene.Values == set g | g in RequiredGenes
    ensures forall r1, r2 :: r1 in RsidGene && r2 in RsidGene && r1 != r2 ==> RsidGene[r1] != RsidGene[r2]
  {
    assert RsidGene.Keys == {"rs12248560", "rs1057910", "rs4149056", "rs1061170", "rs1801133", "rs1142345"};
  }

  /** Python truthiness of an optional string: present and non-empty. */
  predicate Truthy(s: Option<string>)
  {
    s.Some? && s.value != ""
  }

  /**
   * `record.INFO.get('GENE', [None])[0]`: indexing an empty list or string raises, and so
   * does indexing `None` or `True`.
   */
  function FirstGeneValue(f: GeneField): (r: Result<Option<string>>)
    ensures f.Absent? ==> r == Ok(None)
    ensures f.Values? ==> (r.Err? <==> f.values == [])
    ensures f.Values? && f.values != [] ==> r == Ok(f.values[0])
    ensures f.Single? ==> (r.Err? <==> f.value.None? || f.value.value == [])
    ensures f.Single? && f.value.Some? && f.value.value != [] ==> r == Ok(Some([f.value.value[0]]))
    ensures f.Flag? ==> r.Err?
  {
    match f
    case Absent => Ok(None)
    case Values(vs) => if vs == [] then Err("list index out of range") else Ok(vs[0])
    case Single(v) =>
      if v.None? then Err("'NoneType' object is not subscriptable")
      else if v.value == [] then Err("string index out of range")
      else Ok(Some([v.value[0]]))
    case Flag => Err("'bool' object is not subscriptable")
  }

  /**
   * The gene name of a record: the first `GENE` value; only when that is missing or
   * empty and the record has a non-empty ID is the rsID table consulted.
   */
  function ResolveGene(r: Record): (g: Result<Option<string>>)
    ensures g.Err? <==> FirstGeneValue(r.gene).Err?
    ensures g.Ok? && Truthy(FirstGeneValue(r.gene).value) ==> g.value == FirstGeneValue(r.gene).value
    ensures g.Ok? && !Truthy(FirstGeneValue(r.gene).value) && Truthy(r.id) ==>
      g.value == LookupGeneByRsid(r.id.value)
    ensures g.Ok? && !Truthy(FirstGeneValue(r.gene).value) && !Truthy(r.id) ==>
      g.value == FirstGeneValue(r.gene).value
  {
    match FirstGeneValue(r.gene)
    case Err(m) => Err(m)
    case Ok(name) =>
      if !Truthy(name) && Truthy(r.id) then Ok(LookupGeneByRsid(r.id.value)) else Ok(name)
  }

  /** `str(x)` of an allele or ALT entry the reader gives as `None` or as text. */
  function Str(a: Option<string>): string
  {
    if a.None? then "None" else a.value
  }

  function AlleleTexts(alleles: seq<Option<string>>): (ts: seq<string>)
    ensures |ts| == |alleles|
    ensures forall i :: 0 <= i < |alleles| ==> ts[i] == Str(alleles[i])
  {
    seq(|alleles|, i requires 0 <= i < |alleles| => Str(alleles[i]))
  }

  /** The genotype string: the first sample's alleles joined by "/", or "Unknown" without samples. */
  function Genotype(r: Record): (gt: Result<string>)
    ensures r.samples == [] ==> gt == Ok("Unknown")
    ensures r.samples != [] ==> (gt.Err? <==> r.samples[0].gtAlleles.None?)
    ensures r.samples != [] && r.samples[0].gtAlleles.Some? ==>
      gt == Ok(Join(AlleleTexts(r.samples[0].gtAlleles.value), "/"))
  {
    if r.samples == [] then Ok("Unknown")
    else match r.samples[0].gtAlleles
      case None => Err("'NoneType' object is not iterable")
      case Some(alleles) => Ok(Join(AlleleTexts(alleles), "/"))
  }

  /** The alt field: the first ALT entry as text, or `None` when the list is empty. */
  function FirstAlt(r: Record): (a: Option<string>)
    ensures a.Some? <==> r.alts != []
    ensures a.Some? ==> a.value == Str(r.alts[0])
  {
    if r.alts == [] then None else Some(Str(r.alts[0]))
  }

  /**
   * One record: an error, nothing (the gene is not in the panel), or the variant built
   * from the record's fields and its resolved gene.
   */
  function ProcessRecord(r: Record): (o: Result<Option<Variant>>)
    ensures o.Ok? && o.value.Some? ==> o.value.value.gene in RequiredGenes && o.value.value.rsid == r.id
    ensures o.Err? ==> ResolveGene(r).Err? || Genotype(r).Err?
  {
    match ResolveGene(r)
    case Err(m) => Err(m)
    case Ok(name) =>
      if name.Some? && name.value in RequiredGenes then
        match Genotype(r)
        case Err(m) => Err(m)
        case Ok(gt) => Ok(Some(Variant(r.id, r.chrom, r.pos, gt, name.value, r.ref, FirstAlt(r))))
      else
        Ok(None)
  }

  /**
   * A record is dropped exactly when its resolved gene is missing or outside the panel;
   * a kept record's variant copies its ID, CHROM, POS and REF and carries its resolved
   * gene, its genotype and its first ALT.
   */
  lemma ProcessRecordFields(r: Record)
    ensures ProcessRecord(r).Ok? && ProcessRecord(r).value.Some? ==>
      var v := ProcessRecord(r).value.value;
      && ResolveGene(r) == Ok(Some(v.gene))
      && v.gene in RequiredGenes
      && v.rsid == r.id
      && v.chromosome == r.chrom
      && v.position == r.pos
      && v.ref == r.ref
      && Genotype(r) == Ok(v.genotype)
      && v.alt == FirstAlt(r)
    ensures ProcessRecord(r) == Ok(None) <==>
      ResolveGene(r).Ok? && !(ResolveGene(r).value.Some? && ResolveGene(r).value.value in RequiredGenes)
    ensures ProcessRecord(r).Err? <==>
      ResolveGene(r).Err? || (ResolveGene(r).value.Some? && ResolveGene(r).value.value in RequiredGenes && Genotype(r).Err?)
  {
  }

  function StepOutcome(s: ReadStep): Result<Option<Variant>>
  {
    match s
    case ReadError(m) => Err(m)
    case Read(r) => ProcessRecord(r)
  }

  // ---------------------------------------------------------------------------
  // The whole stream
  // ---------------------------------------------------------------------------

  /** The variants kept before the first error, and that error if there is one. */
  datatype Scan = Scan(variants: seq<Variant>, failure: Option<string>)

  function Prepend(vs: seq<Variant>, s: Scan): Scan
  {
    Scan(vs + s.variants, s.failure)
  }

  function OptionToSeq(o: Option<Variant>): seq<Variant>
  {
    if o.Some? then [o.value] else []
  }

  /** The records, in order, up to the first step that raises. */
  function ScanRecords(steps: seq<ReadStep>): (s: Scan)
    ensures |s.variants| <= |steps|
    decreases |steps|
  {
    if steps == [] then Scan([], None)
    else match StepOutcome(steps[0])
      case Err(m) => Scan([], Some(m))
      case Ok(kept) => Prepend(OptionToSeq(kept), ScanRecords(steps[1..]))
  }

  /** The set of genes of a list of variants, built as `parse` builds it, one `add` per variant. */
  function GenesOf(vs: seq<Variant>): set<string>
    decreases |vs|
  {
    if vs == [] then {} else GenesOf(vs[..|vs| - 1]) + {vs[|vs| - 1].gene}
  }

  lemma GenesOfSnoc(vs: seq<Variant>, v: Variant)
    ensures GenesOf(vs + [v]) == GenesOf(vs) + {v.gene}
  {
    assert (vs + [v])[..|vs|] == vs;
  }

  /** The genes of a list are exactly the genes its variants carry. */
  lemma {:induction false} GenesOfMembers(vs: seq<Variant>)
    ensures forall g :: g in GenesOf(vs) <==> exists i :: 0 <= i < |vs| && vs[i].gene == g
    decreases |vs|
  {
    if vs != [] {
      var init := vs[..|vs| - 1];
      GenesOfMembers(init);
      forall g ensures g in GenesOf(vs) <==> exists i :: 0 <= i < |vs| && vs[i].gene == g {
        if g in GenesOf(init) {
          var i :| 0 <= i < |init| && init[i].gene == g;
          assert vs[i].gene == g;
        }
        if exists i :: 0 <= i < |vs| && vs[i].gene == g {
          var i :| 0 <= i < |vs| && vs[i].gene == g;
          if i < |vs| - 1 {
            assert init[i].gene == g;
          }
        }
      }
    }
  }

  /** Every variant that extraction emits belongs to a gene of the panel. */
  lemma {:induction false} ScanGenesInPanel(steps: seq<ReadStep>)
    ensures forall i :: 0 <= i < |ScanRecords(steps).variants| ==> ScanRecords(steps).variants[i].gene in RequiredGenes
    decreases |steps|
  {
    if steps != [] && StepOutcome(steps[0]).Ok? {
      if steps[0].Read? {
        ProcessRecordFields(steps[0].record);
      }
      ScanGenesInPanel(steps[1..]);
    }
  }

  /** What `parse` returns for a stream, as a function of the stream. */
  function ParseSpec(steps: seq<ReadStep>): (res: ParseResult)
    ensures res.success <==> res.error.None?
    ensures res.genesDetected == GenesOf(res.variants)
  {
    var s := ScanRecords(steps);
    ParseResult(s.variants, GenesOf(s.variants), s.failure.None?, s.failure)
  }

  /** One step of the scan, from position `i` of the stream. */
  lemma ScanUnfold(steps: seq<ReadStep>, i: nat)
    requires i < |steps|
    ensures StepOutcome(steps[i]).Err? ==>
      ScanRecords(steps[i..]) == Scan([], Some(StepOutcome(steps[i]).message))
    ensures StepOutcome(steps[i]).Ok? ==>
      ScanRecords(steps[i..]) == Prepend(OptionToSeq(StepOutcome(steps[i]).value), ScanRecords(steps[i + 1..]))
  {
    assert steps[i..][0] == steps[i];
    assert steps[i..][1..] == steps[i + 1..];
  }

  /** Where the scan of the whole stream stands after the step at position `i` raised. */
  lemma ScanStops(steps: seq<ReadStep>, i: nat, done: seq<Variant>, whole: Scan)
    requires i < |steps| && StepOutcome(steps[i]).Err?
    requires whole.variants == done + ScanRecords(steps[i..]).variants
    requires whole.failure == ScanRecords(steps[i..]).failure
    ensures whole == Scan(done, Some(StepOutcome(steps[i]).message))
  {
    ScanUnfold(steps, i);
    assert done + [] == done;
  }

  /** Where the scan of the whole stream stands after the step at position `i` kept `kept`. */
  lemma ScanAdvances(steps: seq<ReadStep>, i: nat, done: seq<Variant>, kept: Option<Variant>, whole: Scan)
    requires i < |steps| && StepOutcome(steps[i]) == Ok(kept)
    requires whole.variants == done + ScanRecords(steps[i..]).variants
    requires whole.failure == ScanRecords(steps[i..]).failure
    ensures whole.variants == (done + OptionToSeq(kept)) + ScanRecords(steps[i + 1..]).variants
    ensures whole.failure == ScanRecords(steps[i + 1..]).failure
  {
    ScanUnfold(steps, i);
    assert (done + OptionToSeq(kept)) + ScanRecords(steps[i + 1..]).variants
        == done + (OptionToSeq(kept) + ScanRecords(steps[i + 1..]).variants);
  }

  /**
   * The body of `parse`'s loop for one record, as statements: resolve the gene, filter,
   * build the variant. `ProcessRecord` specifies it: the same steps as one
   * expression, and the properties of a record's outcome are proved about that function.
   */
  method ExtractRecord(r: Record) returns (o: Result<Option<Variant>>)
    ensures o == ProcessRecord(r)
  {
    var first := FirstGeneValue(r.gene);
    if first.Err? {
      return Err(first.message);
    }
    var name := first.value;
    if !Truthy(name) && Truthy(r.id) {
      name := LookupGeneByRsid(r.id.value);
    }
    if name.Some? && name.value in RequiredGenes {
      var gt := Genotype(r);
      if gt.Err? {
        return Err(gt.message);
      }
      o := Ok(Some(Variant(r.id, r.chrom, r.pos, gt.value, name.value, r.ref, FirstAlt(r))));
    } else {
      o := Ok(None);
    }
  }

  /** `parse`: one pass over the records, appending each kept variant and noting its gene. */
  method Parse(steps: seq<ReadStep>) returns (res: ParseResult)
    ensures res == ParseSpec(steps)
  {
    var variants: seq<Variant> := [];
    var genes: set<string> := {};
    var i := 0;
    while i < |steps|
      invariant 0 <= i <= |steps|
      invariant genes == GenesOf(variants)
      invariant ScanRecords(steps).variants == variants + ScanRecords(steps[i..]).variants
      invariant ScanRecords(steps).failure == ScanRecords(steps[i..]).failure
    {
      var o: Result<Option<Variant>>;
      match steps[i] {
        case ReadError(m) =>
          o := Err(m);
        case Read(r) =>
          o := ExtractRecord(r);
      }
      if o.Err? {
        ScanStops(steps, i, variants, ScanRecords(steps));
        return ParseResult(variants, genes, false, Some(o.message));
      }
      ScanAdvances(steps, i, variants, o.value, ScanRecords(steps));
      if o.value.Some? {
        var v := o.value.value;
        GenesOfSnoc(variants, v);
        variants := variants + [v];
        genes := genes + {v.gene};
      } else {
        assert variants + [] == variants;
      }
      i := i + 1;
    }
    assert steps[i..] == [];
    assert variants + [] == variants;
    res := ParseResult(variants, genes, true, None);
  }

  // ---------------------------------------------------------------------------
  // Properties of extraction
  // ---------------------------------------------------------------------------

  /**
   * Extraction distributes over concatenation: the variants of `a + b` are those of `a`
   * followed by those of `b`, unless `a` already raised, in which case `b` is never read.
   */
  lemma {:induction false} ScanAppend(a: seq<ReadStep>, b: seq<ReadStep>)
    ensures ScanRecords(a + b) ==
      if ScanRecords(a).failure.Some? then ScanRecords(a)
      else Prepend(ScanRecords(a).variants, ScanRecords(b))
    decreases |a|
  {
    if a == [] {
      assert a + b == b;
    } else {
      assert (a + b)[0] == a[0];
      assert (a + b)[1..] == a[1..] + b;
      if StepOutcome(a[0]).Ok? {
        ScanAppend(a[1..], b);
        var pre := OptionToSeq(StepOutcome(a[0]).value);
        assert pre + (ScanRecords(a[1..]).variants + ScanRecords(b).variants)
            == (pre + ScanRecords(a[1..]).variants) + ScanRecords(b).variants;
      }
    }
  }

  /**
   * All or nothing: the first step that raises makes the parse fail with that step's
   * message; the variants kept before it stay in the result, and nothing after it is read.
   */
  lemma ParseFailsAtFirstError(a: seq<ReadStep>, s: ReadStep, b: seq<ReadStep>)
    requires ScanRecords(a).failure.None?
    requires StepOutcome(s).Err?
    ensures ParseSpec(a + [s] + b) ==
      ParseResult(ScanRecords(a).variants, GenesOf(ScanRecords(a).variants), false,
                  Some(StepOutcome(s).message))
  {
    assert a + [s] + b == a + ([s] + b);
    ScanAppend(a, [s] + b);
    assert ScanRecords([s] + b) == Scan([], Some(StepOutcome(s).message));
    assert ScanRecords(a).variants + [] == ScanRecords(a).variants;
  }

  /** A stream without errors parses successfully and keeps one variant per panel record, in order. */
  lemma ParseKeepsOnePerRecord(a: seq<ReadStep>, r: Record)
    requires ScanRecords(a).failure.None?
    requires ProcessRecord(r).Ok?
    ensures ScanRecords(a + [Read(r)]) ==
      Scan(ScanRecords(a).variants + OptionToSeq(ProcessRecord(r).value), None)
  {
    ScanAppend(a, [Read(r)]);
    assert [Read(r)][1..] == [];
  }

  /** A record without a `GENE` entry is kept exactly when its ID is one of the six table rsIDs. */
  lemma RecordWithoutGeneKept(r: Record)
    requires r.gene.Absent?
    requires r.samples == [] || r.samples[0].gtAlleles.Some?
    ensures ProcessRecord(r).Ok?
    ensures ProcessRecord(r).value.Some? <==> r.id.Some? && r.id.value in RsidGene
  {
  }
}
