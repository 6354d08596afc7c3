/**
 * The upload request end to end: the input checks, validation and parsing of the
 * file, and then, for each drug name in the order typed, prediction, narrative and
 * report, one saved assessment per name. The services the request depends on (the
 * API key, the chat call, the JSON decoder, the clock and the new patient's ID) are
 * inputs.
 */
module Pipeline {
  import opened Wrappers
  import opened Text
  import opened Guidelines
  import opened VcfParser
  import opened RiskEngine
  import opened LlmService
  import opened JsonFormatter
  import opened DrugList

  /** The form: whether a file was uploaded, where it is stored, whether it is there, its records, the drug text. */
  datatype Submission = Submission(
    uploaded: bool,
    path: string,
    fileExists: bool,
    steps: seq<ReadStep>,
    drugs: string)

  /** What the request relies on from outside: `clock(k)` is the time text when the k-th report is formatted. */
  datatype Services = Services(
    apiKey: Option<string>,
    post: Request -> Transport,
    loads: string -> Decoded,
    clock: nat -> string,
    patientId: string)

  /** The row saved for one drug. */
  datatype Assessment = Assessment(drugName: string, riskLabel: string, confidence: real, severity: string, report: Report)

  /**
   * The page shown again with an error; the assessments saved before redirecting to the
   * results; or an exception that escaped the handler, with the assessments saved before it.
   */
  datatype Outcome =
    | Rejected(error: string)
    | Completed(assessments: seq<Assessment>)
    | Raised(message: string, assessments: seq<Assessment>)

  const MissingInput: string := "Please provide both a VCF file and target medications."

  // ---------------------------------------------------------------------------
  // The checks before any drug
  // ---------------------------------------------------------------------------

  /** The variants of an accepted upload, or the error the page is shown again with. */
  function Admitted(sub: Submission): (r: Result<seq<Variant>>)
    ensures r.Ok? <==> sub.uploaded && sub.drugs != [] && Validate(sub.fileExists, sub.path).0 && ParseSpec(sub.steps).success
    ensures r.Ok? ==> r.value == ParseSpec(sub.steps).variants
  {
    if !sub.uploaded || sub.drugs == [] then Err(MissingInput)
    else
      var (ok, message) := Validate(sub.fileExists, sub.path);
      if !ok then Err(message)
      else
        var parsed := ParseSpec(sub.steps);
        if !parsed.success then Err(parsed.error.value)
        else Ok(parsed.variants)
  }

  // ---------------------------------------------------------------------------
  // One drug, and all of them
  // ---------------------------------------------------------------------------

  /** What the engine's result hands to the narrative service. */
  function DataFor(drugName: string, p: Prediction): ExplanationData
  {
    ExplanationData(drugName, p.gene, p.phenotype, p.riskLabel, DetectedOf(p))
  }

  /** The row saved for the `k`-th drug from its prediction and its narrative. */
  function Row(drugName: string, p: Prediction, n: Narrative, svc: Services, k: nat): Assessment
  {
    var r := FormatOutput(drugName, p, n, svc.patientId, svc.clock(k));
    Assessment(drugName, p.riskLabel, p.confidence, p.severity, r)
  }

  /** Predict, explain, format and save for the `k`-th drug, with the rsID list corrected. */
  function AssessDrugCorrected(drugName: string, variants: seq<Variant>, svc: Services, k: nat): Assessment
  {
    var p := Predict(drugName, variants);
    Row(drugName, p, GenerateExplanation(svc.apiKey, DataFor(drugName, p), svc.post, svc.loads), svc, k)
  }

  /**
   * Predict, explain, format and save for the `k`-th drug, as the handler does it: the
   * explanation raises exactly when a key is set and a detected variant has no rsID,
   * and otherwise the row is the corrected one.
   */
  function AssessDrug(drugName: string, variants: seq<Variant>, svc: Services, k: nat): (r: Result<Assessment>)
    ensures r.Err? <==>
      Configured(svc.apiKey) && RsidListAsWritten(DetectedOf(Predict(drugName, variants))).Err?
    ensures r.Ok? ==> r.value == AssessDrugCorrected(drugName, variants, svc, k)
  {
    var p := Predict(drugName, variants);
    match GenerateExplanationAsWritten(svc.apiKey, DataFor(drugName, p), svc.post, svc.loads)
    case Err(m) => Err(m)
    case Ok(n) => Ok(Row(drugName, p, n, svc, k))
  }

  /** The saved row and its report agree with each other and with the prediction for the name. */
  lemma AssessDrugFields(drugName: string, variants: seq<Variant>, svc: Services, k: nat)
    ensures var a := AssessDrugCorrected(drugName, variants, svc, k); var p := Predict(drugName, variants);
      && a.drugName == drugName && a.report.drug == drugName
      && a.riskLabel == p.riskLabel == a.report.riskAssessment.riskLabel
      && a.confidence == p.confidence == a.report.riskAssessment.confidenceScore
      && a.severity == p.severity == a.report.riskAssessment.severity
      && a.report.patientId == svc.patientId
      && a.report.timestamp == svc.clock(k) + "Z"
  {
  }

  /** The assessor of one request: the `k`-th name is assessed with the parsed variants at `clock(k)`. */
  function Assessor(variants: seq<Variant>, svc: Services): (string, nat) -> Result<Assessment>
  {
    (name: string, k: nat) => AssessDrug(name, variants, svc, k)
  }

  function CorrectedAssessor(variants: seq<Variant>, svc: Services): (string, nat) -> Assessment
  {
    (name: string, k: nat) => AssessDrugCorrected(name, variants, svc, k)
  }

  /**
   * The whole request as the handler runs it: the checks, then one assessment per drug
   * name until one raises, which ends the request with the rows saved so far.
   */
  function RunSpec(sub: Submission, svc: Services): (o: Outcome)
    ensures o.Rejected? <==> Admitted(sub).Err?
    ensures o.Rejected? ==> o.error == Admitted(sub).message
  {
    match Admitted(sub)
    case Err(e) => Rejected(e)
    case Ok(variants) =>
      var s := SaveUntil(DrugNames(sub.drugs), Assessor(variants, svc));
      if s.raised.Some? then Raised(s.raised.value, s.rows) else Completed(s.rows)
  }

  /** The request with the rsID list corrected: every accepted upload completes with one row per name. */
  function RunCorrectedSpec(sub: Submission, svc: Services): (o: Outcome)
    ensures o.Rejected? <==> Admitted(sub).Err?
    ensures o.Rejected? ==> o.error == Admitted(sub).message
    ensures !o.Rejected? ==> o.Completed? && |o.assessments| == |DrugNames(sub.drugs)|
  {
    match Admitted(sub)
    case Err(e) => Rejected(e)
    case Ok(variants) => Completed(AssessAll(DrugNames(sub.drugs), CorrectedAssessor(variants, svc)))
  }

  /** The request handler: parse the records, then walk the comma-separated pieces, saving one assessment per name. */
  method Run(sub: Submission, svc: Services) returns (o: Outcome)
    ensures o == RunSpec(sub, svc)
  {
    if !sub.uploaded || sub.drugs == [] {
      return Rejected(MissingInput);
    }
    var (ok, message) := Validate(sub.fileExists, sub.path);
    if !ok {
      return Rejected(message);
    }
    var parsed := Parse(sub.steps);
    if !parsed.success {
      return Rejected(parsed.error.value);
    }
    var saved, raised := SaveAll(Split(sub.drugs, ','), Assessor(parsed.variants, svc));
    if raised.Some? {
      return Raised(raised.value, saved);
    }
    return Completed(saved);
  }

  // ---------------------------------------------------------------------------
  // Properties of the request
  // ---------------------------------------------------------------------------

  /** The checks come in order: missing input, then validation, then parsing. */
  lemma RejectionOrder(sub: Submission, svc: Services)
    ensures !sub.uploaded || sub.drugs == [] ==> RunSpec(sub, svc) == Rejected(MissingInput)
    ensures sub.uploaded && sub.drugs != [] && !sub.fileExists ==>
      RunSpec(sub, svc) == Rejected("File does not exist.")
    ensures sub.uploaded && sub.drugs != [] && !Validate(sub.fileExists, sub.path).0 ==>
      RunSpec(sub, svc) == Rejected(Validate(sub.fileExists, sub.path).1)
    ensures sub.uploaded && sub.drugs != [] && sub.fileExists && !EndsWith(sub.path, ".vcf") ==>
      RunSpec(sub, svc) == Rejected("Not a VCF file.")
    ensures sub.uploaded && sub.drugs != [] && Validate(sub.fileExists, sub.path).0 && ParseSpec(sub.steps).error.Some? ==>
      RunSpec(sub, svc) == Rejected(ParseSpec(sub.steps).error.value)
    ensures !RunSpec(sub, svc).Rejected? <==>
      sub.uploaded && sub.drugs != [] && Validate(sub.fileExists, sub.path).0 && ParseSpec(sub.steps).success
  {
  }

  /**
   * Every row an accepted request saves is the corrected assessment of its name, at its
   * position, from the parsed variants: the handler's rows differ from the corrected
   * handler's only in where they stop.
   */
  lemma SavedRowsAreCorrected(sub: Submission, svc: Services, i: nat)
    requires !RunSpec(sub, svc).Rejected? && i < |RunSpec(sub, svc).assessments|
    ensures i < |DrugNames(sub.drugs)|
    ensures RunSpec(sub, svc).assessments[i] ==
      AssessDrugCorrected(DrugNames(sub.drugs)[i], ParseSpec(sub.steps).variants, svc, i)
  {
    var names := DrugNames(sub.drugs);
    var assess := Assessor(ParseSpec(sub.steps).variants, svc);
    SaveUntilRows(names, assess);
    assert assess(names[i], i).Ok?;
  }

  /**
   * An accepted request saves one assessment per drug name, in the order typed, each
   * predicted from the parsed variants; a completed one saves them all.
   */
  lemma OnePerNameInOrder(sub: Submission, svc: Services, i: nat)
    requires !RunSpec(sub, svc).Rejected?
    ensures var o := RunSpec(sub, svc); var out := o.assessments; var names := DrugNames(sub.drugs);
      && |out| <= |names|
      && (o.Completed? ==> |out| == |names|)
      && (i < |out| ==>
            && out[i].drugName == names[i]
            && out[i].riskLabel == Predict(names[i], ParseSpec(sub.steps).variants).riskLabel
            && out[i].report.timestamp == svc.clock(i) + "Z")
  {
    if i < |RunSpec(sub, svc).assessments| {
      SavedRowsAreCorrected(sub, svc, i);
      AssessDrugFields(DrugNames(sub.drugs)[i], ParseSpec(sub.steps).variants, svc, i);
    }
  }

  /** A request that raised stops at the name right after the saved rows, with that name's error. */
  lemma RaisedAtNextName(sub: Submission, svc: Services)
    requires RunSpec(sub, svc).Raised?
    ensures var o := RunSpec(sub, svc); var names := DrugNames(sub.drugs);
      && |o.assessments| < |names|
      && AssessDrug(names[|o.assessments|], ParseSpec(sub.steps).variants, svc, |o.assessments|) == Err(o.message)
  {
    SaveUntilRows(DrugNames(sub.drugs), Assessor(ParseSpec(sub.steps).variants, svc));
  }

  /**
   * A key is set and the first drug's gene has a variant without an rsID: the request
   * raises at that drug, before any assessment is saved.
   */
  lemma UnnamedVariantRaisesRequest(sub: Submission, svc: Services, j: nat)
    requires Admitted(sub).Ok? && Configured(svc.apiKey)
    requires |DrugNames(sub.drugs)| > 0 && NormalizeDrug(DrugNames(sub.drugs)[0]) in DrugGene
    requires j < |ParseSpec(sub.steps).variants| && ParseSpec(sub.steps).variants[j].rsid.None?
    requires ParseSpec(sub.steps).variants[j].gene == DrugGene[NormalizeDrug(DrugNames(sub.drugs)[0])]
    ensures RunSpec(sub, svc).Raised? && RunSpec(sub, svc).assessments == []
  {
    var names := DrugNames(sub.drugs);
    var variants := ParseSpec(sub.steps).variants;
    UnnamedVariantReachesExplanation(names[0], variants, j, svc.apiKey, svc.post, svc.loads);
    assert Assessor(variants, svc)(names[0], 0).Err?;
    SaveUntilFirstRaises(names, Assessor(variants, svc));
  }

  /**
   * Without a key, or where every parsed variant has an rsID, the handler as written and
   * the corrected one have the same outcome.
   */
  lemma RunsAgreeWhenNamed(sub: Submission, svc: Services)
    requires !Configured(svc.apiKey) ||
      forall j :: 0 <= j < |ParseSpec(sub.steps).variants| ==> ParseSpec(sub.steps).variants[j].rsid.Some?
    ensures RunSpec(sub, svc) == RunCorrectedSpec(sub, svc)
  {
    if Admitted(sub).Ok? {
      var names := DrugNames(sub.drugs);
      var variants := ParseSpec(sub.steps).variants;
      var assess := Assessor(variants, svc);
      var row := CorrectedAssessor(variants, svc);
      forall i | 0 <= i < |names|
        ensures assess(names[i], i) == Ok(row(names[i], i))
      {
        AssessDrugNamed(names[i], variants, svc, i);
      }
      SaveUntilNeverRaises(names, assess, row);
    }
  }

  /** A drug whose detected variants all have rsIDs, or any drug without a key, never raises. */
  lemma AssessDrugNamed(name: string, variants: seq<Variant>, svc: Services, k: nat)
    requires !Configured(svc.apiKey) || forall j :: 0 <= j < |variants| ==> variants[j].rsid.Some?
    ensures AssessDrug(name, variants, svc, k) == Ok(AssessDrugCorrected(name, variants, svc, k))
  {
    if Configured(svc.apiKey) {
      var detected := DetectedOf(Predict(name, variants));
      DetectedFromVariants(name, variants);
      RsidListOfNamedSource(detected, variants);
      assert RsidListAsWritten(detected).Ok?;
    }
  }

  /** The variants a prediction lists are among the ones it was given. */
  lemma DetectedFromVariants(name: string, variants: seq<Variant>)
    ensures forall v :: v in DetectedOf(Predict(name, variants)) ==> v in variants
  {
  }

  /**
   * With the rsID list corrected the narrative never decides the outcome: with any key,
   * chat service and decoder the request completes or is rejected alike, and every saved
   * risk, confidence and severity stays the same.
   */
  lemma NarrativeNeverAborts(sub: Submission, svc: Services, other: Services, i: nat)
    ensures RunCorrectedSpec(sub, svc).Completed? <==> RunCorrectedSpec(sub, other).Completed?
    ensures RunCorrectedSpec(sub, svc).Completed? && i < |RunCorrectedSpec(sub, svc).assessments| ==>
      var a := RunCorrectedSpec(sub, svc).assessments[i]; var b := RunCorrectedSpec(sub, other).assessments[i];
      a.drugName == b.drugName && a.riskLabel == b.riskLabel
      && a.confidence == b.confidence && a.severity == b.severity
  {
    if RunCorrectedSpec(sub, svc).Completed? && i < |RunCorrectedSpec(sub, svc).assessments| {
      var names := DrugNames(sub.drugs);
      AssessAllAt(names, CorrectedAssessor(ParseSpec(sub.steps).variants, svc), i);
      AssessAllAt(names, CorrectedAssessor(ParseSpec(sub.steps).variants, other), i);
      AssessDrugFields(names[i], ParseSpec(sub.steps).variants, svc, i);
      AssessDrugFields(names[i], ParseSpec(sub.steps).variants, other, i);
    }
  }

  /** An accepted drug text of blanks and commas only saves nothing. */
  lemma BlankDrugListSavesNothing(sub: Submission, svc: Services)
    requires Admitted(sub).Ok?
    requires Blank(sub.drugs)
    ensures RunSpec(sub, svc) == Completed([])
  {
    BlankTextNoNames(sub.drugs);
  }

  /**
   * A record with no ID but an explicit panel gene is kept with an rsID of `None` and so
   * reaches the narrative; there the rsID list as written raises for it.
   */
  lemma UnnamedVariantReachesExplanation(name: string, variants: seq<Variant>, j: nat, apiKey: Option<string>,
                                         post: Request -> Transport, loads: string -> Decoded)
    requires Configured(apiKey)
    requires NormalizeDrug(name) in DrugGene
    requires j < |variants| && variants[j].rsid.None? && variants[j].gene == DrugGene[NormalizeDrug(name)]
    ensures GenerateExplanationAsWritten(apiKey, DataFor(name, Predict(name, variants)), post, loads).Err?
  {
    var d := DetectedOf(Predict(name, variants));
    assert variants[j] in d;
    var k :| 0 <= k < |d| && d[k] == variants[j];
    UnnamedVariantRaises(apiKey, DataFor(name, Predict(name, variants)), post, loads, k);
  }

  /** The parser keeps such a record: no ID, a first `GENE` value naming a panel gene, no samples. */
  lemma UnnamedRecordKept(r: Record)
    requires r.id.None? && r.gene.Values? && |r.gene.values| >= 1
    requires r.gene.values[0].Some? && r.gene.values[0].value in RequiredGenes
    requires r.samples == []
    ensures ProcessRecord(r).Ok? && ProcessRecord(r).value.Some?
    ensures ProcessRecord(r).value.value.rsid.None?
    ensures ProcessRecord(r).value.value.gene == r.gene.values[0].value
  {
    ProcessRecordFields(r);
  }
}
