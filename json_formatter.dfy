/**
 * Assembly of the report for one drug: a prediction and a narrative merged into the
 * fixed report shape, with the derived fields (timestamp, diplotype default, guideline
 * address, monitoring flag, counts and success flags). The wall clock is the parameter
 * `isoTime`, the ISO-8601 text of the current UTC time.
 */
module JsonFormatter {
  import opened Wrappers
  import opened Text
  import opened Guidelines
  import opened VcfParser
  import opened RiskEngine
  import opened LlmService

  /** One detected variant as the report shows it: the position becomes text. */
  datatype VariantEntry = VariantEntry(rsid: Option<string>, chromosome: string, position: string, genotype: string)

  datatype RiskAssessment = RiskAssessment(riskLabel: string, confidenceScore: real, severity: string)

  datatype Profile = Profile(primaryGene: string, diplotype: string, phenotype: string, detectedVariants: seq<VariantEntry>)

  datatype Recommendation = Recommendation(action: string, guidelineReference: string, monitoringRequired: bool)

  datatype Explanation = Explanation(summary: string, biologicalMechanism: string, clinicalImpact: string, variantEvidence: string)

  datatype Quality = Quality(vcfParsingSuccess: bool, genesDetectedCount: nat, llmGenerationSuccess: bool)

  datatype Report = Report(
    patientId: string,
    drug: string,
    timestamp: string,
    riskAssessment: RiskAssessment,
    profile: Profile,
    recommendation: Recommendation,
    explanation: Explanation,
    quality: Quality)

  const GuidelinePrefix: string := "https://cpicpgx.org/guidelines/guideline-for-"
  const DefaultDiplotype: string := "*X/*Y"

  function Entry(v: Variant): VariantEntry
  {
    VariantEntry(v.rsid, v.chromosome, IntToString(v.position), v.genotype)
  }

  /** The detected variants element by element, in order. */
  function Entries(vs: seq<Variant>): (es: seq<VariantEntry>)
    ensures |es| == |vs|
    ensures forall i :: 0 <= i < |vs| ==> es[i] == Entry(vs[i])
  {
    seq(|vs|, i requires 0 <= i < |vs| => Entry(vs[i]))
  }

  /** The variants the prediction lists, or none when it has no such list. */
  function DetectedOf(p: Prediction): seq<Variant>
  {
    if p.detectedVariants.Some? then p.detectedVariants.value else []
  }

  /** The guideline page: the drug name lower-cased, and otherwise used as it is. */
  function GuidelineUrl(drug: string): (url: string)
    ensures StartsWith(url, GuidelinePrefix) && EndsWith(url, "/")
    ensures |url| == |GuidelinePrefix| + |drug| + 1
    ensures forall i :: 0 <= i < |drug| ==> url[|GuidelinePrefix| + i] == LowerChar(drug[i])
  {
    GuidelinePrefix + Lower(drug) + "/"
  }

  function MonitoringRequired(severity: string): bool
  {
    severity != "Low"
  }

  /** `format_output` for a drug name, its prediction, its narrative and the patient. */
  function FormatOutput(drug: string, p: Prediction, n: Narrative, patientId: string, isoTime: string): (r: Report)
    ensures r.profile.detectedVariants == Entries(DetectedOf(p))
    ensures r.quality.genesDetectedCount == |r.profile.detectedVariants| == |DetectedOf(p)|
    ensures r.recommendation.guidelineReference == GuidelineUrl(drug)
    ensures r.quality.vcfParsingSuccess
    ensures r.quality.llmGenerationSuccess <==> n.success == Some(true)
    ensures r.recommendation.monitoringRequired <==> r.riskAssessment.severity != "Low"
    ensures r.profile.diplotype == if p.diplotype.Some? then p.diplotype.value else DefaultDiplotype
    ensures r.timestamp == isoTime + "Z"
  {
    var entries := Entries(DetectedOf(p));
    Report(
      patientId,
      drug,
      isoTime + "Z",
      RiskAssessment(p.riskLabel, p.confidence, p.severity),
      Profile(p.gene, if p.diplotype.Some? then p.diplotype.value else DefaultDiplotype, p.phenotype, entries),
      Recommendation(p.action, GuidelineUrl(drug), MonitoringRequired(p.severity)),
      Explanation(n.summary, n.biologicalMechanism, n.clinicalImpact, n.variantEvidence),
      Quality(true, |entries|, if n.success.Some? then n.success.value else false))
  }

  /** Each reported variant keeps the rsID, chromosome and genotype, and its position reads back as the number. */
  lemma EntriesRoundTrip(vs: seq<Variant>)
    ensures forall i :: 0 <= i < |vs| ==>
      && Entries(vs)[i].rsid == vs[i].rsid
      && Entries(vs)[i].chromosome == vs[i].chromosome
      && Entries(vs)[i].genotype == vs[i].genotype
      && ParseInt(Entries(vs)[i].position) == vs[i].position
  {
    forall i | 0 <= i < |vs|
      ensures ParseInt(Entries(vs)[i].position) == vs[i].position
    {
      ParseIntToString(vs[i].position);
    }
  }

  /** The projection of a concatenation is the concatenation of the projections. */
  lemma EntriesAppend(a: seq<Variant>, b: seq<Variant>)
    ensures Entries(a + b) == Entries(a) + Entries(b)
  {
  }

  /** Two drug names share a guideline page exactly when they agree once lower-cased. */
  lemma GuidelineUrlIdentifiesDrug(a: string, b: string)
    ensures GuidelineUrl(a) == GuidelineUrl(b) <==> Lower(a) == Lower(b)
  {
    if GuidelineUrl(a) == GuidelineUrl(b) {
      var n := |GuidelinePrefix|;
      assert Lower(a) == GuidelineUrl(a)[n..|GuidelineUrl(a)| - 1];
      assert Lower(b) == GuidelineUrl(b)[n..|GuidelineUrl(b)| - 1];
    }
  }

  /** The page does not depend on the case of the name. */
  lemma GuidelineUrlIgnoresCase(drug: string)
    ensures GuidelineUrl(Lower(drug)) == GuidelineUrl(drug)
  {
    LowerIdempotent(drug);
  }

  /** The report copies the prediction's risk, action and phenotype and the narrative's four sections as they are. */
  lemma ReportCopiesVerbatim(drug: string, p: Prediction, n: Narrative, patientId: string, isoTime: string)
    ensures var r := FormatOutput(drug, p, n, patientId, isoTime);
      && r.patientId == patientId && r.drug == drug
      && r.riskAssessment == RiskAssessment(p.riskLabel, p.confidence, p.severity)
      && r.recommendation.action == p.action
      && r.profile.primaryGene == p.gene && r.profile.phenotype == p.phenotype
      && r.explanation == Explanation(n.summary, n.biologicalMechanism, n.clinicalImpact, n.variantEvidence)
  {
  }

  /** Apart from the timestamp, the report is a function of its inputs. */
  lemma OnlyTimestampVaries(drug: string, p: Prediction, n: Narrative, patientId: string, t1: string, t2: string)
    ensures FormatOutput(drug, p, n, patientId, t1).(timestamp := t2 + "Z") == FormatOutput(drug, p, n, patientId, t2)
  {
  }

  /**
   * For a prediction of the engine, monitoring is asked for exactly when the risk is one
   * of Toxic, Ineffective or Adjust Dosage; an unsupported drug needs none.
   */
  lemma MonitoringFollowsRisk(drug: string, n: Narrative, patientId: string, isoTime: string,
                              drugName: string, vs: seq<Variant>)
    ensures var p := Predict(drugName, vs); var r := FormatOutput(drug, p, n, patientId, isoTime);
      r.recommendation.monitoringRequired <==> p.riskLabel in {"Toxic", "Ineffective", "Adjust Dosage"}
  {
  }

  /** The count of an unsupported drug's report is zero: its prediction lists no variants. */
  lemma UnsupportedDrugCountsNothing(drug: string, n: Narrative, patientId: string, isoTime: string,
                                     drugName: string, vs: seq<Variant>)
    requires NormalizeDrug(drugName) !in DrugGene
    ensures FormatOutput(drug, Predict(drugName, vs), n, patientId, isoTime).quality.genesDetectedCount == 0
  {
  }

  /** The engine never sets a diplotype, so every report shows the placeholder. */
  lemma DiplotypeAlwaysPlaceholder(drug: string, n: Narrative, patientId: string, isoTime: string,
                                   drugName: string, vs: seq<Variant>)
    ensures FormatOutput(drug, Predict(drugName, vs), n, patientId, isoTime).profile.diplotype == DefaultDiplotype
  {
  }
}
