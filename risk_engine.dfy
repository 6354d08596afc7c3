/**
 * The risk engine: for one drug, resolve its gene, keep that gene's variants, infer a
 * phenotype code from marker rsIDs, look the rule up and apply the fixed confidence
 * policy and the no-rule fallback.
 */
module RiskEngine {
  import opened Wrappers
  import opened Text
  import opened Guidelines
  import opened VcfParser

  /** The risk labels a prediction may carry: the four rule risks and "Unknown". */
  const RiskLabels: set<string> := {"Safe", "Adjust Dosage", "Toxic", "Ineffective", "Unknown"}

  /** The codes a marker rsID stands for. */
  const MarkerCodes: set<string> := {"UM", "PM", "deficient", "low"}

  /** The codes phenotype inference can return: a marker's code, or "NM" when no marker is found. */
  const InferableCodes: set<string> := {"NM", "UM", "PM", "deficient", "low"}

  /**
   * The outcome of `predict` for one drug. `detectedVariants` is `None` for an
   * unsupported drug, whose result has no such key; `diplotype` is never set by the
   * engine and stands for the optional key the report reads.
   */
  datatype Prediction = Prediction(
    riskLabel: string,
    severity: string,
    confidence: real,
    action: string,
    gene: string,
    phenotype: string,
    detectedVariants: Option<seq<Variant>>,
    diplotype: Option<string>)

  /** `drug_name.upper().strip()`. */
  function NormalizeDrug(name: string): string
  {
    Strip(Upper(name))
  }

  /** `[v for v in variants if v['gene'] == gene]`. */
  function FilterGene(vs: seq<Variant>, gene: string): (r: seq<Variant>)
    ensures |r| <= |vs|
    ensures forall i :: 0 <= i < |r| ==> r[i].gene == gene
    ensures forall v :: v in r <==> v in vs && v.gene == gene
    decreases |vs|
  {
    if vs == [] then []
    else if vs[0].gene == gene then [vs[0]] + FilterGene(vs[1..], gene)
    else FilterGene(vs[1..], gene)
  }

  /** The phenotype code a marker rsID stands for, when it is one of the five markers. */
  function MarkerCode(rsid: Option<string>): Option<string>
  {
    if rsid == Some("rs12248560") then Some("UM")
    else if rsid == Some("rs1057910") then Some("PM")
    else if rsid == Some("rs4149056") then Some("deficient")
    else if rsid == Some("rs1142345") then Some("low")
    else if rsid == Some("rs1801133") then Some("deficient")
    else None
  }

  predicate IsMarker(v: Variant)
  {
    MarkerCode(v.rsid).Some?
  }

  /** The code of the first variant, in order, that carries a marker rsID. */
  function FirstMarkerCode(vs: seq<Variant>): (c: Option<string>)
    ensures c.Some? ==> c.value in MarkerCodes
    decreases |vs|
  {
    if vs == [] then None
    else if IsMarker(vs[0]) then MarkerCode(vs[0].rsid)
    else FirstMarkerCode(vs[1..])
  }

  /**
   * `_infer_phenotype`: "NM" for no variants, otherwise the first marker's code, "NM"
   * when there is none. The gene argument takes no part, as in the source: the marker
   * list is not scoped to the gene.
   */
  function InferPhenotype(gene: string, vs: seq<Variant>): (code: string)
    ensures code in InferableCodes
  {
    if vs == [] then "NM"
    else match FirstMarkerCode(vs)
      case Some(c) => c
      case None => "NM"
  }

  /** `predict`. */
  function Predict(drugName: string, variants: seq<Variant>): (p: Prediction)
    ensures p.riskLabel in RiskLabels && p.severity in Severities
    ensures p.severity == SeverityFor(p.riskLabel)
    ensures 0.0 <= p.confidence <= 1.0
    ensures p.detectedVariants.None? <==> NormalizeDrug(drugName) !in DrugGene
    ensures p.detectedVariants.Some? ==>
      p.gene == DrugGene[NormalizeDrug(drugName)] && p.detectedVariants.value == FilterGene(variants, p.gene)
    ensures p.diplotype.None?
  {
    var drug := NormalizeDrug(drugName);
    if drug !in DrugGene then
      Prediction("Unknown", "Low", 0.0, "Drug not supported in current database.", "N/A", "Unknown", None, None)
    else
      var gene := DrugGene[drug];
      var geneVariants := FilterGene(variants, gene);
      var code := InferPhenotype(gene, geneVariants);
      match LookupRule(drug, gene, code)
      case Some(rule) =>
        RuleLabelsCanonical();
        SeverityFollowsRisk();
        Prediction(rule.risk, rule.severity, if geneVariants != [] then 0.95 else 0.5,
                   rule.action, gene, code, Some(geneVariants), None)
      case None =>
        Prediction("Safe", "Low", 0.8, "No specific risk variants detected for this gene.",
                   gene, "Normal Metabolizer", Some(geneVariants), None)
  }

  // ---------------------------------------------------------------------------
  // Properties of the gene filter and of phenotype inference
  // ---------------------------------------------------------------------------

  /** The gene filter keeps order: filtering a concatenation concatenates the filtered parts. */
  lemma {:induction false} FilterGeneAppend(a: seq<Variant>, b: seq<Variant>, gene: string)
    ensures FilterGene(a + b, gene) == FilterGene(a, gene) + FilterGene(b, gene)
    decreases |a|
  {
    if a == [] {
      assert a + b == b;
    } else {
      assert (a + b)[0] == a[0];
      assert (a + b)[1..] == a[1..] + b;
      FilterGeneAppend(a[1..], b, gene);
    }
  }

  /** If no variant carries a marker, inference returns "NM". */
  lemma {:induction false} NoMarkerMeansNM(gene: string, vs: seq<Variant>)
    requires forall i :: 0 <= i < |vs| ==> !IsMarker(vs[i])
    ensures InferPhenotype(gene, vs) == "NM"
  {
    NoMarkerNone(vs);
  }

  lemma {:induction false} NoMarkerNone(vs: seq<Variant>)
    requires forall i :: 0 <= i < |vs| ==> !IsMarker(vs[i])
    ensures FirstMarkerCode(vs) == None
    decreases |vs|
  {
    if vs != [] {
      assert !IsMarker(vs[0]);
      NoMarkerNone(vs[1..]);
    }
  }

  /** First match: the marker at `k` decides when no variant before it is a marker. */
  lemma {:induction false} FirstMarkerDecides(gene: string, vs: seq<Variant>, k: nat)
    requires k < |vs| && IsMarker(vs[k])
    requires forall i :: 0 <= i < k ==> !IsMarker(vs[i])
    ensures InferPhenotype(gene, vs) == MarkerCode(vs[k].rsid).value
  {
    FirstMarkerAt(vs, k);
  }

  lemma {:induction false} FirstMarkerAt(vs: seq<Variant>, k: nat)
    requires k < |vs| && IsMarker(vs[k])
    requires forall i :: 0 <= i < k ==> !IsMarker(vs[i])
    ensures FirstMarkerCode(vs) == MarkerCode(vs[k].rsid)
    decreases k
  {
    if k > 0 {
      assert !IsMarker(vs[0]);
      FirstMarkerAt(vs[1..], k - 1);
    }
  }

  /** Inference depends on order: two markers in either order give either code. */
  lemma InferenceIsOrderSensitive(a: Variant, b: Variant, gene: string)
    requires a.rsid == Some("rs1057910") && b.rsid == Some("rs12248560")
    ensures InferPhenotype(gene, [a, b]) == "PM"
    ensures InferPhenotype(gene, [b, a]) == "UM"
  {
  }

  /** Every marker's code is a phenotype code of the gene its rsID resolves to. */
  lemma MarkerCodesBelongToTheirGene()
    ensures forall rs :: rs in RsidGene && MarkerCode(Some(rs)).Some? ==>
      RsidGene[rs] in GenePhenotypes && MarkerCode(Some(rs)).value in GenePhenotypes[RsidGene[rs]]
    ensures MarkerCode(Some("rs1061170")).None?
  {
  }

  /** The tables and the panel agree: every gene the drug map or the label map names is in the panel. */
  lemma KnowledgeBaseGenesInPanel()
    ensures forall drug :: drug in DrugGene ==> DrugGene[drug] in RequiredGenes
    ensures forall gene :: gene in GenePhenotypes <==> gene in RequiredGenes
  {
  }

  // ---------------------------------------------------------------------------
  // Properties of predict
  // ---------------------------------------------------------------------------

  /** The case of the letters and surrounding whitespace of the drug name do not change the prediction. */
  lemma PredictIgnoresCaseAndPadding(name: string, ws: string, ws': string, vs: seq<Variant>)
    requires AllSpace(ws) && AllSpace(ws')
    ensures Predict(Lower(name), vs) == Predict(name, vs)
    ensures Predict(ws + name + ws', vs) == Predict(name, vs)
  {
    NormalizedNames(name, ws, ws');
    PredictByNormalizedName(Lower(name), name, vs);
    PredictByNormalizedName(ws + name + ws', name, vs);
  }

  /** Lower-casing and whitespace padding leave the normalised name unchanged. */
  lemma NormalizedNames(name: string, ws: string, ws': string)
    requires AllSpace(ws) && AllSpace(ws')
    ensures NormalizeDrug(Lower(name)) == NormalizeDrug(name)
    ensures NormalizeDrug(ws + name + ws') == NormalizeDrug(name)
  {
    UpperOfLower(name);
    UpperAppend(ws, name);
    UpperAppend(ws + name, ws');
    UpperKeepsSpace(ws);
    UpperKeepsSpace(ws');
    StripPadded(ws, Upper(name), ws');
  }

  /** The prediction reads the drug name only through its normalised form. */
  lemma PredictByNormalizedName(a: string, b: string, vs: seq<Variant>)
    requires NormalizeDrug(a) == NormalizeDrug(b)
    ensures Predict(a, vs) == Predict(b, vs)
  {
  }

  /** An unsupported drug: Unknown, Low, 0.0, gene "N/A", phenotype "Unknown", no variant list. */
  lemma PredictUnsupported(drugName: string, vs: seq<Variant>)
    requires NormalizeDrug(drugName) !in DrugGene
    ensures Predict(drugName, vs) ==
      Prediction("Unknown", "Low", 0.0, "Drug not supported in current database.", "N/A", "Unknown", None, None)
  {
  }

  /**
   * A rule hit: risk, severity and action come from the rule, the phenotype is the
   * inferred code, and confidence is 0.95 when variants of the gene were found, else 0.5.
   */
  lemma PredictRuleHit(drugName: string, vs: seq<Variant>, drug: string, gene: string, code: string, rule: Rule)
    requires NormalizeDrug(drugName) == drug && drug in DrugGene && DrugGene[drug] == gene
    requires InferPhenotype(gene, FilterGene(vs, gene)) == code
    requires LookupRule(drug, gene, code) == Some(rule)
    ensures Predict(drugName, vs) ==
      Prediction(rule.risk, rule.severity, if FilterGene(vs, gene) != [] then 0.95 else 0.5, rule.action,
                 gene, code, Some(FilterGene(vs, gene)), None)
  {
  }

  /**
   * No rule for the inferred code: Safe, Low, 0.8 and the label "Normal Metabolizer",
   * whatever code was inferred.
   */
  lemma PredictFallback(drugName: string, vs: seq<Variant>, drug: string, gene: string, code: string)
    requires NormalizeDrug(drugName) == drug && drug in DrugGene && DrugGene[drug] == gene
    requires InferPhenotype(gene, FilterGene(vs, gene)) == code
    requires LookupRule(drug, gene, code).None?
    ensures Predict(drugName, vs) ==
      Prediction("Safe", "Low", 0.8, "No specific risk variants detected for this gene.",
                 gene, "Normal Metabolizer", Some(FilterGene(vs, gene)), None)
  {
  }

  /** No inferable code reads like the fallback's phenotype label. */
  lemma InferableIsNotALabel(code: string)
    requires code in InferableCodes
    ensures code != "Normal Metabolizer"
  {
  }

  lemma InferableCodeNeverIMOrNormal(code: string)
    requires code in InferableCodes
    ensures code != "IM" && code != "normal"
  {
  }

  /** Confidence is one of the four policy values, and each value tells which path was taken. */
  lemma ConfidencePolicy(drugName: string, vs: seq<Variant>)
    ensures var p := Predict(drugName, vs);
      && (p.confidence == 0.0 <==> NormalizeDrug(drugName) !in DrugGene)
      && (p.confidence == 0.95 <==> p.detectedVariants.Some? && p.detectedVariants.value != [] && p.phenotype != "Normal Metabolizer")
      && (p.confidence == 0.5 <==> p.detectedVariants.Some? && p.detectedVariants.value == [] && p.phenotype != "Normal Metabolizer")
      && (p.confidence == 0.8 <==> p.detectedVariants.Some? && p.phenotype == "Normal Metabolizer")
  {
    var drug := NormalizeDrug(drugName);
    if drug in DrugGene {
      var gene := DrugGene[drug];
      var code := InferPhenotype(gene, FilterGene(vs, gene));
      InferableIsNotALabel(code);
      match LookupRule(drug, gene, code)
      case Some(rule) => PredictRuleHit(drugName, vs, drug, gene, code, rule);
      case None => PredictFallback(drugName, vs, drug, gene, code);
    } else {
      PredictUnsupported(drugName, vs);
    }
  }

  /**
   * Inference never returns "IM" or "normal", so the rules keyed by them are
   * unreachable: no prediction is ever "Adjust Dosage", and none reports the code "normal".
   */
  lemma UnreachableRules(drugName: string, vs: seq<Variant>)
    ensures Predict(drugName, vs).riskLabel != "Adjust Dosage"
    ensures Predict(drugName, vs).phenotype !in {"IM", "normal"}
  {
    var drug := NormalizeDrug(drugName);
    if drug in DrugGene {
      var gene := DrugGene[drug];
      var code := InferPhenotype(gene, FilterGene(vs, gene));
      InferableCodeNeverIMOrNormal(code);
      match LookupRule(drug, gene, code)
      case Some(rule) =>
        PredictRuleHit(drugName, vs, drug, gene, code, rule);
        AdjustDosageOnlyForIM();
      case None => PredictFallback(drugName, vs, drug, gene, code);
    } else {
      PredictUnsupported(drugName, vs);
    }
  }
}
