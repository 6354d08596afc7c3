/**
 * Concrete cases of the risk engine, each computed from the tables: WARFARIN with
 * rs1057910, CODEINE without CYP2D6 variants, the unsupported ASPIRIN, a padded
 * lower-case name, and the consequences of the marker list not being scoped to the gene. Each case holds for every spelling of the drug name that normalises
 * to the table's key, and for every variant with the given gene and rsID.
 */
module Scenarios {
  import opened Wrappers
  import opened Text
  import opened Guidelines
  import opened VcfParser
  import opened RiskEngine

  /** A name in capitals with no whitespace is already normalised. */
  lemma NormalizedName(s: string)
    requires s != [] && forall i :: 0 <= i < |s| ==> IsUpperAscii(s[i])
    ensures NormalizeDrug(s) == s
  {
    assert Upper(s) == s;
    StripUnpadded(s);
  }

  lemma WarfarinName()
    ensures NormalizeDrug("WARFARIN") == "WARFARIN"
  {
    NormalizedName("WARFARIN");
  }

  lemma AspirinName()
    ensures NormalizeDrug("ASPIRIN") == "ASPIRIN" && "ASPIRIN" !in DrugGene
  {
    NormalizedName("ASPIRIN");
  }

  /** The table entries the cases below go through. */
  lemma CaseEntries()
    ensures "WARFARIN" in DrugGene && DrugGene["WARFARIN"] == "CYP2C9"
    ensures "CODEINE" in DrugGene && DrugGene["CODEINE"] == "CYP2D6"
    ensures "SIMVASTATIN" in DrugGene && DrugGene["SIMVASTATIN"] == "SLCO1B1"
    ensures "CLOPIDOGREL" in DrugGene && DrugGene["CLOPIDOGREL"] == "CYP2C19"
  {
  }

  /** The rule lookups the cases below make. */
  lemma CaseRules()
    ensures LookupRule("WARFARIN", "CYP2C9", "PM") ==
      Some(Rule("Toxic", "High", "Significant dose reduction required."))
    ensures LookupRule("CODEINE", "CYP2D6", "NM") == Some(Rule("Safe", "Low", "Normal therapeutic dose."))
    ensures LookupRule("SIMVASTATIN", "SLCO1B1", "NM").None?
    ensures LookupRule("CLOPIDOGREL", "CYP2C19", "UM").None?
    ensures LookupRule("WARFARIN", "CYP2C9", "deficient").None?
  {
  }

  /** The markers the cases below carry. */
  lemma CaseMarkers()
    ensures MarkerCode(Some("rs1057910")) == Some("PM")
    ensures MarkerCode(Some("rs12248560")) == Some("UM")
    ensures MarkerCode(Some("rs4149056")) == Some("deficient")
  {
  }

  /** A lone variant of the gene carrying a marker is what the filter keeps, and its code is inferred. */
  lemma LoneMarker(v: Variant, gene: string, code: string)
    requires v.gene == gene && MarkerCode(v.rsid) == Some(code)
    ensures FilterGene([v], gene) == [v]
    ensures InferPhenotype(gene, [v]) == code
  {
    assert [v][1..] == [];
  }

  /** No variant of the gene survives the filter when none is annotated with it. */
  lemma NoneOfTheGene(vs: seq<Variant>, gene: string)
    requires forall i :: 0 <= i < |vs| ==> vs[i].gene != gene
    ensures FilterGene(vs, gene) == []
    ensures InferPhenotype(gene, []) == "NM"
  {
  }

  /** WARFARIN with the CYP2C9 marker rs1057910: poor metabolizer, Toxic, High, 0.95. */
  lemma WarfarinPoorMetabolizer(name: string, v: Variant)
    requires NormalizeDrug(name) == "WARFARIN"
    requires v.gene == "CYP2C9" && v.rsid == Some("rs1057910")
    ensures Predict(name, [v]) ==
      Prediction("Toxic", "High", 0.95, "Significant dose reduction required.", "CYP2C9", "PM", Some([v]), None)
  {
    CaseEntries();
    CaseRules();
    CaseMarkers();
    LoneMarker(v, "CYP2C9", "PM");
    PredictRuleHit(name, [v], "WARFARIN", "CYP2C9", "PM", Rule("Toxic", "High", "Significant dose reduction required."));
  }

  /** CODEINE without CYP2D6 variants: the default "NM" rule, Safe, Low, 0.5. */
  lemma CodeineWithoutVariants(name: string, vs: seq<Variant>)
    requires NormalizeDrug(name) == "CODEINE"
    requires forall i :: 0 <= i < |vs| ==> vs[i].gene != "CYP2D6"
    ensures Predict(name, vs) ==
      Prediction("Safe", "Low", 0.5, "Normal therapeutic dose.", "CYP2D6", "NM", Some([]), None)
  {
    CaseEntries();
    CaseRules();
    NoneOfTheGene(vs, "CYP2D6");
    PredictRuleHit(name, vs, "CODEINE", "CYP2D6", "NM", Rule("Safe", "Low", "Normal therapeutic dose."));
  }

  /** ASPIRIN is not in the drug map: Unknown, Low, 0.0, and no variant list at all. */
  lemma AspirinUnsupported(vs: seq<Variant>)
    ensures Predict("ASPIRIN", vs) ==
      Prediction("Unknown", "Low", 0.0, "Drug not supported in current database.", "N/A", "Unknown", None, None)
  {
    AspirinName();
    PredictUnsupported("ASPIRIN", vs);
  }

  /** Lower case and padding reach the same rule: " warfarin\t" is WARFARIN. */
  lemma PaddedLowerCaseName(v: Variant)
    requires v.gene == "CYP2C9" && v.rsid == Some("rs1057910")
    ensures Predict(" warfarin\t", [v]) == Predict("WARFARIN", [v])
    ensures Predict(" warfarin\t", [v]).riskLabel == "Toxic"
  {
    assert " warfarin\t" == " " + Lower("WARFARIN") + "\t";
    PredictIgnoresCaseAndPadding(Lower("WARFARIN"), " ", "\t", [v]);
    PredictIgnoresCaseAndPadding("WARFARIN", "", "", [v]);
    WarfarinName();
    WarfarinPoorMetabolizer("WARFARIN", v);
  }

  /** SIMVASTATIN with no variants infers "NM", which SLCO1B1 has no rule for: the 0.8 fallback. */
  lemma SimvastatinWithoutVariantsFallsBack(name: string)
    requires NormalizeDrug(name) == "SIMVASTATIN"
    ensures Predict(name, []) ==
      Prediction("Safe", "Low", 0.8, "No specific risk variants detected for this gene.",
                 "SLCO1B1", "Normal Metabolizer", Some([]), None)
  {
    CaseEntries();
    CaseRules();
    NoneOfTheGene([], "SLCO1B1");
    PredictFallback(name, [], "SIMVASTATIN", "SLCO1B1", "NM");
  }

  /** CLOPIDOGREL with rs12248560 infers "UM", which CYP2C19 has no rule for: the 0.8 fallback. */
  lemma ClopidogrelUltraRapidFallsBack(name: string, v: Variant)
    requires NormalizeDrug(name) == "CLOPIDOGREL"
    requires v.gene == "CYP2C19" && v.rsid == Some("rs12248560")
    ensures Predict(name, [v]) ==
      Prediction("Safe", "Low", 0.8, "No specific risk variants detected for this gene.",
                 "CYP2C19", "Normal Metabolizer", Some([v]), None)
  {
    CaseEntries();
    CaseRules();
    CaseMarkers();
    LoneMarker(v, "CYP2C19", "UM");
    PredictFallback(name, [v], "CLOPIDOGREL", "CYP2C19", "UM");
  }

  /**
   * The marker list is not scoped to the gene: a CYP2C9-annotated variant that carries
   * the SLCO1B1 marker makes WARFARIN infer "deficient", and so fall back.
   */
  lemma ForeignMarkerFiresForWarfarin(name: string, v: Variant)
    requires NormalizeDrug(name) == "WARFARIN"
    requires v.gene == "CYP2C9" && v.rsid == Some("rs4149056")
    ensures Predict(name, [v]) ==
      Prediction("Safe", "Low", 0.8, "No specific risk variants detected for this gene.",
                 "CYP2C9", "Normal Metabolizer", Some([v]), None)
  {
    CaseEntries();
    CaseRules();
    CaseMarkers();
    LoneMarker(v, "CYP2C9", "deficient");
    PredictFallback(name, [v], "WARFARIN", "CYP2C9", "deficient");
  }
}
