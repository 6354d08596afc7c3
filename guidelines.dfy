/**
 * The guideline knowledge base: three constant tables, drug to gene, gene to
 * phenotype code to label, and drug to gene to phenotype code to rule, with the
 * well-formedness facts the rest of the pipeline depends on.
 */
module Guidelines {
  import opened Wrappers

  /** One guideline rule: a risk label, its severity and the recommended action. */
  datatype Rule = Rule(risk: string, severity: string, action: string)

  /** The drug each gene-specific guideline is about, keyed by upper-case drug name. */
  const DrugGene: map<string, string> := map[
    "CODEINE" := "CYP2D6",
    "WARFARIN" := "CYP2C9",
    "CLOPIDOGREL" := "CYP2C19",
    "SIMVASTATIN" := "SLCO1B1",
    "AZATHIOPRINE" := "TPMT",
    "FLUOROURACIL" := "DPYD"
  ]

  /** Human-readable label of each phenotype code, per gene. */
  const GenePhenotypes: map<string, map<string, string>> := map[
    "CYP2D6" := map[
      "PM" := "Poor Metabolizer",
      "IM" := "Intermediate Metabolizer",
      "NM" := "Normal Metabolizer",
      "UM" := "Ultra-rapid Metabolizer"
    ],
    "CYP2C19" := map[
      "PM" := "Poor Metabolizer",
      "IM" := "Intermediate Metabolizer",
      "NM" := "Normal Metabolizer",
      "RM" := "Rapid Metabolizer",
      "UM" := "Ultra-rapid Metabolizer"
    ],
    "CYP2C9" := map[
      "PM" := "Poor Metabolizer",
      "IM" := "Intermediate Metabolizer",
      "NM" := "Normal Metabolizer"
    ],
    "SLCO1B1" := map[
      "deficient" := "Deficient Transporter Function",
      "low" := "Decreased Transporter Function",
      "normal" := "Normal Transporter Function"
    ],
    "TPMT" := map[
      "low" := "Low/Intermediate Activity",
      "deficient" := "No Activity (Poor Metabolizer)",
      "normal" := "Normal Activity"
    ],
    "DPYD" := map[
      "deficient" := "Deficient Metabolism (Poor)",
      "low" := "Decreased Metabolism (Intermediate)",
      "normal" := "Normal Metabolism"
    ]
  ]

  /** The rule table, keyed by drug, then gene, then phenotype code. */
  const Rules: map<string, map<string, map<string, Rule>>> := map[
    "CODEINE" := map["CYP2D6" := map[
      "PM" := Rule("Ineffective", "High", "Avoid codeine; use alternative analgesic."),
      "UM" := Rule("Toxic", "High", "Avoid codeine; high risk of respiratory depression."),
      "NM" := Rule("Safe", "Low", "Normal therapeutic dose."),
      "IM" := Rule("Adjust Dosage", "Medium", "Use standard starting dose, monitor for efficacy.")
    ]],
    "WARFARIN" := map["CYP2C9" := map[
      "PM" := Rule("Toxic", "High", "Significant dose reduction required."),
      "IM" := Rule("Adjust Dosage", "Medium", "Lower starting dose recommended."),
      "NM" := Rule("Safe", "Low", "Standard starting dose.")
    ]],
    "CLOPIDOGREL" := map["CYP2C19" := map[
      "PM" := Rule("Ineffective", "High", "Avoid clopidogrel; use prasugrel or ticagrelor."),
      "IM" := Rule("Adjust Dosage", "Medium", "Consider alternative antiplatelet therapy."),
      "NM" := Rule("Safe", "Low", "Standard dose.")
    ]],
    "SIMVASTATIN" := map["SLCO1B1" := map[
      "deficient" := Rule("Toxic", "High", "Lower dose or alternative statin recommended (e.g., Rosuvastatin)."),
      "normal" := Rule("Safe", "Low", "Standard dose.")
    ]],
    "AZATHIOPRINE" := map["TPMT" := map[
      "low" := Rule("Toxic", "High", "Reduce dose by 90% or use alternative."),
      "normal" := Rule("Safe", "Low", "Standard dose.")
    ]],
    "FLUOROURACIL" := map["DPYD" := map[
      "deficient" := Rule("Toxic", "High", "Avoid or drastically reduce dose."),
      "normal" := Rule("Safe", "Low", "Standard dose.")
    ]]
  ]

  /** The four risk labels a rule may carry; the engine adds "Unknown" for unsupported drugs. */
  const RuleRisks: set<string> := {"Safe", "Adjust Dosage", "Toxic", "Ineffective"}

  const Severities: set<string> := {"Low", "Medium", "High"}

  /** The severity the table pairs with each risk label (Unknown, like Safe, is Low). */
  function SeverityFor(risk: string): string
  {
    if risk == "Toxic" || risk == "Ineffective" then "High"
    else if risk == "Adjust Dosage" then "Medium"
    else "Low"
  }

  /** `RULES.get(drug, {}).get(gene, {}).get(code)`. */
  function LookupRule(drug: string, gene: string, code: string): (r: Option<Rule>)
    ensures r.Some? <==> drug in Rules && gene in Rules[drug] && code in Rules[drug][gene]
    ensures r.Some? ==> r.value == Rules[drug][gene][code]
  {
    if drug in Rules && gene in Rules[drug] && code in Rules[drug][gene] then
      Some(Rules[drug][gene][code])
    else
      None
  }

  /** The rule table and the drug map cover the same drugs, and each drug's rules sit under its own gene only. */
  lemma RulesKeyedByMappedGene()
    ensures Rules.Keys == DrugGene.Keys
    ensures forall drug :: drug in Rules ==> Rules[drug].Keys == {DrugGene[drug]}
  {
  }

  /** Every phenotype code used as a rule key has a label for that gene. */
  lemma RuleCodesHaveLabels()
    ensures forall drug, gene, code ::
      drug in Rules && gene in Rules[drug] && code in Rules[drug][gene] ==>
        gene in GenePhenotypes && code in GenePhenotypes[gene]
  {
  }

  /** Every rule carries one of the four rule risks and one of the three severities. */
  lemma RuleLabelsCanonical()
    ensures forall drug, gene, code ::
      drug in Rules && gene in Rules[drug] && code in Rules[drug][gene] ==>
        Rules[drug][gene][code].risk in RuleRisks && Rules[drug][gene][code].severity in Severities
  {
  }

  /** Across the whole table severity is a function of risk: Safe is Low, Adjust Dosage Medium, Toxic and Ineffective High. */
  lemma SeverityFollowsRisk()
    ensures forall drug, gene, code ::
      drug in Rules && gene in Rules[drug] && code in Rules[drug][gene] ==>
        Rules[drug][gene][code].severity == SeverityFor(Rules[drug][gene][code].risk)
  {
  }

  /** "Adjust Dosage" appears only under the code "IM". */
  lemma AdjustDosageOnlyForIM()
    ensures forall drug, gene, code ::
      (drug in Rules && gene in Rules[drug] && code in Rules[drug][gene]
       && Rules[drug][gene][code].risk == "Adjust Dosage") ==> code == "IM"
  {
  }

  /** Phenotype code strings are shared between genes, but for each code all three labels differ. */
  lemma PhenotypeCodesSharedAcrossGenes()
    ensures forall gene :: gene in {"SLCO1B1", "TPMT", "DPYD"} ==>
      gene in GenePhenotypes && GenePhenotypes[gene].Keys == {"deficient", "low", "normal"}
    ensures GenePhenotypes["SLCO1B1"]["deficient"] != GenePhenotypes["TPMT"]["deficient"]
    ensures GenePhenotypes["TPMT"]["deficient"] != GenePhenotypes["DPYD"]["deficient"]
    ensures GenePhenotypes["SLCO1B1"]["deficient"] != GenePhenotypes["DPYD"]["deficient"]
    ensures GenePhenotypes["SLCO1B1"]["low"] != GenePhenotypes["TPMT"]["low"]
    ensures GenePhenotypes["TPMT"]["low"] != GenePhenotypes["DPYD"]["low"]
    ensures GenePhenotypes["SLCO1B1"]["low"] != GenePhenotypes["DPYD"]["low"]
    ensures GenePhenotypes["SLCO1B1"]["normal"] != GenePhenotypes["TPMT"]["normal"]
    ensures GenePhenotypes["TPMT"]["normal"] != GenePhenotypes["DPYD"]["normal"]
    ensures GenePhenotypes["SLCO1B1"]["normal"] != GenePhenotypes["DPYD"]["normal"]
  {
  }
}
