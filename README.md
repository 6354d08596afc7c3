# Pharmacogenomic risk pipeline — a Dafny model

This project models the core of a pharmacogenomic risk service. A patient's VCF file
and a comma-separated list of drugs go in. For each drug, one assessment comes out:
a risk label, a severity and a confidence, and a fixed-shape JSON report with a
narrative written by a language model. The core has five parts, each its own module:

- **Guidelines** (`guidelines.dfy`): the knowledge base. It has three constant maps:
  drug to gene, gene to phenotype code to label, and drug to gene to phenotype code to
  rule. The module proves the facts the rest of the core relies on about these maps.
- **VcfParser** (`vcf_parser.dfy`): variant extraction. It takes the sequence of records a
  VCF reader yields, each record or the error the reader raised there. For each record
  it resolves the gene from INFO `GENE`, or else from an rsID table. It keeps the records
  of the six-gene panel, builds the genotype and collects the genes seen. The first
  error fails the whole parse. `Parse` is the loop, proved against the function `ParseSpec`.
- **RiskEngine** (`risk_engine.dfy`): prediction for one drug. It normalises the name,
  resolves the gene and filters the variants to it. It infers a phenotype code from the
  first marker rsID, looks up the rule, and applies the fixed confidence policy and the
  fallback. **Scenarios** (`scenarios.dfy`) works the concrete cases out from the tables.
- **LlmService** (`llm_service.dfy`) covers the deterministic part of the narrative:
  the not-configured answer, the rsID list of the prompt, fence stripping, reading or
  salvaging the reply, success tagging, and turning exceptions into results. The chat
  call and the JSON decoder are function parameters.
- **JsonFormatter** (`json_formatter.dfy`): the report for one drug, with its derived
  fields.

**DrugList** (`drug_list.dfy`) handles the drug text, which is split at commas, stripped,
with blanks skipped. It also holds the generic loop that makes one row per name.
**Pipeline** (`pipeline.dfy`) is the upload request: its input checks, then validation,
then parsing, then one assessment per drug name in order. `Run` is the handler as
written, proved against `RunSpec`. An explanation that raises ends the request with the
rows saved so far (the outcome `Raised`). `RunCorrectedSpec` is the same request with
the corrected rsID list, under which every accepted request completes. **Text** (`text.dfy`) gives Python's `strip`, `upper`, `lower`,
`split`, `join` and `str(int)` for ASCII letters and the `str.isspace` character set.
**Wrappers** (`wrappers.dfy`) holds `Option` and `Result`.

Python exceptions become `Result.Err` values carrying the exception's message text. The
index errors of an empty `GENE` value, the type errors of indexing a `None` or Flag
`GENE` value, the type error of a missing genotype call and the join's type error on a
missing rsID are all modelled this way.

## Model

| member | source | states |
|---|---|---|
| Guidelines.LookupRule | core/services/risk_engine.py:27 | the nested `get` finds a rule exactly when the drug, gene and code are keys at their levels, and then returns that table entry |
| Guidelines.RulesKeyedByMappedGene | core/services/cpic_guidelines.py:3-89 | the rule table and the drug map have the same six drugs, and each drug's rules sit under exactly the gene the drug map assigns it |
| Guidelines.RuleCodesHaveLabels | core/services/cpic_guidelines.py:12-89 | every phenotype code used as a rule key for a gene has a label for that gene |
| Guidelines.RuleLabelsCanonical | core/services/cpic_guidelines.py:48-89 | every rule's risk is Safe, Adjust Dosage, Toxic or Ineffective, and its severity is Low, Medium or High |
| Guidelines.SeverityFollowsRisk | core/services/cpic_guidelines.py:51-86 | across the whole table severity is a function of risk: Safe is Low, Adjust Dosage is Medium, Toxic and Ineffective are High |
| Guidelines.AdjustDosageOnlyForIM | core/services/cpic_guidelines.py:48-89 | "Adjust Dosage" appears only under the code "IM" |
| Guidelines.PhenotypeCodesSharedAcrossGenes | core/services/cpic_guidelines.py:31-45 | SLCO1B1, TPMT and DPYD all use the codes deficient, low and normal, and for each code the three genes carry three pairwise different labels |
| RiskEngine.KnowledgeBaseGenesInPanel | core/services/cpic_guidelines.py:3-46 | every gene of the drug map is in the parser's panel, and the label map's genes are exactly the panel |
| VcfParser.Validate | core/services/vcf_parser.py:11-17 | the result is true exactly for an existing file ending in ".vcf"; a missing file is reported before a wrong suffix; success carries "" |
| VcfParser.LookupGeneByRsid | core/services/vcf_parser.py:62-73 | a gene comes back exactly for the six table rsIDs, and it is always a panel gene |
| VcfParser.RsidTableCoversPanel | core/services/vcf_parser.py:65-72 | the table has six rsIDs, maps them onto exactly the six panel genes, and maps no two of them to the same gene |
| VcfParser.FirstGeneValue | core/services/vcf_parser.py:33 | a missing `GENE` gives no name; an empty list, empty text, a `None` scalar or a Flag raises; otherwise the first list entry (possibly `None`) or the scalar's first character is the name |
| VcfParser.ResolveGene | core/services/vcf_parser.py:33-39 | the first `GENE` value is the gene when it is non-empty; only when it is missing or empty and the ID is non-empty is the rsID table consulted; the index error propagates |
| VcfParser.AlleleTexts | core/services/vcf_parser.py:46 | each allele becomes its `str`, keeping length and order, with "None" for a missing call |
| VcfParser.Genotype | core/services/vcf_parser.py:46 | with no samples the genotype is "Unknown"; otherwise it is the first sample's alleles joined by "/", and a sample without a call raises |
| VcfParser.FirstAlt | core/services/vcf_parser.py:49 | the alt is present exactly when the ALT list is non-empty, and it is then the first entry's text |
| VcfParser.ProcessRecord | core/services/vcf_parser.py:33-50 | a kept record's variant has a panel gene and the record's ID; an error comes only from gene resolution or the genotype |
| VcfParser.ProcessRecordFields | core/services/vcf_parser.py:33-50 | a record is dropped exactly when its resolved gene is missing or outside the panel; a kept record's variant copies ID, CHROM, POS and REF and carries the resolved gene, the genotype and the first ALT; an error arises only from gene resolution or the genotype of a panel record |
| VcfParser.ScanRecords | core/services/vcf_parser.py:30-58 | the records in order up to the first step that raises; at most one variant per step (its properties are `ScanAppend`, `ParseFailsAtFirstError` and `ParseKeepsOnePerRecord`) |
| VcfParser.ScanGenesInPanel | core/services/vcf_parser.py:41 | every variant extraction emits has a panel gene |
| VcfParser.GenesOfMembers | core/services/vcf_parser.py:52 | the gene set built one `add` at a time holds exactly the genes the variants carry |
| VcfParser.ParseSpec | core/services/vcf_parser.py:19-60 | success holds exactly when there is no error, and the genes detected are the genes of the emitted variants |
| VcfParser.ExtractRecord | core/services/vcf_parser.py:33-51 | the loop body for one record computes the record's outcome: an error, nothing, or the variant |
| VcfParser.Parse | core/services/vcf_parser.py:19-60 | the loop over the records returns exactly `ParseSpec`'s result: the variants in record order, their genes, and the first error, if any |
| VcfParser.ScanAppend | core/services/vcf_parser.py:30-51 | extraction of two streams in sequence is the extraction of the first followed by that of the second, unless the first already raised, in which case the second is never read |
| VcfParser.ParseFailsAtFirstError | core/services/vcf_parser.py:54-58 | the first record that raises fails the parse with its message; the variants before it stay in the result |
| VcfParser.ParseKeepsOnePerRecord | core/services/vcf_parser.py:30-51 | in a stream without errors, each record adds its own variant, or none, at the end |
| VcfParser.RecordWithoutGeneKept | core/services/vcf_parser.py:38-41 | a record without `GENE` is kept exactly when its ID is one of the six table rsIDs |
| RiskEngine.NormalizeDrug | core/services/risk_engine.py:8 | `upper` then `strip`; that case and padding never change a prediction is `PredictIgnoresCaseAndPadding` |
| RiskEngine.FilterGene | core/services/risk_engine.py:22 | the filter keeps exactly the input variants of the gene, and no more of them than there are |
| RiskEngine.FilterGeneAppend | core/services/risk_engine.py:22 | the filter keeps order: filtering a concatenation concatenates the filtered parts |
| RiskEngine.FirstMarkerCode | core/services/risk_engine.py:61-66 | any code found is one of the four marker codes UM, PM, deficient or low; NM is never a marker's code |
| RiskEngine.MarkerCode | core/services/risk_engine.py:61-66 | the five marker rsIDs and their codes; which gene each code belongs to is `MarkerCodesBelongToTheirGene`, and the first marker's decision is `FirstMarkerDecides` |
| RiskEngine.InferPhenotype | core/services/risk_engine.py:50-68 | the inferred code is always one of NM, UM, PM, deficient or low |
| RiskEngine.NoMarkerMeansNM | core/services/risk_engine.py:56-68 | with no marker among the variants (none at all included) inference returns "NM" |
| RiskEngine.FirstMarkerDecides | core/services/risk_engine.py:61-66 | the first marker in order decides the code, whatever follows it |
| RiskEngine.InferenceIsOrderSensitive | core/services/risk_engine.py:61-66 | rs1057910 before rs12248560 gives PM; the other order gives UM |
| RiskEngine.MarkerCodesBelongToTheirGene | core/services/risk_engine.py:62-66 | each marker's code is a phenotype code of the gene its rsID maps to, and rs1061170 is not a marker |
| RiskEngine.Predict | core/services/risk_engine.py:7-48 | the risk is a rule risk or Unknown, the severity follows from the risk, and confidence lies in [0, 1]; the variant list is absent exactly for an unsupported drug, and otherwise it is the gene filter of the input |
| RiskEngine.PredictIgnoresCaseAndPadding | core/services/risk_engine.py:8-9 | lower-casing the name, or padding it with whitespace, leaves the prediction unchanged |
| RiskEngine.PredictUnsupported | core/services/risk_engine.py:11-19 | an unmapped drug gives Unknown, Low, 0.0, "Drug not supported in current database.", gene "N/A", phenotype "Unknown", and no variant list |
| RiskEngine.PredictRuleHit | core/services/risk_engine.py:27-38 | on a rule hit, risk, severity and action come from the rule and the phenotype is the inferred code; confidence is 0.95 with variants of the gene and 0.5 without |
| RiskEngine.PredictFallback | core/services/risk_engine.py:40-48 | with no rule for the inferred code the answer is Safe, Low, 0.8, the fixed action and "Normal Metabolizer", whatever code was inferred |
| RiskEngine.ConfidencePolicy | core/services/risk_engine.py:11-48 | confidence is one of 0.0, 0.5, 0.8 and 0.95, and each value tells which path was taken |
| RiskEngine.UnreachableRules | core/services/risk_engine.py:25-27 | inference never returns IM or normal, so no prediction is Adjust Dosage and none reports the code "normal" |
| Scenarios.WarfarinPoorMetabolizer | core/services/risk_engine.py:22-38 | WARFARIN with a CYP2C9 variant rs1057910 gives Toxic, High, 0.95 and the table's action |
| Scenarios.CodeineWithoutVariants | core/services/risk_engine.py:22-38 | CODEINE without CYP2D6 variants gives Safe, Low, 0.5 under code NM |
| Scenarios.AspirinUnsupported | core/services/risk_engine.py:11-19 | ASPIRIN is unsupported |
| Scenarios.PaddedLowerCaseName | core/services/risk_engine.py:8 | " warfarin\t" gives exactly the prediction for WARFARIN, the PM rule's "Toxic" |
| Scenarios.SimvastatinWithoutVariantsFallsBack | core/services/risk_engine.py:40-48 | SIMVASTATIN with no variants infers NM, which SLCO1B1 has no rule for, and so takes the 0.8 fallback |
| Scenarios.ClopidogrelUltraRapidFallsBack | core/services/risk_engine.py:40-48 | CLOPIDOGREL with rs12248560 infers UM, which has no rule, and takes the 0.8 fallback |
| Scenarios.ForeignMarkerFiresForWarfarin | core/services/risk_engine.py:61-66 | the marker list is not scoped to the gene: a CYP2C9 variant carrying the SLCO1B1 marker makes WARFARIN infer "deficient" and fall back |
| LlmService.RsidNames | core/services/llm_service.py:30 | one name per variant, in order: the rsID, or "unknown" |
| LlmService.RsidList | core/services/llm_service.py:29-31 | the rsID list of the corrected code is never empty: an empty join becomes "None detected" |
| LlmService.RsidListShape | core/services/llm_service.py:29-31 | no variants give "None detected"; otherwise, when the first variant's name is non-empty, the list is the ", " join, starting with that name |
| LlmService.RsidListSingle | core/services/llm_service.py:29-31 | the list of one named variant is its name |
| LlmService.JoinEmpty | core/services/llm_service.py:29-31 | the join is empty, so that "None detected" is used, exactly for no pieces or one empty piece |
| LlmService.FirstUnnamed | core/services/llm_service.py:30 | finds the first variant without an rsID, or reports that every variant has one |
| LlmService.RsidListAsWritten | core/services/llm_service.py:29-31 | the list as written raises exactly when some variant's rsID is missing |
| LlmService.RsidListsAgreeWhenNamed | core/services/llm_service.py:29-31 | when every variant has an rsID, the list as written and the corrected list agree |
| LlmService.RsidListOfNamedSource | core/services/llm_service.py:29-31 | variants taken from a list whose every entry has an rsID are listed as written without raising |
| LlmService.IndexOf | core/services/llm_service.py:111 | the position of the first newline |
| LlmService.StripFence | core/services/llm_service.py:109-114 | the cleaned reply is unpadded and no longer than the reply |
| LlmService.StripFenceUnfenced | core/services/llm_service.py:109-114 | a reply that neither starts nor ends with a fence once stripped is only stripped |
| LlmService.StripFenceFenced | core/services/llm_service.py:109-114 | a fenced block with a one-line language tag gives back its stripped body |
| LlmService.StripFenceOpeningOnly | core/services/llm_service.py:109-114 | an opening fence line with no closing fence loses its tag line, and the rest is stripped |
| LlmService.StripFenceWithoutNewline | core/services/llm_service.py:109-114 | an opening fence with no newline anywhere loses only its three backquotes |
| LlmService.StripFenceClosingOnly | core/services/llm_service.py:109-114 | a closing fence with no opening fence loses its backquotes, and the rest is stripped |
| LlmService.Member | core/services/llm_service.py:119-122 | a member of the decoded object, or "" when it is missing |
| LlmService.Take | core/services/llm_service.py:127 | the slice `[:n]`: a prefix of length min(len, n) |
| LlmService.ParseJsonResponse | core/services/llm_service.py:106-131 | the untagged sections, which fail exactly when the cleaned reply decodes to a value that is not an object |
| LlmService.SalvageKeepsPrefix | core/services/llm_service.py:124-131 | a reply that is not JSON gives the first 300 characters of the cleaned text as the summary, and "Unable to parse structured response." in the other three sections |
| LlmService.ObjectMembersRead | core/services/llm_service.py:116-123 | for a decoded object, each of the four sections is its member, and "" when that member is missing |
| LlmService.GenerateExplanation | core/services/llm_service.py:15-104 | every answer carries the success flag, which is true exactly when the key is set, the call returned content and that content decoded to an object or was salvaged; a true answer is the parsed sections tagged |
| LlmService.NotConfiguredAnswer | core/services/llm_service.py:20-27 | without a key the answer is the fixed not-configured narrative, with "N/A" sections and success False |
| LlmService.FailureShapes | core/services/llm_service.py:20-104 | a failed answer is the not-configured one, a request failure, or another failure, the last two with "Error in LLM generation." in the other sections |
| LlmService.RequestFailureReported | core/services/llm_service.py:89-96 | a failed request is reported as "Groq API request failed: " followed by its message |
| LlmService.OtherFailureReported | core/services/llm_service.py:97-104 | any other failure of the call is reported as "Failed to generate explanation: " followed by its message |
| LlmService.NonObjectReplyFails | core/services/llm_service.py:97-104 | a reply that decodes to a non-object is reported as "Failed to generate explanation: " followed by the attribute error |
| LlmService.GenerateExplanationAsWritten | core/services/llm_service.py:20-31 | the function as written raises exactly when the key is set and some detected variant lacks an rsID, and otherwise agrees with the corrected function |
| LlmService.UnnamedVariantRaises | core/services/llm_service.py:29-31 | a configured service given a detected variant without an rsID raises |
| JsonFormatter.Entries | core/services/json_formatter.py:22-29 | the report's variants are the detected ones projected element by element, keeping length and order |
| JsonFormatter.EntriesRoundTrip | core/services/json_formatter.py:24-27 | each entry keeps rsID, chromosome and genotype, and its position text reads back as the position |
| JsonFormatter.EntriesAppend | core/services/json_formatter.py:22-29 | projecting a concatenation concatenates the projections |
| JsonFormatter.FormatOutput | core/services/json_formatter.py:9-47 | the report's variant list is the entry projection of the detected variants, and the count is their number (0 without a list); the guideline reference is the drug's guideline address; parsing success is always true; LLM success is true exactly for a narrative tagged true; monitoring is needed exactly when severity is not Low; the diplotype is the placeholder unless one is given; and the timestamp is the clock's text plus "Z" |
| JsonFormatter.GuidelineUrl | core/services/json_formatter.py:33 | the address starts with the guideline prefix and ends with "/", and between them each character of the name appears lower-cased at its own position |
| JsonFormatter.GuidelineUrlIdentifiesDrug | core/services/json_formatter.py:33 | two drug names share a guideline address exactly when they agree once lower-cased |
| JsonFormatter.GuidelineUrlIgnoresCase | core/services/json_formatter.py:33 | the address does not depend on the case of the name |
| JsonFormatter.ReportCopiesVerbatim | core/services/json_formatter.py:9-41 | patient, drug, risk, confidence, severity, action, gene, phenotype and the four narrative sections are copied as they are |
| JsonFormatter.OnlyTimestampVaries | core/services/json_formatter.py:9-47 | two reports of the same inputs differ at most in the timestamp |
| JsonFormatter.MonitoringFollowsRisk | core/services/json_formatter.py:34 | for an engine prediction, monitoring is needed exactly for Toxic, Ineffective or Adjust Dosage |
| JsonFormatter.UnsupportedDrugCountsNothing | core/services/json_formatter.py:44 | an unsupported drug's report counts zero variants |
| JsonFormatter.DiplotypeAlwaysPlaceholder | core/services/json_formatter.py:20 | the engine never sets a diplotype, so every report shows "*X/*Y" |
| Text.Strip | core/views.py:54 | the result has no whitespace at either end, is no longer than the input, and is empty exactly for all-whitespace input |
| Text.StripPadded | core/services/risk_engine.py:8 | surrounding whitespace never changes what `strip` returns |
| Text.StripIdempotent | core/views.py:54 | stripping twice is stripping once |
| Text.Upper | core/services/risk_engine.py:8 | same length; every small letter is raised and everything else is kept |
| Text.Lower | core/services/json_formatter.py:33 | same length; every capital is lowered and everything else is kept |
| Text.UpperOfLower | core/services/risk_engine.py:8 | lower-casing first does not change the upper-cased text |
| Text.Split | core/views.py:33 | the split is never empty, and no piece contains the separator |
| Text.JoinSplit | core/views.py:33 | joining the pieces of a split with the separator gives the text back |
| Text.SplitJoin | core/views.py:33 | splitting a join of separator-free pieces gives the pieces back |
| Text.IntToString | core/services/json_formatter.py:26 | `str` of an integer: a minus sign exactly for negatives, then at least one digit, only digits, and no leading zero unless the numeral is "0" |
| Text.ParseIntToString | core/services/json_formatter.py:26 | reading back the decimal text of any integer gives that integer |
| DrugList.DrugNames | core/views.py:33-56 | every drug name the loop processes is non-empty, unpadded and comma-free |
| DrugList.KeepNames | core/views.py:53-56 | the pieces stripped with the blank ones skipped: at most one name per piece |
| DrugList.KeepNamesClean | core/views.py:53-56 | no more names than pieces, each non-empty, unpadded and comma-free |
| DrugList.DrugNamesOfJoin | core/views.py:33-56 | a list of clean names joined by commas gives the same list back |
| DrugList.BlankPiecesSkipped | core/views.py:53-56 | a blank piece, anywhere, changes nothing |
| DrugList.BlankTextNoNames | core/views.py:33-56 | a text of commas and whitespace only gives no names |
| DrugList.KeepNamesStep | core/views.py:53-56 | one more piece adds its stripped text at the end, unless that text is empty |
| DrugList.FlatMapAppend | core/views.py:53-56 | the names of a concatenation of pieces are the names of each part, in order |
| DrugList.AssessAll | core/views.py:53-83 | one row per name |
| DrugList.AssessAllAt | core/views.py:53-83 | the i-th row is the i-th name's, made with position i |
| DrugList.SaveUntil | core/views.py:53-83 | the rows of the names in order until the first one raises: never more rows than names, and all of them when nothing raised |
| DrugList.SaveUntilRows | core/views.py:53-83 | each saved row is its name's assessment at its position, and a raised error is that of the name right after the saved rows |
| DrugList.SaveUntilSnoc | core/views.py:53-83 | one more name is one more step of the loop: nothing after an error, else its row or its error |
| DrugList.SaveUntilStopped | core/views.py:53-83 | once a name has raised, the names after it are never assessed |
| DrugList.SaveUntilNeverRaises | core/views.py:53-83 | where no name raises, every name is saved and the rows are the ones `AssessAll` makes |
| DrugList.SaveUntilFirstRaises | core/views.py:53-83 | a first name that raises ends the loop with no row saved |
| DrugList.SaveAll | core/views.py:53-83 | the loop over the pieces returns exactly `SaveUntil`'s rows and error for the kept names: one row per name, in order, each made with the number of rows saved before it, stopping at the first error |
| Pipeline.Admitted | core/views.py:25-47 | an upload is accepted exactly when both inputs are there, validation passes and parsing succeeds, and then its variants are the parsed ones |
| Pipeline.AssessDrug | core/views.py:58-83 | one drug as the handler does it: it raises exactly when a key is set and a detected variant has no rsID, and otherwise saves the corrected row |
| Pipeline.AssessDrugCorrected | core/views.py:58-83 | one drug with the corrected rsID list; its fields are stated by `AssessDrugFields` |
| Pipeline.RunSpec | core/views.py:20-85 | the request is rejected exactly when the upload is not admitted, with the admission's error |
| Pipeline.RunCorrectedSpec | core/views.py:20-85 | with the corrected rsID list, the request is rejected with the admission's error exactly when the upload is not admitted, and otherwise never raises: it completes with one row per name |
| Pipeline.Run | core/views.py:20-85 | the handler's outcome is exactly `RunSpec`'s: the same rejections in the same order, the same saved rows, and the same error where a drug raises |
| Pipeline.RejectionOrder | core/views.py:25-47 | missing input is reported first, then a failed validation with its own message ("File does not exist." or "Not a VCF file."), then a failed parse with the parser's error, and exactly the remaining requests go on to the drugs |
| Pipeline.AssessDrugFields | core/views.py:58-83 | the saved row's name, risk, confidence and severity are the prediction's and agree with its report, which carries the patient and the clock's timestamp |
| Pipeline.SavedRowsAreCorrected | core/views.py:53-83 | every row an accepted request saves is the corrected assessment of its name at its position |
| Pipeline.OnePerNameInOrder | core/views.py:53-83 | an accepted request saves at most one row per drug name, in the order typed, each predicted from the parsed variants and timed by its position, and a completed one saves them all |
| Pipeline.RaisedAtNextName | core/views.py:53-83 | a request that raised stops at the name right after the saved rows, with that name's error |
| Pipeline.UnnamedVariantRaisesRequest | core/views.py:53-67 | with a key set and a variant without an rsID in the first drug's gene, the request raises before any row is saved |
| Pipeline.AssessDrugNamed | core/views.py:58-83 | without a key, or with every parsed variant named, a drug never raises and its row is the corrected one |
| Pipeline.RunsAgreeWhenNamed | core/views.py:20-85 | without a key, or with every parsed variant named, the handler as written and the corrected one have the same outcome |
| Pipeline.NarrativeNeverAborts | core/views.py:61-83 | with the corrected rsID list, whatever the key, chat service and decoder do, the request completes or is rejected alike, and every saved name, risk, confidence and severity is the same |
| Pipeline.BlankDrugListSavesNothing | core/views.py:53-56 | an accepted drug text of commas and whitespace only completes with no rows saved |
| Pipeline.UnnamedVariantReachesExplanation | core/services/llm_service.py:29-31 | a supported drug with a variant of its gene lacking an rsID makes the explanation as written raise |
| Pipeline.UnnamedRecordKept | core/services/vcf_parser.py:33-51 | a record with no ID whose first `GENE` value is a panel gene is kept, with no rsID |

## Left out

- The VCF reader (PyVCF) is not part of this model. Its output is the `ReadStep` sequence: a parsed record, or the message of the error raised at that point.
- `os.path.exists` is the boolean `fileExists` of the submission.
- The HTTP call to the chat service, its headers, model parameters, timeout and `raise_for_status`, and the prompt text are represented by the parameter `post`, a function from the request values (drug, gene, phenotype, risk, rsID list) to content or one of the two failure kinds.
- `json.loads` is the parameter `loads`. Its result is an object whose members are text, a value of another JSON type, or a decode error. Non-text member values are not modelled.
- `datetime.utcnow()` is the parameter `clock`, which gives the ISO text for the k-th report of a request.
- The API key comes from settings; here it is the parameter `apiKey`.
- Django request handling, the `Patient` and `DrugAssessment` ORM writes, the redirect and the templates are not part of this model. A patient ID is an input, and a saved row is an `Assessment` value.
- The upload form view, which runs the same flow behind a form, is not part of this model.
- Confidence scores are the fixed values 0.0, 0.5, 0.8 and 0.95, written as `real`s. No floating-point arithmetic happens.
- Text.Upper, Text.Lower: only ASCII letters change case; Python's full Unicode case mapping is not modelled.
- VcfParser.ParseSpec: on success `genes_detected` stays a set, where the source turns it into a list whose order Python does not define.
- Pipeline.Run: the patient row is created before validation in the source; that write has no effect on the outcome here.
- Pipeline.Run: an exception that escapes the handler is the outcome `Raised` with the rows saved before it; Django's error response is not modelled.
- VcfParser.FirstGeneValue: `GENE` values are text or `None`; a `GENE` declared with a numeric type in the header is not modelled.

## Findings

| source | as written | input that shows it | evidently intended | confidence | as-written member | corrected member |
|---|---|---|---|---|---|---|
| core/services/llm_service.py:29-31 | the rsID list uses `v.get('rsid', 'unknown')`, but every variant the parser emits has the `rsid` key, so a record whose ID is `.` contributes `None`; the join then raises a type error, outside the guarded block | a VCF record with ID `.` and INFO `GENE=CYP2C9`, with the drug WARFARIN and a key configured | a variant without an rsID is listed as "unknown", as the `get` default intends, and the explanation is generated | not executed | LlmService.GenerateExplanationAsWritten | LlmService.GenerateExplanation |

The handler `Pipeline.RunSpec` keeps the code as written, so a request can end in
`Raised`. `Pipeline.RunCorrectedSpec` is the request with the corrected explanation.
`Pipeline.RunsAgreeWhenNamed` shows that the two agree whenever no key is set or every
parsed variant has an rsID. `Pipeline.UnnamedVariantRaisesRequest` gives the input on
which they differ.
