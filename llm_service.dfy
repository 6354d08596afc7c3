/**
 * The deterministic part of the narrative service: the not-configured answer, the
 * rsID list put into the prompt, the clean-up of a fenced reply, the salvage of a
 * reply that is not JSON, and the mapping of every outcome to a narrative with a
 * success flag. The chat-completion call and `json.loads` are parameters: `post`
 * answers a request, `loads` decodes the cleaned reply text.
 */
module LlmService {
  import opened Wrappers
  import opened Text
  import opened VcfParser

  /** The four narrative sections and the success flag; the flag is absent until the result is tagged. */
  datatype Narrative = Narrative(
    summary: string,
    biologicalMechanism: string,
    clinicalImpact: string,
    variantEvidence: string,
    success: Option<bool>)

  /** What the caller passes in: the drug as typed, the prediction's gene, phenotype, risk and variants. */
  datatype ExplanationData = ExplanationData(
    drug: string,
    gene: string,
    phenotype: string,
    riskLabel: string,
    detectedVariants: seq<Variant>)

  /** The values the prompt is built from. */
  datatype Request = Request(drug: string, gene: string, phenotype: string, riskLabel: string, rsids: string)

  /**
   * The outcome of the chat-completion call: the message content, an exception of the
   * HTTP library (connection, timeout, error status), or any other failure before the
   * content is reached (a body without `choices`, say).
   */
  datatype Transport = Content(text: string) | RequestFailed(message: string) | OtherFailure(message: string)

  /**
   * `json.loads` of the cleaned text: an object with its string members, any other JSON
   * value (named by its Python type, such as "list"), or text that is not JSON.
   */
  datatype Decoded = JsonObject(fields: map<string, string>) | JsonOther(typeName: string) | NotJson

  const NotConfigured: string := "LLM Service not configured. Set GROQ_API_KEY in .env"
  const Unparsed: string := "Unable to parse structured response."
  const GenerationError: string := "Error in LLM generation."
  const RequestFailedPrefix: string := "Groq API request failed: "
  const FailedPrefix: string := "Failed to generate explanation: "
  const Fence: string := "```"

  /** How many characters of an unparsable reply are kept as the summary. */
  const SalvageLength: nat := 300

  // ---------------------------------------------------------------------------
  // The rsID list of the prompt
  // ---------------------------------------------------------------------------

  /** An rsID as it should appear in the prompt: the ID, or "unknown" when the record had none. */
  function RsidName(v: Variant): string
  {
    if v.rsid.Some? then v.rsid.value else "unknown"
  }

  function RsidNames(vs: seq<Variant>): (names: seq<string>)
    ensures |names| == |vs|
    ensures forall i :: 0 <= i < |vs| ==> names[i] == RsidName(vs[i])
  {
    seq(|vs|, i requires 0 <= i < |vs| => RsidName(vs[i]))
  }

  /** The rsIDs joined by ", ", or "None detected" when that join is empty; the prompt never gets an empty list. */
  function RsidList(vs: seq<Variant>): (list: string)
    ensures list != []
  {
    var joined := Join(RsidNames(vs), ", ");
    if joined == [] then "None detected" else joined
  }

  /** Joining with a non-empty separator is empty only for no pieces or one empty piece. */
  lemma JoinEmpty(parts: seq<string>, sep: string)
    requires sep != []
    ensures Join(parts, sep) == [] <==> parts == [] || (|parts| == 1 && parts[0] == [])
  {
    if |parts| > 1 {
      assert |Join(parts, sep)| >= |sep|;
    }
  }

  /** No variants: "None detected"; otherwise the list starts with the first variant's name. */
  lemma RsidListShape(vs: seq<Variant>)
    ensures vs == [] ==> RsidList(vs) == "None detected"
    ensures vs != [] && RsidName(vs[0]) != [] ==>
      RsidList(vs) == Join(RsidNames(vs), ", ") && StartsWith(RsidList(vs), RsidName(vs[0]))
  {
    JoinEmpty(RsidNames(vs), ", ");
    if |vs| > 1 {
      assert Join(RsidNames(vs), ", ") == RsidName(vs[0]) + ", " + Join(RsidNames(vs)[1..], ", ");
    }
  }

  /** The list of one variant is its name, for any name but the empty one. */
  lemma RsidListSingle(v: Variant)
    requires RsidName(v) != []
    ensures RsidList([v]) == RsidName(v)
  {
  }

  /** The index of the first variant without an rsID, if any. */
  function FirstUnnamed(vs: seq<Variant>): (k: Option<nat>)
    ensures k.Some? ==> k.value < |vs| && vs[k.value].rsid.None?
    ensures k.Some? ==> forall j :: 0 <= j < k.value ==> vs[j].rsid.Some?
    ensures k.None? ==> forall j :: 0 <= j < |vs| ==> vs[j].rsid.Some?
    decreases |vs|
  {
    if vs == [] then None
    else if vs[0].rsid.None? then Some(0)
    else match FirstUnnamed(vs[1..])
      case None => None
      case Some(k) => Some(k + 1)
  }

  /**
   * The rsID list as the code builds it: the variant dictionaries always carry the
   * `rsid` key, so a record whose ID was `.` hands `None` to the join, which fails
   * with the join's type error for the first such item.
   */
  function RsidListAsWritten(vs: seq<Variant>): (r: Result<string>)
    ensures r.Err? <==> exists j :: 0 <= j < |vs| && vs[j].rsid.None?
  {
    match FirstUnnamed(vs)
    case Some(k) =>
      Err("sequence item " + IntToString(k) + ": expected str instance, NoneType found")
    case None => Ok(RsidList(vs))
  }

  /** Where every variant has an rsID the list as written and the corrected list agree. */
  lemma RsidListsAgreeWhenNamed(vs: seq<Variant>)
    requires forall j :: 0 <= j < |vs| ==> vs[j].rsid.Some?
    ensures RsidListAsWritten(vs) == Ok(RsidList(vs))
  {
  }

  /** Variants drawn from a list whose every entry has an rsID can be listed as written. */
  lemma RsidListOfNamedSource(vs: seq<Variant>, source: seq<Variant>)
    requires forall j :: 0 <= j < |source| ==> source[j].rsid.Some?
    requires forall v :: v in vs ==> v in source
    ensures RsidListAsWritten(vs) == Ok(RsidList(vs))
  {
    forall k | 0 <= k < |vs|
      ensures vs[k].rsid.Some?
    {
      assert vs[k] in source;
    }
  }

  // ---------------------------------------------------------------------------
  // Cleaning and reading the reply
  // ---------------------------------------------------------------------------

  /** The index of the first `c` in `s`. */
  function IndexOf(s: string, c: char): (k: nat)
    requires c in s
    ensures k < |s| && s[k] == c && c !in s[..k]
    decreases |s|
  {
    if s[0] == c then 0
    else
      var k := IndexOf(s[1..], c);
      assert s[..k + 1] == [s[0]] + s[1..][..k];
      k + 1
  }

  /** An opening fence goes with the rest of its line, or with just its three backquotes when there is no newline. */
  function DropOpeningFence(t: string): (r: string)
    ensures |r| <= |t|
  {
    if StartsWith(t, Fence) then
      if '\n' in t then t[IndexOf(t, '\n') + 1..] else t[3..]
    else
      t
  }

  function DropClosingFence(t: string): (r: string)
    ensures |r| <= |t|
  {
    if EndsWith(t, Fence) then t[..|t| - 3] else t
  }

  /** Strip, drop an opening fence line, drop a closing fence, strip again. */
  function StripFence(text: string): (r: string)
    ensures Unpadded(r)
    ensures |r| <= |text|
  {
    Strip(DropClosingFence(DropOpeningFence(Strip(text))))
  }

  /** Text that after stripping neither starts nor ends with a fence is only stripped. */
  lemma StripFenceUnfenced(text: string)
    requires !StartsWith(Strip(text), Fence) && !EndsWith(Strip(text), Fence)
    ensures StripFence(text) == Strip(text)
  {
    StripIdempotent(text);
  }

  /** A reply fenced as a code block with a language tag gives back its stripped body. */
  lemma StripFenceFenced(tag: string, body: string)
    requires '\n' !in tag
    ensures StripFence(Fence + tag + "\n" + body + Fence) == Strip(body)
  {
    var t := Fence + tag + "\n" + body + Fence;
    assert t[0] == '`' && t[|t| - 1] == '`';
    StripUnpadded(t);
    assert StartsWith(t, Fence);
    var n := |Fence + tag|;
    assert t[n] == '\n';
    assert t[..n] == Fence + tag;
    var k := IndexOf(t, '\n');
    assert k == n;
    assert t[k + 1..] == body + Fence;
    assert DropOpeningFence(t) == body + Fence;
    assert DropClosingFence(body + Fence) == body;
  }

  /** An opening fence line with no closing fence: the tag line goes and the rest is stripped. */
  lemma StripFenceOpeningOnly(tag: string, body: string)
    requires '\n' !in tag
    requires body != [] && !IsSpace(body[|body| - 1]) && !EndsWith(body, Fence)
    ensures StripFence(Fence + tag + "\n" + body) == Strip(body)
  {
    var t := Fence + tag + "\n" + body;
    assert t[0] == '`' && t[|t| - 1] == body[|body| - 1];
    StripUnpadded(t);
    assert StartsWith(t, Fence);
    var n := |Fence + tag|;
    assert t[n] == '\n';
    assert t[..n] == Fence + tag;
    assert IndexOf(t, '\n') == n;
    assert t[n + 1..] == body;
  }

  /** A fence with no newline after it: only its three backquotes go. */
  lemma StripFenceWithoutNewline(b: string)
    requires '\n' !in b && (b == [] || !IsSpace(b[|b| - 1])) && !EndsWith(b, Fence)
    ensures StripFence(Fence + b) == Strip(b)
  {
    var t := Fence + b;
    assert t[0] == '`' && t[|t| - 1] != ' ' && !IsSpace(t[|t| - 1]);
    StripUnpadded(t);
    assert StartsWith(t, Fence);
    assert '\n' !in t by {
      assert forall i :: 3 <= i < |t| ==> t[i] == b[i - 3];
    }
    assert t[3..] == b;
  }

  /** A closing fence with no opening fence: the backquotes go and the rest is stripped. */
  lemma StripFenceClosingOnly(body: string)
    requires body != [] && !IsSpace(body[0]) && body[0] != '`'
    ensures StripFence(body + Fence) == Strip(body)
  {
    var t := body + Fence;
    assert t[0] == body[0] && t[|t| - 1] == '`';
    StripUnpadded(t);
    assert !StartsWith(t, Fence) by { assert t[0] != Fence[0]; }
    assert t[..|t| - 3] == body;
  }

  /** A member of the decoded object, or "" when it is missing. */
  function Member(fields: map<string, string>, key: string): (v: string)
    ensures key in fields ==> v == fields[key]
    ensures key !in fields ==> v == ""
  {
    if key in fields then fields[key] else ""
  }

  function Take(s: string, n: nat): (r: string)
    ensures |r| == if |s| < n then |s| else n
    ensures r == s[..|r|]
  {
    if |s| <= n then s else s[..n]
  }

  /**
   * `_parse_json_response`: the four members of a decoded object, or the salvage of a
   * reply that is not JSON. Decoding to any other value makes the member lookup fail.
   */
  function ParseJsonResponse(text: string, loads: string -> Decoded): (r: Result<Narrative>)
    ensures r.Ok? ==> r.value.success.None?
    ensures r.Err? <==> loads(StripFence(text)).JsonOther?
  {
    var cleaned := StripFence(text);
    match loads(cleaned)
    case JsonObject(fields) =>
      Ok(Narrative(Member(fields, "summary"), Member(fields, "biological_mechanism"),
                   Member(fields, "clinical_impact"), Member(fields, "variant_evidence"), None))
    case NotJson =>
      Ok(Narrative(Take(cleaned, SalvageLength), Unparsed, Unparsed, Unparsed, None))
    case JsonOther(typeName) =>
      Err("'" + typeName + "' object has no attribute 'get'")
  }

  /**
   * A reply that is not JSON is kept as the summary, cut to its first 300 characters of
   * the cleaned text, and the other three sections say it could not be parsed.
   */
  lemma SalvageKeepsPrefix(text: string, loads: string -> Decoded)
    requires loads(StripFence(text)).NotJson?
    ensures var r := ParseJsonResponse(text, loads); var cleaned := StripFence(text);
      && r.Ok?
      && r.value.summary == cleaned[..|r.value.summary|]
      && |r.value.summary| == (if |cleaned| < SalvageLength then |cleaned| else SalvageLength)
      && r.value.biologicalMechanism == Unparsed
      && r.value.clinicalImpact == Unparsed
      && r.value.variantEvidence == Unparsed
  {
  }

  /** The sections of a decoded object are its members, each defaulting to "". */
  lemma ObjectMembersRead(text: string, loads: string -> Decoded)
    requires loads(StripFence(text)).JsonObject?
    ensures var r := ParseJsonResponse(text, loads); var fields := loads(StripFence(text)).fields;
      && r.Ok?
      && ("summary" in fields ==> r.value.summary == fields["summary"])
      && ("summary" !in fields ==> r.value.summary == "")
      && ("biological_mechanism" in fields ==> r.value.biologicalMechanism == fields["biological_mechanism"])
      && ("biological_mechanism" !in fields ==> r.value.biologicalMechanism == "")
      && ("clinical_impact" in fields ==> r.value.clinicalImpact == fields["clinical_impact"])
      && ("clinical_impact" !in fields ==> r.value.clinicalImpact == "")
      && ("variant_evidence" in fields ==> r.value.variantEvidence == fields["variant_evidence"])
      && ("variant_evidence" !in fields ==> r.value.variantEvidence == "")
  {
  }

  // ---------------------------------------------------------------------------
  // generate_explanation
  // ---------------------------------------------------------------------------

  /** `not self.api_key` is false only for a set, non-empty key. */
  predicate Configured(apiKey: Option<string>)
  {
    apiKey.Some? && apiKey.value != ""
  }

  function RequestOf(data: ExplanationData): Request
  {
    Request(data.drug, data.gene, data.phenotype, data.riskLabel, RsidList(data.detectedVariants))
  }

  /** The shape every caught exception is turned into. */
  function Failure(summary: string): Narrative
  {
    Narrative(summary, GenerationError, GenerationError, GenerationError, Some(false))
  }

  /**
   * `generate_explanation` with the rsID list corrected: never fails, and every answer
   * carries the success flag. It is true exactly when the call returned content that
   * decoded to an object or was salvaged.
   */
  function GenerateExplanation(apiKey: Option<string>, data: ExplanationData,
                               post: Request -> Transport, loads: string -> Decoded): (n: Narrative)
    ensures n.success.Some?
    ensures n.success == Some(true) <==>
      Configured(apiKey) && post(RequestOf(data)).Content?
      && !loads(StripFence(post(RequestOf(data)).text)).JsonOther?
    ensures n.success == Some(true) ==>
      n == ParseJsonResponse(post(RequestOf(data)).text, loads).value.(success := Some(true))
  {
    if !Configured(apiKey) then
      Narrative(NotConfigured, "N/A", "N/A", "N/A", Some(false))
    else
      match post(RequestOf(data))
      case RequestFailed(message) => Failure(RequestFailedPrefix + message)
      case OtherFailure(message) => Failure(FailedPrefix + message)
      case Content(text) =>
        match ParseJsonResponse(text, loads)
        case Ok(sections) => sections.(success := Some(true))
        case Err(message) => Failure(FailedPrefix + message)
  }

  /** Without a key nothing is sent and the answer is the fixed not-configured narrative. */
  lemma NotConfiguredAnswer(apiKey: Option<string>, data: ExplanationData,
                            post: Request -> Transport, loads: string -> Decoded)
    requires !Configured(apiKey)
    ensures GenerateExplanation(apiKey, data, post, loads) ==
      Narrative(NotConfigured, "N/A", "N/A", "N/A", Some(false))
  {
  }

  /**
   * A failed answer either is the not-configured one or reports the exception: a failed
   * request, or any other failure, in the summary, with the generation error in the
   * other three sections.
   */
  lemma FailureShapes(apiKey: Option<string>, data: ExplanationData,
                      post: Request -> Transport, loads: string -> Decoded)
    ensures var n := GenerateExplanation(apiKey, data, post, loads);
      n.success == Some(false) ==>
        || n == Narrative(NotConfigured, "N/A", "N/A", "N/A", Some(false))
        || (exists m :: n == Failure(RequestFailedPrefix + m))
        || (exists m :: n == Failure(FailedPrefix + m))
  {
    var n := GenerateExplanation(apiKey, data, post, loads);
    if Configured(apiKey) {
      match post(RequestOf(data))
      case RequestFailed(m) => assert n == Failure(RequestFailedPrefix + m);
      case OtherFailure(m) => assert n == Failure(FailedPrefix + m);
      case Content(text) =>
        match ParseJsonResponse(text, loads)
        case Ok(sections) =>
        case Err(m) => assert n == Failure(FailedPrefix + m);
    }
  }

  /** A request failure is reported with its message after the request-failed prefix. */
  lemma RequestFailureReported(apiKey: Option<string>, data: ExplanationData,
                               post: Request -> Transport, loads: string -> Decoded)
    requires Configured(apiKey) && post(RequestOf(data)).RequestFailed?
    ensures GenerateExplanation(apiKey, data, post, loads) ==
      Failure(RequestFailedPrefix + post(RequestOf(data)).message)
  {
  }

  /** Any other failure of the call is reported with its message after the generic prefix. */
  lemma OtherFailureReported(apiKey: Option<string>, data: ExplanationData,
                             post: Request -> Transport, loads: string -> Decoded)
    requires Configured(apiKey) && post(RequestOf(data)).OtherFailure?
    ensures GenerateExplanation(apiKey, data, post, loads) ==
      Failure(FailedPrefix + post(RequestOf(data)).message)
  {
  }

  /** A reply that is neither an object nor JSON becomes a generic failure naming the value's type. */
  lemma NonObjectReplyFails(apiKey: Option<string>, data: ExplanationData,
                            post: Request -> Transport, loads: string -> Decoded)
    requires Configured(apiKey) && post(RequestOf(data)).Content?
    requires loads(StripFence(post(RequestOf(data)).text)).JsonOther?
    ensures GenerateExplanation(apiKey, data, post, loads) ==
      Failure(FailedPrefix + ("'" + loads(StripFence(post(RequestOf(data)).text)).typeName
                              + "' object has no attribute 'get'"))
  {
    var text := post(RequestOf(data)).text;
    assert ParseJsonResponse(text, loads) ==
      Err("'" + loads(StripFence(text)).typeName + "' object has no attribute 'get'");
  }

  /**
   * `generate_explanation` as written: the rsID list is built after the key check and
   * before the guarded block, so its type error escapes to the caller.
   */
  function GenerateExplanationAsWritten(apiKey: Option<string>, data: ExplanationData,
                                        post: Request -> Transport, loads: string -> Decoded): (r: Result<Narrative>)
    ensures r.Err? <==> Configured(apiKey) && RsidListAsWritten(data.detectedVariants).Err?
    ensures r.Ok? ==> r.value == GenerateExplanation(apiKey, data, post, loads)
  {
    if !Configured(apiKey) then
      Ok(GenerateExplanation(apiKey, data, post, loads))
    else
      match RsidListAsWritten(data.detectedVariants)
      case Err(message) => Err(message)
      case Ok(_) => Ok(GenerateExplanation(apiKey, data, post, loads))
  }

  /** A detected variant without rsID makes the explanation as written raise instead of answering. */
  lemma UnnamedVariantRaises(apiKey: Option<string>, data: ExplanationData,
                             post: Request -> Transport, loads: string -> Decoded, k: nat)
    requires Configured(apiKey)
    requires k < |data.detectedVariants| && data.detectedVariants[k].rsid.None?
    ensures GenerateExplanationAsWritten(apiKey, data, post, loads).Err?
  {
  }
}
