/** The schemas of the second analysis flow, a nested variant of the patient
    record: the arteries grouped by coronary system, the valves one record
    each, and differently named blood fields. Unlike the diagnostic flow's
    schema, this one makes the ejection fraction and the contractility
    mandatory and bounds the valve grades; its language is a code. */
module AnalysisSchema {
  import opened Common

  datatype Lca = Lca(
    lm: Option<int>, ladProx: Option<int>, ladMid: Option<int>, ladDist: Option<int>,
    d1: Option<int>, d2: Option<int>)

  datatype Lcx = Lcx(lcxProx: Option<int>, lcxDist: Option<int>, om1: Option<int>, om2: Option<int>)

  datatype Rca = Rca(
    rcaProx: Option<int>, rcaMid: Option<int>, rcaDist: Option<int>, pda: Option<int>, pl: Option<int>)

  /** The ejection fraction is optional here only because a record may arrive
      without it; the schema then rejects the record. */
  datatype Angiography = Angiography(lca: Option<Lca>, lcx: Option<Lcx>, rca: Option<Rca>, ef: Option<int>)

  datatype Valve = Valve(stenosis: Option<int>, regurgitation: Option<int>)

  datatype Valves = Valves(aortic: Option<Valve>, mitral: Option<Valve>, tricuspid: Option<Valve>, pulmonary: Option<Valve>)

  datatype Echo = Echo(globalContractility: Option<string>, valves: Option<Valves>)

  datatype Cbc = Cbc(
    hb: Option<int>, rbc: Option<int>, ht: Option<int>, mch: Option<int>,
    mchc: Option<int>, mcv: Option<int>, plt: Option<int>, wbc: Option<int>)

  datatype WbcDifferential = WbcDifferential(
    bandNeutrophils: Option<int>, segmentedNeutrophils: Option<int>, eosinophils: Option<int>,
    basophils: Option<int>, lymphocytes: Option<int>, monocytes: Option<int>)

  datatype AdditionalMarkers = AdditionalMarkers(esr: Option<int>, reticulocytes: Option<int>)

  datatype CardioMarkers = CardioMarkers(troponinT: Option<int>, creatineKinase: Option<int>, ckmb: Option<int>)

  datatype BloodTests = BloodTests(
    cbc: Option<Cbc>, wbcDifferential: Option<WbcDifferential>,
    additionalMarkers: Option<AdditionalMarkers>, cardioMarkers: Option<CardioMarkers>)

  datatype Input = Input(
    coronaryAngiography: Option<Angiography>,
    echoCGData: Option<Echo>,
    bloodTests: Option<BloodTests>,
    language: Option<string>)

  datatype Output = Output(diagnosis: string, surgicalInterventionRequired: bool, rationale: string)

  // ---------------------------------------------------------------------------
  // Validity
  // ---------------------------------------------------------------------------

  predicate IsContractility(s: string) {
    s == "Impaired" || s == "Not impaired"
  }

  predicate IsLanguageCode(s: string) {
    s == "en" || s == "ru"
  }

  /** A present grade lies between 0 and 4. */
  predicate GradeValid(g: Option<int>) {
    g.Some? ==> 0 <= g.value <= 4
  }

  predicate ValveValid(v: Option<Valve>) {
    v.Some? ==> GradeValid(v.value.stenosis) && GradeValid(v.value.regurgitation)
  }

  predicate ValvesValid(vs: Option<Valves>) {
    vs.Some? ==>
      && ValveValid(vs.value.aortic) && ValveValid(vs.value.mitral)
      && ValveValid(vs.value.tricuspid) && ValveValid(vs.value.pulmonary)
  }

  /** Present angiography carries the ejection fraction; the artery values are
      unbounded. */
  predicate AngiographyValid(a: Angiography) {
    a.ef.Some?
  }

  /** Present echocardiography carries one of the two contractility values and
      only grades in range. */
  predicate EchoValid(e: Echo) {
    && e.globalContractility.Some? && IsContractility(e.globalContractility.value)
    && ValvesValid(e.valves)
  }

  /** The input schema; blood values are unbounded. */
  predicate InputValid(i: Input) {
    && (i.coronaryAngiography.Some? ==> AngiographyValid(i.coronaryAngiography.value))
    && (i.echoCGData.Some? ==> EchoValid(i.echoCGData.value))
    && (i.language.Some? ==> IsLanguageCode(i.language.value))
  }

  /** The language code after the schema's default is applied. */
  function EffectiveLanguage(i: Input): (l: string)
    ensures i.language.None? ==> l == "en"
    ensures i.language.Some? ==> l == i.language.value
    ensures InputValid(i) ==> IsLanguageCode(l)
  {
    match i.language
    case None => "en"
    case Some(l) => l
  }

  // ---------------------------------------------------------------------------
  // The schema's findings, field by field
  // ---------------------------------------------------------------------------

  function GradeIssues(path: seq<string>, g: Option<int>): (r: seq<Issue>)
    ensures r == [] <==> GradeValid(g)
    ensures forall k :: 0 <= k < |r| ==> r[k].path == path && (r[k].kind == TooSmall || r[k].kind == TooBig)
  {
    match g
    case None => []
    case Some(v) => if v < 0 then [Issue(path, TooSmall)] else if v > 4 then [Issue(path, TooBig)] else []
  }

  function ValveIssues(name: string, v: Option<Valve>): (r: seq<Issue>)
    ensures r == [] <==> ValveValid(v)
  {
    match v
    case None => []
    case Some(x) =>
      GradeIssues(["echoCGData", "valves", name, "stenosis"], x.stenosis)
      + GradeIssues(["echoCGData", "valves", name, "regurgitation"], x.regurgitation)
  }

  function ValvesIssues(vs: Option<Valves>): (r: seq<Issue>)
    ensures r == [] <==> ValvesValid(vs)
  {
    match vs
    case None => []
    case Some(x) =>
      ValveIssues("aortic", x.aortic) + ValveIssues("mitral", x.mitral)
      + ValveIssues("tricuspid", x.tricuspid) + ValveIssues("pulmonary", x.pulmonary)
  }

  function ContractilityIssues(g: Option<string>): (r: seq<Issue>)
    ensures r == [] <==> (g.Some? && IsContractility(g.value))
  {
    var path := ["echoCGData", "globalContractility"];
    match g
    case None => [Issue(path, Required)]
    case Some(s) => if IsContractility(s) then [] else [Issue(path, InvalidEnumValue)]
  }

  /** Every field the schema rejects, in schema order. */
  function Issues(i: Input): (r: seq<Issue>)
    ensures r == [] <==> InputValid(i)
  {
    (match i.coronaryAngiography
     case Some(a) => if a.ef.None? then [Issue(["coronaryAngiography", "EF"], Required)] else []
     case None => [])
    + (match i.echoCGData
       case Some(e) => ContractilityIssues(e.globalContractility) + ValvesIssues(e.valves)
       case None => [])
    + (match i.language
       case Some(l) => if IsLanguageCode(l) then [] else [Issue(["language"], InvalidEnumValue)]
       case None => [])
  }

  // ---------------------------------------------------------------------------
  // The output schema
  // ---------------------------------------------------------------------------

  /** Applies the output schema: the three fields present with the right types. */
  function ParseOutput(response: map<string, Json>): (r: Option<Output>)
    ensures r.Some? <==>
      && "diagnosis" in response && response["diagnosis"].JString?
      && "surgicalInterventionRequired" in response && response["surgicalInterventionRequired"].JBool?
      && "rationale" in response && response["rationale"].JString?
    ensures r.Some? ==>
      && r.value.diagnosis == response["diagnosis"].s
      && r.value.surgicalInterventionRequired == response["surgicalInterventionRequired"].b
      && r.value.rationale == response["rationale"].s
  {
    if "diagnosis" in response && "surgicalInterventionRequired" in response && "rationale" in response then
      match (response["diagnosis"], response["surgicalInterventionRequired"], response["rationale"])
      case (JString(d), JBool(b), JString(t)) => Some(Output(d, b, t))
      case _ => None
    else None
  }

  function OutputToJson(o: Output): map<string, Json> {
    map["diagnosis" := JString(o.diagnosis),
        "surgicalInterventionRequired" := JBool(o.surgicalInterventionRequired),
        "rationale" := JString(o.rationale)]
  }

  lemma ParseOutputRoundTrip(o: Output)
    ensures ParseOutput(OutputToJson(o)) == Some(o)
  {
  }

  /** The other flow's flag name does not satisfy this schema. */
  lemma ParseOutputRejectsOtherFlagName(d: string, b: bool, t: string)
    ensures ParseOutput(map["diagnosis" := JString(d), "surgicalInterventionNeeded" := JBool(b),
                            "rationale" := JString(t)]).None?
  {
  }
}
