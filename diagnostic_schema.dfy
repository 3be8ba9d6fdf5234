/** The input and output schemas of the diagnostic-assistance flow: a patient
    record of optional sections (coronary angiography, echocardiography, blood
    tests) plus a response language, and the mandatory diagnosis triple. The
    flow's own schema bounds no number; it constrains only the two enumerations.
    The same section records are what the new-patient form collects. */
module DiagnosticSchema {
  import opened Common

  /** The fifteen coronary artery segments, in declaration order. */
  datatype Segment =
    | LM | LADprox | LADmid | LADdist | D1 | D2
    | LCxprox | LCxdist | OM1 | OM2
    | RCAprox | RCAmid | RCAdist | PDA | PL

  /** The key under which a segment is stored. */
  function SegmentName(s: Segment): string {
    match s
    case LM => "LM"
    case LADprox => "LADprox"
    case LADmid => "LADmid"
    case LADdist => "LADdist"
    case D1 => "D1"
    case D2 => "D2"
    case LCxprox => "LCxprox"
    case LCxdist => "LCxdist"
    case OM1 => "OM1"
    case OM2 => "OM2"
    case RCAprox => "RCAprox"
    case RCAmid => "RCAmid"
    case RCAdist => "RCAdist"
    case PDA => "PDA"
    case PL => "PL"
  }

  /** The schema's keys in declaration order. */
  const AllSegments: seq<Segment> :=
    [LM, LADprox, LADmid, LADdist, D1, D2, LCxprox, LCxdist, OM1, OM2,
     RCAprox, RCAmid, RCAdist, PDA, PL]

  /** Recognises a schema key. */
  function ParseSegment(name: string): (r: Option<Segment>)
    ensures r.Some? ==> SegmentName(r.value) == name
  {
    if name == "LM" then Some(LM)
    else if name == "LADprox" then Some(LADprox)
    else if name == "LADmid" then Some(LADmid)
    else if name == "LADdist" then Some(LADdist)
    else if name == "D1" then Some(D1)
    else if name == "D2" then Some(D2)
    else if name == "LCxprox" then Some(LCxprox)
    else if name == "LCxdist" then Some(LCxdist)
    else if name == "OM1" then Some(OM1)
    else if name == "OM2" then Some(OM2)
    else if name == "RCAprox" then Some(RCAprox)
    else if name == "RCAmid" then Some(RCAmid)
    else if name == "RCAdist" then Some(RCAdist)
    else if name == "PDA" then Some(PDA)
    else if name == "PL" then Some(PL)
    else None
  }

  /** Every segment's key is recognised as that segment, so keys are distinct. */
  lemma ParseSegmentName(s: Segment)
    ensures ParseSegment(SegmentName(s)) == Some(s)
  {
    match s
    case LM =>
    case LADprox =>
    case LADmid =>
    case LADdist =>
    case D1 =>
    case D2 =>
    case LCxprox =>
    case LCxdist =>
    case OM1 =>
    case OM2 =>
    case RCAprox =>
    case RCAmid =>
    case RCAdist =>
    case PDA =>
    case PL =>
  }

  lemma SegmentNameInjective(a: Segment, b: Segment)
    requires SegmentName(a) == SegmentName(b)
    ensures a == b
  {
    ParseSegmentName(a);
    ParseSegmentName(b);
  }

  /** One supplied key of the affected-arteries object and its lesion percentage. */
  datatype Lesion = Lesion(segment: Segment, percent: int)

  datatype CoronaryAngiography = CoronaryAngiography(
    affectedArteries: Option<seq<Lesion>>,
    ejectionFraction: Option<int>)

  datatype EchoCGData = EchoCGData(
    globalContractility: Option<string>,
    aorticStenosis: Option<int>,
    aorticRegurgitation: Option<int>,
    mitralStenosis: Option<int>,
    mitralRegurgitation: Option<int>,
    tricuspidStenosis: Option<int>,
    tricuspidRegurgitation: Option<int>,
    pulmonaryStenosis: Option<int>,
    pulmonaryRegurgitation: Option<int>)

  datatype BloodCount = BloodCount(
    hemoglobin: Option<int>,
    redBloodCells: Option<int>,
    hematocrit: Option<int>,
    colorIndex: Option<int>,
    meanCorpuscularVolume: Option<int>,
    platelets: Option<int>,
    whiteBloodCells: Option<int>)

  datatype WbcDifferential = WbcDifferential(
    bandNeutrophils: Option<int>,
    segmentedNeutrophils: Option<int>,
    eosinophils: Option<int>,
    basophils: Option<int>,
    lymphocytes: Option<int>,
    monocytes: Option<int>)

  datatype AdditionalMarkers = AdditionalMarkers(
    esr: Option<int>,
    reticulocytes: Option<int>)

  datatype CardioMarkers = CardioMarkers(
    troponinT: Option<int>,
    creatineKinase: Option<int>,
    ckMB: Option<int>)

  datatype BloodTests = BloodTests(
    completeBloodCount: Option<BloodCount>,
    wbcDifferential: Option<WbcDifferential>,
    additionalMarkers: Option<AdditionalMarkers>,
    cardiomarkers: Option<CardioMarkers>)

  /** The flow's input; `language` is None when the caller omitted it. */
  datatype Input = Input(
    coronaryAngiography: Option<CoronaryAngiography>,
    echoCGData: Option<EchoCGData>,
    bloodTests: Option<BloodTests>,
    language: Option<string>)

  /** The flow's output; all three fields are mandatory. */
  datatype Output = Output(
    diagnosis: string,
    surgicalInterventionNeeded: bool,
    rationale: string)

  const Impaired := "Impaired"
  const NotImpaired := "Not impaired"

  predicate IsContractility(s: string) {
    s == Impaired || s == NotImpaired
  }

  predicate IsLanguage(s: string) {
    s == "English" || s == "Russian"
  }

  /** The input schema: a present contractility is one of its two values and a
      present language is English or Russian; numbers are unconstrained. */
  predicate InputValid(i: Input) {
    && (i.echoCGData.Some? && i.echoCGData.value.globalContractility.Some? ==>
          IsContractility(i.echoCGData.value.globalContractility.value))
    && (i.language.Some? ==> IsLanguage(i.language.value))
  }

  /** The language after the schema's default is applied. */
  function EffectiveLanguage(i: Input): (l: string)
    ensures i.language.None? ==> l == "English"
    ensures i.language.Some? ==> l == i.language.value
    ensures InputValid(i) ==> IsLanguage(l)
  {
    match i.language
    case None => "English"
    case Some(l) => l
  }

  // ---------------------------------------------------------------------------
  // The output schema, applied to a loosely typed response object
  // ---------------------------------------------------------------------------

  /** Applies the output schema: all three fields present with the right types.
      Other keys of the response are dropped. */
  function ParseOutput(response: map<string, Json>): (r: Option<Output>)
    ensures r.Some? <==>
      && "diagnosis" in response && response["diagnosis"].JString?
      && "surgicalInterventionNeeded" in response && response["surgicalInterventionNeeded"].JBool?
      && "rationale" in response && response["rationale"].JString?
    ensures r.Some? ==>
      && r.value.diagnosis == response["diagnosis"].s
      && r.value.surgicalInterventionNeeded == response["surgicalInterventionNeeded"].b
      && r.value.rationale == response["rationale"].s
  {
    if "diagnosis" in response && "surgicalInterventionNeeded" in response && "rationale" in response then
      match (response["diagnosis"], response["surgicalInterventionNeeded"], response["rationale"])
      case (JString(d), JBool(b), JString(t)) => Some(Output(d, b, t))
      case _ => None
    else None
  }

  /** The structured response that carries an output. */
  function OutputToJson(o: Output): map<string, Json> {
    map["diagnosis" := JString(o.diagnosis),
        "surgicalInterventionNeeded" := JBool(o.surgicalInterventionNeeded),
        "rationale" := JString(o.rationale)]
  }

  /** Every well-formed output passes the output schema unchanged. */
  lemma ParseOutputRoundTrip(o: Output)
    ensures ParseOutput(OutputToJson(o)) == Some(o)
  {
  }

  /** A response whose flag is sent as text is rejected, never read as false. */
  lemma ParseOutputRejectsTextFlag(response: map<string, Json>, t: string)
    requires "surgicalInterventionNeeded" in response && response["surgicalInterventionNeeded"] == JString(t)
    ensures ParseOutput(response).None?
  {
  }

  /** A response missing any of the three fields is rejected. */
  lemma ParseOutputRejectsMissing(response: map<string, Json>)
    requires "diagnosis" !in response || "surgicalInterventionNeeded" !in response || "rationale" !in response
    ensures ParseOutput(response).None?
  {
  }
}
