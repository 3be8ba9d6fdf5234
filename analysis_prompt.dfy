/** The prompt of the second analysis flow, twice over.

    As written, the template places each of the three data sections with a
    triple-brace expression. A present section is an object, which prints as
    JavaScript's default object text, and an absent one prints nothing; the
    language is never placed at all. `PromptAsWritten` models that text and
    the lemmas beside it show what it loses.

    `Prompt` is the evidently intended prompt: the same fixed lines, with each
    data section written out field by field at fixed positions (a presence flag
    for every object, the decimal text of every number, empty when absent) and
    the language named. It is proved to determine the input, and it is the
    prompt `AnalyzePatientDataCorrected` sends; the flow as written sends
    `PromptAsWritten`. */
module AnalysisPrompt {
  import opened Common
  import opened AnalysisSchema

  const Intro := "You are an experienced cardiologist providing diagnostic assistance based on patient data."
  const Task := "You will receive data from coronary angiography, EchoCG, and blood tests. Your task is to analyze this data and provide a likely diagnosis, as well as an assessment of whether surgical intervention is required."
  const RationaleRequest := "Provide a rationale for your diagnosis and recommendation."
  const LanguageRequest := "Respond in the language specified in the input."
  const Consider := "Consider all available data points when making your assessment."
  const OutputRequest := "Output the diagnosis, surgicalInterventionRequired, and rationale fields."

  const AngiographyLabel := "Coronary Angiography Data: "
  const EchoLabel := "EchoCG Data: "
  const BloodLabel := "Blood Tests Data: "

  /** The fixed lines before and after the data lines. */
  const Head := [Intro, "", Task, RationaleRequest, "", LanguageRequest, ""]
  const Tail := ["", Consider, "", OutputRequest]

  // ---------------------------------------------------------------------------
  // The prompt as written
  // ---------------------------------------------------------------------------

  /** What a JavaScript object turns into when it is made a string. */
  const ObjectText := "[object Object]"

  /** A triple-brace expression of an optional object: nothing when absent, the
      default object text when present, whatever the object holds. */
  function Slot<T>(v: Option<T>): string {
    if v.Some? then ObjectText else ""
  }

  function PromptAsWritten(i: Input): seq<string> {
    Head
    + [AngiographyLabel + Slot(i.coronaryAngiography),
       EchoLabel + Slot(i.echoCGData),
       BloodLabel + Slot(i.bloodTests)]
    + Tail
  }

  /** The three labelled data lines are always there, between the fixed lines,
      whether or not their sections are present. */
  lemma PromptAsWrittenShape(i: Input)
    ensures var r := PromptAsWritten(i);
      && |r| == 14 && r[..7] == Head && r[10..] == Tail
      && r[7] == AngiographyLabel + Slot(i.coronaryAngiography)
      && r[8] == EchoLabel + Slot(i.echoCGData)
      && r[9] == BloodLabel + Slot(i.bloodTests)
  {
    var r := PromptAsWritten(i);
    assert r[..7] == Head;
  }

  /** Two inputs get the same prompt exactly when the same sections are present:
      nothing else of the input reaches the text. */
  lemma PromptAsWrittenSeesPresenceOnly(i1: Input, i2: Input)
    ensures PromptAsWritten(i1) == PromptAsWritten(i2) <==>
      && i1.coronaryAngiography.Some? == i2.coronaryAngiography.Some?
      && i1.echoCGData.Some? == i2.echoCGData.Some?
      && i1.bloodTests.Some? == i2.bloodTests.Some?
  {
    if PromptAsWritten(i1) == PromptAsWritten(i2) {
      PromptAsWrittenShape(i1);
      PromptAsWrittenShape(i2);
      assert |Slot(i1.coronaryAngiography)| == |Slot(i2.coronaryAngiography)|;
      assert |Slot(i1.echoCGData)| == |Slot(i2.echoCGData)|;
      assert |Slot(i1.bloodTests)| == |Slot(i2.bloodTests)|;
    }
  }

  /** Two inputs the schema accepts, differing in their ejection fraction (30%
      against 60%), get the same prompt. */
  lemma PromptAsWrittenLosesData()
    ensures var i1 := Input(Some(Angiography(None, None, None, Some(30))), None, None, None);
            var i2 := Input(Some(Angiography(None, None, None, Some(60))), None, None, None);
            && InputValid(i1) && InputValid(i2) && i1 != i2
            && PromptAsWritten(i1) == PromptAsWritten(i2)
  {
    var i1 := Input(Some(Angiography(None, None, None, Some(30))), None, None, None);
    var i2 := Input(Some(Angiography(None, None, None, Some(60))), None, None, None);
    PromptAsWrittenSeesPresenceOnly(i1, i2);
  }

  /** The prompt asks for the language specified in the input but the text does
      not depend on it: an English and a Russian request read alike. */
  lemma PromptAsWrittenIgnoresLanguage(i: Input)
    ensures EffectiveLanguage(i.(language := Some("en"))) != EffectiveLanguage(i.(language := Some("ru")))
    ensures PromptAsWritten(i.(language := Some("en"))) == PromptAsWritten(i.(language := Some("ru")))
  {
  }

  // ---------------------------------------------------------------------------
  // The corrected prompt: every field at a fixed position
  // ---------------------------------------------------------------------------

  /** Whether an object is present. */
  function Flag(present: bool): string {
    if present then "provided" else "not provided"
  }

  /** A group header with its presence flag, then one labelled line per numeric field. */
  function Group(header: string, present: bool, labels: seq<string>, values: seq<Option<int>>): (r: seq<string>)
    requires |labels| == |values|
    ensures |r| == 1 + |labels|
  {
    [header + Flag(present)] + seq(|labels|, k requires 0 <= k < |labels| => labels[k] + OptNumText(values[k]))
  }

  /** A group's lines give back its presence and every one of its values. */
  lemma GroupInjective(header: string, labels: seq<string>, p1: bool, v1: seq<Option<int>>, p2: bool, v2: seq<Option<int>>)
    requires |labels| == |v1| == |v2|
    requires Group(header, p1, labels, v1) == Group(header, p2, labels, v2)
    ensures p1 == p2 && v1 == v2
  {
    var g1 := Group(header, p1, labels, v1);
    var g2 := Group(header, p2, labels, v2);
    assert g1[0] == header + Flag(p1) && g2[0] == header + Flag(p2);
    CancelPrefix(header, Flag(p1), Flag(p2));
    assert |Flag(p1)| == |Flag(p2)|;
    forall k | 0 <= k < |v1| ensures v1[k] == v2[k] {
      assert g1[k + 1] == labels[k] + OptNumText(v1[k]);
      assert g2[k + 1] == labels[k] + OptNumText(v2[k]);
      CancelPrefix(labels[k], OptNumText(v1[k]), OptNumText(v2[k]));
      OptNumTextInjective(v1[k], v2[k]);
    }
  }

  /** Equal flags mean equal presence. */
  lemma FlagInjective(header: string, p1: bool, p2: bool)
    requires header + Flag(p1) == header + Flag(p2)
    ensures p1 == p2
  {
    CancelPrefix(header, Flag(p1), Flag(p2));
    assert |Flag(p1)| == |Flag(p2)|;
  }

  // Field values of each group, all absent when the group is.

  function LcaFields(g: Option<Lca>): (r: seq<Option<int>>)
    ensures |r| == 6
  {
    match g
    case None => [None, None, None, None, None, None]
    case Some(x) => [x.lm, x.ladProx, x.ladMid, x.ladDist, x.d1, x.d2]
  }

  function LcxFields(g: Option<Lcx>): (r: seq<Option<int>>)
    ensures |r| == 4
  {
    match g
    case None => [None, None, None, None]
    case Some(x) => [x.lcxProx, x.lcxDist, x.om1, x.om2]
  }

  function RcaFields(g: Option<Rca>): (r: seq<Option<int>>)
    ensures |r| == 5
  {
    match g
    case None => [None, None, None, None, None]
    case Some(x) => [x.rcaProx, x.rcaMid, x.rcaDist, x.pda, x.pl]
  }

  function ValveFields(g: Option<Valve>): (r: seq<Option<int>>)
    ensures |r| == 2
  {
    match g
    case None => [None, None]
    case Some(x) => [x.stenosis, x.regurgitation]
  }

  function CbcFields(g: Option<Cbc>): (r: seq<Option<int>>)
    ensures |r| == 8
  {
    match g
    case None => [None, None, None, None, None, None, None, None]
    case Some(x) => [x.hb, x.rbc, x.ht, x.mch, x.mchc, x.mcv, x.plt, x.wbc]
  }

  function WbcFields(g: Option<WbcDifferential>): (r: seq<Option<int>>)
    ensures |r| == 6
  {
    match g
    case None => [None, None, None, None, None, None]
    case Some(x) => [x.bandNeutrophils, x.segmentedNeutrophils, x.eosinophils, x.basophils, x.lymphocytes, x.monocytes]
  }

  function MarkerFields(g: Option<AdditionalMarkers>): (r: seq<Option<int>>)
    ensures |r| == 2
  {
    match g
    case None => [None, None]
    case Some(x) => [x.esr, x.reticulocytes]
  }

  function CardioFields(g: Option<CardioMarkers>): (r: seq<Option<int>>)
    ensures |r| == 3
  {
    match g
    case None => [None, None, None]
    case Some(x) => [x.troponinT, x.creatineKinase, x.ckmb]
  }

  // The field lists give back their groups once presence is known.

  lemma LcaFieldsInjective(g1: Option<Lca>, g2: Option<Lca>)
    requires g1.Some? == g2.Some? && LcaFields(g1) == LcaFields(g2)
    ensures g1 == g2
  {
    if g1.Some? {
      var f := LcaFields(g1);
      assert f[0] == g1.value.lm && f[1] == g1.value.ladProx && f[2] == g1.value.ladMid;
      assert f[3] == g1.value.ladDist && f[4] == g1.value.d1 && f[5] == g1.value.d2;
    }
  }

  lemma LcxFieldsInjective(g1: Option<Lcx>, g2: Option<Lcx>)
    requires g1.Some? == g2.Some? && LcxFields(g1) == LcxFields(g2)
    ensures g1 == g2
  {
    if g1.Some? {
      var f := LcxFields(g1);
      assert f[0] == g1.value.lcxProx && f[1] == g1.value.lcxDist && f[2] == g1.value.om1 && f[3] == g1.value.om2;
    }
  }

  lemma RcaFieldsInjective(g1: Option<Rca>, g2: Option<Rca>)
    requires g1.Some? == g2.Some? && RcaFields(g1) == RcaFields(g2)
    ensures g1 == g2
  {
    if g1.Some? {
      var f := RcaFields(g1);
      assert f[0] == g1.value.rcaProx && f[1] == g1.value.rcaMid && f[2] == g1.value.rcaDist;
      assert f[3] == g1.value.pda && f[4] == g1.value.pl;
    }
  }

  lemma ValveFieldsInjective(g1: Option<Valve>, g2: Option<Valve>)
    requires g1.Some? == g2.Some? && ValveFields(g1) == ValveFields(g2)
    ensures g1 == g2
  {
    if g1.Some? {
      var f := ValveFields(g1);
      assert f[0] == g1.value.stenosis && f[1] == g1.value.regurgitation;
    }
  }

  lemma CbcFieldsInjective(g1: Option<Cbc>, g2: Option<Cbc>)
    requires g1.Some? == g2.Some? && CbcFields(g1) == CbcFields(g2)
    ensures g1 == g2
  {
    if g1.Some? {
      var f := CbcFields(g1);
      assert f[0] == g1.value.hb && f[1] == g1.value.rbc && f[2] == g1.value.ht && f[3] == g1.value.mch;
      assert f[4] == g1.value.mchc && f[5] == g1.value.mcv && f[6] == g1.value.plt && f[7] == g1.value.wbc;
    }
  }

  lemma WbcFieldsInjective(g1: Option<WbcDifferential>, g2: Option<WbcDifferential>)
    requires g1.Some? == g2.Some? && WbcFields(g1) == WbcFields(g2)
    ensures g1 == g2
  {
    if g1.Some? {
      var f := WbcFields(g1);
      assert f[0] == g1.value.bandNeutrophils && f[1] == g1.value.segmentedNeutrophils && f[2] == g1.value.eosinophils;
      assert f[3] == g1.value.basophils && f[4] == g1.value.lymphocytes && f[5] == g1.value.monocytes;
    }
  }

  lemma MarkerFieldsInjective(g1: Option<AdditionalMarkers>, g2: Option<AdditionalMarkers>)
    requires g1.Some? == g2.Some? && MarkerFields(g1) == MarkerFields(g2)
    ensures g1 == g2
  {
    if g1.Some? {
      var f := MarkerFields(g1);
      assert f[0] == g1.value.esr && f[1] == g1.value.reticulocytes;
    }
  }

  lemma CardioFieldsInjective(g1: Option<CardioMarkers>, g2: Option<CardioMarkers>)
    requires g1.Some? == g2.Some? && CardioFields(g1) == CardioFields(g2)
    ensures g1 == g2
  {
    if g1.Some? {
      var f := CardioFields(g1);
      assert f[0] == g1.value.troponinT && f[1] == g1.value.creatineKinase && f[2] == g1.value.ckmb;
    }
  }

  // Labels of the written-out sections, named after the schema's keys.

  const LcaHeader := Pad(2, "LCA: ")
  const LcxHeader := Pad(2, "LCx: ")
  const RcaHeader := Pad(2, "RCA: ")
  const LcaLabels := [Pad(4, "LM: "), Pad(4, "LADprox: "), Pad(4, "LADmid: "), Pad(4, "LADdist: "), Pad(4, "D1: "), Pad(4, "D2: ")]
  const LcxLabels := [Pad(4, "LCxprox: "), Pad(4, "LCxdist: "), Pad(4, "OM1: "), Pad(4, "OM2: ")]
  const RcaLabels := [Pad(4, "RCAprox: "), Pad(4, "RCAmid: "), Pad(4, "RCAdist: "), Pad(4, "PDA: "), Pad(4, "PL: ")]
  const EfLabel := Pad(2, "EF: ")

  const ContractilityLabel := Pad(2, "globalContractility: ")
  const ValvesHeader := Pad(2, "valves: ")
  const AorticHeader := Pad(4, "aortic: ")
  const MitralHeader := Pad(4, "mitral: ")
  const TricuspidHeader := Pad(4, "tricuspid: ")
  const PulmonaryHeader := Pad(4, "pulmonary: ")
  const ValveLabels := [Pad(6, "stenosis: "), Pad(6, "regurgitation: ")]

  const CbcHeader := Pad(2, "CBC: ")
  const WbcHeader := Pad(2, "WBCDifferential: ")
  const MarkersHeader := Pad(2, "additionalMarkers: ")
  const CardioHeader := Pad(2, "cardioMarkers: ")
  const CbcLabels := [Pad(4, "Hb: "), Pad(4, "RBC: "), Pad(4, "Ht: "), Pad(4, "MCH: "), Pad(4, "MCHC: "), Pad(4, "MCV: "), Pad(4, "PLT: "), Pad(4, "WBC: ")]
  const WbcLabels := [Pad(4, "bandNeutrophils: "), Pad(4, "segmentedNeutrophils: "), Pad(4, "eosinophils: "), Pad(4, "basophils: "), Pad(4, "lymphocytes: "), Pad(4, "monocytes: ")]
  const MarkerLabels := [Pad(4, "ESR: "), Pad(4, "reticulocytes: ")]
  const CardioLabels := [Pad(4, "troponinT: "), Pad(4, "creatineKinase: "), Pad(4, "CKMB: ")]

  const LanguageLabel := "Language: "

  const NoAngiography := Angiography(None, None, None, None)
  const NoEcho := Echo(None, None)
  const NoValves := Valves(None, None, None, None)
  const NoBlood := BloodTests(None, None, None, None)

  function AngiographyLines(a: Option<Angiography>): (r: seq<string>)
    ensures |r| == 20
  {
    var x := if a.Some? then a.value else NoAngiography;
    [AngiographyLabel + Flag(a.Some?)]
    + Group(LcaHeader, x.lca.Some?, LcaLabels, LcaFields(x.lca))
    + Group(LcxHeader, x.lcx.Some?, LcxLabels, LcxFields(x.lcx))
    + Group(RcaHeader, x.rca.Some?, RcaLabels, RcaFields(x.rca))
    + [EfLabel + OptNumText(x.ef)]
  }

  function ValvesLines(vs: Option<Valves>): (r: seq<string>)
    ensures |r| == 13
  {
    var x := if vs.Some? then vs.value else NoValves;
    [ValvesHeader + Flag(vs.Some?)]
    + Group(AorticHeader, x.aortic.Some?, ValveLabels, ValveFields(x.aortic))
    + Group(MitralHeader, x.mitral.Some?, ValveLabels, ValveFields(x.mitral))
    + Group(TricuspidHeader, x.tricuspid.Some?, ValveLabels, ValveFields(x.tricuspid))
    + Group(PulmonaryHeader, x.pulmonary.Some?, ValveLabels, ValveFields(x.pulmonary))
  }

  function EchoLines(e: Option<Echo>): (r: seq<string>)
    ensures |r| == 15
  {
    var x := if e.Some? then e.value else NoEcho;
    [EchoLabel + Flag(e.Some?), ContractilityLabel + OrEmpty(x.globalContractility)]
    + ValvesLines(x.valves)
  }

  function BloodLines(b: Option<BloodTests>): (r: seq<string>)
    ensures |r| == 24
  {
    var x := if b.Some? then b.value else NoBlood;
    [BloodLabel + Flag(b.Some?)]
    + Group(CbcHeader, x.cbc.Some?, CbcLabels, CbcFields(x.cbc))
    + Group(WbcHeader, x.wbcDifferential.Some?, WbcLabels, WbcFields(x.wbcDifferential))
    + Group(MarkersHeader, x.additionalMarkers.Some?, MarkerLabels, MarkerFields(x.additionalMarkers))
    + Group(CardioHeader, x.cardioMarkers.Some?, CardioLabels, CardioFields(x.cardioMarkers))
  }

  /** The corrected prompt: the template's fixed lines around the three data
      sections written out in full and the language named. */
  function Prompt(i: Input): seq<string> {
    Head
    + AngiographyLines(i.coronaryAngiography)
    + EchoLines(i.echoCGData)
    + BloodLines(i.bloodTests)
    + [LanguageLabel + EffectiveLanguage(i)]
    + Tail
  }

  /** Line 0 of a section is its labelled line from the template, and the
      sections, the language line and the fixed lines sit at fixed positions. */
  lemma PromptShape(i: Input)
    ensures var r := Prompt(i);
      && |r| == 71 && r[..7] == Head && r[67..] == Tail
      && r[7..27] == AngiographyLines(i.coronaryAngiography)
      && r[27..42] == EchoLines(i.echoCGData)
      && r[42..66] == BloodLines(i.bloodTests)
      && r[66] == LanguageLabel + EffectiveLanguage(i)
  {
    var r := Prompt(i);
    var a := AngiographyLines(i.coronaryAngiography);
    var e := EchoLines(i.echoCGData);
    var b := BloodLines(i.bloodTests);
    var l := [LanguageLabel + EffectiveLanguage(i)];
    ConcatCancel(Head + a + e + b + l, Tail, r[..67], r[67..]);
    ConcatCancel(Head + a + e + b, l, r[..66], r[66..67]);
    ConcatCancel(Head + a + e, b, r[..42], r[42..66]);
    ConcatCancel(Head + a, e, r[..27], r[27..42]);
    ConcatCancel(Head, a, r[..7], r[7..27]);
  }

  /** The three labelled data lines of the template are always there, each
      followed by the presence of its section. */
  lemma PromptKeepsDataLabels(i: Input)
    ensures var r := Prompt(i);
      && r[7] == AngiographyLabel + Flag(i.coronaryAngiography.Some?)
      && r[27] == EchoLabel + Flag(i.echoCGData.Some?)
      && r[42] == BloodLabel + Flag(i.bloodTests.Some?)
  {
    PromptShape(i);
    var r := Prompt(i);
    assert r[7] == r[7..27][0];
    assert r[27] == r[27..42][0];
    assert r[42] == r[42..66][0];
  }

  /** The prompt names the language the reply is to be in. */
  lemma PromptNamesLanguage(i: Input)
    ensures Prompt(i)[66] == LanguageLabel + EffectiveLanguage(i)
    ensures i.language.None? ==> Prompt(i)[66] == LanguageLabel + "en"
  {
    PromptShape(i);
  }

  // ---------------------------------------------------------------------------
  // The corrected prompt determines the input
  // ---------------------------------------------------------------------------

  lemma AngiographyLinesInjective(a1: Option<Angiography>, a2: Option<Angiography>)
    requires AngiographyLines(a1) == AngiographyLines(a2)
    ensures a1 == a2
  {
    var x1 := if a1.Some? then a1.value else NoAngiography;
    var x2 := if a2.Some? then a2.value else NoAngiography;
    var h1, h2 := [AngiographyLabel + Flag(a1.Some?)], [AngiographyLabel + Flag(a2.Some?)];
    var l1 := Group(LcaHeader, x1.lca.Some?, LcaLabels, LcaFields(x1.lca));
    var l2 := Group(LcaHeader, x2.lca.Some?, LcaLabels, LcaFields(x2.lca));
    var c1 := Group(LcxHeader, x1.lcx.Some?, LcxLabels, LcxFields(x1.lcx));
    var c2 := Group(LcxHeader, x2.lcx.Some?, LcxLabels, LcxFields(x2.lcx));
    var r1 := Group(RcaHeader, x1.rca.Some?, RcaLabels, RcaFields(x1.rca));
    var r2 := Group(RcaHeader, x2.rca.Some?, RcaLabels, RcaFields(x2.rca));
    var f1, f2 := [EfLabel + OptNumText(x1.ef)], [EfLabel + OptNumText(x2.ef)];
    ConcatCancel(h1 + l1 + c1 + r1, f1, h2 + l2 + c2 + r2, f2);
    ConcatCancel(h1 + l1 + c1, r1, h2 + l2 + c2, r2);
    ConcatCancel(h1 + l1, c1, h2 + l2, c2);
    ConcatCancel(h1, l1, h2, l2);
    FlagInjective(AngiographyLabel, a1.Some?, a2.Some?);
    GroupInjective(LcaHeader, LcaLabels, x1.lca.Some?, LcaFields(x1.lca), x2.lca.Some?, LcaFields(x2.lca));
    GroupInjective(LcxHeader, LcxLabels, x1.lcx.Some?, LcxFields(x1.lcx), x2.lcx.Some?, LcxFields(x2.lcx));
    GroupInjective(RcaHeader, RcaLabels, x1.rca.Some?, RcaFields(x1.rca), x2.rca.Some?, RcaFields(x2.rca));
    LcaFieldsInjective(x1.lca, x2.lca);
    LcxFieldsInjective(x1.lcx, x2.lcx);
    RcaFieldsInjective(x1.rca, x2.rca);
    assert f1[0] == f2[0];
    CancelPrefix(EfLabel, OptNumText(x1.ef), OptNumText(x2.ef));
    OptNumTextInjective(x1.ef, x2.ef);
  }

  lemma ValvesLinesInjective(v1: Option<Valves>, v2: Option<Valves>)
    requires ValvesLines(v1) == ValvesLines(v2)
    ensures v1 == v2
  {
    var x1 := if v1.Some? then v1.value else NoValves;
    var x2 := if v2.Some? then v2.value else NoValves;
    var h1, h2 := [ValvesHeader + Flag(v1.Some?)], [ValvesHeader + Flag(v2.Some?)];
    var a1 := Group(AorticHeader, x1.aortic.Some?, ValveLabels, ValveFields(x1.aortic));
    var a2 := Group(AorticHeader, x2.aortic.Some?, ValveLabels, ValveFields(x2.aortic));
    var m1 := Group(MitralHeader, x1.mitral.Some?, ValveLabels, ValveFields(x1.mitral));
    var m2 := Group(MitralHeader, x2.mitral.Some?, ValveLabels, ValveFields(x2.mitral));
    var t1 := Group(TricuspidHeader, x1.tricuspid.Some?, ValveLabels, ValveFields(x1.tricuspid));
    var t2 := Group(TricuspidHeader, x2.tricuspid.Some?, ValveLabels, ValveFields(x2.tricuspid));
    var p1 := Group(PulmonaryHeader, x1.pulmonary.Some?, ValveLabels, ValveFields(x1.pulmonary));
    var p2 := Group(PulmonaryHeader, x2.pulmonary.Some?, ValveLabels, ValveFields(x2.pulmonary));
    ConcatCancel(h1 + a1 + m1 + t1, p1, h2 + a2 + m2 + t2, p2);
    ConcatCancel(h1 + a1 + m1, t1, h2 + a2 + m2, t2);
    ConcatCancel(h1 + a1, m1, h2 + a2, m2);
    ConcatCancel(h1, a1, h2, a2);
    FlagInjective(ValvesHeader, v1.Some?, v2.Some?);
    GroupInjective(AorticHeader, ValveLabels, x1.aortic.Some?, ValveFields(x1.aortic), x2.aortic.Some?, ValveFields(x2.aortic));
    GroupInjective(MitralHeader, ValveLabels, x1.mitral.Some?, ValveFields(x1.mitral), x2.mitral.Some?, ValveFields(x2.mitral));
    GroupInjective(TricuspidHeader, ValveLabels, x1.tricuspid.Some?, ValveFields(x1.tricuspid), x2.tricuspid.Some?, ValveFields(x2.tricuspid));
    GroupInjective(PulmonaryHeader, ValveLabels, x1.pulmonary.Some?, ValveFields(x1.pulmonary), x2.pulmonary.Some?, ValveFields(x2.pulmonary));
    ValveFieldsInjective(x1.aortic, x2.aortic);
    ValveFieldsInjective(x1.mitral, x2.mitral);
    ValveFieldsInjective(x1.tricuspid, x2.tricuspid);
    ValveFieldsInjective(x1.pulmonary, x2.pulmonary);
  }

  /** Present echocardiography carries a contractility value the schema
      accepts, so its text tells it apart from an absent one. */
  lemma EchoLinesInjective(e1: Option<Echo>, e2: Option<Echo>)
    requires e1.Some? ==> EchoValid(e1.value)
    requires e2.Some? ==> EchoValid(e2.value)
    requires EchoLines(e1) == EchoLines(e2)
    ensures e1 == e2
  {
    var x1 := if e1.Some? then e1.value else NoEcho;
    var x2 := if e2.Some? then e2.value else NoEcho;
    var h1 := [EchoLabel + Flag(e1.Some?), ContractilityLabel + OrEmpty(x1.globalContractility)];
    var h2 := [EchoLabel + Flag(e2.Some?), ContractilityLabel + OrEmpty(x2.globalContractility)];
    ConcatCancel(h1, ValvesLines(x1.valves), h2, ValvesLines(x2.valves));
    assert h1[0] == h2[0] && h1[1] == h2[1];
    FlagInjective(EchoLabel, e1.Some?, e2.Some?);
    CancelPrefix(ContractilityLabel, OrEmpty(x1.globalContractility), OrEmpty(x2.globalContractility));
    ValvesLinesInjective(x1.valves, x2.valves);
  }

  lemma BloodLinesInjective(b1: Option<BloodTests>, b2: Option<BloodTests>)
    requires BloodLines(b1) == BloodLines(b2)
    ensures b1 == b2
  {
    var x1 := if b1.Some? then b1.value else NoBlood;
    var x2 := if b2.Some? then b2.value else NoBlood;
    var h1, h2 := [BloodLabel + Flag(b1.Some?)], [BloodLabel + Flag(b2.Some?)];
    var c1 := Group(CbcHeader, x1.cbc.Some?, CbcLabels, CbcFields(x1.cbc));
    var c2 := Group(CbcHeader, x2.cbc.Some?, CbcLabels, CbcFields(x2.cbc));
    var w1 := Group(WbcHeader, x1.wbcDifferential.Some?, WbcLabels, WbcFields(x1.wbcDifferential));
    var w2 := Group(WbcHeader, x2.wbcDifferential.Some?, WbcLabels, WbcFields(x2.wbcDifferential));
    var m1 := Group(MarkersHeader, x1.additionalMarkers.Some?, MarkerLabels, MarkerFields(x1.additionalMarkers));
    var m2 := Group(MarkersHeader, x2.additionalMarkers.Some?, MarkerLabels, MarkerFields(x2.additionalMarkers));
    var k1 := Group(CardioHeader, x1.cardioMarkers.Some?, CardioLabels, CardioFields(x1.cardioMarkers));
    var k2 := Group(CardioHeader, x2.cardioMarkers.Some?, CardioLabels, CardioFields(x2.cardioMarkers));
    ConcatCancel(h1 + c1 + w1 + m1, k1, h2 + c2 + w2 + m2, k2);
    ConcatCancel(h1 + c1 + w1, m1, h2 + c2 + w2, m2);
    ConcatCancel(h1 + c1, w1, h2 + c2, w2);
    ConcatCancel(h1, c1, h2, c2);
    FlagInjective(BloodLabel, b1.Some?, b2.Some?);
    GroupInjective(CbcHeader, CbcLabels, x1.cbc.Some?, CbcFields(x1.cbc), x2.cbc.Some?, CbcFields(x2.cbc));
    GroupInjective(WbcHeader, WbcLabels, x1.wbcDifferential.Some?, WbcFields(x1.wbcDifferential),
                   x2.wbcDifferential.Some?, WbcFields(x2.wbcDifferential));
    GroupInjective(MarkersHeader, MarkerLabels, x1.additionalMarkers.Some?, MarkerFields(x1.additionalMarkers),
                   x2.additionalMarkers.Some?, MarkerFields(x2.additionalMarkers));
    GroupInjective(CardioHeader, CardioLabels, x1.cardioMarkers.Some?, CardioFields(x1.cardioMarkers),
                   x2.cardioMarkers.Some?, CardioFields(x2.cardioMarkers));
    CbcFieldsInjective(x1.cbc, x2.cbc);
    WbcFieldsInjective(x1.wbcDifferential, x2.wbcDifferential);
    MarkerFieldsInjective(x1.additionalMarkers, x2.additionalMarkers);
    CardioFieldsInjective(x1.cardioMarkers, x2.cardioMarkers);
  }

  /** Inputs the schema accepts that get the same corrected prompt agree on
      every section and on the language: no data is lost. */
  lemma PromptDeterminesInput(i1: Input, i2: Input)
    requires InputValid(i1) && InputValid(i2)
    requires Prompt(i1) == Prompt(i2)
    ensures i1.coronaryAngiography == i2.coronaryAngiography
    ensures i1.echoCGData == i2.echoCGData
    ensures i1.bloodTests == i2.bloodTests
    ensures EffectiveLanguage(i1) == EffectiveLanguage(i2)
  {
    PromptShape(i1);
    PromptShape(i2);
    AngiographyLinesInjective(i1.coronaryAngiography, i2.coronaryAngiography);
    EchoLinesInjective(i1.echoCGData, i2.echoCGData);
    BloodLinesInjective(i1.bloodTests, i2.bloodTests);
    CancelPrefix(LanguageLabel, EffectiveLanguage(i1), EffectiveLanguage(i2));
  }
}
