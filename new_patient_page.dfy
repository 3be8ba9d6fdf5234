/** The new-patient page: the form's validation schema, the lists of fields it
    shows, how a number box turns into a field value, how the submitted values
    become the diagnostic flow's input, and the submission state (loading flag,
    last result, error notifications) around the flow call. */
module NewPatientPage {
  import opened Common
  import opened DiagnosticSchema
  import DiagnosticPrompt
  import DiagnosticFlow
  import L = Localization

  /** What the form collects: the diagnostic input's three sections, without
      the language. */
  datatype FormValues = FormValues(
    coronaryAngiography: Option<CoronaryAngiography>,
    echoCGData: Option<EchoCGData>,
    bloodTests: Option<BloodTests>)

  // ---------------------------------------------------------------------------
  // The form schema
  // ---------------------------------------------------------------------------

  /** A present value lies in [lo, hi]. */
  predicate InRange(v: Option<int>, lo: int, hi: int) {
    v.Some? ==> lo <= v.value <= hi
  }

  /** Every supplied lesion percentage lies in [0, 100]. */
  predicate LesionsValid(ls: seq<Lesion>) {
    forall k :: 0 <= k < |ls| ==> 0 <= ls[k].percent <= 100
  }

  predicate AngiographyFormValid(a: CoronaryAngiography) {
    && (a.affectedArteries.Some? ==> LesionsValid(a.affectedArteries.value))
    && InRange(a.ejectionFraction, 0, 100)
  }

  /** The eight valve grades, in schema order. */
  function Grades(e: EchoCGData): (r: seq<Option<int>>)
    ensures |r| == 8
  {
    [e.aorticStenosis, e.aorticRegurgitation, e.mitralStenosis, e.mitralRegurgitation,
     e.tricuspidStenosis, e.tricuspidRegurgitation, e.pulmonaryStenosis, e.pulmonaryRegurgitation]
  }

  predicate EchoFormValid(e: EchoCGData) {
    && (e.globalContractility.Some? ==> IsContractility(e.globalContractility.value))
    && forall k :: 0 <= k < 8 ==> InRange(Grades(e)[k], 0, 4)
  }

  /** The form schema; the blood panels carry no bound. */
  predicate FormValid(v: FormValues) {
    && (v.coronaryAngiography.Some? ==> AngiographyFormValid(v.coronaryAngiography.value))
    && (v.echoCGData.Some? ==> EchoFormValid(v.echoCGData.value))
  }

  /** The valves, each shown as a stenosis and a regurgitation select. */
  const Valves := ["aortic", "mitral", "tricuspid", "pulmonary"]

  /** The form keys of a valve's two selects. */
  function StenosisKey(valve: string): string { valve + "Stenosis" }
  function RegurgitationKey(valve: string): string { valve + "Regurgitation" }

  /** The form key of the k-th grade: valve by valve, stenosis first, which is
      the order of `Grades`. */
  function GradeKey(k: nat): string
    requires k < 8
  {
    if k % 2 == 0 then StenosisKey(Valves[k / 2]) else RegurgitationKey(Valves[k / 2])
  }

  function RangeIssues(path: seq<string>, v: Option<int>, lo: int, hi: int): (r: seq<Issue>)
    ensures r == [] <==> InRange(v, lo, hi)
    ensures forall k :: 0 <= k < |r| ==> r[k].path == path
  {
    match v
    case None => []
    case Some(x) => if x < lo then [Issue(path, TooSmall)] else if x > hi then [Issue(path, TooBig)] else []
  }

  function LesionPath(s: Segment): seq<string> {
    ["coronaryAngiography", "affectedArteries", SegmentName(s)]
  }

  /** The rejected lesions, one issue each, in the order supplied. */
  function LesionIssues(ls: seq<Lesion>): (r: seq<Issue>)
    ensures r == [] <==> LesionsValid(ls)
    decreases |ls|
  {
    if ls == [] then []
    else
      var rest := LesionIssues(ls[1..]);
      assert LesionsValid(ls) <==> 0 <= ls[0].percent <= 100 && LesionsValid(ls[1..]) by {
        assert forall k :: 1 <= k < |ls| ==> ls[k] == ls[1..][k - 1];
      }
      RangeIssues(LesionPath(ls[0].segment), Some(ls[0].percent), 0, 100) + rest
  }

  function GradeIssues(e: EchoCGData, k: nat): (r: seq<Issue>)
    requires k <= 8
    ensures r == [] <==> forall j :: k <= j < 8 ==> InRange(Grades(e)[j], 0, 4)
    decreases 8 - k
  {
    if k == 8 then []
    else RangeIssues(["echoCGData", GradeKey(k)], Grades(e)[k], 0, 4) + GradeIssues(e, k + 1)
  }

  function AngiographyIssues(a: CoronaryAngiography): (r: seq<Issue>)
    ensures r == [] <==> AngiographyFormValid(a)
  {
    (match a.affectedArteries case None => [] case Some(ls) => LesionIssues(ls))
    + RangeIssues(["coronaryAngiography", "ejectionFraction"], a.ejectionFraction, 0, 100)
  }

  function EchoIssues(e: EchoCGData): (r: seq<Issue>)
    ensures r == [] <==> EchoFormValid(e)
  {
    (match e.globalContractility
     case None => []
     case Some(g) => if IsContractility(g) then [] else [Issue(["echoCGData", "globalContractility"], InvalidEnumValue)])
    + GradeIssues(e, 0)
  }

  /** Every field the form schema rejects, angiography before echo and the
      lesions in the order they were entered; the form can be submitted
      exactly when there is none. */
  function FormIssues(v: FormValues): (r: seq<Issue>)
    ensures r == [] <==> FormValid(v)
  {
    (match v.coronaryAngiography case None => [] case Some(a) => AngiographyIssues(a))
    + (match v.echoCGData case None => [] case Some(e) => EchoIssues(e))
  }

  /** A lesion outside [0, 100] is reported on its own segment's path. */
  lemma {:induction false} LesionRejected(ls: seq<Lesion>, k: nat)
    requires k < |ls| && !(0 <= ls[k].percent <= 100)
    ensures Issue(LesionPath(ls[k].segment), if ls[k].percent < 0 then TooSmall else TooBig) in LesionIssues(ls)
    decreases k
  {
    if k > 0 {
      LesionRejected(ls[1..], k - 1);
      assert ls[1..][k - 1] == ls[k];
    }
  }

  /** An ejection fraction outside [0, 100] is reported on its path, whatever
      else the form holds. */
  lemma EjectionFractionRejected(v: FormValues, ef: int)
    requires v.coronaryAngiography.Some? && v.coronaryAngiography.value.ejectionFraction == Some(ef)
    requires ef < 0 || ef > 100
    ensures Issue(["coronaryAngiography", "ejectionFraction"], if ef < 0 then TooSmall else TooBig) in FormIssues(v)
  {
    var a := v.coronaryAngiography.value;
    var front := match a.affectedArteries case None => [] case Some(ls) => LesionIssues(ls);
    var efIssues := RangeIssues(["coronaryAngiography", "ejectionFraction"], a.ejectionFraction, 0, 100);
    assert efIssues[0] in front + efIssues;
    var echo := match v.echoCGData case None => [] case Some(e) => EchoIssues(e);
    assert efIssues[0] in AngiographyIssues(a) + echo;
  }

  /** A lesion outside [0, 100] is reported on its segment's path, whatever else
      the form holds. */
  lemma LesionReported(v: FormValues, k: nat)
    requires v.coronaryAngiography.Some? && v.coronaryAngiography.value.affectedArteries.Some?
    requires var ls := v.coronaryAngiography.value.affectedArteries.value;
      k < |ls| && !(0 <= ls[k].percent <= 100)
    ensures var l := v.coronaryAngiography.value.affectedArteries.value[k];
      Issue(LesionPath(l.segment), if l.percent < 0 then TooSmall else TooBig) in FormIssues(v)
  {
    var a := v.coronaryAngiography.value;
    var ls := a.affectedArteries.value;
    LesionRejected(ls, k);
    var x := Issue(LesionPath(ls[k].segment), if ls[k].percent < 0 then TooSmall else TooBig);
    var efIssues := RangeIssues(["coronaryAngiography", "ejectionFraction"], a.ejectionFraction, 0, 100);
    assert x in LesionIssues(ls) + efIssues;
    var echo := match v.echoCGData case None => [] case Some(e) => EchoIssues(e);
    assert x in AngiographyIssues(a) + echo;
  }

  /** Blood values are never rejected: the blood panels do not change the
      schema's findings. */
  lemma BloodNeverRejected(v: FormValues, b: Option<BloodTests>)
    ensures FormIssues(v.(bloodTests := b)) == FormIssues(v)
    ensures FormValid(v.(bloodTests := b)) <==> FormValid(v)
  {
  }

  /** A grade outside [0, 4] at position k is reported on its own key from
      position k on. */
  lemma {:induction false} GradeIssuesAt(e: EchoCGData, j: nat, k: nat)
    requires j <= k < 8 && !InRange(Grades(e)[k], 0, 4)
    ensures Issue(["echoCGData", GradeKey(k)], if Grades(e)[k].value < 0 then TooSmall else TooBig) in GradeIssues(e, j)
    decreases k - j
  {
    if j < k {
      GradeIssuesAt(e, j + 1, k);
    }
  }

  /** A valve grade outside [0, 4] is reported on its key, whatever else the
      form holds. */
  lemma GradeReported(v: FormValues, k: nat)
    requires v.echoCGData.Some? && k < 8 && !InRange(Grades(v.echoCGData.value)[k], 0, 4)
    ensures var g := Grades(v.echoCGData.value)[k].value;
      Issue(["echoCGData", GradeKey(k)], if g < 0 then TooSmall else TooBig) in FormIssues(v)
  {
    var e := v.echoCGData.value;
    GradeIssuesAt(e, 0, k);
    var x := Issue(["echoCGData", GradeKey(k)], if Grades(e)[k].value < 0 then TooSmall else TooBig);
    var front := match e.globalContractility
      case None => []
      case Some(g) => if IsContractility(g) then [] else [Issue(["echoCGData", "globalContractility"], InvalidEnumValue)];
    assert x in front + GradeIssues(e, 0);
    var angio := match v.coronaryAngiography case None => [] case Some(a) => AngiographyIssues(a);
    assert x in angio + EchoIssues(e);
  }

  /** Different grades have different form keys, so an issue reported on a
      grade's key names that one select: the valve names start with different
      letters, and the two suffixes end with different letters. */
  lemma GradeKeyInjective(j: nat, k: nat)
    requires j < 8 && k < 8
    requires GradeKey(j) == GradeKey(k)
    ensures j == k
  {
    var v, w := Valves[j / 2], Valves[k / 2];
    assert GradeKey(j)[0] == v[0] && GradeKey(k)[0] == w[0];
    assert Valves[0][0] == 'a' && Valves[1][0] == 'm' && Valves[2][0] == 't' && Valves[3][0] == 'p';
    assert j / 2 == k / 2;
    var last := |GradeKey(j)| - 1;
    assert StenosisKey(v)[|StenosisKey(v)| - 1] == 's';
    assert RegurgitationKey(v)[|RegurgitationKey(v)| - 1] == 'n';
    assert GradeKey(j)[last] == GradeKey(k)[last];
  }

  // ---------------------------------------------------------------------------
  // The field lists the form shows
  // ---------------------------------------------------------------------------

  /** The boxes of the left coronary system (left main, anterior descending,
      diagonals, circumflex, marginals) and of the right one. */
  const LcaArteries: seq<Segment> := [LM, LADprox, LADmid, LADdist, D1, D2, LCxprox, LCxdist, OM1, OM2]
  const RcaArteries: seq<Segment> := [RCAprox, RCAmid, RCAdist, PDA, PL]

  /** The two lists share no segment and together are every segment of the
      schema, left system first, in declaration order. */
  lemma ArteryListsPartition()
    ensures LcaArteries + RcaArteries == AllSegments
    ensures forall s :: s in LcaArteries ==> s !in RcaArteries
    ensures forall s: Segment :: s in LcaArteries || s in RcaArteries
    ensures forall i, j :: 0 <= i < j < |AllSegments| ==> AllSegments[i] != AllSegments[j]
  {
    forall s: Segment ensures s in LcaArteries || s in RcaArteries {
      match s
      case LM => assert LcaArteries[0] == s;
      case LADprox => assert LcaArteries[1] == s;
      case LADmid => assert LcaArteries[2] == s;
      case LADdist => assert LcaArteries[3] == s;
      case D1 => assert LcaArteries[4] == s;
      case D2 => assert LcaArteries[5] == s;
      case LCxprox => assert LcaArteries[6] == s;
      case LCxdist => assert LcaArteries[7] == s;
      case OM1 => assert LcaArteries[8] == s;
      case OM2 => assert LcaArteries[9] == s;
      case RCAprox => assert RcaArteries[0] == s;
      case RCAmid => assert RcaArteries[1] == s;
      case RCAdist => assert RcaArteries[2] == s;
      case PDA => assert RcaArteries[3] == s;
      case PL => assert RcaArteries[4] == s;
    }
  }

  const CbcFields := ["hemoglobin", "redBloodCells", "hematocrit", "colorIndex", "meanCorpuscularVolume", "platelets", "whiteBloodCells"]
  const WbcFields := ["bandNeutrophils", "segmentedNeutrophils", "eosinophils", "basophils", "lymphocytes", "monocytes"]
  const AdditionalMarkerFields := ["ESR", "reticulocytes"]
  const CardiomarkerFields := ["troponinT", "creatineKinase", "ckMB"]

  /** The translation key of a field's label. */
  function LabelKey(section: string, field: string): string {
    "newPatient." + section + "." + field
  }

  /** A label key of a dot-free section and field is looked up in three steps. */
  lemma LabelKeySegments(section: string, field: string)
    requires L.NoDot(section) && L.NoDot(field)
    ensures L.Split(LabelKey(section, field)) == ["newPatient", section, field]
  {
    var parts := ["newPatient", section, field];
    assert L.NoDot("newPatient");
    assert forall k :: 0 <= k < |parts| ==> L.NoDot(parts[k]);
    L.SplitJoin(parts);
    assert parts[1..] == [section, field];
    assert [section, field][1..] == [field];
    assert L.Join([field]) == field;
    assert L.Join([section, field]) == section + "." + field;
    assert L.Join(parts) == "newPatient" + "." + (section + "." + field);
    assert LabelKey(section, field) == "newPatient" + "." + (section + "." + field);
  }

  /** Every blood count field label is looked up as `newPatient.<panel>.<field>`. */
  lemma BloodLabelKeys()
    ensures forall f :: f in CbcFields ==> L.Split(LabelKey("cbcFields", f)) == ["newPatient", "cbcFields", f]
    ensures forall f :: f in WbcFields ==> L.Split(LabelKey("wbcDifferentialFields", f)) == ["newPatient", "wbcDifferentialFields", f]
  {
    forall f | f in CbcFields ensures L.Split(LabelKey("cbcFields", f)) == ["newPatient", "cbcFields", f] {
      LabelKeySegments("cbcFields", f);
    }
    forall f | f in WbcFields
      ensures L.Split(LabelKey("wbcDifferentialFields", f)) == ["newPatient", "wbcDifferentialFields", f]
    {
      LabelKeySegments("wbcDifferentialFields", f);
    }
  }

  /** The same holds for the two marker panels. */
  lemma MarkerLabelKeys()
    ensures forall f :: f in AdditionalMarkerFields ==>
      L.Split(LabelKey("additionalMarkerFields", f)) == ["newPatient", "additionalMarkerFields", f]
    ensures forall f :: f in CardiomarkerFields ==> L.Split(LabelKey("cardiomarkerFields", f)) == ["newPatient", "cardiomarkerFields", f]
  {
    forall f | f in AdditionalMarkerFields
      ensures L.Split(LabelKey("additionalMarkerFields", f)) == ["newPatient", "additionalMarkerFields", f]
    {
      LabelKeySegments("additionalMarkerFields", f);
    }
    forall f | f in CardiomarkerFields
      ensures L.Split(LabelKey("cardiomarkerFields", f)) == ["newPatient", "cardiomarkerFields", f]
    {
      LabelKeySegments("cardiomarkerFields", f);
    }
  }

  // ---------------------------------------------------------------------------
  // Number boxes
  // ---------------------------------------------------------------------------

  /** The text of a number box holding an integer: an optional minus sign and
      decimal digits. */
  predicate IsIntText(t: string) {
    || (|t| >= 1 && AllDigits(t))
    || (|t| >= 2 && t[0] == '-' && AllDigits(t[1..]))
  }

  function IntTextValue(t: string): int
    requires IsIntText(t)
  {
    if t[0] == '-' then 0 - DigitsValue(t[1..]) as int else DigitsValue(t)
  }

  /** A number box's change: an emptied box makes the field absent, otherwise
      the field takes the box's number. */
  function BoxValue(text: string): (r: Option<int>)
    requires text == "" || IsIntText(text)
    ensures r.None? <==> text == ""
  {
    if text == "" then None else Some(IntTextValue(text))
  }

  /** An emptied box is absent, not zero. */
  lemma EmptyBoxIsAbsent()
    ensures BoxValue("") == None && BoxValue("0") == Some(0)
  {
    assert AllDigits("0");
    assert DigitsValue("0") == 0 by { assert "0"[..0] == ""; }
  }

  /** A field shown in a box and read back is the same field. */
  lemma BoxRoundTrip(v: Option<int>)
    ensures OptNumText(v) == "" || IsIntText(OptNumText(v))
    ensures BoxValue(OptNumText(v)) == v
  {
    if v.Some? {
      var n := v.value;
      NatTextShape(if n < 0 then -n else n);
      NatTextValue(if n < 0 then -n else n);
      if n < 0 {
        assert NumText(n)[1..] == NatText(-n);
      } else {
        assert NumText(n)[0] != '-';
      }
    }
  }

  // ---------------------------------------------------------------------------
  // The flow input
  // ---------------------------------------------------------------------------

  /** The language name the flow is asked to answer in. */
  function LanguageName(l: L.Language): string {
    if l == L.Ru then "Russian" else "English"
  }

  /** The submitted values with only the language added. */
  function BuildInput(v: FormValues, l: L.Language): (r: Input)
    ensures r.coronaryAngiography == v.coronaryAngiography
    ensures r.echoCGData == v.echoCGData
    ensures r.bloodTests == v.bloodTests
    ensures r.language == Some("Russian") <==> l == L.Ru
    ensures r.language == Some("English") <==> l == L.En
  {
    Input(v.coronaryAngiography, v.echoCGData, v.bloodTests, Some(LanguageName(l)))
  }

  /** Nothing the form holds and no language choice is lost on the way. */
  lemma BuildInputInjective(v1: FormValues, l1: L.Language, v2: FormValues, l2: L.Language)
    requires BuildInput(v1, l1) == BuildInput(v2, l2)
    ensures v1 == v2 && l1 == l2
  {
  }

  /** Values the form accepts make an input the flow accepts, and its prompt
      asks for the interface language. */
  lemma BuildInputAccepted(v: FormValues, l: L.Language)
    requires FormValid(v)
    ensures InputValid(BuildInput(v, l))
    ensures DiagnosticPrompt.Render(BuildInput(v, l))[3] == DiagnosticPrompt.LanguageLine(LanguageName(l))
  {
    DiagnosticPrompt.RenderRespondsIn(BuildInput(v, l));
  }

  // ---------------------------------------------------------------------------
  // Submission
  // ---------------------------------------------------------------------------

  /** A destructive notification with a title and a description. */
  datatype Toast = Toast(title: L.Entry, description: L.Entry)

  /** The translation keys of the failure notification's title and text. */
  const ErrorTitleKey := "general.error"
  const AnalysisErrorKey := "newPatient.analysisError"

  /** A notification whose title and text are the given keys translated in
      the given table. */
  function Notice(table: L.Entry, titleKey: string, descriptionKey: string): Toast {
    Toast(L.Translate(table, titleKey, []), L.Translate(table, descriptionKey, []))
  }

  /** The page's state: whether an analysis is running, the last result, and
      the notifications raised. */
  class NewPatientPage {
    var isLoading: bool
    var analysisResult: Option<Output>
    var toasts: seq<Toast>
    /** The keys the failure notification is written with. */
    const errorTitleKey: string
    const analysisErrorKey: string

    constructor ()
      ensures !isLoading && analysisResult == None && toasts == []
      ensures errorTitleKey == ErrorTitleKey && analysisErrorKey == AnalysisErrorKey
    {
      errorTitleKey := ErrorTitleKey;
      analysisErrorKey := AnalysisErrorKey;
      isLoading := false;
      analysisResult := None;
      toasts := [];
    }

    /** Submission starts: loading, and the previous result cleared. */
    method BeginSubmit()
      modifies this
      ensures isLoading && analysisResult == None && toasts == old(toasts)
    {
      isLoading := true;
      analysisResult := None;
    }

    /** Submission ends: a returned output becomes the result as it is; a
        thrown error leaves the result as it was and raises the error
        notification in the current language. Loading stops either way. */
    method FinishSubmit(outcome: DiagnosticFlow.FlowResult, loc: L.LocalizationProvider)
      modifies this
      ensures !isLoading
      ensures outcome.Returned? ==> analysisResult == outcome.output && toasts == old(toasts)
      ensures outcome.Threw? ==>
        analysisResult == old(analysisResult) && toasts == old(toasts) + [Notice(loc.Current(), errorTitleKey, analysisErrorKey)]
    {
      if outcome.Returned? {
        analysisResult := outcome.output;
      } else {
        var title := loc.T(errorTitleKey, []);
        var description := loc.T(analysisErrorKey, []);
        toasts := toasts + [Toast(title, description)];
      }
      isLoading := false;
    }

    /** The submit handler: the flow is called once on the values with the
        interface language added. */
    method OnSubmit(values: FormValues, loc: L.LocalizationProvider, engine: seq<string> -> DiagnosticFlow.EngineReply)
      modifies this
      ensures var outcome := DiagnosticFlow.AnalyzePatientData(BuildInput(values, loc.language), engine);
        && !isLoading
        && (outcome.Returned? ==> analysisResult == outcome.output && toasts == old(toasts))
        && (outcome.Threw? ==> analysisResult == None && toasts == old(toasts) + [Notice(loc.Current(), errorTitleKey, analysisErrorKey)])
    {
      BeginSubmit();
      var input := BuildInput(values, loc.language);
      var outcome := DiagnosticFlow.AnalyzePatientData(input, engine);
      FinishSubmit(outcome, loc);
    }
  }

  /** Submitting values the form accepts never fails on validation: the flow
      either returns the engine's output for the rendered prompt, or the
      engine failed. */
  lemma SubmitReachesEngine(values: FormValues, l: L.Language, engine: seq<string> -> DiagnosticFlow.EngineReply)
    requires FormValid(values)
    ensures var input := BuildInput(values, l);
      var outcome := DiagnosticFlow.AnalyzePatientData(input, engine);
      && outcome != DiagnosticFlow.Threw(DiagnosticFlow.InvalidInput)
      && (outcome.Threw? <==> engine(DiagnosticPrompt.Render(input)).EngineError?)
  {
    BuildInputAccepted(values, l);
  }
}
