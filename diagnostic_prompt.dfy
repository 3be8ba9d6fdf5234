/** The prompt of the diagnostic-assistance flow: a template that turns an
    input record into a document, one line per element of the result. Every
    section header always appears; a present section lists its lines, an absent
    one an explicit "No ... data provided." marker. Template blocks that stand
    on a line of their own leave no line behind, the other lines keep their
    indentation. `{{x}}` of an absent field prints nothing; of a string it
    prints the HTML-escaped text; `{{{language}}}` prints the text as it is. */
module DiagnosticPrompt {
  import opened Common
  import opened DiagnosticSchema

  // The fixed text of the template, line by line.

  const Intro := "You are an expert cardiologist providing diagnostic assistance based on patient data."
  const Task := "Analyze the following patient data to determine a likely diagnosis and assess the necessity for surgical intervention."
  const Respond := "Provide a clear rationale for your assessment. Respond in "
  const AngiographyHeader := "Coronary Angiography Data:"
  const EchoHeader := "Echo CG Data:"
  const BloodHeader := "Blood Test Results:"
  const Closing := "Based on this information, provide a diagnosis, whether surgical intervention is needed, and a rationale."

  const NoAngiography := Pad(2, "No coronary angiography data provided.")
  const NoLesions := Pad(4, "No significant arterial lesions detected.")
  const AffectedArteries := Pad(4, "Affected Arteries:")
  const EjectionFractionLabel := Pad(2, "Ejection Fraction (EF): ")

  const NoEcho := Pad(2, "No Echo CG data provided.")
  const ContractilityLabel := Pad(2, "Global Contractility: ")
  const AorticStenosisLabel := Pad(2, "Aortic Stenosis: ")
  const AorticFailureLabel := Pad(2, "Aortic Failure (Insufficiency / Недостаточность): ")
  const MitralStenosisLabel := Pad(2, "Mitral Stenosis: ")
  const MitralFailureLabel := Pad(2, "Mitral Failure (Insufficiency / Недостаточность): ")
  const TricuspidStenosisLabel := Pad(2, "Tricuspid Stenosis: ")
  const TricuspidFailureLabel := Pad(2, "Tricuspid Failure (Insufficiency / Недостаточность): ")
  const PulmonaryStenosisLabel := Pad(2, "Pulmonary Stenosis: ")
  const PulmonaryFailureLabel := Pad(2, "Pulmonary Failure (Insufficiency / Недостаточность): ")

  const NoBlood := Pad(2, "No blood test data provided.")
  const CbcHeader := Pad(2, "Complete Blood Count:")
  const WbcHeader := Pad(2, "WBC Differential:")
  const MarkersHeader := Pad(2, "Additional Markers:")
  const CardioHeader := Pad(2, "Cardiomarkers:")
  const NoCbc := Pad(4, "No complete blood count data provided.")
  const NoWbc := Pad(4, "No WBC differential data provided.")
  const NoMarkers := Pad(4, "No additional marker data provided.")
  const NoCardio := Pad(4, "No cardiomarker data provided.")
  const HemoglobinLabel := Pad(4, "Hemoglobin: ")
  const RedBloodCellsLabel := Pad(4, "Red Blood Cells: ")
  const HematocritLabel := Pad(4, "Hematocrit: ")
  const ColorIndexLabel := Pad(4, "Color Index: ")
  const MeanCorpuscularVolumeLabel := Pad(4, "Mean Corpuscular Volume: ")
  const PlateletsLabel := Pad(4, "Platelets: ")
  const WhiteBloodCellsLabel := Pad(4, "White Blood Cells: ")
  const BandNeutrophilsLabel := Pad(4, "Band Neutrophils: ")
  const SegmentedNeutrophilsLabel := Pad(4, "Segmented Neutrophils: ")
  const EosinophilsLabel := Pad(4, "Eosinophils: ")
  const BasophilsLabel := Pad(4, "Basophils: ")
  const LymphocytesLabel := Pad(4, "Lymphocytes: ")
  const MonocytesLabel := Pad(4, "Monocytes: ")
  const EsrLabel := Pad(4, "ESR: ")
  const ReticulocytesLabel := Pad(4, "Reticulocytes: ")
  const TroponinTLabel := Pad(4, "Troponin T: ")
  const CreatineKinaseLabel := Pad(4, "Creatine Kinase: ")
  const CkMbLabel := Pad(4, "CK-MB: ")

  function LanguageLine(language: string): string {
    Respond + language + "."
  }

  function Preamble(language: string): seq<string> {
    [Intro, "", Task, LanguageLine(language), ""]
  }

  function ArteryLine(l: Lesion): string {
    Pad(6, SegmentName(l.segment)) + ": " + NumText(l.percent) + "%"
  }

  function EjectionFractionLine(ef: Option<int>): string {
    EjectionFractionLabel + OptNumText(ef) + "%"
  }

  /** One line per supplied segment, in the order the keys were supplied. */
  function ArteryLines(ls: seq<Lesion>): seq<string>
    decreases |ls|
  {
    if ls == [] then [] else [ArteryLine(ls[0])] + ArteryLines(ls[1..])
  }

  function AngiographyBody(ca: Option<CoronaryAngiography>): seq<string> {
    match ca
    case None => [NoAngiography]
    case Some(c) =>
      (match c.affectedArteries
       case None => [NoLesions]
       case Some(ls) => [AffectedArteries] + ArteryLines(ls))
      + [EjectionFractionLine(c.ejectionFraction)]
  }

  function EchoLines(e: EchoCGData): seq<string> {
    [ContractilityLabel + HtmlEscape(OrEmpty(e.globalContractility)),
     AorticStenosisLabel + OptNumText(e.aorticStenosis),
     AorticFailureLabel + OptNumText(e.aorticRegurgitation),
     MitralStenosisLabel + OptNumText(e.mitralStenosis),
     MitralFailureLabel + OptNumText(e.mitralRegurgitation),
     TricuspidStenosisLabel + OptNumText(e.tricuspidStenosis),
     TricuspidFailureLabel + OptNumText(e.tricuspidRegurgitation),
     PulmonaryStenosisLabel + OptNumText(e.pulmonaryStenosis),
     PulmonaryFailureLabel + OptNumText(e.pulmonaryRegurgitation)]
  }

  function EchoBody(e: Option<EchoCGData>): seq<string> {
    match e
    case None => [NoEcho]
    case Some(d) => EchoLines(d)
  }

  function CbcLines(c: Option<BloodCount>): seq<string> {
    match c
    case None => [NoCbc]
    case Some(v) =>
      [HemoglobinLabel + OptNumText(v.hemoglobin) + " g/L",
       RedBloodCellsLabel + OptNumText(v.redBloodCells) + " ×10¹²/L",
       HematocritLabel + OptNumText(v.hematocrit) + "%",
       ColorIndexLabel + OptNumText(v.colorIndex),
       MeanCorpuscularVolumeLabel + OptNumText(v.meanCorpuscularVolume) + " fL",
       PlateletsLabel + OptNumText(v.platelets) + " ×10⁹/L",
       WhiteBloodCellsLabel + OptNumText(v.whiteBloodCells) + " ×10⁹/L"]
  }

  function WbcLines(w: Option<WbcDifferential>): seq<string> {
    match w
    case None => [NoWbc]
    case Some(v) =>
      [BandNeutrophilsLabel + OptNumText(v.bandNeutrophils) + "%",
       SegmentedNeutrophilsLabel + OptNumText(v.segmentedNeutrophils) + "%",
       EosinophilsLabel + OptNumText(v.eosinophils) + "%",
       BasophilsLabel + OptNumText(v.basophils) + "%",
       LymphocytesLabel + OptNumText(v.lymphocytes) + "%",
       MonocytesLabel + OptNumText(v.monocytes) + "%"]
  }

  function MarkerLines(m: Option<AdditionalMarkers>): seq<string> {
    match m
    case None => [NoMarkers]
    case Some(v) =>
      [EsrLabel + OptNumText(v.esr) + " mm/h",
       ReticulocytesLabel + OptNumText(v.reticulocytes) + "%"]
  }

  function CardioLines(c: Option<CardioMarkers>): seq<string> {
    match c
    case None => [NoCardio]
    case Some(v) =>
      [TroponinTLabel + OptNumText(v.troponinT) + " ng/mL",
       CreatineKinaseLabel + OptNumText(v.creatineKinase) + " U/L",
       CkMbLabel + OptNumText(v.ckMB) + " U/L"]
  }

  /** A sub-panel of the blood tests: its header, then its lines. */
  function Panel(header: string, lines: seq<string>): seq<string> {
    [header] + lines
  }

  function BloodBody(b: Option<BloodTests>): seq<string> {
    match b
    case None => [NoBlood]
    case Some(t) =>
      Panel(CbcHeader, CbcLines(t.completeBloodCount))
      + (Panel(WbcHeader, WbcLines(t.wbcDifferential))
      + (Panel(MarkersHeader, MarkerLines(t.additionalMarkers))
      + Panel(CardioHeader, CardioLines(t.cardiomarkers))))
  }

  /** The document skeleton: preamble, the three headed sections each closed by
      a blank line, and the closing instruction. */
  function Assemble(preamble: seq<string>, angiography: seq<string>, echo: seq<string>, blood: seq<string>): seq<string> {
    Frame(preamble, AngiographyHeader, angiography, EchoHeader, echo, BloodHeader, blood, Closing)
  }

  /** Three headed sections, each closed by a blank line, between a preamble and
      a last line. */
  function Frame(p: seq<string>, h1: string, a: seq<string>, h2: string, e: seq<string>,
                 h3: string, b: seq<string>, c: string): seq<string> {
    p + [h1] + a + ["", h2] + e + ["", h3] + b + ["", c]
  }

  /** The rendered prompt, one element per line; the document is these lines,
      each followed by a newline. */
  function Render(i: Input): seq<string> {
    Assemble(Preamble(EffectiveLanguage(i)),
             AngiographyBody(i.coronaryAngiography),
             EchoBody(i.echoCGData),
             BloodBody(i.bloodTests))
  }

  /** The lines strictly between the first line equal to `from` and the first
      line equal to `to`. */
  function Between(lines: seq<string>, from: string, to: string): seq<string> {
    var a := IndexOf(lines, from);
    var b := IndexOf(lines, to);
    if a < b then lines[a + 1..b] else []
  }

  /** The lines strictly between the first line equal to `from` and the last line. */
  function BeforeLast(lines: seq<string>, from: string): seq<string> {
    var a := IndexOf(lines, from);
    if a + 1 < |lines| then lines[a + 1..|lines| - 1] else []
  }

  // ---------------------------------------------------------------------------
  // Properties of the rendered document
  // ---------------------------------------------------------------------------

  /** The artery listing has exactly one line per supplied segment, in order. */
  lemma {:induction false} ArteryLinesAt(ls: seq<Lesion>)
    ensures |ArteryLines(ls)| == |ls|
    ensures forall k :: 0 <= k < |ls| ==> ArteryLines(ls)[k] == ArteryLine(ls[k])
    decreases |ls|
  {
    if ls != [] {
      ArteryLinesAt(ls[1..]);
      assert forall k :: 1 <= k < |ls| ==> ls[1..][k - 1] == ls[k];
    }
  }

  lemma {:induction false} ArteryLinesIndented(ls: seq<Lesion>)
    ensures AllIndented(ArteryLines(ls))
    decreases |ls|
  {
    if ls != [] {
      ArteryLinesIndented(ls[1..]);
      PadIndented(6, SegmentName(ls[0].segment), ": " + NumText(ls[0].percent) + "%");
      assert ArteryLine(ls[0]) == Pad(6, SegmentName(ls[0].segment)) + (": " + NumText(ls[0].percent) + "%");
    }
  }

  lemma AngiographyBodyIndented(ca: Option<CoronaryAngiography>)
    ensures AllIndented(AngiographyBody(ca))
  {
    match ca
    case None =>
    case Some(c) =>
      PadIndented(2, "Ejection Fraction (EF): ", OptNumText(c.ejectionFraction) + "%");
      assert EjectionFractionLabel == Pad(2, "Ejection Fraction (EF): ");
      assert EjectionFractionLine(c.ejectionFraction)
        == EjectionFractionLabel + (OptNumText(c.ejectionFraction) + "%");
      match c.affectedArteries
      case None =>
      case Some(ls) => ArteryLinesIndented(ls);
  }

  lemma EchoBodyIndented(e: Option<EchoCGData>)
    ensures AllIndented(EchoBody(e))
  {
    if e.Some? {
      var d := e.value;
      var ls := EchoLines(d);
      PadIndented(2, "Global Contractility: ", HtmlEscape(OrEmpty(d.globalContractility)));
      PadIndented(2, "Aortic Stenosis: ", OptNumText(d.aorticStenosis));
      PadIndented(2, "Aortic Failure (Insufficiency / Недостаточность): ", OptNumText(d.aorticRegurgitation));
      PadIndented(2, "Mitral Stenosis: ", OptNumText(d.mitralStenosis));
      PadIndented(2, "Mitral Failure (Insufficiency / Недостаточность): ", OptNumText(d.mitralRegurgitation));
      PadIndented(2, "Tricuspid Stenosis: ", OptNumText(d.tricuspidStenosis));
      PadIndented(2, "Tricuspid Failure (Insufficiency / Недостаточность): ", OptNumText(d.tricuspidRegurgitation));
      PadIndented(2, "Pulmonary Stenosis: ", OptNumText(d.pulmonaryStenosis));
      PadIndented(2, "Pulmonary Failure (Insufficiency / Недостаточность): ", OptNumText(d.pulmonaryRegurgitation));
    }
  }

  lemma PreambleHasNoHeader(language: string)
    ensures var p := Preamble(language);
      AngiographyHeader !in p && EchoHeader !in p && BloodHeader !in p
  {
    var p := Preamble(language);
    assert |p| == 5 && |p[0]| > 30 && p[1] == "" && |p[2]| > 30 && |p[3]| > 30 && p[4] == "";
    assert forall k :: 0 <= k < 5 ==> |p[k]| == 0 || |p[k]| > 30;
  }

  /** A line absent from a prefix is first found right after it. */
  lemma HeaderAt(pre: seq<string>, x: string, post: seq<string>)
    requires x !in pre
    ensures IndexOf(pre + [x] + post, x) == |pre|
  {
    IndexOfAfter(pre, [x] + post, x);
    assert pre + [x] + post == pre + ([x] + post);
  }
  /** An unindented, non-blank line other than the header is not in a framed section. */
  lemma NotInFrame(p: seq<string>, h: string, a: seq<string>, x: string)
    requires x !in p && x != h && x != "" && !Indented(x) && AllIndented(a)
    ensures x !in p + [h] + a + [""]
  {
    var q := p + [h] + a + [""];
    forall k | 0 <= k < |q| ensures q[k] != x {
      if k < |p| { assert q[k] == p[k]; }
      else if k == |p| { assert q[k] == h; }
      else if k < |p| + 1 + |a| { assert q[k] == a[k - |p| - 1]; }
      else { assert q[k] == ""; }
    }
  }
  // Regroupings of the document skeleton around each header.
  lemma Split1(p: seq<string>, h1: string, a: seq<string>, h2: string, e: seq<string>,
                      h3: string, b: seq<string>, c: string)
    ensures p + [h1] + a + ["", h2] + e + ["", h3] + b + ["", c] == p + [h1] + (a + ["", h2] + e + ["", h3] + b + ["", c])
  {}
  lemma Split2(p: seq<string>, h1: string, a: seq<string>, h2: string, e: seq<string>,
                      h3: string, b: seq<string>, c: string)
    ensures p + [h1] + a + ["", h2] + e + ["", h3] + b + ["", c] == (p + [h1] + a + [""]) + [h2] + (e + ["", h3] + b + ["", c])
  {}
  lemma Split3(p: seq<string>, h1: string, a: seq<string>, h2: string, e: seq<string>,
                      h3: string, b: seq<string>, c: string)
    ensures p + [h1] + a + ["", h2] + e + ["", h3] + b + ["", c] == (p + [h1] + a + [""] + [h2] + e + [""]) + [h3] + (b + ["", c])
  {}
  /** Unindented distinct headers are found where the skeleton puts them. */
  lemma FrameHeaders(p: seq<string>, h1: string, a: seq<string>, h2: string, e: seq<string>,
                      h3: string, b: seq<string>, c: string)
    requires AllIndented(a) && AllIndented(e)
    requires !Indented(h2) && !Indented(h3) && h1 != h2 && h1 != h3 && h2 != h3
    requires h2 != "" && h3 != ""
    requires h1 !in p && h2 !in p && h3 !in p
    ensures var r := Frame(p, h1, a, h2, e, h3, b, c);
      && IndexOf(r, h1) == |p|
      && IndexOf(r, h2) == |p| + |a| + 2
      && IndexOf(r, h3) == |p| + |a| + |e| + 4
  {
    var q2 := p + [h1] + a + [""];
    var q3 := q2 + [h2] + e + [""];
    Split1(p, h1, a, h2, e, h3, b, c);
    Split2(p, h1, a, h2, e, h3, b, c);
    Split3(p, h1, a, h2, e, h3, b, c);
    NotInFrame(p, h1, a, h2);
    NotInFrame(p, h1, a, h3);
    NotInFrame(q2, h2, e, h3);
    HeaderAt(p, h1, a + ["", h2] + e + ["", h3] + b + ["", c]);
    HeaderAt(q2, h2, e + ["", h3] + b + ["", c]);
    HeaderAt(q3, h3, b + ["", c]);
  }
  /** The positions of the bodies in the skeleton. */
  lemma FrameBodies(p: seq<string>, h1: string, a: seq<string>, h2: string, e: seq<string>,
                      h3: string, b: seq<string>, c: string)
    ensures var r := Frame(p, h1, a, h2, e, h3, b, c);
      && r[..|p|] == p
      && r[|r| - 1] == c
      && r[|p| + 1..|p| + |a| + 2] == a + [""]
      && r[|p| + |a| + 3..|p| + |a| + |e| + 4] == e + [""]
      && r[|p| + |a| + |e| + 5..|r| - 1] == b + [""]
  {
  }

  /** Between two headers of the skeleton stands exactly that section's body
      and its blank line; the headers come in order and the last line is last. */
  lemma FrameSections(p: seq<string>, h1: string, a: seq<string>, h2: string, e: seq<string>,
                      h3: string, b: seq<string>, c: string)
    requires AllIndented(a) && AllIndented(e)
    requires !Indented(h2) && !Indented(h3) && h1 != h2 && h1 != h3 && h2 != h3
    requires h2 != "" && h3 != ""
    requires h1 !in p && h2 !in p && h3 !in p
    ensures var r := Frame(p, h1, a, h2, e, h3, b, c);
      && IndexOf(r, h1) == |p| < IndexOf(r, h2) < IndexOf(r, h3) < |r| - 1
      && r[..|p|] == p
      && r[|r| - 1] == c
      && Between(r, h1, h2) == a + [""]
      && Between(r, h2, h3) == e + [""]
      && BeforeLast(r, h3) == b + [""]
  {
    FrameHeaders(p, h1, a, h2, e, h3, b, c);
    FrameBodies(p, h1, a, h2, e, h3, b, c);
  }

  /** The three section headers always appear, in this order, each once before
      its section, whatever the input holds; between two headers stands exactly
      that section's body and a blank line, and the closing instruction is last. */
  lemma RenderSections(i: Input)
    ensures var r := Render(i);
      && IndexOf(r, AngiographyHeader) < IndexOf(r, EchoHeader) < IndexOf(r, BloodHeader) < |r| - 1
      && r[..IndexOf(r, AngiographyHeader)] == Preamble(EffectiveLanguage(i))
      && r[|r| - 1] == Closing
      && Between(r, AngiographyHeader, EchoHeader) == AngiographyBody(i.coronaryAngiography) + [""]
      && Between(r, EchoHeader, BloodHeader) == EchoBody(i.echoCGData) + [""]
      && BeforeLast(r, BloodHeader) == BloodBody(i.bloodTests) + [""]
  {
    var p := Preamble(EffectiveLanguage(i));
    var a := AngiographyBody(i.coronaryAngiography);
    var e := EchoBody(i.echoCGData);
    var b := BloodBody(i.bloodTests);
    PreambleHasNoHeader(EffectiveLanguage(i));
    AngiographyBodyIndented(i.coronaryAngiography);
    EchoBodyIndented(i.echoCGData);
    assert !Indented(EchoHeader) && !Indented(BloodHeader) && AngiographyHeader != EchoHeader;
    FrameSections(p, AngiographyHeader, a, EchoHeader, e, BloodHeader, b, Closing);
  }

  /** The section of the prompt that follows the given header. */
  function AngiographySection(i: Input): seq<string> {
    Between(Render(i), AngiographyHeader, EchoHeader)
  }

  function EchoSection(i: Input): seq<string> {
    Between(Render(i), EchoHeader, BloodHeader)
  }

  function BloodSection(i: Input): seq<string> {
    BeforeLast(Render(i), BloodHeader)
  }

  /** The prompt asks for a response in the effective language, which is English
      or Russian for a valid input and English when none was given; that line
      comes before the first header. */
  lemma RenderRespondsIn(i: Input)
    ensures var r := Render(i);
      && 3 < IndexOf(r, AngiographyHeader)
      && r[3] == LanguageLine(EffectiveLanguage(i))
    ensures i.language.None? ==> Render(i)[3] == LanguageLine("English")
    ensures InputValid(i) ==>
      Render(i)[3] == LanguageLine("English") || Render(i)[3] == LanguageLine("Russian")
  {
    RenderSections(i);
    var r := Render(i);
    var p := Preamble(EffectiveLanguage(i));
    assert |p| == 5 && p[3] == LanguageLine(EffectiveLanguage(i));
    assert r[3] == r[..|p|][3];
  }

  /** The language can be read back from its line. */
  lemma LanguageLineInjective(l1: string, l2: string)
    requires LanguageLine(l1) == LanguageLine(l2)
    ensures l1 == l2
  {
    var n := |LanguageLine("")| - 1;
    assert l1 == LanguageLine(l1)[n..|LanguageLine(l1)| - 1];
    assert l2 == LanguageLine(l2)[n..|LanguageLine(l2)| - 1];
  }

  /** Absent angiography leaves only its marker. */
  lemma AbsentAngiography(i: Input)
    requires i.coronaryAngiography.None?
    ensures AngiographySection(i) == [NoAngiography, ""]
  {
    RenderSections(i);
    MarkerOnly(AngiographyBody(i.coronaryAngiography), NoAngiography, AngiographySection(i));
  }

  /** A section whose body is a lone marker. */
  lemma MarkerOnly(body: seq<string>, marker: string, s: seq<string>)
    requires body == [marker] && s == body + [""]
    ensures s == [marker, ""]
  {
  }

  /** Angiography without an arteries object: the no-lesions marker, then EF. */
  lemma AngiographyWithoutArteries(i: Input)
    requires i.coronaryAngiography.Some? && i.coronaryAngiography.value.affectedArteries.None?
    ensures AngiographySection(i) == [NoLesions, EjectionFractionLine(i.coronaryAngiography.value.ejectionFraction), ""]
  {
    RenderSections(i);
    NoLesionsBody(i.coronaryAngiography.value, AngiographySection(i));
  }

  lemma NoLesionsBody(c: CoronaryAngiography, s: seq<string>)
    requires c.affectedArteries.None? && s == AngiographyBody(Some(c)) + [""]
    ensures s == [NoLesions, EjectionFractionLine(c.ejectionFraction), ""]
  {
  }

  /** Angiography with an arteries object: its heading, one line per supplied
      segment in the supplied order, then EF. */
  lemma AngiographyWithArteries(i: Input)
    requires i.coronaryAngiography.Some? && i.coronaryAngiography.value.affectedArteries.Some?
    ensures var c := i.coronaryAngiography.value;
      var ls := c.affectedArteries.value;
      var s := AngiographySection(i);
      && |s| == |ls| + 3
      && s[0] == AffectedArteries
      && (forall k :: 0 <= k < |ls| ==> s[k + 1] == ArteryLine(ls[k]))
      && s[|ls| + 1] == EjectionFractionLine(c.ejectionFraction)
      && s[|ls| + 2] == ""
  {
    RenderSections(i);
    ArteriesBody(i.coronaryAngiography.value, AngiographySection(i));
  }

  lemma ArteriesBody(c: CoronaryAngiography, s: seq<string>)
    requires c.affectedArteries.Some? && s == AngiographyBody(Some(c)) + [""]
    ensures var ls := c.affectedArteries.value;
      && |s| == |ls| + 3
      && s[0] == AffectedArteries
      && (forall k :: 0 <= k < |ls| ==> s[k + 1] == ArteryLine(ls[k]))
      && s[|ls| + 1] == EjectionFractionLine(c.ejectionFraction)
      && s[|ls| + 2] == ""
  {
    var ls := c.affectedArteries.value;
    ArteryLinesAt(ls);
    assert AngiographyBody(Some(c)) == [AffectedArteries] + ArteryLines(ls) + [EjectionFractionLine(c.ejectionFraction)];
    Enclosed(AffectedArteries, ArteryLines(ls), EjectionFractionLine(c.ejectionFraction), s);
  }

  /** Positions in a run of lines between a first line and two last ones. */
  lemma Enclosed(first: string, middle: seq<string>, last: string, s: seq<string>)
    requires s == [first] + middle + [last] + [""]
    ensures |s| == |middle| + 3 && s[0] == first && s[|middle| + 1] == last && s[|middle| + 2] == ""
    ensures forall k :: 0 <= k < |middle| ==> s[k + 1] == middle[k]
  {
  }

  /** An artery line names the segment and its percentage. */
  lemma ArteryLineShape(l: Lesion)
    ensures var t := ArteryLine(l);
      var n := |SegmentName(l.segment)|;
      && |t| == 6 + n + 2 + |NumText(l.percent)| + 1
      && t[..6] == "      "
      && t[6..6 + n] == SegmentName(l.segment)
      && t[6 + n..8 + n] == ": "
      && t[8 + n..|t| - 1] == NumText(l.percent)
      && t[|t| - 1] == '%'
  {
  }

  /** The EF line holds the value whenever angiography is present, and nothing
      in its place when the value is absent. */
  lemma EjectionFractionShape(ef: Option<int>)
    ensures var t := EjectionFractionLine(ef);
      var n := |EjectionFractionLabel|;
      && t[..n] == EjectionFractionLabel
      && t[n..|t| - 1] == OptNumText(ef)
      && t[|t| - 1] == '%'
      && (ef.None? <==> |t| == n + 1)
  {
    NumTextChars(if ef.Some? then ef.value else 0);
  }

  /** Absent echocardiography leaves only its marker. */
  lemma AbsentEcho(i: Input)
    requires i.echoCGData.None?
    ensures EchoSection(i) == [NoEcho, ""]
  {
    RenderSections(i);
    MarkerOnly(EchoBody(i.echoCGData), NoEcho, EchoSection(i));
  }

  /** Present echocardiography: all nine labelled lines, contractility first,
      then stenosis and failure for the aortic, mitral, tricuspid and pulmonary
      valves; an unset grade leaves its label with nothing after it. */
  lemma PresentEcho(i: Input)
    requires i.echoCGData.Some?
    ensures var d := i.echoCGData.value;
      var s := EchoSection(i);
      && |s| == 10 && s[9] == ""
      && s[1] == AorticStenosisLabel + OptNumText(d.aorticStenosis)
      && s[2] == AorticFailureLabel + OptNumText(d.aorticRegurgitation)
      && s[3] == MitralStenosisLabel + OptNumText(d.mitralStenosis)
      && s[4] == MitralFailureLabel + OptNumText(d.mitralRegurgitation)
      && s[5] == TricuspidStenosisLabel + OptNumText(d.tricuspidStenosis)
      && s[6] == TricuspidFailureLabel + OptNumText(d.tricuspidRegurgitation)
      && s[7] == PulmonaryStenosisLabel + OptNumText(d.pulmonaryStenosis)
      && s[8] == PulmonaryFailureLabel + OptNumText(d.pulmonaryRegurgitation)
  {
    RenderSections(i);
    EchoLinesAt(i.echoCGData.value, EchoSection(i));
  }

  lemma EchoLinesAt(d: EchoCGData, s: seq<string>)
    requires s == EchoLines(d) + [""]
    ensures
      && |s| == 10 && s[9] == ""
      && s[0] == ContractilityLabel + HtmlEscape(OrEmpty(d.globalContractility))
      && s[1] == AorticStenosisLabel + OptNumText(d.aorticStenosis)
      && s[2] == AorticFailureLabel + OptNumText(d.aorticRegurgitation)
      && s[3] == MitralStenosisLabel + OptNumText(d.mitralStenosis)
      && s[4] == MitralFailureLabel + OptNumText(d.mitralRegurgitation)
      && s[5] == TricuspidStenosisLabel + OptNumText(d.tricuspidStenosis)
      && s[6] == TricuspidFailureLabel + OptNumText(d.tricuspidRegurgitation)
      && s[7] == PulmonaryStenosisLabel + OptNumText(d.pulmonaryStenosis)
      && s[8] == PulmonaryFailureLabel + OptNumText(d.pulmonaryRegurgitation)
  {
  }

  /** For a valid input the contractility line carries the enumeration value
      verbatim (neither value holds a character that escaping changes). */
  lemma ContractilityRendered(i: Input)
    requires InputValid(i) && i.echoCGData.Some?
    ensures var g := i.echoCGData.value.globalContractility;
      |EchoSection(i)| == 10 && EchoSection(i)[0] == ContractilityLabel + OrEmpty(g)
  {
    RenderSections(i);
    EchoLinesAt(i.echoCGData.value, EchoSection(i));
    var g := i.echoCGData.value.globalContractility;
    if g.Some? {
      ContractilityVerbatim(g.value);
    }
  }

  /** Neither contractility value holds a character that escaping changes. */
  lemma ContractilityVerbatim(g: string)
    requires IsContractility(g)
    ensures HtmlEscape(g) == g
  {
    if g == Impaired {
      assert forall k :: 0 <= k < |Impaired| ==> !IsHtmlSpecial(Impaired[k]);
      HtmlEscapePlain(Impaired);
    } else {
      assert forall k :: 0 <= k < |NotImpaired| ==> !IsHtmlSpecial(NotImpaired[k]);
      HtmlEscapePlain(NotImpaired);
    }
  }

  /** Absent blood tests leave only their marker. */
  lemma AbsentBlood(i: Input)
    requires i.bloodTests.None?
    ensures BloodSection(i) == [NoBlood, ""]
  {
    RenderSections(i);
    MarkerOnly(BloodBody(i.bloodTests), NoBlood, BloodSection(i));
  }

  /** Present blood tests: the four sub-panel headers in order, each followed by
      its value lines or its own marker. */
  lemma PresentBlood(i: Input)
    requires i.bloodTests.Some?
    ensures var t := i.bloodTests.value;
      BloodSection(i) ==
        Panel(CbcHeader, CbcLines(t.completeBloodCount))
        + (Panel(WbcHeader, WbcLines(t.wbcDifferential))
        + (Panel(MarkersHeader, MarkerLines(t.additionalMarkers))
        + Panel(CardioHeader, CardioLines(t.cardiomarkers)))) + [""]
  {
    RenderSections(i);
  }

  /** A sub-panel shows its marker exactly when its record is absent, and the
      marker is its only line then. */
  lemma PanelMarkers(t: BloodTests)
    ensures t.completeBloodCount.None? <==> CbcLines(t.completeBloodCount) == [NoCbc]
    ensures t.wbcDifferential.None? <==> WbcLines(t.wbcDifferential) == [NoWbc]
    ensures t.additionalMarkers.None? <==> MarkerLines(t.additionalMarkers) == [NoMarkers]
    ensures t.cardiomarkers.None? <==> CardioLines(t.cardiomarkers) == [NoCardio]
  {
  }
}
