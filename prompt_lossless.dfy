/** The diagnostic prompt loses nothing: for inputs the schema accepts, equal
    prompts come only from equal clinical data and the same response language.
    Every field is printed behind its own label, an absent value prints
    nothing, and absent sections and sub-panels print markers that no present
    one can produce. */
module PromptLossless {
  import opened Common
  import opened DiagnosticSchema
  import opened DiagnosticPrompt

  // ---------------------------------------------------------------------------
  // Artery lines
  // ---------------------------------------------------------------------------

  /** The first colon after the indentation of an artery line ends the name. */
  lemma FirstColon(l: Lesion)
    ensures var t := ArteryLine(l);
      var n := |SegmentName(l.segment)|;
      && |t| > 6 + n && t[6 + n] == ':'
      && forall k :: 6 <= k < 6 + n ==> t[k] != ':'
  {
    var t := ArteryLine(l);
    var name := SegmentName(l.segment);
    assert forall k :: 0 <= k < |name| ==> name[k] != ':';
    assert forall k :: 6 <= k < 6 + |name| ==> t[k] == name[k - 6];
  }

  /** The position of the first colon after the indentation tells where the
      segment name ends, so an artery line gives back its lesion. */
  lemma ArteryLineInjective(l1: Lesion, l2: Lesion)
    requires ArteryLine(l1) == ArteryLine(l2)
    ensures l1 == l2
  {
    var n1, n2 := SegmentName(l1.segment), SegmentName(l2.segment);
    var t := ArteryLine(l1);
    FirstColon(l1);
    FirstColon(l2);
    assert |n1| == |n2|;
    ArteryLineShape(l1);
    ArteryLineShape(l2);
    SegmentNameInjective(l1.segment, l2.segment);
    NumTextInjective(l1.percent, l2.percent);
  }

  lemma {:induction false} ArteryLinesInjective(a: seq<Lesion>, b: seq<Lesion>)
    requires ArteryLines(a) == ArteryLines(b)
    ensures a == b
  {
    ArteryLinesAt(a);
    ArteryLinesAt(b);
    forall k | 0 <= k < |a| ensures a[k] == b[k] {
      ArteryLineInjective(a[k], b[k]);
    }
  }

  // ---------------------------------------------------------------------------
  // Section bodies
  // ---------------------------------------------------------------------------

  lemma EjectionFractionLineInjective(a: Option<int>, b: Option<int>)
    requires EjectionFractionLine(a) == EjectionFractionLine(b)
    ensures a == b
  {
    CancelAffixes(EjectionFractionLabel, OptNumText(a), OptNumText(b), "%");
    OptNumTextInjective(a, b);
  }

  /** The first line of a present angiography section tells whether the
      arteries object was supplied; its last line is the EF line. */
  lemma ArteriesMarker(c: CoronaryAngiography)
    ensures |AngiographyBody(Some(c))| >= 2
    ensures AngiographyBody(Some(c))[0] == NoLesions <==> c.affectedArteries.None?
    ensures var s := AngiographyBody(Some(c)); s[|s| - 1] == EjectionFractionLine(c.ejectionFraction)
  {
    assert |NoLesions| != |AffectedArteries|;
  }

  lemma AngiographyBodyInjective(a: Option<CoronaryAngiography>, b: Option<CoronaryAngiography>)
    requires AngiographyBody(a) == AngiographyBody(b)
    ensures a == b
  {
    if a.Some? { ArteriesMarker(a.value); }
    if b.Some? { ArteriesMarker(b.value); }
    if a.Some? && b.Some? {
      var ca, cb := a.value, b.value;
      var s := AngiographyBody(a);
      EjectionFractionLineInjective(ca.ejectionFraction, cb.ejectionFraction);
      if ca.affectedArteries.Some? {
        var la, lb := ca.affectedArteries.value, cb.affectedArteries.value;
        assert s == [AffectedArteries] + ArteryLines(la) + [EjectionFractionLine(ca.ejectionFraction)];
        assert s == [AffectedArteries] + ArteryLines(lb) + [EjectionFractionLine(cb.ejectionFraction)];
        assert ArteryLines(la) == s[1..|s| - 1] == ArteryLines(lb);
        ArteryLinesInjective(la, lb);
      }
    }
  }

  /** What a contractility field prints, for a value the schema accepts. */
  lemma ContractilityTextInjective(a: Option<string>, b: Option<string>)
    requires a.Some? ==> IsContractility(a.value)
    requires b.Some? ==> IsContractility(b.value)
    requires HtmlEscape(OrEmpty(a)) == HtmlEscape(OrEmpty(b))
    ensures a == b
  {
    if a.Some? { ContractilityVerbatim(a.value); }
    if b.Some? { ContractilityVerbatim(b.value); }
  }

  lemma EchoBodyInjective(a: Option<EchoCGData>, b: Option<EchoCGData>)
    requires a.Some? && a.value.globalContractility.Some? ==> IsContractility(a.value.globalContractility.value)
    requires b.Some? && b.value.globalContractility.Some? ==> IsContractility(b.value.globalContractility.value)
    requires EchoBody(a) == EchoBody(b)
    ensures a == b
  {
    if a.Some? && b.Some? {
      var x, y := a.value, b.value;
      var s := EchoLines(x);
      assert s == EchoLines(y);
      CancelAffixes(ContractilityLabel, HtmlEscape(OrEmpty(x.globalContractility)), HtmlEscape(OrEmpty(y.globalContractility)), "");
      ContractilityTextInjective(x.globalContractility, y.globalContractility);
      CancelAffixes(AorticStenosisLabel, OptNumText(x.aorticStenosis), OptNumText(y.aorticStenosis), "");
      OptNumTextInjective(x.aorticStenosis, y.aorticStenosis);
      CancelAffixes(AorticFailureLabel, OptNumText(x.aorticRegurgitation), OptNumText(y.aorticRegurgitation), "");
      OptNumTextInjective(x.aorticRegurgitation, y.aorticRegurgitation);
      CancelAffixes(MitralStenosisLabel, OptNumText(x.mitralStenosis), OptNumText(y.mitralStenosis), "");
      OptNumTextInjective(x.mitralStenosis, y.mitralStenosis);
      CancelAffixes(MitralFailureLabel, OptNumText(x.mitralRegurgitation), OptNumText(y.mitralRegurgitation), "");
      OptNumTextInjective(x.mitralRegurgitation, y.mitralRegurgitation);
      CancelAffixes(TricuspidStenosisLabel, OptNumText(x.tricuspidStenosis), OptNumText(y.tricuspidStenosis), "");
      OptNumTextInjective(x.tricuspidStenosis, y.tricuspidStenosis);
      CancelAffixes(TricuspidFailureLabel, OptNumText(x.tricuspidRegurgitation), OptNumText(y.tricuspidRegurgitation), "");
      OptNumTextInjective(x.tricuspidRegurgitation, y.tricuspidRegurgitation);
      CancelAffixes(PulmonaryStenosisLabel, OptNumText(x.pulmonaryStenosis), OptNumText(y.pulmonaryStenosis), "");
      OptNumTextInjective(x.pulmonaryStenosis, y.pulmonaryStenosis);
      CancelAffixes(PulmonaryFailureLabel, OptNumText(x.pulmonaryRegurgitation), OptNumText(y.pulmonaryRegurgitation), "");
      OptNumTextInjective(x.pulmonaryRegurgitation, y.pulmonaryRegurgitation);
    }
  }

  // ---------------------------------------------------------------------------
  // Blood tests: sub-panel headers are indented by two, their lines by four
  // ---------------------------------------------------------------------------

  /** A line indented by at least three spaces. */
  predicate Deep(l: string) {
    |l| >= 3 && l[2] == ' '
  }

  predicate AllDeep(lines: seq<string>) {
    forall k :: 0 <= k < |lines| ==> Deep(lines[k])
  }

  /** Every line of a sub-panel, value or marker, is indented by four. */
  lemma PanelLinesDeep(t: BloodTests)
    ensures AllDeep(CbcLines(t.completeBloodCount))
    ensures AllDeep(WbcLines(t.wbcDifferential))
    ensures AllDeep(MarkerLines(t.additionalMarkers))
    ensures AllDeep(CardioLines(t.cardiomarkers))
  {
    CbcLinesDeep(t.completeBloodCount);
    WbcLinesDeep(t.wbcDifferential);
    MarkerLinesDeep(t.additionalMarkers);
    CardioLinesDeep(t.cardiomarkers);
  }

  lemma CbcLinesDeep(c: Option<BloodCount>)
    ensures AllDeep(CbcLines(c))
  {
  }

  lemma WbcLinesDeep(c: Option<WbcDifferential>)
    ensures AllDeep(WbcLines(c))
  {
  }

  lemma MarkerLinesDeep(c: Option<AdditionalMarkers>)
    ensures AllDeep(MarkerLines(c))
  {
  }

  lemma CardioLinesDeep(c: Option<CardioMarkers>)
    ensures AllDeep(CardioLines(c))
  {
  }

  /** Sub-panel headers are indented by two only. */
  lemma PanelHeadersShallow()
    ensures !Deep(CbcHeader) && !Deep(WbcHeader) && !Deep(MarkersHeader) && !Deep(CardioHeader)
  {
  }

  /** A header followed by four-indented lines and then by a line that is not,
      or by nothing, splits in one way only. */
  lemma PanelSplit(h1: string, x1: seq<string>, r1: seq<string>, h2: string, x2: seq<string>, r2: seq<string>)
    requires Panel(h1, x1) + r1 == Panel(h2, x2) + r2
    requires AllDeep(x1) && AllDeep(x2)
    requires r1 == [] || !Deep(r1[0])
    requires r2 == [] || !Deep(r2[0])
    ensures h1 == h2 && x1 == x2 && r1 == r2
  {
    var s := Panel(h1, x1) + r1;
    assert forall k :: 0 <= k < |x1| ==> s[k + 1] == x1[k];
    assert forall k :: 0 <= k < |x2| ==> s[k + 1] == x2[k];
    assert |r1| > 0 ==> s[|x1| + 1] == r1[0];
    assert |r2| > 0 ==> s[|x2| + 1] == r2[0];
    assert |x1| == |x2|;
    assert x1 == s[1..|x1| + 1] == x2;
    assert r1 == s[|x1| + 1..] == r2;
  }

  lemma PanelLinesInjective(a: BloodTests, b: BloodTests)
    requires CbcLines(a.completeBloodCount) == CbcLines(b.completeBloodCount)
    requires WbcLines(a.wbcDifferential) == WbcLines(b.wbcDifferential)
    requires MarkerLines(a.additionalMarkers) == MarkerLines(b.additionalMarkers)
    requires CardioLines(a.cardiomarkers) == CardioLines(b.cardiomarkers)
    ensures a == b
  {
    CbcLinesInjective(a.completeBloodCount, b.completeBloodCount);
    WbcLinesInjective(a.wbcDifferential, b.wbcDifferential);
    MarkerLinesInjective(a.additionalMarkers, b.additionalMarkers);
    CardioLinesInjective(a.cardiomarkers, b.cardiomarkers);
  }

  lemma BloodBodyInjective(a: Option<BloodTests>, b: Option<BloodTests>)
    requires BloodBody(a) == BloodBody(b)
    ensures a == b
  {
    if a.Some? && b.Some? {
      var x, y := a.value, b.value;
      PanelLinesDeep(x);
      PanelLinesDeep(y);
      PanelHeadersShallow();
      var xw := Panel(WbcHeader, WbcLines(x.wbcDifferential));
      var xm := Panel(MarkersHeader, MarkerLines(x.additionalMarkers));
      var xk := Panel(CardioHeader, CardioLines(x.cardiomarkers));
      var yw := Panel(WbcHeader, WbcLines(y.wbcDifferential));
      var ym := Panel(MarkersHeader, MarkerLines(y.additionalMarkers));
      var yk := Panel(CardioHeader, CardioLines(y.cardiomarkers));
      PanelSplit(CbcHeader, CbcLines(x.completeBloodCount), xw + (xm + xk),
                 CbcHeader, CbcLines(y.completeBloodCount), yw + (ym + yk));
      PanelSplit(WbcHeader, WbcLines(x.wbcDifferential), xm + xk,
                 WbcHeader, WbcLines(y.wbcDifferential), ym + yk);
      PanelSplit(MarkersHeader, MarkerLines(x.additionalMarkers), xk,
                 MarkersHeader, MarkerLines(y.additionalMarkers), yk);
      assert CardioLines(x.cardiomarkers) == xk[1..] == yk[1..] == CardioLines(y.cardiomarkers);
      PanelLinesInjective(x, y);
    }
  }

  lemma CbcLinesInjective(a: Option<BloodCount>, b: Option<BloodCount>)
    requires CbcLines(a) == CbcLines(b)
    ensures a == b
  {
    if a.Some? && b.Some? {
      var v, w := a.value, b.value;
      CancelAffixes(HemoglobinLabel, OptNumText(v.hemoglobin), OptNumText(w.hemoglobin), " g/L");
      OptNumTextInjective(v.hemoglobin, w.hemoglobin);
      CancelAffixes(RedBloodCellsLabel, OptNumText(v.redBloodCells), OptNumText(w.redBloodCells), " ×10¹²/L");
      OptNumTextInjective(v.redBloodCells, w.redBloodCells);
      CancelAffixes(HematocritLabel, OptNumText(v.hematocrit), OptNumText(w.hematocrit), "%");
      OptNumTextInjective(v.hematocrit, w.hematocrit);
      CancelAffixes(ColorIndexLabel, OptNumText(v.colorIndex), OptNumText(w.colorIndex), "");
      OptNumTextInjective(v.colorIndex, w.colorIndex);
      CancelAffixes(MeanCorpuscularVolumeLabel, OptNumText(v.meanCorpuscularVolume), OptNumText(w.meanCorpuscularVolume), " fL");
      OptNumTextInjective(v.meanCorpuscularVolume, w.meanCorpuscularVolume);
      CancelAffixes(PlateletsLabel, OptNumText(v.platelets), OptNumText(w.platelets), " ×10⁹/L");
      OptNumTextInjective(v.platelets, w.platelets);
      CancelAffixes(WhiteBloodCellsLabel, OptNumText(v.whiteBloodCells), OptNumText(w.whiteBloodCells), " ×10⁹/L");
      OptNumTextInjective(v.whiteBloodCells, w.whiteBloodCells);
    }
  }

  lemma WbcLinesInjective(a: Option<WbcDifferential>, b: Option<WbcDifferential>)
    requires WbcLines(a) == WbcLines(b)
    ensures a == b
  {
    if a.Some? && b.Some? {
      var v, w := a.value, b.value;
      CancelAffixes(BandNeutrophilsLabel, OptNumText(v.bandNeutrophils), OptNumText(w.bandNeutrophils), "%");
      OptNumTextInjective(v.bandNeutrophils, w.bandNeutrophils);
      CancelAffixes(SegmentedNeutrophilsLabel, OptNumText(v.segmentedNeutrophils), OptNumText(w.segmentedNeutrophils), "%");
      OptNumTextInjective(v.segmentedNeutrophils, w.segmentedNeutrophils);
      CancelAffixes(EosinophilsLabel, OptNumText(v.eosinophils), OptNumText(w.eosinophils), "%");
      OptNumTextInjective(v.eosinophils, w.eosinophils);
      CancelAffixes(BasophilsLabel, OptNumText(v.basophils), OptNumText(w.basophils), "%");
      OptNumTextInjective(v.basophils, w.basophils);
      CancelAffixes(LymphocytesLabel, OptNumText(v.lymphocytes), OptNumText(w.lymphocytes), "%");
      OptNumTextInjective(v.lymphocytes, w.lymphocytes);
      CancelAffixes(MonocytesLabel, OptNumText(v.monocytes), OptNumText(w.monocytes), "%");
      OptNumTextInjective(v.monocytes, w.monocytes);
    }
  }

  lemma MarkerLinesInjective(a: Option<AdditionalMarkers>, b: Option<AdditionalMarkers>)
    requires MarkerLines(a) == MarkerLines(b)
    ensures a == b
  {
    if a.Some? && b.Some? {
      var v, w := a.value, b.value;
      CancelAffixes(EsrLabel, OptNumText(v.esr), OptNumText(w.esr), " mm/h");
      OptNumTextInjective(v.esr, w.esr);
      CancelAffixes(ReticulocytesLabel, OptNumText(v.reticulocytes), OptNumText(w.reticulocytes), "%");
      OptNumTextInjective(v.reticulocytes, w.reticulocytes);
    }
  }

  lemma CardioLinesInjective(a: Option<CardioMarkers>, b: Option<CardioMarkers>)
    requires CardioLines(a) == CardioLines(b)
    ensures a == b
  {
    if a.Some? && b.Some? {
      var v, w := a.value, b.value;
      CancelAffixes(TroponinTLabel, OptNumText(v.troponinT), OptNumText(w.troponinT), " ng/mL");
      OptNumTextInjective(v.troponinT, w.troponinT);
      CancelAffixes(CreatineKinaseLabel, OptNumText(v.creatineKinase), OptNumText(w.creatineKinase), " U/L");
      OptNumTextInjective(v.creatineKinase, w.creatineKinase);
      CancelAffixes(CkMbLabel, OptNumText(v.ckMB), OptNumText(w.ckMB), " U/L");
      OptNumTextInjective(v.ckMB, w.ckMB);
    }
  }

  // ---------------------------------------------------------------------------
  // The whole prompt
  // ---------------------------------------------------------------------------

  lemma DropClosingBlank(a: seq<string>, b: seq<string>)
    requires a + [""] == b + [""]
    ensures a == b
  {
    assert a == (a + [""])[..|a|];
    assert b == (b + [""])[..|b|];
  }

  /** Two inputs the schema accepts that yield the same prompt hold the same
      clinical data and ask for the same response language: nothing the input
      carries is lost in the prompt. */
  lemma RenderDeterminesInput(i1: Input, i2: Input)
    requires InputValid(i1) && InputValid(i2)
    requires Render(i1) == Render(i2)
    ensures i1.coronaryAngiography == i2.coronaryAngiography
    ensures i1.echoCGData == i2.echoCGData
    ensures i1.bloodTests == i2.bloodTests
    ensures EffectiveLanguage(i1) == EffectiveLanguage(i2)
  {
    RenderSections(i1);
    RenderSections(i2);
    DropClosingBlank(AngiographyBody(i1.coronaryAngiography), AngiographyBody(i2.coronaryAngiography));
    AngiographyBodyInjective(i1.coronaryAngiography, i2.coronaryAngiography);
    DropClosingBlank(EchoBody(i1.echoCGData), EchoBody(i2.echoCGData));
    EchoBodyInjective(i1.echoCGData, i2.echoCGData);
    DropClosingBlank(BloodBody(i1.bloodTests), BloodBody(i2.bloodTests));
    BloodBodyInjective(i1.bloodTests, i2.bloodTests);
    RenderRespondsIn(i1);
    RenderRespondsIn(i2);
    LanguageLineInjective(EffectiveLanguage(i1), EffectiveLanguage(i2));
  }
}
