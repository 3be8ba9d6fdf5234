/** The second analysis flow: validate the nested input, render the prompt,
    hand it to the language-model engine and return its structured output as
    it is. The engine is a parameter, as in the diagnostic flow.

    `AnalyzePatientData` is the flow as written: it sends the template's text,
    `PromptAsWritten`, so the engine learns only which sections are present.
    `AnalyzePatientDataCorrected` is the evidently intended flow, which sends
    the written-out `Prompt`. */
module AnalysisFlow {
  import opened Common
  import opened AnalysisSchema
  import opened AnalysisPrompt

  datatype EngineReply = Reply(output: Option<Output>) | EngineError

  /** Why the flow throws: the schema rejected the input (with what it found),
      or the engine call failed. */
  datatype FlowError = InvalidInput(issues: seq<Issue>) | EngineFailure

  /** The output the flow returns (None passes through the unchecked non-null
      assertion), or the error it throws. */
  datatype FlowResult = Returned(output: Option<Output>) | Threw(error: FlowError)

  /** The flow around a given prompt: schema first, then one engine call. */
  function Run(i: Input, prompt: seq<string>, engine: seq<string> -> EngineReply): FlowResult {
    var issues := Issues(i);
    if issues != [] then Threw(InvalidInput(issues))
    else match engine(prompt)
      case Reply(o) => Returned(o)
      case EngineError => Threw(EngineFailure)
  }

  /** The flow as written, with the template's prompt. */
  function AnalyzePatientData(i: Input, engine: seq<string> -> EngineReply): (r: FlowResult)
    ensures r.Threw? && r.error.InvalidInput? <==> !InputValid(i)
    ensures r.Threw? && r.error.InvalidInput? ==> r.error.issues != [] && r.error.issues == Issues(i)
    ensures InputValid(i) ==> (r.Threw? <==> engine(PromptAsWritten(i)).EngineError?)
  {
    Run(i, PromptAsWritten(i), engine)
  }

  /** The flow returns exactly what the engine produced for the prompt. */
  lemma FlowPassesOutputThrough(i: Input, engine: seq<string> -> EngineReply, o: Option<Output>)
    requires InputValid(i) && engine(PromptAsWritten(i)) == Reply(o)
    ensures AnalyzePatientData(i, engine) == Returned(o)
  {
  }

  /** Accepted inputs with the same sections present get the same result from
      any engine: no value of the input reaches it. The engine is a function,
      so the same prompt always gets the same reply. */
  lemma FlowSeesPresenceOnly(i1: Input, i2: Input, engine: seq<string> -> EngineReply)
    requires InputValid(i1) && InputValid(i2)
    requires i1.coronaryAngiography.Some? == i2.coronaryAngiography.Some?
    requires i1.echoCGData.Some? == i2.echoCGData.Some?
    requires i1.bloodTests.Some? == i2.bloodTests.Some?
    ensures AnalyzePatientData(i1, engine) == AnalyzePatientData(i2, engine)
  {
    PromptAsWrittenSeesPresenceOnly(i1, i2);
  }

  /** The evidently intended flow, with the written-out prompt. */
  function AnalyzePatientDataCorrected(i: Input, engine: seq<string> -> EngineReply): (r: FlowResult)
    ensures r.Threw? && r.error.InvalidInput? <==> !InputValid(i)
    ensures r.Threw? && r.error.InvalidInput? ==> r.error.issues != [] && r.error.issues == Issues(i)
    ensures InputValid(i) ==> (r.Threw? <==> engine(Prompt(i)).EngineError?)
  {
    Run(i, Prompt(i), engine)
  }

  /** Accepted inputs that the corrected flow cannot tell apart with any
      engine are the same record up to the language default: the engine sees
      every field. An engine that answers only one prompt tells them apart
      otherwise. */
  lemma FlowSeesWholeInput(i1: Input, i2: Input)
    requires InputValid(i1) && InputValid(i2)
    requires forall engine: seq<string> -> EngineReply ::
      AnalyzePatientDataCorrected(i1, engine) == AnalyzePatientDataCorrected(i2, engine)
    ensures i1.(language := Some(EffectiveLanguage(i1))) == i2.(language := Some(EffectiveLanguage(i2)))
  {
    var probe := (p: seq<string>) => if p == Prompt(i1) then Reply(None) else EngineError;
    assert AnalyzePatientDataCorrected(i1, probe) == AnalyzePatientDataCorrected(i2, probe);
    assert Prompt(i2) == Prompt(i1);
    PromptDeterminesInput(i1, i2);
  }
}
