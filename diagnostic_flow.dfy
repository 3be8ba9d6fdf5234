/** The diagnostic-assistance flow: validate the input against its schema,
    render the prompt, hand it to the language-model engine and return the
    engine's structured output as it is. The engine is a parameter: one call
    of it, from prompt lines to a reply. */
module DiagnosticFlow {
  import opened Common
  import opened DiagnosticSchema
  import opened DiagnosticPrompt

  /** What one engine call gives back: the structured output it produced (None
      when it produced none), or a failure that surfaces as a thrown error. */
  datatype EngineReply = Reply(output: Option<Output>) | EngineError

  datatype FlowError = InvalidInput | EngineFailure

  /** The flow's result: the output it returns (None is passed through, since
      the non-null assertion on it is not checked at run time), or the error it
      throws. */
  datatype FlowResult = Returned(output: Option<Output>) | Threw(error: FlowError)

  function AnalyzePatientData(i: Input, engine: seq<string> -> EngineReply): (r: FlowResult)
    ensures r == Threw(InvalidInput) <==> !InputValid(i)
    ensures InputValid(i) ==> (r.Threw? <==> engine(Render(i)).EngineError?)
  {
    if !InputValid(i) then Threw(InvalidInput)
    else match engine(Render(i))
      case Reply(o) => Returned(o)
      case EngineError => Threw(EngineFailure)
  }

  /** The flow returns exactly what the engine produced for the rendered
      prompt; it neither checks nor changes the output. */
  lemma FlowPassesOutputThrough(i: Input, engine: seq<string> -> EngineReply, o: Option<Output>)
    requires InputValid(i) && engine(Render(i)) == Reply(o)
    ensures AnalyzePatientData(i, engine) == Returned(o)
  {
  }

  /** The flow sees the input only through its prompt: inputs the schema accepts
      that render alike get the same result from the same engine. The engine is
      modelled as a function of the prompt, so this says what the flow code
      adds, not that the language model answers a prompt the same way twice. */
  lemma FlowDependsOnPromptOnly(i1: Input, i2: Input, engine: seq<string> -> EngineReply)
    requires InputValid(i1) && InputValid(i2) && Render(i1) == Render(i2)
    ensures AnalyzePatientData(i1, engine) == AnalyzePatientData(i2, engine)
  {
  }
}
