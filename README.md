# CardioAPP diagnostic core in Dafny

This project models the part of CardioAPP that turns a cardiology patient record into a request to a language-model engine and brings the engine's structured answer back. It covers four source files.

- **The diagnostic assistance flow** (`src/ai/flows/ai-driven-diagnostic-assistance.ts`):
  - the input schema: coronary angiography with a flat map of fifteen artery segments, echocardiography, blood tests, and the reply language;
  - the output schema: diagnosis, surgical-intervention flag, rationale;
  - the prompt template, rendered line by line as Handlebars renders it;
  - the flow, which validates, prompts the engine and returns its output unchanged.
- **The data analysis flow** (`src/ai/flows/data-analysis-tool.ts`), a nested variant:
  - arteries are grouped by coronary system and there is one record per valve;
  - the ejection fraction and the contractility are mandatory;
  - valve grades are bounded;
  - the language is a code;
  - its prompt has two defects. The flow `AnalyzePatientData` sends the prompt as written, so the engine learns only which sections are present. A corrected prompt and a separate flow that sends it, `AnalyzePatientDataCorrected`, model what was evidently intended (see "Findings").
- **The localization provider** (`src/context/localization-context.tsx`):
  - the interface language, adopted from the stored setting and saved to it;
  - the translation function `t`. It splits a key on dots and walks the current language's table. A missing segment gives back the key itself. `{n}` placeholders are filled from the arguments.
- **The new-patient page** (`src/app/dashboard/patients/new/page.tsx`):
  - the form's validation schema, with the issues it reports per field;
  - the field lists the page shows;
  - how a number box becomes a field value;
  - how the submitted values become the flow input;
  - the submission state: loading flag, last result, error notifications.

Modules and files:

- `common.dfy`, module `Common`:
  - `Option` and JSON values;
  - the decimal text of a number (`NumText`) and `OptNumText`, which is "" for an absent value, as `{{x}}` prints undefined;
  - HTML escaping;
  - the schema `Issue` record;
  - small sequence facts.
- `diagnostic_schema.dfy`, `diagnostic_prompt.dfy`, `prompt_lossless.dfy`, `diagnostic_flow.dfy`: the diagnostic flow. The prompt is a sequence of lines. `prompt_lossless.dfy` proves that the rendered prompt determines the accepted input.
- `analysis_schema.dfy`, `analysis_prompt.dfy`, `analysis_flow.dfy`: the data analysis flow.
- `localization.dfy`: class `LocalizationProvider`, which has fields for the language and the stored setting. Its method `T` runs the lookup loop and the placeholder scan, and is proved against the function `Translate`.
- `new_patient_page.dfy`: class `NewPatientPage`, which has fields `isLoading`, `analysisResult` and `toasts`, and methods `BeginSubmit`, `FinishSubmit` and `OnSubmit`.

The language-model engine is a parameter of both flows: a function from the prompt lines to a reply or an engine error. Clinical numbers are integers.

Behaviour of the code that the model keeps as it is:

- Artery lines of the diagnostic prompt appear in the order the lesions are supplied, not in the schema's segment order.
- Every field line of a present section is printed, with an empty value when the field is unset.
- A present but empty artery record is truthy in Handlebars. It prints the "Affected Arteries:" line with no lesion lines under it, not the "no significant lesions" line.
- The diagnostic flow's schema has no numeric bounds. Of the diagnostic flow and the page, only the page's form schema bounds percentages and grades.

## Model

| member | source | states |
|---|---|---|
| DiagnosticSchema.ParseSegment | src/ai/flows/ai-driven-diagnostic-assistance.ts:14-30 | an artery key is recognised only as the segment whose schema name it is |
| DiagnosticSchema.ParseSegmentName | src/ai/flows/ai-driven-diagnostic-assistance.ts:14-30 | every segment's schema key is recognised as that segment |
| DiagnosticSchema.SegmentNameInjective | src/ai/flows/ai-driven-diagnostic-assistance.ts:14-30 | the fifteen artery keys are pairwise distinct |
| DiagnosticSchema.EffectiveLanguage | src/ai/flows/ai-driven-diagnostic-assistance.ts:90 | an omitted language defaults to English, a given one is kept, and an accepted input's language is English or Russian |
| DiagnosticSchema.ParseOutput | src/ai/flows/ai-driven-diagnostic-assistance.ts:95-99 | a reply is accepted exactly when diagnosis and rationale are strings and surgicalInterventionNeeded is a boolean; the accepted output carries those three values |
| DiagnosticSchema.ParseOutputRoundTrip | src/ai/flows/ai-driven-diagnostic-assistance.ts:95-99 | an output written as JSON is read back unchanged |
| DiagnosticSchema.ParseOutputRejectsTextFlag | src/ai/flows/ai-driven-diagnostic-assistance.ts:97 | a reply whose flag is a text is rejected |
| DiagnosticSchema.ParseOutputRejectsMissing | src/ai/flows/ai-driven-diagnostic-assistance.ts:95-99 | a reply missing any of the three fields is rejected |
| DiagnosticPrompt.ArteryLinesAt | src/ai/flows/ai-driven-diagnostic-assistance.ts:120-122 | the each-block gives exactly one line per supplied lesion, in the order supplied |
| DiagnosticPrompt.RenderSections | src/ai/flows/ai-driven-diagnostic-assistance.ts:111-191 | the three section headers occur in template order; the preamble comes before them and the closing request last; each section between two headers is that section's body followed by a blank line |
| DiagnosticPrompt.RenderRespondsIn | src/ai/flows/ai-driven-diagnostic-assistance.ts:114 | line 3, before the first header, asks for the reply in the effective language: English when none is given, English or Russian for an accepted input |
| DiagnosticPrompt.LanguageLineInjective | src/ai/flows/ai-driven-diagnostic-assistance.ts:114 | different languages give different language lines |
| DiagnosticPrompt.AbsentAngiography | src/ai/flows/ai-driven-diagnostic-assistance.ts:127-128 | an absent angiography section renders as only its "no data provided" line |
| DiagnosticPrompt.AngiographyWithoutArteries | src/ai/flows/ai-driven-diagnostic-assistance.ts:118-126 | angiography without an artery record renders the "no significant arterial lesions" line, then the EF line |
| DiagnosticPrompt.AngiographyWithArteries | src/ai/flows/ai-driven-diagnostic-assistance.ts:117-126 | angiography with an artery record renders "Affected Arteries:", one line per lesion in order, then the EF line |
| DiagnosticPrompt.ArteryLineShape | src/ai/flows/ai-driven-diagnostic-assistance.ts:121 | an artery line is the indentation, the segment key, ": ", the percentage's decimal text and "%" |
| DiagnosticPrompt.EjectionFractionShape | src/ai/flows/ai-driven-diagnostic-assistance.ts:126 | the EF line is its label, the value's text and "%"; it is label plus "%" exactly when the value is absent |
| DiagnosticPrompt.AbsentEcho | src/ai/flows/ai-driven-diagnostic-assistance.ts:142-143 | an absent echo section renders as only its "no data provided" line |
| DiagnosticPrompt.PresentEcho | src/ai/flows/ai-driven-diagnostic-assistance.ts:132-141 | a present echo section is ten lines; lines 1-8 hold the eight valve grades in template order |
| DiagnosticPrompt.ContractilityRendered | src/ai/flows/ai-driven-diagnostic-assistance.ts:133 | for an accepted input the contractility line carries the enumeration value verbatim, or nothing when it is absent |
| DiagnosticPrompt.ContractilityVerbatim | src/ai/flows/ai-driven-diagnostic-assistance.ts:133 | HTML escaping of `{{...}}` leaves both contractility values unchanged |
| DiagnosticPrompt.AbsentBlood | src/ai/flows/ai-driven-diagnostic-assistance.ts:186-187 | an absent blood section renders as only its "no data provided" line |
| DiagnosticPrompt.PresentBlood | src/ai/flows/ai-driven-diagnostic-assistance.ts:147-185 | a present blood section is its four panels in template order, each a header followed by its lines |
| DiagnosticPrompt.PanelMarkers | src/ai/flows/ai-driven-diagnostic-assistance.ts:149-184 | each panel shows its "no data provided" line exactly when its record is absent |
| PromptLossless.FirstColon | src/ai/flows/ai-driven-diagnostic-assistance.ts:121 | the first colon of an artery line follows the segment key |
| PromptLossless.ArteryLineInjective | src/ai/flows/ai-driven-diagnostic-assistance.ts:121 | an artery line determines its segment and percentage |
| PromptLossless.ArteryLinesInjective | src/ai/flows/ai-driven-diagnostic-assistance.ts:120-122 | the artery lines determine the lesion list |
| PromptLossless.EjectionFractionLineInjective | src/ai/flows/ai-driven-diagnostic-assistance.ts:126 | the EF line determines the optional EF value |
| PromptLossless.ArteriesMarker | src/ai/flows/ai-driven-diagnostic-assistance.ts:118-126 | the first angiography line is the no-lesions line exactly when no artery record is given; the last is the EF line |
| PromptLossless.AngiographyBodyInjective | src/ai/flows/ai-driven-diagnostic-assistance.ts:117-129 | the angiography section determines the angiography record, including its absence |
| PromptLossless.ContractilityTextInjective | src/ai/flows/ai-driven-diagnostic-assistance.ts:133 | for accepted values the escaped contractility text determines the value |
| PromptLossless.EchoBodyInjective | src/ai/flows/ai-driven-diagnostic-assistance.ts:132-144 | the echo section determines the echo record |
| PromptLossless.CbcLinesInjective | src/ai/flows/ai-driven-diagnostic-assistance.ts:149-159 | the blood-count lines determine the blood-count record |
| PromptLossless.WbcLinesInjective | src/ai/flows/ai-driven-diagnostic-assistance.ts:161-170 | the differential lines determine the differential record |
| PromptLossless.MarkerLinesInjective | src/ai/flows/ai-driven-diagnostic-assistance.ts:172-177 | the additional-marker lines determine their record |
| PromptLossless.CardioLinesInjective | src/ai/flows/ai-driven-diagnostic-assistance.ts:179-185 | the cardiomarker lines determine their record |
| PromptLossless.PanelSplit | src/ai/flows/ai-driven-diagnostic-assistance.ts:147-185 | a panel header and its more deeply indented lines are recovered from the concatenated panels |
| PromptLossless.BloodBodyInjective | src/ai/flows/ai-driven-diagnostic-assistance.ts:146-188 | the blood section determines the blood-test record |
| PromptLossless.RenderDeterminesInput | src/ai/flows/ai-driven-diagnostic-assistance.ts:111-191 | two accepted inputs with the same prompt have the same three sections and the same effective language |
| DiagnosticFlow.AnalyzePatientData | src/ai/flows/ai-driven-diagnostic-assistance.ts:194-204 | the flow throws an input error exactly when the schema rejects the input; for an accepted input it throws exactly when the engine fails on the rendered prompt |
| DiagnosticFlow.FlowPassesOutputThrough | src/ai/flows/ai-driven-diagnostic-assistance.ts:200-203 | the engine's output, including an absent one, is returned unchanged |
| DiagnosticFlow.FlowDependsOnPromptOnly | src/ai/flows/ai-driven-diagnostic-assistance.ts:200-202 | accepted inputs with the same prompt give the same result |
| AnalysisSchema.EffectiveLanguage | src/ai/flows/data-analysis-tool.ts:95 | an omitted language defaults to "en", a given one is kept, and an accepted input's language is "en" or "ru" |
| AnalysisSchema.GradeIssues | src/ai/flows/data-analysis-tool.ts:43-56 | a grade is reported exactly when it lies outside [0, 4], as too small or too big, on its own path |
| AnalysisSchema.ValveIssues | src/ai/flows/data-analysis-tool.ts:42-45 | a valve is reported exactly when one of its grades is out of range |
| AnalysisSchema.ValvesIssues | src/ai/flows/data-analysis-tool.ts:41-58 | the valve record is reported exactly when one of its valves is |
| AnalysisSchema.ContractilityIssues | src/ai/flows/data-analysis-tool.ts:40 | contractility is reported exactly when it is missing or not one of the two values |
| AnalysisSchema.Issues | src/ai/flows/data-analysis-tool.ts:91-96 | the schema finds no issue exactly when the input is valid: EF present, contractility valid, grades in range, language "en" or "ru" |
| AnalysisSchema.ParseOutput | src/ai/flows/data-analysis-tool.ts:100-104 | a reply is accepted exactly when its three fields have the right types; the output carries them |
| AnalysisSchema.ParseOutputRoundTrip | src/ai/flows/data-analysis-tool.ts:100-104 | an output written as JSON is read back unchanged |
| AnalysisSchema.ParseOutputRejectsOtherFlagName | src/ai/flows/data-analysis-tool.ts:102 | a reply that uses the other flow's flag name is rejected |
| AnalysisPrompt.PromptAsWrittenShape | src/ai/flows/data-analysis-tool.ts:116-129 | the prompt as written is fourteen lines; lines 7-9 hold the three labelled data slots |
| AnalysisPrompt.PromptAsWrittenSeesPresenceOnly | src/ai/flows/data-analysis-tool.ts:123-125 | two inputs get the same prompt as written exactly when the same sections are present |
| AnalysisPrompt.PromptAsWrittenLosesData | src/ai/flows/data-analysis-tool.ts:123 | two accepted inputs with EF 30 and EF 60 get the same prompt as written |
| AnalysisPrompt.PromptAsWrittenIgnoresLanguage | src/ai/flows/data-analysis-tool.ts:121 | "en" and "ru" requests get the same prompt as written |
| AnalysisPrompt.GroupInjective | src/ai/flows/data-analysis-tool.ts:14-89 | a written-out group of fields determines its presence flag and every value |
| AnalysisPrompt.LcaFieldsInjective | src/ai/flows/data-analysis-tool.ts:15-22 | the left coronary values and presence determine the record |
| AnalysisPrompt.LcxFieldsInjective | src/ai/flows/data-analysis-tool.ts:23-28 | the circumflex values and presence determine the record |
| AnalysisPrompt.RcaFieldsInjective | src/ai/flows/data-analysis-tool.ts:29-35 | the right coronary values and presence determine the record |
| AnalysisPrompt.ValveFieldsInjective | src/ai/flows/data-analysis-tool.ts:42-45 | a valve's two grades and presence determine the record |
| AnalysisPrompt.CbcFieldsInjective | src/ai/flows/data-analysis-tool.ts:62-71 | the blood-count values and presence determine the record |
| AnalysisPrompt.WbcFieldsInjective | src/ai/flows/data-analysis-tool.ts:72-79 | the differential values and presence determine the record |
| AnalysisPrompt.MarkerFieldsInjective | src/ai/flows/data-analysis-tool.ts:80-83 | the additional-marker values and presence determine the record |
| AnalysisPrompt.CardioFieldsInjective | src/ai/flows/data-analysis-tool.ts:84-88 | the cardiomarker values and presence determine the record |
| AnalysisPrompt.PromptShape | src/ai/flows/data-analysis-tool.ts:116-129 | the corrected prompt keeps the template's fixed lines and puts the three sections and the language line at fixed positions |
| AnalysisPrompt.PromptKeepsDataLabels | src/ai/flows/data-analysis-tool.ts:123-125 | each template data label still heads its section and is followed by the section's presence |
| AnalysisPrompt.PromptNamesLanguage | src/ai/flows/data-analysis-tool.ts:121 | the corrected prompt names the effective language, "en" when none is given |
| AnalysisPrompt.AngiographyLinesInjective | src/ai/flows/data-analysis-tool.ts:14-37 | the angiography lines determine the angiography record, including its absence |
| AnalysisPrompt.ValvesLinesInjective | src/ai/flows/data-analysis-tool.ts:41-58 | the valve lines determine the valve record |
| AnalysisPrompt.EchoLinesInjective | src/ai/flows/data-analysis-tool.ts:39-59 | for accepted echo records the echo lines determine the record |
| AnalysisPrompt.BloodLinesInjective | src/ai/flows/data-analysis-tool.ts:61-89 | the blood lines determine the blood-test record |
| AnalysisPrompt.PromptDeterminesInput | src/ai/flows/data-analysis-tool.ts:112-131 | two accepted inputs with the same corrected prompt have the same three sections and the same effective language |
| AnalysisFlow.AnalyzePatientData | src/ai/flows/data-analysis-tool.ts:133-143 | the flow as written throws an input error, listing every rejected field, exactly when the schema rejects the input; for an accepted input it sends the template's prompt and throws exactly when the engine fails on it |
| AnalysisFlow.FlowPassesOutputThrough | src/ai/flows/data-analysis-tool.ts:139-141 | the engine's output for the template's prompt, including an absent one passed through the non-null assertion, is returned unchanged |
| AnalysisFlow.FlowSeesPresenceOnly | src/ai/flows/data-analysis-tool.ts:123-125 | accepted inputs with the same sections present get the same result from every engine, whatever their values and language |
| AnalysisFlow.AnalyzePatientDataCorrected | src/ai/flows/data-analysis-tool.ts:133-143 | the evidently intended flow: the same validation and errors, with the written-out prompt sent to the engine |
| AnalysisFlow.FlowSeesWholeInput | src/ai/flows/data-analysis-tool.ts:112-143 | accepted inputs that the corrected flow gives the same result for every engine are the same record, up to the language default |
| Localization.Split | src/context/localization-context.tsx:37 | splitting a key gives at least one segment and no segment holds a dot |
| Localization.JoinSplit | src/context/localization-context.tsx:37 | joining the segments with dots gives the key back |
| Localization.SplitPrefix | src/context/localization-context.tsx:37 | a dot-free prefix joins the first segment of what follows |
| Localization.SplitJoin | src/context/localization-context.tsx:37 | dot-free segments joined with dots split back into themselves |
| Localization.ResolveNoneExtends | src/context/localization-context.tsx:39-43 | once a segment is missing, every longer path is missing |
| Localization.ResolveFront | src/context/localization-context.tsx:38-44 | looking up a path is looking up its first segment, then the rest below it |
| Localization.PlaceholderDigits | src/context/localization-context.tsx:47 | a recognised placeholder is "{", a non-empty run of all the digits that follow, and "}" |
| Localization.SubstituteNoArgs | src/context/localization-context.tsx:47-49 | with no arguments every placeholder stays as it is |
| Localization.SubstitutePlain | src/context/localization-context.tsx:47 | a text without "{" is unchanged |
| Localization.SubstituteNoPattern | src/context/localization-context.tsx:47 | a text in which no position starts a `{digits}` pattern is unchanged, whatever its braces |
| Localization.SubstituteCopies | src/context/localization-context.tsx:47 | a first character other than "{" is copied and the scan goes on after it |
| Localization.SubstituteLeading | src/context/localization-context.tsx:47-49 | a leading placeholder is replaced and the rest is scanned on its own |
| Localization.SubstitutePrefix | src/context/localization-context.tsx:47 | a brace-free front is copied and the rest is scanned on its own |
| Localization.SubstituteEmbedded | src/context/localization-context.tsx:47-49 | a placeholder after brace-free text is replaced where it stands and the text after it is scanned on its own |
| Localization.SubstituteIndexIn | src/context/localization-context.tsx:47-49 | "{n}" inside a text becomes the n-th argument when there is one and stays otherwise, with the text around it kept; applied once per placeholder it covers several |
| Localization.SubstitutePlaceholder | src/context/localization-context.tsx:47-49 | a lone placeholder becomes its argument when its digits name one, and stays otherwise |
| Localization.SubstituteOne | src/context/localization-context.tsx:47-49 | "{n}" becomes the n-th argument when there is one and stays otherwise |
| Localization.SubstituteLeadingZero | src/context/localization-context.tsx:47-48 | digits with a leading zero name no argument, so "{01}" stays |
| Localization.ReplacePlaceholders | src/context/localization-context.tsx:46-50 | the left-to-right replace scan computes the placeholder substitution of the text |
| Localization.TranslateMissing | src/context/localization-context.tsx:39-43 | as soon as a segment of the key is missing, the key itself is returned |
| Localization.TranslateBelowText | src/context/localization-context.tsx:40-42 | a key that continues below a text is missing and gives back the key |
| Localization.TranslateTwoLevel | src/context/localization-context.tsx:36-53 | `section.name` gives the non-empty text filed under that name in that section, and the key when that text is empty |
| Localization.TranslateWithArgs | src/context/localization-context.tsx:46-52 | with arguments a found text comes back with its placeholders filled, even an empty one; without arguments an empty text gives the key |
| Localization.ParseStored | src/context/localization-context.tsx:25-26 | a stored setting is adopted exactly when it is "en" or "ru", as that language |
| Localization.ParseStoredCode | src/context/localization-context.tsx:25-33 | a saved language is adopted again on the next load |
| Localization.LocalizationProvider.constructor | src/context/localization-context.tsx:22 | the provider starts in English, with the given stored setting and tables |
| Localization.LookupSeesCurrentTableOnly | src/context/localization-context.tsx:37 | lookups consult only the current language's table: providers in the same language with the same table for it translate every key alike, whatever the other table holds |
| Localization.LocalizationProvider.LoadStoredLanguage | src/context/localization-context.tsx:24-29 | a valid stored code becomes the language; anything else leaves the language unchanged; the setting is untouched |
| Localization.LocalizationProvider.SetLanguage | src/context/localization-context.tsx:31-34 | the language becomes the choice and the setting holds its code, which a later load adopts |
| Localization.LocalizationProvider.T | src/context/localization-context.tsx:36-53 | the lookup loop and the replace call return the translation of the key in the current table |
| NewPatientPage.RangeIssues | src/app/dashboard/patients/new/page.tsx:49-80 | a value is reported, on its own path, exactly when it lies outside its range |
| NewPatientPage.LesionIssues | src/app/dashboard/patients/new/page.tsx:48-64 | the lesions are reported exactly when one lies outside [0, 100] |
| NewPatientPage.LesionRejected | src/app/dashboard/patients/new/page.tsx:48-64 | a lesion outside [0, 100] is reported on its own segment's path |
| NewPatientPage.GradeIssues | src/app/dashboard/patients/new/page.tsx:73-80 | the grades from position k on are reported exactly when one lies outside [0, 4] |
| NewPatientPage.GradeIssuesAt | src/app/dashboard/patients/new/page.tsx:73-80 | a grade outside [0, 4] is reported on its own key |
| NewPatientPage.AngiographyIssues | src/app/dashboard/patients/new/page.tsx:67-70 | angiography is reported exactly when a lesion or the EF lies outside [0, 100] |
| NewPatientPage.EchoIssues | src/app/dashboard/patients/new/page.tsx:71-81 | echo is reported exactly when contractility is not one of the two values or a grade lies outside [0, 4] |
| NewPatientPage.FormIssues | src/app/dashboard/patients/new/page.tsx:66-110 | the form schema finds no issue exactly when the values are valid |
| NewPatientPage.EjectionFractionRejected | src/app/dashboard/patients/new/page.tsx:69 | an EF outside [0, 100] is reported on its path, whatever else the form holds |
| NewPatientPage.LesionReported | src/app/dashboard/patients/new/page.tsx:48-68 | a lesion outside [0, 100] is reported, whatever else the form holds |
| NewPatientPage.GradeReported | src/app/dashboard/patients/new/page.tsx:73-80 | a valve grade outside [0, 4] is reported on its key, whatever else the form holds |
| NewPatientPage.BloodNeverRejected | src/app/dashboard/patients/new/page.tsx:82-109 | the blood values never change the schema's findings |
| NewPatientPage.GradeKeyInjective | src/app/dashboard/patients/new/page.tsx:116 | the eight grade keys built from the valve list are pairwise different, so a grade issue names one select |
| NewPatientPage.ArteryListsPartition | src/app/dashboard/patients/new/page.tsx:114-115 | the left and right artery lists are disjoint and together are every schema segment, in declaration order |
| NewPatientPage.LabelKeySegments | src/app/dashboard/patients/new/page.tsx:321 | a field label key is looked up as `newPatient`, the panel, the field |
| NewPatientPage.BloodLabelKeys | src/app/dashboard/patients/new/page.tsx:321-329 | every complete-blood-count and white-cell differential label key is looked up as `newPatient`, the panel, the field |
| NewPatientPage.MarkerLabelKeys | src/app/dashboard/patients/new/page.tsx:337-345 | every additional-marker and cardiomarker label key is looked up as `newPatient`, the panel, the field |
| NewPatientPage.BoxValue | src/app/dashboard/patients/new/page.tsx:167 | an emptied box makes the field absent; any other text sets it |
| NewPatientPage.EmptyBoxIsAbsent | src/app/dashboard/patients/new/page.tsx:167 | an empty box is absent, while "0" is zero |
| NewPatientPage.BoxRoundTrip | src/app/dashboard/patients/new/page.tsx:167 | a field shown in a box and read back is the same field |
| NewPatientPage.BuildInput | src/app/dashboard/patients/new/page.tsx:137-140 | the input carries the three sections unchanged and names Russian exactly when the interface is Russian |
| NewPatientPage.BuildInputInjective | src/app/dashboard/patients/new/page.tsx:137-140 | no form value and no language choice is lost |
| NewPatientPage.BuildInputAccepted | src/app/dashboard/patients/new/page.tsx:137-143 | values the form accepts make an input the flow accepts, whose prompt asks for the interface language |
| NewPatientPage.SubmitReachesEngine | src/app/dashboard/patients/new/page.tsx:142-143 | a submission the form accepts never fails validation; it throws exactly when the engine fails |
| NewPatientPage.NewPatientPage.constructor | src/app/dashboard/patients/new/page.tsx:125-126 | the page starts not loading, with no result and no notification |
| NewPatientPage.NewPatientPage.BeginSubmit | src/app/dashboard/patients/new/page.tsx:134-135 | submission sets loading and clears the last result |
| NewPatientPage.NewPatientPage.FinishSubmit | src/app/dashboard/patients/new/page.tsx:142-154 | a returned output becomes the result; a throw keeps the result and appends the translated error notification; loading stops either way |
| NewPatientPage.NewPatientPage.OnSubmit | src/app/dashboard/patients/new/page.tsx:133-155 | submitting calls the flow on the values with the interface language; afterwards loading is off, and the state holds either the flow's output or no result plus one more error notification |

## Left out

- The language-model engine, Genkit and the network are not modelled. The engine is a function parameter of each flow, and awaiting its reply is not modelled.
- JavaScript numbers are modelled as integers, so fractional values, NaN and infinities are not modelled. Their decimal text is the integer's text.
- NewPatientPage.BoxValue: it accepts only integer text, because `valueAsNumber` of fractional input is not modelled.
- The `keys`/`lookup` helpers of the diagnostic template. Their key order is taken to be the order in which the lesions are supplied.
- Duplicate segments in one artery record are not excluded. The form values hold the artery record as a list of lesions.
- Property lookups that JavaScript resolves on strings and prototypes inside `t`, such as "length" or "toString" on a text reached mid-path. A text reached mid-path is treated as missing.
- Arguments passed to `t` that are not strings, or are explicitly `undefined`. Arguments are strings.
- The locale JSON files are not part of this model. The two tables are constructor parameters of the provider.
- Reading and writing `localStorage` is modelled as the provider's `stored` field.
- The React rendering is not modelled: JSX, tabs, accordions, tooltips, the result card, and the grade selects' offered values.
- Authentication, `console.error` logging and the toast's `variant` are not modelled.
- The page's form resolver, which runs `FormIssues` before `onSubmit`, is not modelled as a step. `OnSubmit` takes the values as submitted, and `SubmitReachesEngine` states what accepted values lead to.
- The diagnostic flow's schema-error detail is left out. Its input error carries no field list because the flow's schema rejects only bad enumeration values.

## Findings

| source | as written | input that shows it | evidently intended | confidence | as-written member | corrected member |
|---|---|---|---|---|---|---|
| src/ai/flows/data-analysis-tool.ts:123-125 | each data section is placed with a triple-brace expression, so a present section prints "[object Object]" and none of its values reach the prompt | two accepted inputs with coronary angiography EF 30 and EF 60 and nothing else give the same prompt | the section's field values appear in the prompt | high (not executed) | AnalysisPrompt.PromptAsWrittenLosesData | AnalysisFlow.AnalyzePatientDataCorrected |
| src/ai/flows/data-analysis-tool.ts:121 | the prompt asks for "the language specified in the input" but never places the language | with language "en" and with "ru", the same record gives the same prompt | the prompt names the requested language | high (not executed) | AnalysisPrompt.PromptAsWrittenIgnoresLanguage | AnalysisPrompt.PromptNamesLanguage |
