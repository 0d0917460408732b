/** The session-based prompt server of `server_for_agent.py`.

    A process-wide store maps each session id to the four directories that
    `configure_session` recorded for it.  `ts_measure_new_doc` looks the
    session up and, when it is configured, assembles a prompt from a fixed
    preamble, the single-measure instruction block, a closing paragraph and
    the self-verification checklist with the output directory filled in.
 */
module Session {
  import opened Text
  import opened Wrappers

  /** The record `configure_session` stores for a session. */
  datatype Config = Config(storedProceduresDir: string, viewsDir: string, olapDir: string, storeDocDir: string)

  /** A text with one placeholder, split at the placeholder. */
  datatype Template = Template(before: string, after: string)

  /** `template.format(name=value)` for a template whose only replacement
      field is the placeholder: the value takes the placeholder's place. */
  function Format(t: Template, value: string): (r: string)
    ensures |r| == |t.before| + |value| + |t.after|
    ensures StartsWith(r, t.before)
    ensures Occurs(value, r, |t.before|)
    ensures EndsWith(r, t.after)
  {
    t.before + value + t.after
  }

  /** Stand-in for the worked sample specification, an opaque constant. */
  const SampleTechnicalSpecification: string := "\n\n<worked sample technical specification>\n"

  // The self-verification checklist, split at its `{store_doc_dir}` placeholder.
  const SelfVerificationChecklist: string :=
    "\n\nMANDATORY SELF-VERIFICATION:\n"
    + "After creating the specification, you MUST:\n"
    + "1. Compare the created structure with SAMPLE_TECHNICAL_SPECIFICATION template provided above, section by section\n"
    + "2. Fix ALL differences in formatting, headers, section order\n"
    + "3. Verify that \"Data Flow\" section exactly matches the template format (numbered items with arrow notation, ##### headers for stored procedures)\n"
  const SaveStep: string := "4. Only after complete structural compliance, save the file to '"
  const SaveStepEnd: string := "' directory\n"
  const FileNamingRequirement: string :=
    "5. FILE NAMING REQUIREMENT: The file name MUST follow this format: \"BlockName_MeasureName.md\"\n"
    + "   - BlockName: The name from the first H1 header (# Header) of the specification (e.g., \"Продажи\")\n"
    + "   - MeasureName: The name of the measure being documented\n"
    + "   - Example: \"Продажи_% выполнения плана по выручке от реализации.md\"\n"
    + "   - Replace any characters that are invalid for file names with underscores"

  const MandatorySelfVerification: Template :=
    Template(SelfVerificationChecklist + SaveStep, SaveStepEnd + FileNamingRequirement)

  // The literal pieces of the single-measure instruction block, in order.
  const TemplateOpening: string :=
    "\n=== TARGET STRUCTURE TEMPLATE ===\n"
    + "The following is the EXACT structure you MUST follow when creating the technical specification:\n"
  const TemplateClosing: string := "\n=== END OF TEMPLATE ===\n\n"
  const InstructionsFor: string := "Instructions for measure '"
  const InstructionsForEnd: string := "':\n\n"
  const Step1Heading: string := "STEP 1: DATA EXTRACTION\n"
  const LocateMeasure: string := "- Locate the measure \""
  const InBimFileAt: string := "\" in the .bim file at '"
  const ExtractProperties: string :=
    "'\n- Extract all measure properties: name, expression, format, displayFolder, description\n\n"
  const Step2Heading: string := "STEP 2: DATA LINEAGE ANALYSIS\n"
  const TraceTablesToViews: string := "- Trace OLAP tables used by the measure → DWH views in '"
  const TraceViewsToProcedures: string := "'\n- Trace views → stored procedures in '"
  const AnalyzeProcedures: string :=
    "' that populate underlying tables\n"
    + "- Analyze stored procedure logic to understand business transformations\n\n"
  const Step3Heading: string := "STEP 3: GENERATE SPECIFICATION\n"
  const CreateDocument: string :=
    "Create a markdown document with the EXACT structure shown in the TARGET STRUCTURE TEMPLATE above.\n\n"
  const CriticalRequirements: string :=
    "CRITICAL REQUIREMENTS:\n"
    + "- Ignore any commented-out code in measure expressions\n"
    + "- Use EXACT heading levels: ## for measure title, ### for main sections, #### for subsections, ##### for stored procedures\n"
    + "- DAX code MUST be in ```dax blocks\n"
    + "- Data flow section MUST have numbered items with arrow notation\n"
    + "- Structure MUST be IDENTICAL to the template - NO deviations allowed\n"

  // The literal pieces that `ts_measure_new_doc` puts around that block.
  const NewDocOpening: string := "Create a technical specification markdown file for measure: \""
  const NewDocOpeningEnd: string := "\".\n"
  const BimParagraph: string :=
    "\nThe .bim file is a Power BI Desktop project file that contains the data model, measures, "
    + "and relationships. Use it, along with the provided SQL directories, as the source for the "
    + "analysis to create human-readable documentation following the technical specification "
    + "format from the template."

  const NotConfiguredError: string := "Error: Session not configured. Please call 'configure_session' first."
  const SessionPrefix: string := "Session "
  const ConfiguredSuffix: string := " configured successfully."

  /** The confirmation `configure_session` returns; the session id can be read back from it. */
  function ConfiguredMessage(sessionId: string): (r: string)
    ensures StartsWith(r, SessionPrefix) && EndsWith(r, ConfiguredSuffix)
    ensures |r| == |SessionPrefix| + |sessionId| + |ConfiguredSuffix|
    ensures r[|SessionPrefix|..|r| - |ConfiguredSuffix|] == sessionId
  {
    SessionPrefix + sessionId + ConfiguredSuffix
  }

  /** Distinct sessions are confirmed with distinct messages. */
  lemma ConfiguredMessageInjective(a: string, b: string)
    requires ConfiguredMessage(a) == ConfiguredMessage(b)
    ensures a == b
  {
  }

  /** The segments of `_generate_single_measure_prompt(measure, olap_dir, stored_procedures_dir, views_dir)`. */
  function SingleMeasureParts(measure: string, olapDir: string, storedProceduresDir: string, viewsDir: string): seq<string>
  {
    [ TemplateOpening, SampleTechnicalSpecification, TemplateClosing,
      InstructionsFor, measure, InstructionsForEnd,
      Step1Heading, LocateMeasure, measure, InBimFileAt, olapDir, ExtractProperties,
      Step2Heading, TraceTablesToViews, viewsDir, TraceViewsToProcedures, storedProceduresDir, AnalyzeProcedures,
      Step3Heading, CreateDocument,
      CriticalRequirements ]
  }

  function SingleMeasurePrompt(measure: string, olapDir: string, storedProceduresDir: string, viewsDir: string): string
  {
    Concat(SingleMeasureParts(measure, olapDir, storedProceduresDir, viewsDir))
  }

  /** The target structure template, with the sample inside it, comes first
      and is followed by the instructions naming the measure. */
  lemma TemplateBeforeInstructions(measure: string, olapDir: string, storedProceduresDir: string, viewsDir: string)
    ensures var r := SingleMeasurePrompt(measure, olapDir, storedProceduresDir, viewsDir);
            && StartsWith(r, TemplateOpening)
            && AppearInOrder([TemplateOpening, SampleTechnicalSpecification, TemplateClosing,
                              InstructionsFor, measure, InstructionsForEnd, Step1Heading], r)
  {
    var parts := SingleMeasureParts(measure, olapDir, storedProceduresDir, viewsDir);
    ConcatStartsWith(parts);
    Picked(parts, [0, 1, 2, 3, 4, 5, 6],
           [TemplateOpening, SampleTechnicalSpecification, TemplateClosing,
            InstructionsFor, measure, InstructionsForEnd, Step1Heading]);
  }

  /** STEP 1, STEP 2 and STEP 3 come in that order, and the critical
      requirements close the block. */
  lemma StepsInOrder(measure: string, olapDir: string, storedProceduresDir: string, viewsDir: string)
    ensures var r := SingleMeasurePrompt(measure, olapDir, storedProceduresDir, viewsDir);
            && AppearInOrder([Step1Heading, Step2Heading, Step3Heading, CriticalRequirements], r)
            && EndsWith(r, CriticalRequirements)
  {
    var parts := SingleMeasureParts(measure, olapDir, storedProceduresDir, viewsDir);
    Picked(parts, [6, 12, 18, 20], [Step1Heading, Step2Heading, Step3Heading, CriticalRequirements]);
    ConcatEndsWith(parts);
  }

  /** STEP 1 names the measure and the OLAP directory; the first line of
      STEP 2 names the views directory and the second the stored procedures
      directory. */
  lemma PathsInSteps(measure: string, olapDir: string, storedProceduresDir: string, viewsDir: string)
    ensures AppearInOrder([Step1Heading, LocateMeasure, measure, InBimFileAt, olapDir, ExtractProperties,
                           Step2Heading, TraceTablesToViews, viewsDir, TraceViewsToProcedures,
                           storedProceduresDir, AnalyzeProcedures, Step3Heading],
                          SingleMeasurePrompt(measure, olapDir, storedProceduresDir, viewsDir))
  {
    Picked(SingleMeasureParts(measure, olapDir, storedProceduresDir, viewsDir),
           [6, 7, 8, 9, 10, 11, 12, 13, 14, 15, 16, 17, 18],
           [Step1Heading, LocateMeasure, measure, InBimFileAt, olapDir, ExtractProperties,
            Step2Heading, TraceTablesToViews, viewsDir, TraceViewsToProcedures,
            storedProceduresDir, AnalyzeProcedures, Step3Heading]);
  }

  /** The segments of the prompt `ts_measure_new_doc` returns for a configured session. */
  function NewDocParts(measure: string, c: Config): seq<string>
  {
    [ NewDocOpening, measure, NewDocOpeningEnd,
      SingleMeasurePrompt(measure, c.olapDir, c.storedProceduresDir, c.viewsDir),
      BimParagraph,
      Format(MandatorySelfVerification, c.storeDocDir) ]
  }

  function NewDocPrompt(measure: string, c: Config): string
  {
    Concat(NewDocParts(measure, c))
  }

  /** The prompt opens with the preamble, which names the measure right
      after its opening words. */
  lemma NewDocOpensWithMeasure(measure: string, c: Config)
    ensures var r := NewDocPrompt(measure, c);
            StartsWith(r, NewDocOpening) && Occurs(measure, r, |NewDocOpening|)
  {
    var parts := NewDocParts(measure, c);
    assert parts[..0] == [];
    ConcatLength(parts, 0);
    SegmentAt(parts, 0);
    SegmentAt(parts, 1);
  }

  /** The preamble comes first, then the instruction block, the closing
      paragraph and the self-verification checklist. */
  lemma NewDocSegmentsInOrder(measure: string, c: Config)
    ensures AppearInOrder([NewDocOpening, measure, NewDocOpeningEnd,
                           SingleMeasurePrompt(measure, c.olapDir, c.storedProceduresDir, c.viewsDir),
                           BimParagraph, Format(MandatorySelfVerification, c.storeDocDir)],
                          NewDocPrompt(measure, c))
  {
    var parts := NewDocParts(measure, c);
    Picked(parts, [0, 1, 2, 3, 4, 5], parts);
  }

  /** The filled-in checklist names the directory in its "save the file" step. */
  lemma SelfVerificationSaveStep(storeDocDir: string)
    ensures AppearInOrder([SelfVerificationChecklist, SaveStep, storeDocDir, SaveStepEnd, FileNamingRequirement],
                          Format(MandatorySelfVerification, storeDocDir))
  {
    PlacedInFilledTemplate(SelfVerificationChecklist, SaveStep, storeDocDir, SaveStepEnd, FileNamingRequirement);
  }

  /** The prompt's checklist names the output directory in its "save the file" step. */
  lemma NewDocSaveStep(measure: string, c: Config)
    ensures AppearInOrder([SelfVerificationChecklist, SaveStep, c.storeDocDir, SaveStepEnd, FileNamingRequirement],
                          NewDocPrompt(measure, c))
  {
    var parts := NewDocParts(measure, c);
    var r := Concat(parts);
    var v := parts[5];
    SelfVerificationSaveStep(c.storeDocDir);
    ConcatEndsWith(parts);
    InOrderWithin([SelfVerificationChecklist, SaveStep, c.storeDocDir, SaveStepEnd, FileNamingRequirement], v, r, |r| - |v|);
  }

  /** The prompt ends with the file-naming requirement. */
  lemma NewDocEndsWithFileNaming(measure: string, c: Config)
    ensures EndsWith(NewDocPrompt(measure, c), FileNamingRequirement)
  {
    var parts := NewDocParts(measure, c);
    var v := parts[5];
    ConcatEndsWith(parts);
    assert EndsWith(MandatorySelfVerification.after, FileNamingRequirement);
    EndsWithin(v, MandatorySelfVerification.after, FileNamingRequirement);
    EndsWithin(Concat(parts), v, FileNamingRequirement);
  }

  /** The error text can never be mistaken for a prompt: every prompt is
      longer than it. */
  lemma ErrorIsNotAPrompt(measure: string, c: Config)
    ensures |NotConfiguredError| < |NewDocPrompt(measure, c)|
  {
    SegmentAt(NewDocParts(measure, c), 4);
    assert |NotConfiguredError| < |BimParagraph|;
  }

  /** The process-wide session store. */
  class SessionStore {
    var configs: map<string, Config>

    constructor ()
      ensures configs == map[]
    {
      configs := map[];
    }

    /** `configure_session`: records the four directories for the session,
        replacing any earlier record for it; other sessions are untouched. */
    method Configure(sessionId: string, proceduresDir: string, viewsDir: string, olapDir: string, storeDocDir: string)
      returns (message: string)
      modifies this
      ensures configs == old(configs)[sessionId := Config(proceduresDir, viewsDir, olapDir, storeDocDir)]
      ensures configs == Replay(old(configs), [ConfigureCall(sessionId, Config(proceduresDir, viewsDir, olapDir, storeDocDir))])
      ensures message == ConfiguredMessage(sessionId)
    {
      configs := configs[sessionId := Config(proceduresDir, viewsDir, olapDir, storeDocDir)];
      assert [ConfigureCall(sessionId, Config(proceduresDir, viewsDir, olapDir, storeDocDir))][1..] == [];
      message := ConfiguredMessage(sessionId);
    }

    /** `ts_measure_new_doc`: the prompt for a configured session, the error
        text for any other; it changes nothing (there is no `modifies`). */
    method NewDoc(measure: string, sessionId: string) returns (prompt: string)
      ensures sessionId !in configs ==> prompt == NotConfiguredError
      ensures sessionId in configs ==> prompt == NewDocPrompt(measure, configs[sessionId])
      ensures prompt == NotConfiguredError <==> sessionId !in configs
    {
      if sessionId !in configs {
        return NotConfiguredError;
      }
      var config := configs[sessionId];
      var basePrompt := SingleMeasurePrompt(measure, config.olapDir, config.storedProceduresDir, config.viewsDir);
      prompt := NewDocOpening + measure + NewDocOpeningEnd + basePrompt + BimParagraph;
      prompt := prompt + Format(MandatorySelfVerification, config.storeDocDir);
      NewDocIsConcat(measure, config, prompt);
      ErrorIsNotAPrompt(measure, config);
    }
  }

  /** The string `NewDoc` accumulates is the concatenation of the prompt's segments. */
  lemma NewDocIsConcat(measure: string, c: Config, prompt: string)
    requires prompt == NewDocOpening + measure + NewDocOpeningEnd
                       + SingleMeasurePrompt(measure, c.olapDir, c.storedProceduresDir, c.viewsDir)
                       + BimParagraph + Format(MandatorySelfVerification, c.storeDocDir)
    ensures prompt == NewDocPrompt(measure, c)
  {
    var parts := NewDocParts(measure, c);
    ConcatSix(parts[0], parts[1], parts[2], parts[3], parts[4], parts[5]);
  }

  /** One `configure_session` call, as a step in the store's history. */
  datatype ConfigureCall = ConfigureCall(sessionId: string, config: Config)

  /** The store after the calls were made one after the other. */
  function Replay(configs: map<string, Config>, calls: seq<ConfigureCall>): map<string, Config>
    decreases calls
  {
    if calls == [] then configs
    else Replay(configs[calls[0].sessionId := calls[0].config], calls[1..])
  }

  /** The configuration passed by the last call for `sessionId`, if any. */
  function LastWrite(calls: seq<ConfigureCall>, sessionId: string): Option<Config>
  {
    if calls == [] then None
    else match LastWrite(calls[1..], sessionId)
      case Some(c) => Some(c)
      case None => if calls[0].sessionId == sessionId then Some(calls[0].config) else None
  }

  /** Last write wins: after any history of calls, a session holds what its
      last call stored, or what it held before if no call named it. */
  lemma {:induction false} ReplayLastWriteWins(configs: map<string, Config>, calls: seq<ConfigureCall>, sessionId: string)
    ensures LastWrite(calls, sessionId).Some? ==>
              sessionId in Replay(configs, calls)
              && Replay(configs, calls)[sessionId] == LastWrite(calls, sessionId).value
    ensures LastWrite(calls, sessionId).None? ==>
              (sessionId in Replay(configs, calls) <==> sessionId in configs)
              && (sessionId in configs ==> Replay(configs, calls)[sessionId] == configs[sessionId])
    decreases calls
  {
    if calls != [] {
      ReplayLastWriteWins(configs[calls[0].sessionId := calls[0].config], calls[1..], sessionId);
    }
  }

  /** Histories compose: one more call on top of a history is one more map
      update, so a run of `Configure` calls is the `Replay` of their calls. */
  lemma {:induction false} ReplayAppend(configs: map<string, Config>, calls: seq<ConfigureCall>, call: ConfigureCall)
    ensures Replay(configs, calls + [call]) == Replay(configs, calls)[call.sessionId := call.config]
    decreases calls
  {
    if calls == [] {
      assert calls + [call] == [call];
      assert [call][1..] == [];
    } else {
      assert (calls + [call])[1..] == calls[1..] + [call];
      ReplayAppend(configs[calls[0].sessionId := calls[0].config], calls[1..], call);
    }
  }
}
