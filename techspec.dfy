/** The stateless prompt tool of `server.py`: `tech_spec_by_measure`.

    The tool takes a measure name and two optional paths, substitutes a fixed
    default for each path that is absent or empty, and interpolates the
    measure and both effective paths into a fixed five-step instruction text.
 */
module TechSpec {
  import opened Text
  import opened Wrappers

  /** Stand-ins for the two environment-specific default paths. */
  const DefaultOlapDir: string := "<default OLAP directory>"
  const DefaultExampleTechSpec: string := "<default example technical specification file>"

  /** Python's `if not path: path = default` on an `Optional[str]`:
      both `None` and the empty string are falsy. */
  function EffectivePath(given: Option<string>, default: string): (r: string)
    ensures (given == None || given == Some("")) ==> r == default
    ensures given.Some? && given.value != "" ==> r == given.value
    ensures default != "" ==> r != ""
  {
    if given.None? || given.value == "" then default else given.value
  }

  // The literal pieces of the prompt, in the order they are emitted.
  const Opening: string := "Create a technical specification markdown file for measure: \""
  const InDirectory: string := "\" which is from a .bim file located in directory "
  const LikeExample: string := " and format it like the example in the file "
  const InstructionsHeading: string := ". \n\nInstructions:\n"
  const Step1: string := "1. Locate and analyze the specified measure \""
  const Step1End: string := "\" in the .bim file\n"
  const Step2: string := "2. Extract measure properties (name, expression, format, displayFolder, etc.)\n"
  const Step3: string := "3. Identify dependencies and related objects\n"
  const Step4: string := "4. Generate a comprehensive technical specification document following the format from the example template\n"
  const Step5: string := "5. Save the new markdown file in the same directory where the "
  const Step5End: string := " file is located\n\n"
  const Closing: string :=
    "The .bim file is a Power BI Desktop project file that contains the data model, measures, "
    + "and relationships. Parse this file and create human-readable documentation following "
    + "the technical specification format from the example."

  /** The segments of the prompt for already-effective paths. */
  function PromptParts(measure: string, olapDir: string, example: string): seq<string>
  {
    [ Opening, measure, InDirectory, olapDir, LikeExample, example, InstructionsHeading,
      Step1, measure, Step1End, Step2, Step3, Step4, Step5, example, Step5End, Closing ]
  }

  /** `tech_spec_by_measure(measure, olap_dir, example_tech_spec_dir)`. */
  function TechSpecByMeasure(measure: string, olapDir: Option<string>, exampleDir: Option<string>): string
  {
    Concat(PromptParts(measure, EffectivePath(olapDir, DefaultOlapDir),
                       EffectivePath(exampleDir, DefaultExampleTechSpec)))
  }

  /** Leaving the OLAP directory out, passing it empty, and passing the
      default itself produce the same prompt, whatever the example path. */
  lemma DefaultOlapDirSubstituted(measure: string, olapDir: Option<string>, exampleDir: Option<string>)
    requires olapDir == None || olapDir == Some("")
    ensures TechSpecByMeasure(measure, olapDir, exampleDir)
         == TechSpecByMeasure(measure, Some(DefaultOlapDir), exampleDir)
  {
  }

  /** Leaving the example path out, passing it empty, and passing the
      default itself produce the same prompt, whatever the OLAP directory. */
  lemma DefaultExampleSubstituted(measure: string, olapDir: Option<string>, exampleDir: Option<string>)
    requires exampleDir == None || exampleDir == Some("")
    ensures TechSpecByMeasure(measure, olapDir, exampleDir)
         == TechSpecByMeasure(measure, olapDir, Some(DefaultExampleTechSpec))
  {
  }

  /** The prompt opens with the fixed opening, immediately followed by the
      measure name and the words that introduce the OLAP directory. */
  lemma PromptOpening(measure: string, olapDir: Option<string>, exampleDir: Option<string>)
    ensures var r := TechSpecByMeasure(measure, olapDir, exampleDir);
            && StartsWith(r, Opening)
            && Occurs(measure, r, |Opening|)
            && Occurs(InDirectory, r, |Opening| + |measure|)
  {
    var parts := PromptParts(measure, EffectivePath(olapDir, DefaultOlapDir),
                             EffectivePath(exampleDir, DefaultExampleTechSpec));
    assert parts[..0] == [];
    ConcatLength(parts, 0);
    ConcatLength(parts, 1);
    SegmentAt(parts, 0);
    SegmentAt(parts, 1);
    SegmentAt(parts, 2);
  }

  /** The first sentence names the measure, the effective OLAP directory and
      the effective example path, in that order. */
  lemma FirstSentence(measure: string, olapDir: Option<string>, exampleDir: Option<string>)
    ensures var o := EffectivePath(olapDir, DefaultOlapDir);
            var e := EffectivePath(exampleDir, DefaultExampleTechSpec);
            AppearInOrder([Opening, measure, InDirectory, o, LikeExample, e, InstructionsHeading],
                          TechSpecByMeasure(measure, olapDir, exampleDir))
  {
    var o := EffectivePath(olapDir, DefaultOlapDir);
    var e := EffectivePath(exampleDir, DefaultExampleTechSpec);
    Picked(PromptParts(measure, o, e), [0, 1, 2, 3, 4, 5, 6],
           [Opening, measure, InDirectory, o, LikeExample, e, InstructionsHeading]);
  }

  /** The five numbered instructions come in order 1 to 5, step 1 names the
      measure, step 5 names the effective example path, and the closing
      paragraph ends the prompt. */
  lemma InstructionsInOrder(measure: string, olapDir: Option<string>, exampleDir: Option<string>)
    ensures var r := TechSpecByMeasure(measure, olapDir, exampleDir);
            var e := EffectivePath(exampleDir, DefaultExampleTechSpec);
            && AppearInOrder([InstructionsHeading, Step1, measure, Step1End, Step2, Step3, Step4,
                              Step5, e, Step5End, Closing], r)
            && EndsWith(r, Closing)
  {
    var o := EffectivePath(olapDir, DefaultOlapDir);
    var e := EffectivePath(exampleDir, DefaultExampleTechSpec);
    var parts := PromptParts(measure, o, e);
    Picked(parts, [6, 7, 8, 9, 10, 11, 12, 13, 14, 15, 16],
           [InstructionsHeading, Step1, measure, Step1End, Step2, Step3, Step4, Step5, e, Step5End, Closing]);
    ConcatEndsWith(parts);
  }
}
