# mcp-tech-spec: session store and prompt builders

This project models the prompt-synthesis core of an MCP server. The server
writes instruction texts ("prompts") that tell a language-model agent how to
document one measure of a Power BI model. The agent works from the model's
`.bim` file and the SQL views and stored procedures behind it.

Two servers are modelled:

- `server_for_agent.py` (module `Session`, file `session.dfy`). A process-wide
  store maps a session id to four directories. `configure_session` writes an
  entry; it always succeeds and the last write for a session wins.
  `ts_measure_new_doc` looks the session up. If the session is missing, it
  returns a fixed error text. Otherwise it assembles a prompt from four
  parts: a preamble naming the measure, the single-measure instruction
  block (`_generate_single_measure_prompt`), a closing paragraph, and the
  self-verification checklist with the output directory filled in.
  The store is the class `Session.SessionStore` with a `map` field.
  `Configure` models `configure_session` and `NewDoc` models
  `ts_measure_new_doc`. `Session.SingleMeasurePrompt` models
  `_generate_single_measure_prompt`. `Session.NewDocPrompt` is the prompt
  `ts_measure_new_doc` returns for a configured session. `Session.Format`
  models the `.format` call on `MANDATORY_SELF_VERIFICATION`.
- `server.py` (module `TechSpec`, file `techspec.dfy`). `tech_spec_by_measure`
  replaces an absent or empty path with a fixed default. It then fills the
  measure and both paths into a five-step instruction text. This is a pure
  function, `TechSpec.TechSpecByMeasure`; `TechSpec.EffectivePath` is the
  default substitution.

Both prompts are f-strings. Each is modelled as the concatenation of an
ordered list of segments: literal pieces of the template (named constants)
and the interpolated values. Module `Text` (file `text.dfy`) proves where
each segment lands in the concatenation. With that, the order and
containment claims about the prompts become lemmas over segment positions.
Those claims are: the STEP 1 heading precedes the OLAP directory, which
precedes the STEP 2 heading, and so on. `AppearInOrder(subs, s)` means the
strings `subs` occur in `s` one after another without overlapping.
`Wrappers` holds an `Option` type.

`NewDoc` has no `modifies` clause, so the verifier guarantees it leaves the
store unchanged. Every builder is a function, so the same arguments always
give the same string.

`configure_session` requires all five arguments, and `ts_measure_new_doc`
takes no path overrides; `Configure` and `NewDoc` have the same parameters.

## Model

| member | source | states |
|---|---|---|
| `Session.SessionStore.constructor` | server_for_agent.py:8 | the store starts empty |
| `Session.SessionStore.Configure` | server_for_agent.py:136-142 | the entry for the session becomes exactly the four given directories; every other entry is unchanged; this is one step of `Replay`; the reply is the confirmation message for that id |
| `Session.ConfiguredMessage` | server_for_agent.py:142 | the confirmation is `Session ` + id + ` configured successfully.`; the id can be read back from between the prefix and the suffix |
| `Session.ConfiguredMessageInjective` | server_for_agent.py:142 | two different sessions never get the same confirmation |
| `Session.ReplayLastWriteWins` | server_for_agent.py:136-141 | after any sequence of configure calls, a session holds the record from its last call; a session that no call named keeps its earlier entry, or stays absent |
| `Session.ReplayAppend` | server_for_agent.py:136-141 | one more configure call on top of a history is one more map update, so a run of `Configure` calls ends in the `Replay` of their calls |
| `Session.SessionStore.NewDoc` | server_for_agent.py:193-209 | an unconfigured session gets exactly the fixed error text; a configured one gets the prompt built from the measure and that session's record; the reply is the error text if and only if the session is unconfigured |
| `Session.NewDocIsConcat` | server_for_agent.py:203-207 | the f-string plus the `+=` of the checklist equals the segment concatenation `NewDocPrompt` |
| `Session.ErrorIsNotAPrompt` | server_for_agent.py:193-205 | every prompt is longer than the error text, so the two never coincide |
| `Session.Format` | server_for_agent.py:207 | filling the one placeholder: the text before it, then the value at the placeholder's position, then the text after it, and nothing else |
| `Session.TemplateBeforeInstructions` | server_for_agent.py:146-154 | the helper block starts with the target-structure header; the sample and the template's end come before "Instructions for measure '<measure>'", which comes before STEP 1 |
| `Session.StepsInOrder` | server_for_agent.py:154-172 | STEP 1, STEP 2, STEP 3 and the critical requirements appear in that order, and the critical requirements end the block |
| `Session.PathsInSteps` | server_for_agent.py:154-163 | STEP 1 names the measure and then the OLAP directory; the first STEP 2 line names the views directory and the second names the stored-procedures directory; all of this comes before STEP 3 |
| `Session.NewDocOpensWithMeasure` | server_for_agent.py:203 | the prompt starts with its opening words, and the measure name follows them directly |
| `Session.NewDocSegmentsInOrder` | server_for_agent.py:201-207 | the order is: preamble with the measure, helper block built from the session's paths, closing paragraph, filled-in checklist |
| `Session.SelfVerificationSaveStep` | server_for_agent.py:11-23 | the filled checklist puts the output directory in step 4 ("save the file to '…' directory"), before the file-naming step |
| `Session.NewDocSaveStep` | server_for_agent.py:207 | the same order of checklist, save step, output directory and file-naming step holds inside the whole prompt |
| `Session.NewDocEndsWithFileNaming` | server_for_agent.py:19-23 | the prompt ends with the file-naming requirement |
| `TechSpec.EffectivePath` | server.py:49-53 | an absent or empty path yields the default; any other path is used unchanged; a non-empty default gives a non-empty result |
| `TechSpec.DefaultOlapDirSubstituted` | server.py:49-50 | omitting the OLAP directory, passing it empty, and passing the default give the same prompt, whatever the example path |
| `TechSpec.DefaultExampleSubstituted` | server.py:52-53 | omitting the example path, passing it empty, and passing the default give the same prompt, whatever the OLAP directory |
| `TechSpec.PromptOpening` | server.py:56 | the prompt starts with `Create a technical specification markdown file for measure: "`; the measure follows directly, then the words that introduce the directory |
| `TechSpec.FirstSentence` | server.py:56 | the first sentence names the measure, then the effective OLAP directory, then the effective example path, before the instructions |
| `TechSpec.InstructionsInOrder` | server.py:58-65 | instructions 1 to 5 appear in order; step 1 names the measure; step 5 names the effective example path; the closing paragraph ends the prompt |

## Left out

- The FastMCP server objects, the tool and prompt decorators, and `mcp.run` over HTTP: these are transport and process lifecycle.
- `lets_configure_session` returns a constant string and has no logic.
- The body of `SAMPLE_TECHNICAL_SPECIFICATION` (server_for_agent.py:25-114) is a worked sample in Russian. `SampleTechnicalSpecification` is a short stand-in. No proved property depends on its text.
- The two default paths in `server.py` are machine-specific and are replaced by the stand-in constants `DefaultOlapDir` and `DefaultExampleTechSpec`.
- Concurrent, unsynchronised access to the global `session_configs` dictionary: the model covers sequential calls only.
- Session.Format: only models `str.format` on a template whose one replacement field is `{store_doc_dir}`, split at that field. Brace escapes, other fields and format specifications are not modelled; `MANDATORY_SELF_VERIFICATION` uses none of them.
- The unused `os` and `json` imports of `server.py`.
