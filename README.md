# Workflow orchestration core, modelled in Dafny

This project models the orchestration logic of a prompt-driven workflow
service. A user's prompt is matched to a task manifest. Any required fields
still missing are gathered through a form. The processor chain registered
for that manifest is then invoked, and its single UI event is delivered. Around
that pipeline the model covers:

- the three step executors: two graph executors over a `json_graph` spec and a linear chain executor;
- how processor chains are built from their JSON definitions and loaded into the registry;
- the pydantic schemas with their legacy aliases and defaults;
- intent fallback, `module:function` helper dispatch and the extractor registry;
- the text logic: merge-field replacement in Word runs, placeholder extraction, `{NAME}` prompt substitution, trigger-phrase heuristics, form validators and the wizard's field specs.

Python values are a JSON-like `Values.Value` with Python truthiness. An
exception is an `Err` of a `Py.Result`, carrying the exception class and
message the code raises. Objects whose state the code changes in place are
Dafny classes:

- the caller's state dict in `JsonExecutor.PyDict`;
- the extractor `Extractors.Registry` and the processor `Processors.Registry`;
- `AddableDict.AddableValuesDict`;
- the docx `Renderer`s.

Word documents are sequences of paragraphs of run strings, updated in place
by methods. Everything the code imports (step classes, helper modules,
LangChain classes) is an explicit namespace map instead of `importlib`. A
step class declares its `run` arity instead of `inspect.signature`. Database
responses, uploads, signed URLs, generated ids and the LLM's answer are
parameters.

Each executor's `while`/`for` loop is proved against a specification function:
- `GraphWalk.Walk` for both graph executors;
- `LinearExecutor.StateAfter` for the linear executor;
- `Processors.Built`/`Compose` and `Processors.LoadFrom` for chain building and registry loading;
- `MergeFields.MergeStep` for the docx renderers.

The properties are then proved about those functions: termination, the cycle
check, the trace, stored outputs, order, and what is left untouched.

## Model

| member | source | states |
|---|---|---|
| Values.PyStr | backend/llm.py:15 | `str(v)`: a string is itself, `None`/`True`/`False` are their names, an int is a decimal numeral with a minus sign exactly when negative, an integral float below 10^16 is a numeral followed by `.0` |
| Values.PyStrDigits | backend/llm.py:15 | the numeral `str` gives an int reads back, digit by digit, as the int's magnitude, with `-` in front exactly when it is negative and no leading zero; an integral float below 10^16 gives the numeral of its value, likewise without a leading zero, followed by `.0` |
| Py.IntToString | backend/llm.py:15 | `str(i)` of an int is a numeral that starts with `-` exactly when `i` is negative, and whose digits, read left to right, are `abs(i)`, with no leading zero: the canonical numeral |
| Py.NatRoundTrip | backend/llm.py:15 | reading back the decimal digits written for a natural number gives that number |
| Values.Merged | backend/addable_values_dict_patch.py:13-14 | `dict(a)` updated with `b`: every key of either side, and on a clash the right side's value |
| AddableDict.AddableValuesDict.constructor | backend/addable_values_dict_patch.py:15 | the wrapper holds exactly the given items |
| AddableDict.AddableValuesDict.Add | backend/addable_values_dict_patch.py:12-15 | `x + y` is a fresh dict whose items are `x`'s updated by `y`'s; neither operand changes |
| AddableDict.AddableValuesDict.GetAttr | backend/addable_values_dict_patch.py:18-22 | a name of the class's own attributes (`items`, `keys`, `get`, special names, …) reads that attribute, whatever the items; any other name reads its item when the key is present and is `AttributeError(name)` otherwise |
| AddableDict.AddableValuesDict.SetAttr | backend/addable_values_dict_patch.py:25-26 | attribute write stores the item under that key and changes no other key |
| AddableDict.MergeIdentity | backend/addable_values_dict_patch.py:12-15 | `x + {} == x` and `{} + x == x` |
| AddableDict.MergeAssociative | backend/addable_values_dict_patch.py:12-15 | `(x + y) + z == x + (y + z)`, so partial updates can be applied one at a time |
| AddableDict.MergeIdempotent | backend/addable_values_dict_patch.py:12-15 | applying the same update twice equals applying it once |
| GatherPatch.Need | backend/graph_gather_patch.py:9 | the needed names are a subsequence of the required list, containing exactly the names that `in answers` reports absent; a required item whose `in` test raises makes the whole comprehension raise |
| GatherPatch.Specs | backend/graph_gather_patch.py:15-22 | one `{name, widget, label}` spec per needed name, in order; a non-string name raises `AttributeError` (no `replace`) |
| GatherPatch.GatherNode | backend/graph_gather_patch.py:4-27 | every key of the state other than `ui_event` is kept and no key besides `ui_event` is added; a changed state carries `ui_event`; a state without `manifest` raises `AttributeError` |
| GatherPatch.FormListsNeededNames | backend/graph_gather_patch.py:9-27 | with string names and dict answers: a name is needed exactly when it is not an answer key; nothing needed gives the state back unchanged, otherwise `ui_event` is the form of the specs of the needed names |
| GatherPatch.NoAnswersAllNeeded | backend/graph_gather_patch.py:9 | without `answers`, every required name is needed, in manifest order |
| UiGather.Missing | backend/tools/ui_gather.py:22 | the missing fields are a subsequence of the required list, containing exactly the fields whose `name` is not `in given`; a field whose check raises (no `name`, unhashable) makes the comprehension raise |
| UiGather.NamedMissing | backend/tools/ui_gather.py:22 | for a field with a string `name` and dict inputs, the membership test is exactly "name is an input key" |
| UiGather.Given | backend/tools/ui_gather.py:20 | `user_inputs` when present and truthy, otherwise `{}` |
| UiGather.GatherFields | backend/tools/ui_gather.py:15-34 | the result has exactly one key: `event` holding a non-empty form of missing fields only, or `user_inputs` holding the given inputs |
| UiGather.FormIffSomeNameMissing | backend/tools/ui_gather.py:18-34 | with named fields and dict inputs, a form appears exactly when some required name is not an input key, and it lists exactly the missing fields in manifest order; otherwise the result is `{"user_inputs": given}` |
| UiGather.GatherUnfold | backend/tools/ui_gather.py:18-34 | under those requirements the missing list is computed without raising and the result branches on whether it is empty |
| UiGather.AllSupplied | backend/tools/ui_gather.py:22 | when every name is an input key, nothing is missing |
| UiGather.PresenceOnly | backend/tools/ui_gather.py:22 | a field supplied with a falsy value (`""`, `None`) is not missing |
| UiGather.NoInputsAllMissing | backend/tools/ui_gather.py:20-22 | absent, `None` or empty `user_inputs` makes every named field missing |
| UiGather.NoRequiredFieldsNoForm | backend/tools/ui_gather.py:19-34 | absent or empty `required_fields` never yields a form: the inputs are handed on |
| Graph.Apply | backend/graph.py:20-24 | a node's partial update replaces exactly the state fields it names and keeps the others; an update without `prompt` keeps the prompt |
| Graph.IntentNode | backend/graph.py:28-30 | `intent_node` updates only `manifest` (with `detect_intent(prompt)`) |
| Graph.LookupChain | backend/graph.py:42 | `PROC_REG[chain_id]` succeeds exactly for a registered string id and gives that chain; an unregistered id is `KeyError(id)` |
| Graph.ProcessNode | backend/graph.py:33-48 | with an event already set the update is empty; otherwise a successful update sets only `event` |
| Graph.ProcessInvokesChain | backend/graph.py:41-48 | without an event, the update is the registered chain's output on `{inputs, metadata, prompt}` as `event`; its exception propagates; an unregistered id raises `KeyError` |
| Graph.InvalidInputsRejected | backend/graph.py:84 | inputs that are neither `None` nor a dict make `run_workflow` raise pydantic's `ValidationError` for `user_inputs`, before any stage runs |
| Graph.PromptPreserved | backend/graph.py:28-53 | no stage changes `prompt` |
| Graph.FormIsFinal | backend/graph.py:38-86 | when Gather produces a form, the result does not depend on the registry: no chain is invoked; with `None` or dict inputs it is that form |
| Graph.CompleteInputsInvokeChain | backend/graph.py:41-86 | when Gather hands the inputs on and the inputs are `None` or a dict, `run_workflow` returns the manifest's chain output on the given inputs, the manifest's metadata and the prompt; an unregistered chain id raises `KeyError` |
| Graph.UnmatchedPromptEchoes | backend/graph.py:28-86 | with `None` or dict inputs, a prompt the database does not match runs `debug_echo_chain` on the caller's inputs (or `{}`), empty metadata and the prompt |
| Graph.FallbackIntent | backend/graph.py:28-30 | an unmatched prompt sets `manifest` to the fallback manifest |
| Graph.FallbackGather | backend/graph.py:59-60 | with the fallback manifest, Gather hands on the caller's inputs or `{}` |
| Intent.First | i2i_src/backend/intent.py:27-32 | `rows[0]` of a non-empty list is its first element |
| Intent.FirstOrNone | i2i_src/backend/intent.py:27-32 | falsy rows give `None`; a non-empty list gives its first row |
| Intent.FirstRow | i2i_src/backend/intent.py:22-34 | a response with `.data` gives its first row or `None`; a tuple whose first element is a tuple of at least two gives the first row of `res[0][1]` or `None`, and a shorter one raises `IndexError`; any other shape gives `None` |
| Intent.DetectIntent | i2i_src/backend/intent.py:37-40 | raises exactly when `_first_row` does; a truthy row is returned as is, anything falsy becomes the fallback manifest |
| Intent.IntentNeverFalsy | i2i_src/backend/intent.py:14-40 | `detect_intent` never returns `None` or an empty manifest |
| Intent.FallbackShape | i2i_src/backend/intent.py:14-20 | the fallback has no required fields, empty metadata and routes to `debug_echo_chain` |
| Intent.ShapesAgree | i2i_src/backend/intent.py:25-32 | a 2.x response and a 1.x `(('data', rows), ('count', c))` tuple with the same rows give the same manifest |
| FunctionRunner.Lookup | i2i_src/backend/tools/function_runner.py:48-54 | the attribute is found exactly when the module is importable and defines it; a missing attribute is the `ImportError` naming function and module |
| FunctionRunner.CheckResult | i2i_src/backend/tools/function_runner.py:60-65 | a result passes exactly when it is a dict holding `"ui_event"`, and is then returned as is; otherwise `ValueError` |
| FunctionRunner.Run | i2i_src/backend/tools/function_runner.py:41-65 | a path without `:` raises the `ValueError` quoting it; every successful result holds `"ui_event"` |
| FunctionRunner.RunAt | i2i_src/backend/tools/function_runner.py:41-65 | `module:rest` is split at the first colon; a lookup failure propagates, a non-callable target raises `TypeError`, a callable is called with the kwargs unchanged, its exception propagates and its result is checked |
| FunctionRunner.RunReturnsHelperResult | i2i_src/backend/tools/function_runner.py:59-65 | a successful run returns exactly the dict the helper returned for the unchanged kwargs |
| FunctionRunner.FirstColonSplit | i2i_src/backend/tools/function_runner.py:42 | for `"pkg:b:c"` the function name looked up is `"b:c"` |
| Extractors.Suffix | backend/extractors/__init__.py:75 | `PurePath.suffix`: empty, or a dot-led ending of the name shorter than the name with no further dot |
| Extractors.Initial | backend/extractors/__init__.py:19-67 | after import the registry holds `.txt` always, `.docx` exactly when python-docx imports and `.pdf` exactly when pdfminer imports, and nothing else |
| Extractors.Registry.constructor | backend/extractors/__init__.py:19-67 | the imported registry is that table |
| Extractors.Registry.Register | backend/extractors/__init__.py:25-30 | stores `fn` under `ext.lower()`, replacing any earlier entry, and returns `fn` itself |
| Extractors.SuffixOf | backend/extractors/__init__.py:75 | `stem.ext` with a non-empty stem and a dotless extension has suffix `.ext` |
| Extractors.NoSuffix | backend/extractors/__init__.py:75 | a name with no dot after its first character has no suffix |
| Extractors.RegisterDispatch | backend/extractors/__init__.py:25-78 | after `register(ext)(fn)` every path whose lower-cased suffix is `ext.lower()` is read by `fn`, every other path as before |
| Extractors.LowerIdempotent | backend/extractors/__init__.py:28 | lower-casing twice is lower-casing once, so `.TXT` and `.txt` register the same key |
| Extractors.TxtAlwaysSupported | backend/extractors/__init__.py:36-78 | a `.txt` path, in any letter case, is read by the text extractor whatever else imported |
| Extractors.NoSuffixRejected | backend/extractors/__init__.py:76-77 | a path without a suffix raises `ValueError("Unsupported file type: ")` |
| Fields.NonEmpty | utils/fields.py:33-36 | passes exactly for a value other than `""` and `None`; a failure carries `"Required"` |
| Fields.PositiveInt | utils/fields.py:38-41 | passes exactly for an int or float above 0 (and `True`, a Python `int`); a failure carries `"Must be > 0"` |
| Fields.RenderFields | utils/fields.py:52-88 | the loop over the fields computes the specification `RenderFrom` from an empty `data` and `all_valid = True` |
| Fields.CheckValidators | utils/fields.py:81-86 | the validator loop with its `break` computes `Passes` |
| Fields.PassesIff | utils/fields.py:81-86 | a field's validators pass exactly when every name is in `VALIDATORS` and every validator accepts the value |
| Fields.StopsAtFirstFailure | utils/fields.py:83-86 | once a validator fails the field is invalid, whatever follows it (even an unknown name) |
| Fields.UnknownValidatorRaises | utils/fields.py:82 | an unknown validator name reached before any failure raises `KeyError` with that name |
| Fields.DefaultIsNonEmpty | utils/fields.py:66-81 | a field without `validators` is valid exactly when its value is neither `""` nor `None` |
| Fields.UnsupportedWidgetInvalid | utils/fields.py:74-81 | an unsupported widget stores `None` under the field's name and, with the default check, is invalid |
| Fields.RenderOkIff | utils/fields.py:63-86 | the loop finishes exactly when every field has a `name` and only known validators up to its first failure |
| Fields.RenderError | utils/fields.py:63-86 | a raising loop raises the error of the first field that fails |
| Fields.RenderValid | utils/fields.py:61-88 | `all_valid` is true exactly when every field passes all its validators |
| Fields.RenderKeys | utils/fields.py:60-78 | `data` has exactly one key per field name |
| Fields.RenderKeeps | utils/fields.py:78 | a key no later field names keeps its value |
| Fields.RenderLastWins | utils/fields.py:64-78 | the last field with a name decides the value stored under it: its widget's value, or `None` for an unsupported widget |
| Fields.ValidatorExamples | utils/fields.py:33-41 | `0` and `False` are non-empty, `""` and `None` are not; `True` is a positive int, `0` and `"5"` are not |
| Wizard.FieldSpecs | backend/wizard.py:81 | one field spec per placeholder name, in order |
| Wizard.FieldSpecShape | backend/wizard.py:57-62 | `_field_spec(name)` has exactly the keys `name`, `label`, `widget`; the name is kept, the widget is `text_input`, and the label has the name's length, a space for each underscore, every other character kept up to case, and a letter upper-cased exactly when it starts the name or follows a non-letter |
| Wizard.BlankGoalRejected | backend/wizard.py:68-88 | the draft is refused with "Goal is required." exactly when the goal is empty or all whitespace; a stored draft holds the stripped, non-empty goal |
| Wizard.NoTemplateNoFields | backend/wizard.py:76-91 | without a template file the draft has no template id, no required fields, step 1, the given draft id and tenant |
| Wizard.TemplateFields | backend/wizard.py:79-90 | with a template the draft records its id and one field spec per placeholder, in the order found |
| Wizard.ChainJsonEntry | backend/wizard.py:152-165 | the published chain is a `json_graph` whose `entry` names a node of `nodes` whose `id` is that name and whose `init_kwargs` hold the draft's template id |
| Py.LabelShape | backend/wizard.py:60 | `name.replace("_", " ").title()` keeps the length, turns underscores into spaces and keeps every other character up to case |
| Py.LabelCase | backend/wizard.py:60 | in that label a letter is upper-case exactly when it starts the name or follows a non-letter |
| AutoKeywords.SuggestPhrases | backend/auto_keywords.py:5-41 | the returned list has no duplicates and holds exactly the phrase set `Phrases` (so the final slice drops nothing) |
| AutoKeywords.ListSet | backend/auto_keywords.py:41 | `list(phrases)` lists every element of the set exactly once |
| AutoKeywords.WordsFromFacts | backend/auto_keywords.py:12-14 | `re.findall(r"\w+")` returns only words, and none exactly when the text has no word character |
| AutoKeywords.TwoWords | backend/auto_keywords.py:12 | the words of `a + " " + b` are `[a, b]` |
| AutoKeywords.NoWordsNoPhrases | backend/auto_keywords.py:11-14 | a title gives no phrase exactly when its lower-cased, stripped form has no word character |
| AutoKeywords.HeuristicPhrases | backend/auto_keywords.py:16-22 | the lower-cased stripped title is always a phrase; a one-word title adds `create w` and `generate w`; a longer one adds the last two words joined and the first and last joined |
| AutoKeywords.PhrasesSources | backend/auto_keywords.py:16-37 | every phrase comes from the heuristics or from the fallback's answer |
| AutoKeywords.FallbackOnlyWhenShort | backend/auto_keywords.py:16-25 | the heuristics give at most three phrases, and the fallback's answer matters only when they give fewer than `min_count` |
| AutoKeywords.TwoWordTitle | backend/auto_keywords.py:9-22 | a two-word title gives only itself lower-cased: both joined phrases repeat it |
| Templates.StripPlain | backend/templates.py:9-11 | `_strip_xml` leaves text without `<` unchanged |
| Templates.StripXmlSubsequence | backend/templates.py:9-11 | the output of `_strip_xml` is a subsequence of its input |
| Templates.StripTag | backend/templates.py:11 | a tag `<...>` with at least one character inside is removed whole |
| Templates.StripKeepsText | backend/templates.py:11 | text before the first `<` is kept as it is |
| Templates.ElementText | backend/templates.py:10-11 | one `<w:t>` element gives exactly its text |
| Templates.RunsJoin | backend/templates.py:10-11 | the texts of two adjacent `<w:t>` elements are joined, so a token Word split across them reappears whole |
| Templates.KindOf | backend/templates.py:6 | the character classes the pattern tells apart: `{`, `}`, `\s`, `[a-zA-Z0-9_]` |
| Templates.Advance | backend/templates.py:6 | one pattern step keeps the recorded positions ordered below the next index |
| Templates.AdvanceOk | backend/templates.py:6 | a step of the pattern keeps the record of what was read true |
| Templates.ScanBounds | backend/templates.py:6 | a completed match lies within the text and no earlier than its phase allows |
| Templates.MatchAt | backend/templates.py:6 | `_PLACEHOLDER_RE.match(s, i)`: a match's name lies strictly inside it and scanning resumes past it |
| Templates.ScanSound | backend/templates.py:6 | a completed scan read `{{`, whitespace, a non-empty word-character name, whitespace and `}}` |
| Templates.MatchSound | backend/templates.py:6 | a match at `i` is exactly `{{`, whitespace, a name of word characters, whitespace, `}}` |
| Templates.FoundWords | backend/templates.py:6 | every name `findall` returns is a non-empty run of `[a-zA-Z0-9_]` |
| Templates.ScanShift | backend/templates.py:6 | text in front does not change what a scan of the rest completes, only its positions |
| Templates.FindShift | backend/templates.py:6 | text in front does not change the names found from a position of the rest |
| Templates.PlainSkip | backend/templates.py:6 | no match starts at a character other than `{` |
| Templates.PlainNone | backend/templates.py:6 | text without `{` holds no placeholder |
| Templates.PlainBefore | backend/templates.py:6 | text without `{` in front adds no names |
| Templates.LeadSkip | backend/templates.py:6 | whitespace after `{{` is skipped |
| Templates.NameSkip | backend/templates.py:6 | word characters extend the name |
| Templates.TrailSkip | backend/templates.py:6 | whitespace after the name is skipped |
| Templates.TokenMatch | backend/templates.py:6 | every `{{ name }}` with whitespace around a word-character name is matched, with the name as its group, whatever follows |
| Templates.TokenFound | backend/templates.py:6 | a placeholder in front contributes its name first, then the names of the rest |
| Templates.LessIrreflexive | backend/templates.py:33 | Python string order is irreflexive |
| Templates.LessTransitive | backend/templates.py:33 | Python string order is transitive |
| Templates.LessTotal | backend/templates.py:33 | Python string order is total on distinct strings |
| Templates.Insert | backend/templates.py:33 | inserting a new name into an ascending list gives an ascending list of the old names plus it |
| Templates.SortedUnique | backend/templates.py:33 | two ascending lists with the same elements are equal, so `sorted(names)` is determined by the set |
| Templates.SortedNames | backend/templates.py:33 | `sorted(names)` is strictly ascending and holds exactly the set's names |
| Templates.ExtractPlaceholders | backend/templates.py:14-33 | the result is strictly ascending (so without duplicates) and holds exactly the names found: in the stripped `.xml` members for `.docx`/`.pptx`, in the text itself for every other extension |
| Templates.NamesAreWords | backend/templates.py:6-31 | every name returned matches `[a-zA-Z0-9_]+`; the whitespace inside the braces is not part of it |
| Templates.XmlNamesAreWords | backend/templates.py:24-28 | the same for the names of the archive members |
| Templates.SampleFindAll | tests/test_placeholders.py:4-6 | with `{`-free text between them, the sample's names are found as `client`, `amount`, `client` |
| Templates.SampleNames | tests/test_placeholders.py:4-6 | and `extract_placeholders` of that sample as `.txt` is `["amount", "client"]` |
| Llm.BraceFrom | backend/llm.py:17 | the next brace at or after `i`: no brace before it, and a brace at it unless it is the end |
| Llm.SafeVars | backend/llm.py:15 | `safe_vars` has the same keys as `variables`, each value converted with `str` |
| Llm.Missing | backend/llm.py:18-21 | the `except KeyError` clause: no `KeyError` escapes `_substitute` |
| Llm.Substitute | backend/llm.py:7-21 | `None` or empty `variables` returns the template unchanged, braces and all; no `KeyError` escapes |
| Llm.LexEscapeChar | backend/llm.py:17 | `{{` reads as `{`, `}}` as `}`, any other character as itself |
| Llm.LexEscape | backend/llm.py:17 | text with every brace doubled reads back as its own characters |
| Llm.LexHole | backend/llm.py:17 | `{NAME}` with a brace-free name reads as one field |
| Llm.LexSource | backend/llm.py:17 | a template written from text and `{NAME}` holes reads as those literals and fields, all in the modelled grammar |
| Llm.RenderLits | backend/llm.py:17 | literal characters are written out as they are |
| Llm.RenderToks | backend/llm.py:15-21 | rendering with the `except` clause is filling each hole with `str` of its variable, or the `ValueError` of the first hole without one |
| Llm.RenderHole | backend/llm.py:15-21 | a hole is `str(variables[NAME])` followed by the rest, or the `ValueError` naming it when it has no variable |
| Llm.SubstituteParts | backend/llm.py:12-21 | with non-empty variables, substituting a template built from text and holes is filling the holes |
| Llm.FilledOkIff | backend/llm.py:15-21 | substitution succeeds exactly when every placeholder has a variable |
| Llm.FilledNamesFirstMissing | backend/llm.py:18-21 | a failure is the `ValueError` naming the first placeholder without a variable |
| Llm.UnusedIgnored | backend/llm.py:15-17 | a variable no placeholder names changes nothing |
| Llm.EscapeRoundTrip | backend/llm.py:17 | a template with every brace doubled substitutes back to the original text |
| Llm.LoneClose | backend/llm.py:17 | a lone `}` raises "Single '}' encountered in format string" |
| Llm.LoneOpen | backend/llm.py:17 | a `{` at the end raises "Single '{' encountered in format string" |
| Llm.UnclosedField | backend/llm.py:17 | an unclosed field raises "expected '}' before end of string" |
| Llm.EmptyField | backend/llm.py:17 | `{}` asks for a positional argument, which `_substitute` never passes, and raises `IndexError` |
| Llm.OneHole | backend/llm.py:15-17 | a template that is one `{NAME}` gives `str` of its variable |
| MergeFields.Token | i2i_src/backend/tools/docx_render.py:66 | `f"{{{{{k}}}}}"` is `{{k}}`: `k` with two braces on each side |
| MergeFields.MergeStep | i2i_src/backend/tools/docx_render.py:65-66 | one loop step over the mapping is one `replace` of the next key's token |
| MergeFields.NoBraceUnchanged | backend/tools/docx_render.py:53-54 | a text with no `{{` holds no token, and no mapping changes it |
| MergeFields.EmptyUnchanged | i2i_src/backend/tools/docx_render.py:63-69 | the empty text stays empty under any mapping |
| MergeFields.SequentialRewrite | i2i_src/backend/tools/docx_render.py:65-66 | replacements are sequential: with `a -> "{{b}}"` then `b -> "x"`, `{{a}}` becomes `x` |
| MergeFields.Concat | i2i_src/backend/tools/docx_render.py:63 | no runs join to `""` |
| MergeFields.Blanks | i2i_src/backend/tools/docx_render.py:72-73 | `n` runs, all `""` |
| MergeFields.ConcatBlanks | i2i_src/backend/tools/docx_render.py:71-73 | a first run followed by empty runs joins to the first run's text |
| MergeFields.HeaderFooterParas | i2i_src/backend/tools/docx_render.py:90-91 | every header and every footer paragraph of every section is listed |
| MergeFields.TableParas | i2i_src/backend/tools/docx_render.py:97-100 | every paragraph of every cell of every row of every table is listed |
| DocxRenderI2i.ReplacedRunsFacts | i2i_src/backend/tools/docx_render.py:58-73 | the run count never changes; the runs join to the original join with each `{{k}}` replaced in mapping order; when that changes nothing the runs are untouched, otherwise `runs[0]` holds all the text and every other run is `""`; no runs stay no runs |
| DocxRenderI2i.SplitTokenReplaced | i2i_src/backend/tools/docx_render.py:58-73 | `{{na` + `me}}` with `name -> "Bo"` becomes `"Bo"`, `""` |
| DocxRenderI2i.ReplaceInRuns | i2i_src/backend/tools/docx_render.py:58-73 | the paragraph's runs become `ReplacedRuns` of their old texts |
| DocxRenderI2i.ParagraphsCover | i2i_src/backend/tools/docx_render.py:89-101 | the traversal visits every body, header, footer and table-cell paragraph |
| DocxRenderI2i.ReplaceAll | i2i_src/backend/tools/docx_render.py:92-101 | every visited paragraph gets `_replace_in_runs` once, on its own old runs |
| DocxRenderI2i.RStripChars | i2i_src/backend/tools/docx_render.py:80 | `rstrip(chars)` yields a prefix of the input that does not end in one of the characters, all dropped characters being among them |
| DocxRenderI2i.RStripEatsStem | i2i_src/backend/tools/docx_render.py:80 | as written, `"fox.docx"` and `"fox"` both become `"f"` |
| DocxRenderI2i.TemplateStem | i2i_src/backend/tools/docx_render.py:79-80 | as intended: a trailing `.docx` is removed, anything else kept |
| DocxRenderI2i.StemRoundTrip | i2i_src/backend/tools/docx_render.py:79-84 | with or without the extension, the id names the same template key |
| DocxRenderI2i.Renderer.constructor | i2i_src/backend/tools/docx_render.py:78-80 | as written, the renderer keeps `template_id.rstrip(".docx")`, so `"fox"` is kept as `"f"` (see `RStripEatsStem`) |
| DocxRenderI2i.Renderer.TemplatePath | i2i_src/backend/tools/docx_render.py:84 | the template key is the id followed by `.docx` |
| DocxRenderI2i.Renderer.Invoke | i2i_src/backend/tools/docx_render.py:83-111 | every body, header, footer and table-cell paragraph gets `_replace_in_runs`; the result is `{"ui_event": "download_link", "url": url}` |
| DocxRender.PerRun | backend/tools/docx_render.py:52-54 | each run is rewritten on its own: the same number of runs, each with every token replaced in input order |
| DocxRender.RunWithoutTokenKept | backend/tools/docx_render.py:52-54 | a run holding no `{{` is left as it is |
| DocxRender.SplitTokenKept | backend/tools/docx_render.py:51-54 | a token split across two runs is not replaced here, while `_replace_in_runs` of the i2i renderer replaces it |
| DocxRender.Renderer.constructor | backend/tools/docx_render.py:24-25 | the renderer keeps the id as given |
| DocxRender.Renderer.TemplatePath | backend/tools/docx_render.py:32 | the template key is `template_id + ".docx"` |
| DocxRender.Renderer.Invoke | backend/tools/docx_render.py:46-61 | only body paragraphs are rewritten, each run on its own; the result is `{"url": url}` without `ui_event` |
| DocxRender.RenderRuns | backend/tools/docx_render.py:52-54 | the runs of one paragraph become `PerRun` of their old texts |
| GraphWalk.CallArgs | backend/json_executor.py:36-40 | a one-parameter `run` gets the state alone, any other gets the context and then the state |
| GraphWalk.Kwargs | backend/json_executor.py:34 | absent params become `{}` for both executors; an explicit `None` becomes `{}` for json_executor (`or {}`) and makes `cls(**None)` raise for executor (`get("params", {})`) |
| GraphWalk.DotlessTypes | backend/json_executor.py:49-59 | a dotless type resolves only against `backend.helpers` in json_executor and never in executor; otherwise `ValueError("Invalid runnable path ...")` |
| GraphWalk.ToResult | backend/json_executor.py:26-45 | `run` returns the state exactly when the walk ended normally; a cycle is `RuntimeError("cycle detected at node '<id>'")`; other exceptions propagate |
| GraphWalk.WalkUnfold | backend/json_executor.py:26-43 | a node that runs stores its output and the walk continues at `next[0]` with the node marked seen |
| GraphWalk.WalkTraceFresh | backend/json_executor.py:23-31 | every node that runs exists and was not entered before; the first one is `entry` |
| GraphWalk.WalkHalts | backend/json_executor.py:26-34 | an empty id, a seen node, an unknown node or a failed resolution or step runs nothing more |
| GraphWalk.WalkTraceDistinct | backend/json_executor.py:24-29 | no node runs twice, so the loop runs at most one step per distinct node id and always terminates |
| GraphWalk.WalkTraceEdges | backend/json_executor.py:42-43 | each node run after the first is `next[0]` of the one before it |
| GraphWalk.WalkData | backend/json_executor.py:37-45 | the final dict holds the initial keys plus one key per node that ran; keys of nodes that did not run keep their value |
| GraphWalk.WalkStoresOutput | backend/json_executor.py:37-40 | a node that runs has its own output under its id at the end |
| GraphWalk.WalkEnd | backend/json_executor.py:26-43 | the walk ends normally exactly when there is no next node, and with the cycle error exactly when the next node was already entered, naming it |
| GraphWalk.TwoNodeCycle | backend/json_executor.py:24-29 | `x -> y -> x` runs `x`, then `y`, then raises the cycle error at `x` |
| JsonExecutor.PyDict.constructor | backend/json_executor.py:19-22 | a dict object holding the given items |
| JsonExecutor.New | backend/json_executor.py:10-13 | construction succeeds exactly when the spec has `nodes` and `entry` (a missing key is `KeyError`), keeps the nodes, and keeps the entry (`None` meaning no node to run) |
| JsonExecutor.StartData | backend/json_executor.py:22 | `state or {}`: a non-empty caller dict is used as is; an absent or empty one gives a new empty dict |
| JsonExecutor.Run | backend/json_executor.py:16-45 | `run` returns exactly when the specified walk ends normally, with its dict; otherwise it raises the walk's error; a non-empty caller dict is the very dict updated (also when a step raises half way) and returned, an empty one is left alone and a fresh dict returned |
| JsonExecutor.Drive | backend/json_executor.py:23-45 | the `while cur` loop computes the walk specification `Walk` from `entry`, writing each output into the dict under the node id and stopping at a cycle, a missing node, a failed resolution or a raising step |
| JsonExecutor.SingleNodeRun | backend/json_executor.py:26-45 | a one-node graph whose one-parameter step returns a copy (`dict(data)`) of its argument stores that copy under the node id, next to the caller's keys |
| Executor.ToMap | backend/executor.py:19 | the dict of a list of distinct `(id, node)` pairs holds exactly those ids with their nodes |
| Executor.New | backend/executor.py:16-20 | a spec whose `type` is not `"json_graph"` raises `ValueError("spec.type must be 'json_graph'")`; otherwise `nodes` is required; a missing or empty `entry` becomes the first key of `nodes`, and with no nodes `next(iter(...))` raises `StopIteration` |
| Executor.Run | backend/executor.py:23-42 | `run` returns or raises exactly what the walk specification `Walk` gives from `entry` on a fresh empty state |
| Executor.RunResultKeys | backend/executor.py:24-42 | a successful run returns a dict with exactly one key per node that ran |
| Executor.NoneParamsRejected | backend/executor.py:31 | an explicit `params: None` makes `cls(**None)` raise `TypeError` here, while json_executor passes `{}` |
| LinearExecutor.IdsMembers | backend/json_exec.py:17-21 | a key is among the ids of the first `n` steps exactly when one of those steps has it as its id |
| LinearExecutor.Fold | backend/json_exec.py:16-21 | the loop over the first `n` steps with any step runner: the state's keys are exactly their ids, and the last of them is present |
| LinearExecutor.StateAfter | backend/json_exec.py:16-21 | after the first `n` steps the state's keys are exactly their ids, and the last of them is present |
| LinearExecutor.FoldFailureSticks | backend/json_exec.py:17-21 | with any step runner, once a step raises no later step runs and that exception is the outcome |
| LinearExecutor.FoldKeyKept | backend/json_exec.py:21 | with any step runner, a key of the state stays in every later state, and keeps its value while no later step repeats it |
| LinearExecutor.RunSpec | backend/json_exec.py:15-22 | an empty step list raises `IndexError` at `self.steps[-1]` |
| LinearExecutor.Run | backend/json_exec.py:15-22 | the `for` loop computes `RunSpec`: each step imported, built with its own `init_kwargs` and run once on `payload | state`, in list order; the first exception ends the run |
| LinearExecutor.FailureSticks | backend/json_exec.py:17-21 | once a step raises no later step runs and that exception is the outcome |
| LinearExecutor.ResultIsLastOutput | backend/json_exec.py:21-22 | the result is the output of the last step in the list, even when an earlier step has the same id |
| LinearExecutor.PrefixStable | backend/json_exec.py:21 | a prefix of a successful run succeeds; every key of its state stays, and its output stays unless a later step repeats its id, which overwrites it |
| LinearExecutor.StepInputs | backend/json_exec.py:21 | each step sees the payload keys no earlier step id shadows, and every earlier output under its id: the outputs win on a clash |
| LinearExecutor.TwoStepExample | backend/json_exec.py:16-22 | with steps `a` then `b` and payload `{"a": 0}`, `b` sees `a`'s output `1`, not the payload's `0`, and its output is the result |
| Py.ImportAttr | backend/json_exec.py:18-19 | `getattr(import_module(module), cls_name)` after `rpartition(".")`: found exactly when the module and attribute exist |
| Processors.Flatten | backend/processors.py:38-42 | a runnable runs at least one step |
| Processors.BuildGeneral | backend/processors.py:28-35 | a `Runnable` subclass, and only it, is instantiated with exactly the given keyword arguments; a `Runnable` object is used as it is; any other callable is wrapped in a lambda |
| Processors.ComposeInOrder | backend/processors.py:38-42 | the composed chain runs the steps of the given runnables in list order |
| Processors.ComposeLoop | backend/processors.py:38-42 | the loop of `_compose` builds the left-grouped `|` composition, which runs the runnables' steps in list order |
| Processors.CopyDict | backend/processors.py:56 | `dict(...)` of a dict is a copy of its entries |
| Processors.WithoutPlaceholder | backend/processors.py:68-69 | a `"{{retrieve}}"` retriever is removed, and any other keyword arguments are left untouched |
| Processors.BuildStep | backend/processors.py:54-78 | a step that builds is never itself a composition |
| Processors.WithClassPath | backend/processors.py:50 | the filter succeeds exactly when every step supports `in`; what it keeps is a subsequence of the steps, each with a `class_path`, and every step with a `class_path` is kept |
| Processors.Built | backend/processors.py:52-78 | a successful build has one runnable per step definition |
| Processors.BuiltFromShape | backend/processors.py:53-78 | each loop iteration keeps what was built before it and appends one non-composed runnable |
| Processors.BuiltShape | backend/processors.py:52-78 | no built runnable is a composition |
| Processors.BuiltFromFails | backend/processors.py:53-78 | the first step that raises ends the build with its exception |
| Processors.BuildChain | backend/processors.py:48-83 | `_build_chain` decodes a string spec, keeps the steps with a `class_path`, builds them in order and composes them; no runnable built raises `ValueError("No runnable steps built")`; any earlier exception propagates |
| Processors.BuildSteps | backend/processors.py:52-78 | the `for` loop builds each step given the runnables before it and stops at the first exception |
| Processors.ChainRunsBuiltSteps | backend/processors.py:78-83 | the built chain runs exactly the built steps, one per definition with a `class_path`, in order |
| Processors.FlattenAllPlain | backend/processors.py:38-42 | runnables that are not compositions run as themselves, in order |
| Processors.RetrievalQAFirst | backend/processors.py:61-65 | a RetrievalQA step with nothing before it raises `ValueError("RetrievalQA cannot be the first step")` |
| Processors.RetrievalQAWiring | backend/processors.py:61-72 | a later RetrievalQA step is built by `from_chain_type` with the previous runnable as retriever, `ChatOpenAI("gpt-3.5-turbo", 0)` as model and the init kwargs without a `"{{retrieve}}"` retriever |
| Processors.RetrievalQAPlaceholder | backend/processors.py:67-72 | with init kwargs `{"retriever": "{{retrieve}}", "chain_type": "stuff"}` the placeholder is popped and only `chain_type` is passed on |
| Processors.GeneralStep | backend/processors.py:73-76 | a step without a truthy `method` is the `_build_general` runnable; with a method name it is that method called with `method_kwargs` |
| Processors.NoClassPathNoChain | backend/processors.py:50-81 | a definition in which no step has a `class_path` raises `ValueError("No runnable steps built")` |
| Processors.NoClassPathFiltered | backend/processors.py:50 | steps without a `class_path` are all filtered out |
| Processors.LoadRow | backend/processors.py:98 | a loaded row's key is hashable: never a list or a dict |
| Processors.LoadFrom | backend/processors.py:97-98 | loading never removes a registry entry |
| Processors.Registry.constructor | backend/processors.py:16 | `REG` starts empty |
| Processors.Registry.LoadAll | backend/processors.py:89-98 | `load_all` stores each row's chain under its id, in row order, and the first row that raises stops the load with the earlier rows kept |
| Processors.UntouchedIdsKept | backend/processors.py:97-98 | when every row builds the load succeeds, and an id no row carries keeps its earlier entry, or stays absent |
| Processors.LastRowWins | backend/processors.py:97-98 | when every row builds, an id holds the chain of the last row carrying it |
| Processors.LoadTail | backend/processors.py:97 | what holds of every row, and of the rows after `i`, holds of the rows after the first one |
| Processors.FailingRowStops | backend/processors.py:97-98 | a row that raises ends the load with its exception, the rows before it loaded and none after it built |
| Schema.RequiredFieldDefaults | backend/schema.py:19-24 | a validated form field has the string `name` and `label` it was given; `widget` defaults to `"text_input"`, `options` to `None` and `required` to `True`, and any value supplied is kept |
| Schema.RequiredFieldMinimal | backend/schema.py:19-24 | a field given only its name and label validates to exactly those two plus every default |
| Schema.LegacyChainAlias | backend/schema.py:46-48 | a truthy chain id is kept, and a falsy one is replaced by `values.get("output_type")` |
| Schema.TaskManifestDefaults | backend/schema.py:28-35 | a validated manifest has the string `task` it was given; `phrase_examples` defaults to `[]`; `type` defaults to `"runnable"` and is `"runnable"` or `"json_graph"` |
| Schema.TaskManifestTailDefaults | backend/schema.py:37-43 | `required_fields` defaults to `[]`, `enabled` to `True`, `metadata` to `{}` and `tenant_id` to `"default"` |
| Schema.OutputTypeAliasIgnored | backend/schema.py:30-48 | as written, a manifest validates only with a truthy string `processor_chain_id` of its own, and keeps it: the `output_type` alias never applies |
| Schema.LegacyManifestRejected | backend/schema.py:30-48 | as written, a legacy row that names its chain only under `output_type` is rejected |
| Schema.OutputTypeAliasFixed | backend/schema.py:46-48 | with `output_type` declared before the chain id and the validator always run, a missing or falsy chain id is taken from `output_type`, and a truthy one is kept |
| Schema.LegacyManifestHead | backend/schema.py:46-48 | under the fix, the legacy row's chain id comes from `output_type` |
| Schema.LegacyManifestThree | backend/schema.py:28-31 | under the fix, the legacy row's first three fields validate with the default `phrase_examples` |
| Schema.LegacyManifestAccepted | backend/schema.py:46-48 | under the fix, the legacy row validates with its `output_type` as chain id |
| Schema.AliasParams | backend/schema.py:58-62 | an empty `init_kwargs` when `params` is among the validated values becomes `values["params"] or {}`; anything else is returned unchanged |
| Schema.ChainStepShape | backend/schema.py:52-55 | a validated step has the string `id` and `class_path` it was given and a dict of `init_kwargs` |
| Schema.ParamsAliasIgnored | backend/schema.py:52-62 | as written, a validated step's `init_kwargs` is always the one it was given (default `{}`): `params` is never a validated value, so the alias never applies |
| Schema.LegacyStepLosesParams | backend/schema.py:52-62 | as written, a legacy step whose arguments are under `params` validates with `init_kwargs = {}` |
| Schema.ParamsAliasFixed | backend/schema.py:57-62 | with `params` declared before `init_kwargs`, an empty or missing `init_kwargs` takes the step's `params` (or `{}`), and a non-empty one is kept |
| Schema.LegacyStepKeepsParams | backend/schema.py:57-62 | under the fix, the legacy step keeps its `params` as `init_kwargs` |
| Schema.FirstStepId | backend/schema.py:77 | with no `steps` among the validated values, `values["steps"][0].id` raises `KeyError('steps')`; with a first step that has an `id` it is that id |
| Schema.AutoEntry | backend/schema.py:74-78 | an entry other than `None` is kept; `None` becomes the first step's id |
| Schema.MustHaveSteps | backend/schema.py:80-84 | the steps pass, unchanged, exactly when they are truthy; otherwise `ValueError("chain must define at least one step")` |
| Schema.AutoEntryRaises | backend/schema.py:65-78 | as written, `entry` is validated before `steps`, so a definition without an entry raises `KeyError('steps')` |
| Schema.ChainDefShape | backend/schema.py:65-84 | as written, a validated definition has an explicit string entry, which it keeps, and at least one step |
| Schema.AutoEntryFixed | backend/schema.py:74-78 | the intended `_auto_entry`: an explicit entry is kept; `None` becomes the first step's id once there are validated steps |
| Schema.AutoEntryFixedDefaults | backend/schema.py:69-78 | with `steps` validated before `entry`, a definition with a missing or `None` entry gets its first step's id as entry; an explicit entry is kept; there is at least one step |
| Schema.FixedStepId | backend/schema.py:52-53 | a validated step under the fix has the string `id` it was given |
| Schema.EmptyStepsRejected | backend/schema.py:80-84 | an empty step list is rejected both as written and under the fix |
| Schema.ValidateChainJson | backend/schema.py:98-103 | for a row of type `"chain"` the value passes exactly when it is a dict that validates as a `ChainDef`, and otherwise the `ChainDef` error is raised; rows of other types pass anything; what passes is returned unchanged |
| Schema.ChainJsonUnchanged | backend/schema.py:88-103 | a validated row keeps its `chain_json`; for type `"chain"` it is a valid `ChainDef`; the type is `"runnable"` or `"chain"` |
| Schema.ChainRowWithoutEntryRaises | backend/schema.py:74-78 | as written, a `"chain"` row whose definition leaves out `entry` raises `KeyError('steps')` for the whole row |
| Schema.ChainJsonOnNone | backend/schema.py:98-103 | on a `"chain"` row, the `chain_json` validator given `None` runs `ChainDef(**None)`, which raises `TypeError` |
| Schema.ChainRowWithoutJsonRaises | backend/schema.py:88-103 | a `"chain"` row with no `chain_json` (or `None`) gets the default `None`, the `always=True` validator runs on it, and its `TypeError` escapes as the result of validating the whole row |
| Schema.MinimalChainRowRaises | backend/schema.py:88-103 | the row `{"chain_id": "c", "type": "chain"}` raises a `TypeError` rather than a validation error |
| ChainSchema.ParamsAliasRule | backend/chain_schema.py:19-23 | `_params_alias` behaves as schema.py's alias: an empty `init_kwargs` with `params` among the values becomes `values["params"] or {}`, and anything else is checked as given |
| ChainSchema.NonEmpty | backend/chain_schema.py:29-33 | the steps pass, unchanged, exactly when they are truthy; otherwise `ValueError("chain must have at least one step")` |
| ChainSchema.ChainDefShape | backend/chain_schema.py:13-33 | a validated definition has type exactly `"chain"` and a non-empty list of steps, one per input step, in order, each with the input's string `id` and `class_path` and a dict of `init_kwargs` |
| ChainSchema.EmptyStepsRejected | backend/chain_schema.py:29-33 | an empty step list is rejected with `steps` among the failed fields |
| ChainSchema.OneStepChain | backend/chain_schema.py:13-27 | a one-step chain validates, and its step gets `init_kwargs = {}` |
| ChainSchema.LegacyChainLosesParams | backend/chain_schema.py:13-23 | as written, a legacy one-step chain whose arguments are under `params` validates with `init_kwargs = {}` |
| ChainSchema.StepDefaults | backend/chain_schema.py:13-16 | a step given only `id` and `class_path` validates with `init_kwargs = {}` |
| ChainSchema.LegacyDefinition | backend/chain_schema.py:25-27 | a one-step chain validates to the chain of its validated step |
| ChainSchema.ParamsAliasFixed | backend/chain_schema.py:18-23 | with `params` declared before `init_kwargs`, every step whose `init_kwargs` is missing or empty takes its `params` (or `{}`), and a non-empty one is kept |
| ModelValidation.StepFacts | backend/schema.py:58-62 | validating one field adds it to the validated values or to the failed fields, and leaves every other field as it was |
| ModelValidation.PrefixFacts | backend/schema.py:28-43 | after the first `n` declared fields, only those fields are validated, and each has validated or failed |
| ModelValidation.PrefixFactsStep | backend/schema.py:28-43 | adding one more declared field keeps the facts of `PrefixFacts` |
| ModelValidation.ValidatedFields | backend/schema.py:10-11 | a validated model holds exactly the declared fields: every one is present and undeclared input keys are dropped |
| ModelValidation.CheckSeesEarlierFields | backend/schema.py:46-48 | a validator's `values` never holds a field declared at or after its own |
| ModelValidation.CleanPrefix | backend/schema.py:28-43 | a validation that ends without error had none at any earlier field, and an earlier field's value is kept |
| ModelValidation.FieldResult | backend/schema.py:58-62 | a validated field holds its default when absent from the input and its validators do not run on defaults; otherwise it holds what its check returned for the input's value, or the default, given the fields before it; a required field is in the input |
| ModelValidation.RaisedEscapes | backend/schema.py:98-103 | under pydantic 2, an exception that is not a `ValueError` (a `TypeError` or a `KeyError`, say) raised by a validator stops validation, and it is what validating the model raises |
| ModelValidation.FailureFails | backend/schema.py:80-84 | once a field has failed, validating the model fails |
| ModelValidation.StepOutcome | backend/schema.py:58-62 | a field that validates without error holds its default, or its check's result |
| ModelValidation.StrValue | backend/schema.py:20-21 | a `str` field accepts exactly strings, unchanged, and its failures are collected validation errors (pydantic 2 does not turn numbers into strings) |
| ModelValidation.OptStrValue | backend/schema.py:70 | an `Optional[str]` field accepts exactly strings and `None`, unchanged |
| ModelValidation.BoolValue | backend/schema.py:24 | a `bool` field accepts exactly booleans, unchanged |
| ModelValidation.IntValue | backend/schema.py:90 | an `int` field accepts exactly integers, unchanged |
| ModelValidation.DictValue | backend/schema.py:42 | a `Dict[str, Any]` field accepts exactly dicts, unchanged |
| ModelValidation.OptDictValue | backend/schema.py:92 | an `Optional[Dict[str, Any]]` field accepts exactly dicts and `None`, unchanged |
| ModelValidation.StrListValue | backend/schema.py:31 | a `List[str]` field accepts exactly lists of strings, unchanged |
| ModelValidation.OptStrListValue | backend/schema.py:23 | an `Optional[List[str]]` field accepts exactly `None` and lists of strings, unchanged |
| ModelValidation.LiteralValue | backend/schema.py:35 | a `Literal[...]` field accepts exactly the listed strings, unchanged |
| ModelValidation.ItemsPrefix | backend/schema.py:38 | while no item has failed, the items checked so far have each validated as the model, in order |
| ModelValidation.ModelListValue | backend/schema.py:38 | a `List[Model]` field that validates is a list of the same length whose items are the input items, each validated as the model |
| ModelValidation.EmptyModelList | backend/schema.py:71 | an empty list validates as an empty list |

## Left out

- Database, storage and network clients (Supabase, Postgres, HTTP, uploads and signed URLs) are left out. Their results are parameters: the intent RPC response, the `processor_chains` rows of `load_all`, the uploaded template id and names, and the signed URL.
- The LLM call (`call_llm`) and the GPT fallback of `suggest_phrases` are left out. Only `_substitute` is modelled from backend/llm.py. The fallback is a parameter holding the phrases it adds, or `None` when the call or the decoding raised.
- The Streamlit UI is left out. The value each widget reports is an input to `Fields.RenderFields`, and captions and warnings are not modelled. Widget calls never raise in the model. In the program they can: a `widget_kwargs` that is not a mapping, or one that holds `key` or `label`, raises `TypeError` (utils/fields.py:71-73), and two widgets with the same key raise Streamlit's duplicate-key error. `Fields.RenderOkIff` and `Fields.RenderLastWins` hold only for renders where no widget call raises.
- `importlib`, `getattr` on modules, `inspect.signature` and the `inspect.stack()` scan for `__main__` are left out. They are replaced by namespace maps and a declared arity. A `__main__.X` type whose class is not an attribute of the main module raises `AttributeError` in the model: the search of the callers' frame locals is not modelled.
- LangGraph's `StateGraph` is modelled as applying each node's partial update key by key, which is what the four nodes need. Its channel reducers are left out.
- LangChain is left out. Runnables are symbolic terms, and `|` is modelled as composition, with `Processors.Flatten` giving the steps a chain runs.
- The pydantic 2 machinery is modelled only as far as the validators depend on it: field order, `values`, defaults, `pre`/`always`, and which exceptions are collected (type mismatches and `ValueError`s) and which escape (every other one, `TypeError` included). Lax-mode coercion is left out: pydantic 2 accepts a numeric string or a whole float for an `int`, and `"true"`, `"yes"`, `0` or `1` for a `bool`, where the model accepts only an `int` and only a `bool`. Numbers are not turned into strings in either. Error locations and `Config` are left out.
- backend/intent.py is not part of this model. backend/graph.py imports `detect_intent` from it, and the model uses `Intent.DetectIntent` of i2i_src/backend/intent.py in its place.
- Only the ASCII behaviour of `str` methods (`lower`, `title`, `strip`, `\w`) is modelled. Unicode case mapping and Unicode whitespace are left out.
- `PurePath` is modelled only through the suffix of the final component.
- Llm.Substitute: requires every replacement field of the template to be in the modelled `str.format` grammar (`{NAME}`, `{{`, `}}`). Fields with attributes, indexes, conversions, format specs or all-digit names are outside the model.
- Reading files is left out. The `zipfile` branch of `extract_placeholders` takes the `.xml` members as decoded strings, and `extract_text`'s extractors are abstract functions of the path.
- The `_extract_placeholders` regex of backend/wizard.py:54 matches a literal backslash and is not modelled. So are the wizard's upload, row inserts and updates, and `wizard_publish`'s storage calls; only the `chain_json` it stores is modelled.
- Steps, chains and helpers are modelled as pure functions of their arguments. A step that mutated the dict it was handed is not modelled; the caller's `state` dict of backend/json_executor.py is.
- JsonExecutor.SingleNodeRun: a step's result is stored by value, so a step that returns the very dict it was handed (`return data`) is not modelled. In Python, `data[cur] = out` then makes `data[cur] is data`; in the model the stored value is a snapshot of the state before the store.
- DocxRenderI2i.Renderer.Invoke: requires the paragraphs it visits to be distinct objects (`requires Distinct`). The source's walk (i2i_src/backend/tools/docx_render.py:90-101) can reach one paragraph more than once: a section's header or footer linked to the previous section's gives the same paragraphs again, and a merged table cell is returned once per grid column it spans. The source then rewrites that paragraph again, which is not a no-op (with `b` mapped to `"x"` and `a` to `"{{b}}"`, the text `{{a}}` becomes `x`). Those documents are excluded.
- DocxRender.Renderer.Invoke: requires the document's body paragraphs to be distinct objects; it visits only `doc.paragraphs`, where each paragraph occurs once.
- `reload_registry`, `reload_graph`, concurrency and the atomic registry swap are left out. They are not defined in the modelled sources.
- Values.PyStr: the text of a float that is not integral or is at least 10^16 in magnitude, and the repr of a list or a dict, are not modelled. They give the fixed placeholders `"<float>"`, `"[...]"` and `"{...}"`. A dict here is an unordered map, so its repr (in insertion order) cannot be computed, and the quoting rules of a string's repr are left out.
- Llm.SafeVars: a list, a dict, or a float other than an integral one below 10^16, becomes the `Values.PyStr` placeholder, not its repr as `str()` gives it.
- MergeFields.MergeStep: a list, a dict, or a float other than an integral one below 10^16 is written into the text as the `Values.PyStr` placeholder, not its repr. The same holds for `DocxRender.RenderRuns` and `DocxRenderI2i.ReplacedRuns`.
- Values.Iterate: iterating over a non-empty dict, which yields its keys in insertion order, is not modelled, because a dict here is an unordered map. It gives an error instead.
- Processors.CopyDict: `dict(...)` of a list of key-value pairs is not modelled. Any argument other than a dict gives the `TypeError`.
- Python's equality between ints and floats (`1 == 1.0`) is not modelled: `Int(1)` and `Real(1.0)` are different values, so a membership or comparison test that mixes them differs from Python's.
- Floating-point similarity routing (backend/workflow.py), vector search, and the patch, debug and script files are outside the core modelled here.
- Messages of `TypeError`s that CPython 3.11 raises for a call are shortened. CPython puts the callable's module-qualified name in front, such as `...BaseRetrievalQA.from_chain_type() got multiple values for keyword argument 'llm'` or `...run() argument after ** must be a mapping`. The model keeps the text from the method name on (`from_chain_type() ...`, `argument after ** ...`), because the step classes' modules are parameters here. The exception class is exact. `ChainDef(**None)` carries the full `backend.schema.ChainDef()` text.
- Literal and random identifiers (`uuid4`, timestamps) are parameters.

## Notes on where the model follows the code

- backend/tools/ui_gather.py counts a field as supplied when its name is a key of the inputs, even with an empty value. The model follows the code: presence alone counts.
- The docstring of `suggest_phrases` (backend/auto_keywords.py:8-9) promises at least `min_count` phrases, and gives `['invoice generator', 'invoice', 'create invoice']` for 'Invoice Generator'. The code gives a two-word title only one distinct heuristic phrase, the lower-cased title itself, because both joined phrases repeat it (`AutoKeywords.TwoWordTitle`). Without the fallback that one phrase is the whole result. The model follows the code.

## Findings

| source | as written | input that shows it | evidently intended | confidence | as-written member | corrected member |
|---|---|---|---|---|---|---|
| backend/schema.py:69-78 | `entry` is declared before `steps`, so when `_auto_entry` runs `values` has no `steps` and `values["steps"][0]` raises `KeyError` | a `ProcessorChain` row of type `"chain"` whose `chain_json` has steps but no `entry` | a missing entry becomes the first step's id | not executed | Schema.ChainRowWithoutEntryRaises | Schema.AutoEntryFixedDefaults |
| backend/schema.py:52-62 | `params` is not a declared field, so it is never in `values` and the alias never applies | a step `{"id": "a", "class_path": "m.C", "params": {"x": 1}}` validates with `init_kwargs = {}` | the legacy `params` become `init_kwargs` | not executed | Schema.LegacyStepLosesParams | Schema.LegacyStepKeepsParams |
| backend/chain_schema.py:13-23 | the same alias never applies in the stricter schema | `{"type": "chain", "steps": [{"id": "a", "class_path": "m.C", "params": {"x": 1}}]}` validates with `init_kwargs = {}` | every step's legacy `params` become its `init_kwargs` | not executed | ChainSchema.LegacyChainLosesParams | ChainSchema.ParamsAliasFixed |
| backend/schema.py:30-48 | `output_type` is not a declared field and the validator does not run on a missing chain id, so the alias never applies | a manifest `{"task": "t", "output_type": "c"}` is rejected | the old `output_type` column names the chain | not executed | Schema.LegacyManifestRejected | Schema.LegacyManifestAccepted |
| i2i_src/backend/tools/docx_render.py:80 | `rstrip(".docx")` strips any trailing `.`, `d`, `o`, `c` and `x` characters, not the suffix | `"fox.docx"` and `"fox"` both become `"f"` | a trailing `.docx` is removed | not executed | DocxRenderI2i.RStripEatsStem | DocxRenderI2i.StemRoundTrip |
