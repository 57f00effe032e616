# CWL input classifier, modelled in Dafny

This project models the core of cwl-inputs-parser: the step that takes an
already-loaded CWL v1.2 tool or workflow and turns each entry of its `inputs`
into one flat field record (`InputField`, `NekoField` in the older copy).
For each parameter it:

- classifies the parameter's `type`: a bare type name, a one- or two-element
  list, an array schema, or an enum or record schema;
- shortens the `id` to the part after the last `#`;
- cleans `doc` and `label`;
- narrows a File default to its `location`, or else its `path`;
- reads `stdin` as `File`;
- makes `["null", T]` optional;
- rewrites secondary-file patterns.

The whole document is rejected at the first parameter whose type is not
supported, with an `UnsupportedValueError` whose message names the category.

The repository holds two copies of this code:

- `Inputs` (cwl_inputs_parser/utils.py), the current one, is module
  `CwlInputsParser`.
- `Neko` (src-py/neko_punch/utils.py), the historical one, is module
  `NekoPunch`. It differs in three ways:
  - it has no secondary-file step after the type dispatch, so a scalar File
    field, and any array built from an `InputArraySchema`, gets none; only the
    command-line array builder sets them, and it does so whatever the items
    (an int array too);
  - its command-line array builder copies the parameter's secondary files
    verbatim;
  - its messages name neko-punch.

  Its other builders behave the same as the current copy's, so `NekoPunch`
  uses `CwlInputsParser`'s definitions of them. `clean_val` has an extra
  branch that returns `None` for `None`; the common branch already returns
  null unchanged, so the result is the same. Those are
  `is_remote_url` (lines 72-74), `extract_main_tool` (100-106),
  `typical_field` (215-236), `clean_val` (238-245), `template_field`
  (247-258), `file_field` (359-365), `stdin_field` (391-393) and
  `input_array_field` (558-565).
- `PyStr` states the Python string built-ins the classifier relies on:
  `replace`, `strip`, `rstrip`, `split`/`rsplit`, `startswith` and `endswith`.
- `CwlTypes` holds the loaded object graph as datatypes, the output records,
  the rejection categories with their messages, and the fail-fast walk that
  both copies perform.

**How the source maps onto the model.**

- The loader's objects are values, and `deepcopy` is the identity.
- Overwriting an attribute of a freshly built record is a datatype update.
- The builders are functions. Where the source works by steps, those steps
  are methods proved equal to the functions:
  - the `_parse`/`punch` if-chains (`ClassifyParam`);
  - the secondary-file loops;
  - the `for t in type` loop;
  - the `extract_main_tool` scan.
- The objects are classes that own their mutable field list: `Inputs.fields`
  and `Neko.results`. `Parse`/`Punch` append to that list in a loop.
- `Inputs.Parse` and `Neko.Punch` are proved against the fail-fast walk
  `FailFast`; the whole-document outcome is stated in `ConvertOutcome` and
  `PunchAgrees`.
- An error is raised in Python and returned in the model: a `Result` for one
  parameter, an `Option<ParseError>` from `Parse`/`Punch`.
- The five builders for boolean, int, string, Directory and Any return
  `_template_field` unchanged. They are `TemplateField` in the model.
- Field and attribute names that clash with Dafny keywords are renamed:
  - `type` is `ty`;
  - `label` is `labelText`;
  - `array` is `isArray`;
  - `class_` is `processClass`.

## Model

| member | source | states |
|---|---|---|
| PyStr.ReplaceNewlines | cwl_inputs_parser/utils.py:246 | `replace("\n", " ")`: same length, no line feed left, every other character kept in place |
| PyStr.LStrip | cwl_inputs_parser/utils.py:246 | the suffix left after dropping leading white space; everything dropped is white space |
| PyStr.RStrip | cwl_inputs_parser/utils.py:246 | the prefix left after dropping trailing white space; everything dropped is white space |
| PyStr.Strip | cwl_inputs_parser/utils.py:246 | `strip()` is a contiguous slice of its argument with no white space at either end, and everything outside that slice is white space |
| PyStr.CoreIsUnique | cwl_inputs_parser/utils.py:246 | only one such slice exists, so these facts determine `strip()` |
| PyStr.Clean | cwl_inputs_parser/utils.py:246 | the cleaned text has no line feed and no surrounding white space; it is a contiguous slice of the text with line feeds read as spaces, and only white space lies outside that slice |
| PyStr.CleanFixpoint | cwl_inputs_parser/utils.py:246 | text that is already clean comes back unchanged |
| PyStr.ReplaceNewlinesFixpoint | cwl_inputs_parser/utils.py:246 | `replace` leaves text without line feeds unchanged |
| PyStr.CleanIdempotent | cwl_inputs_parser/utils.py:246 | cleaning twice is cleaning once |
| PyStr.RStripChar | cwl_inputs_parser/utils.py:207 | `rstrip("?")` keeps a prefix, drops only "?" characters, and leaves none at the end |
| PyStr.AfterLastIsLastFragment | cwl_inputs_parser/utils.py:252-253 | `split("#")[-1]` is the suffix after the last "#", holds no "#", and is the whole string when there is none |
| PyStr.AfterLastOfPlain | cwl_inputs_parser/utils.py:72 | an id without "#" is its own fragment |
| CwlTypes.MessageNamesItsCategory | cwl_inputs_parser/utils.py:158-197 | every error message contains the words callers search for ("an unsupported format", "union field", "CommandInputEnumSchema", ...) |
| CwlTypes.RejectionMessage | cwl_inputs_parser/utils.py:158-197 | every message starts with "The "; every message except the unsupported-format one ends with the program name |
| CwlTypes.MarkerOverlap | tests/test_failed_by_InputRecordSchema.py:25 | the words "InputRecordSchema field does" occur in the `CommandInputRecordSchema` message too, so that search also matches a command-line record |
| CwlTypes.MessageLength | cwl_inputs_parser/utils.py:158-197 | the length of each message, for any program name |
| CwlTypes.MessagesDiffer | cwl_inputs_parser/utils.py:158-197 | no two rejection categories share a message |
| CwlTypes.FailFast | cwl_inputs_parser/utils.py:144-217 | a walk that finishes emits one field per parameter; a walk that stops has emitted fewer fields than there are parameters |
| CwlTypes.FailFastSpec | cwl_inputs_parser/utils.py:144-217 | the walk emits one field per parameter before the first rejected one, each that parameter's conversion, and stops with its rejection |
| CwlTypes.FirstRejected | cwl_inputs_parser/utils.py:144-217 | the index of the first rejected parameter: every earlier one is accepted |
| CwlTypes.FailFastOutcome | cwl_inputs_parser/utils.py:144-217 | the walk succeeds iff every parameter is accepted, then with exactly one field per parameter in order; otherwise it fails with the first rejection |
| CwlTypes.FailFastStops | cwl_inputs_parser/utils.py:144-217 | after a rejection, later parameters are never looked at |
| CwlTypes.FailFastAccepts | cwl_inputs_parser/utils.py:144-217 | an accepted parameter appends its field and the walk goes on |
| CwlTypes.FailFastRejects | cwl_inputs_parser/utils.py:144-217 | a rejected parameter ends the walk with the fields emitted before it |
| CwlTypes.FailFastAgree | src-py/neko_punch/utils.py:157-213 | two conversions that agree on acceptance and errors, and on fields except secondary files, walk a list to the same outcome |
| CwlInputsParser.RemoteUrlIsPrefixClosed | cwl_inputs_parser/utils.py:41-43 | a remote location (http:// or https://) stays remote whatever follows; it starts with "h", so a path starting with "/" is never remote |
| CwlInputsParser.IsRemoteUrl | cwl_inputs_parser/utils.py:41-43 | a remote location is at least as long as "http://" and starts with "http" |
| CwlInputsParser.FirstMainIndex | cwl_inputs_parser/utils.py:70-73 | the first process that is a Workflow or whose id fragment is "main"; no earlier one is |
| CwlInputsParser.MainTool | cwl_inputs_parser/utils.py:68-74 | a single process is returned as is; from a list, the first main process, and the list itself only when no process in it is main |
| CwlInputsParser.ExtractMainTool | cwl_inputs_parser/utils.py:68-74 | the scan with its early return computes exactly `MainTool` |
| CwlInputsParser.CleanVal | cwl_inputs_parser/utils.py:242-247 | a string comes back as its cleaned text, without line feeds or surrounding white space; any other value passes through unchanged |
| CwlInputsParser.CleanValFixpoint | cwl_inputs_parser/utils.py:242-247 | clean text is left alone, so cleaning twice is cleaning once |
| CwlInputsParser.TypicalTagIsClean | cwl_inputs_parser/utils.py:259 | cleaning leaves the seven typical type names unchanged |
| CwlInputsParser.CleanShape | cwl_inputs_parser/utils.py:259 | cleaning a `type` changes only a type name, which comes back without line feeds or surrounding white space; the seven typical names and every schema object are kept |
| CwlInputsParser.TemplateField | cwl_inputs_parser/utils.py:249-260 | default copied; id is the part after the last "#" of the cleaned id; doc and label cleaned; a typical type kept; not an array, required, no secondary files |
| CwlInputsParser.FileField | cwl_inputs_parser/utils.py:361-367 | a mapping default becomes its "location", else its "path", else stays; everything else is the template |
| CwlInputsParser.StdinField | cwl_inputs_parser/utils.py:393-395 | the File field with type "File" |
| CwlInputsParser.TypicalField | cwl_inputs_parser/utils.py:219-240 | accepted iff the type is one of the seven names; stdin becomes File; not an array, required; otherwise an unsupported-format rejection |
| CwlInputsParser.FileAndStdinFields | cwl_inputs_parser/utils.py:230-233 | "File" is built by `_file_field` and "stdin" by `_stdin_field`; both give type File and narrow a mapping default to its "location", else its "path", and otherwise keep it |
| CwlInputsParser.TypicalFieldIsTemplate | cwl_inputs_parser/utils.py:219-240 | every accepted bare name gives the template field, except for its default and its type |
| CwlInputsParser.CommandInputArrayField | cwl_inputs_parser/utils.py:490-493 | the template with the items as type and `array` set; the schema's label and doc are not consulted |
| CwlInputsParser.InputArrayField | cwl_inputs_parser/utils.py:549-556 | the items as type, an array; a missing label or doc is the schema's, cleaned; otherwise the parameter's, cleaned |
| CwlInputsParser.LastNonNullIndex | cwl_inputs_parser/utils.py:162-164 | the last member that is not "null"; every later member is "null" |
| CwlInputsParser.NonNullMember | cwl_inputs_parser/utils.py:161-164 | the `for t in type` loop ends on the last non-null member, or keeps the list when there is none |
| CwlInputsParser.ClassifyList | cwl_inputs_parser/utils.py:147-172 | a field accepted from a list has no secondary files; it is an array iff the list wraps an array schema; it is optional iff the list has two members; outside a wrapped array its type is one of the six item names |
| CwlInputsParser.Classify | cwl_inputs_parser/utils.py:144-197 | an accepted field has no secondary files yet; it is an array iff the type is an array schema, bare or wrapped; it is optional iff the type is a two-element list; outside a wrapped array its type is one of the six item names |
| CwlInputsParser.ClassifyParam | cwl_inputs_parser/utils.py:144-197 | the if-chain of `_parse`, step by step, computes `Classify` |
| CwlInputsParser.ExpandSecondaryFile | cwl_inputs_parser/utils.py:203-209 | a pattern ending in "?" loses every trailing "?" and becomes optional; otherwise it is kept and an unset `required` becomes true |
| CwlInputsParser.ExpandSecondaryFileIdempotent | cwl_inputs_parser/utils.py:203-209 | rewriting a rewritten secondary file changes nothing |
| CwlInputsParser.DoubleQuestionMarkStripped | cwl_inputs_parser/utils.py:207 | "*.bai??" becomes "*.bai", optional |
| CwlInputsParser.ExpandedSecondaryFiles | cwl_inputs_parser/utils.py:201-215 | one rewritten secondary file per declared one, in order |
| CwlInputsParser.ExpandSecondaryFiles | cwl_inputs_parser/utils.py:201-215 | the append loop builds exactly that list |
| CwlInputsParser.WithSecondaryFiles | cwl_inputs_parser/utils.py:199-215 | only the secondary files change; a field that is not File, or a parameter without secondary files, is left alone; otherwise there is one rewritten entry per declared one, in order, each with `required` set and no trailing "?" |
| CwlInputsParser.NormalizeParam | cwl_inputs_parser/utils.py:144-215 | a parameter is accepted iff the dispatch accepts it, rejected with the dispatch's category, and the field is the dispatch's apart from its secondary files |
| CwlInputsParser.ParseParam | cwl_inputs_parser/utils.py:144-215 | one iteration of `_parse`: classify, then rewrite secondary files of a File field |
| CwlInputsParser.BareTypeName | cwl_inputs_parser/utils.py:145-146 | a bare name is accepted iff it is one of the seven; its field has that type (stdin as File), is not an array, is required; a File or stdin mapping default narrows to its "location", else its "path"; otherwise "an unsupported format" |
| CwlInputsParser.SingletonList | cwl_inputs_parser/utils.py:147-152 | a one-element list holding a bare name behaves exactly like that name |
| CwlInputsParser.WrappedArraySkipsWhitelist | cwl_inputs_parser/utils.py:147-156 | a one-element list holding an array schema is accepted whatever its items; the bare schema is accepted only with whitelisted items, and then identically |
| CwlInputsParser.NullablePicksMember | cwl_inputs_parser/utils.py:160-164 | in `["null", T]` and `[T, "null"]` the loop settles on `T` |
| CwlInputsParser.NullableClassify | cwl_inputs_parser/utils.py:159-166 | such a list classifies as the bare name `T`, made optional |
| CwlInputsParser.NullableUnion | cwl_inputs_parser/utils.py:159-166 | `["null", T]` is accepted iff `T` is a typical name, as `T`'s field with `required` false; a schema `T` gives "an unsupported format" |
| CwlInputsParser.NullNullRejected | cwl_inputs_parser/utils.py:160-165 | `["null", "null"]` is rejected as an unsupported format |
| CwlInputsParser.UnionRejected | cwl_inputs_parser/utils.py:167-172 | lists of length 0, of 3 or more, or of two non-null members are rejected as a union |
| CwlInputsParser.OtherShapeRejected | cwl_inputs_parser/utils.py:195-197 | a type object the dispatch has no branch for is rejected as an unsupported format, not as an enum |
| CwlInputsParser.SingletonSchemaRejected | cwl_inputs_parser/utils.py:148-158 | a one-element list holding neither a name nor an array schema is an unsupported format; for an enum or record schema this differs from the bare schema's rejection |
| CwlInputsParser.ArraySchemas | cwl_inputs_parser/utils.py:173-191 | a top-level array schema is accepted iff its items are one of the six names, excluding stdin, as an array of the items; record items of an `InputArraySchema` give their own category first |
| CwlInputsParser.SchemaRejections | cwl_inputs_parser/utils.py:177-197 | enum, command record and record schemas are rejected with their own categories, and each message names its category |
| CwlInputsParser.SecondaryFilesOfField | cwl_inputs_parser/utils.py:199-215 | secondary files are set iff the field's type is File and the parameter lists some; entry i is the rewrite of declared entry i; each is optional iff its pattern ended in "?" or it said so; nothing else of the dispatch's field changes |
| CwlInputsParser.Convert | cwl_inputs_parser/utils.py:121-125 | a document fails as "not a process" iff no main process is selected; a converted document has one field per input of its main process |
| CwlInputsParser.ConvertOutcome | cwl_inputs_parser/utils.py:121-125 | a list without a main process fails; otherwise exactly one field per input, in order, iff all are supported, and else the first rejection; no inputs give no fields |
| CwlInputsParser.ArrayOfFilesExample | cwl_inputs_parser/utils.py:199-215 | an array of File with secondary files "foo" (required) and "bar" (optional) keeps both, in order |
| CwlInputsParser.Inputs.constructor | cwl_inputs_parser/utils.py:121-124 | keeps the document, selects its main process, starts with no fields |
| CwlInputsParser.Inputs.Parse | cwl_inputs_parser/utils.py:142-217 | appends the walk's fields to `fields` and reports its rejection; a list without a main process fails |
| CwlInputsParser.Inputs.Create | cwl_inputs_parser/utils.py:121-125 | constructing succeeds iff the document converts; the new object keeps the document and its main process and holds exactly the converted fields |
| NekoPunch.MessagesOfTheTwoCopies | src-py/neko_punch/utils.py:173-213 | only the unsupported-format message is worded as in the current copy; every message carries its category's words |
| NekoPunch.RecordMessageCarriesBothMarkers | tests/test_failed_by_InputRecordSchema.py:17-25 | the `CommandInputRecordSchema` message of this copy contains both its own words and "InputRecordSchema field does" |
| NekoPunch.CopiedSecondaryFiles | src-py/neko_punch/utils.py:491-499 | each secondary file copied with its pattern and `required` unchanged, in order |
| NekoPunch.CopySecondaryFiles | src-py/neko_punch/utils.py:491-499 | the append loop builds exactly that list |
| NekoPunch.CommandInputArrayField | src-py/neko_punch/utils.py:488-500 | the current copy's array field, plus the verbatim secondary files when the parameter lists any, whatever the items |
| NekoPunch.BuildCommandInputArrayField | src-py/neko_punch/utils.py:488-500 | the builder step by step computes that field |
| NekoPunch.Classify | src-py/neko_punch/utils.py:159-213 | an accepted field is an array iff the type is an array schema, bare or wrapped; it is optional iff the type is a two-element list; only a command-line array schema, bare or wrapped, gives secondary files |
| NekoPunch.ClassifyParam | src-py/neko_punch/utils.py:159-213 | the if-chain of `punch`, step by step, computes `Classify` |
| NekoPunch.ClassifyAgrees | src-py/neko_punch/utils.py:159-213 | per parameter, both copies accept the same types, reject with the same categories, and build the same field up to secondary files |
| NekoPunch.SecondaryFilesOnlyOnCommandArrays | src-py/neko_punch/utils.py:488-500 | only a command-line array field, bare or wrapped, carries secondary files, and they are the parameter's own |
| NekoPunch.UnknownNameRejected | src-py/neko_punch/utils.py:215-236 | the unknown type name "foobar" is rejected as "an unsupported format" |
| NekoPunch.ArrayOfFilesDiffers | src-py/neko_punch/utils.py:488-500 | a secondary file ".bai?" with no `required` stays as it is in this copy and becomes optional ".bai" in the current one |
| NekoPunch.Neko.constructor | src-py/neko_punch/utils.py:152-155 | keeps the document, selects its main process, starts with no results |
| NekoPunch.Neko.Punch | src-py/neko_punch/utils.py:157-213 | appends one field per parameter in order to `results`, stops at the first rejection and keeps the fields before it |
| NekoPunch.PunchAgrees | src-py/neko_punch/utils.py:157-213 | over a whole input list, `punch` stops where `Inputs` stops, with the same rejection, after the same fields up to secondary files |
| NekoPunch.BareTypeName | src-py/neko_punch/utils.py:215-236 | a bare name is accepted iff it is one of the seven; the field has that type, "stdin" read as File, is required, not an array and has no secondary files; a File default mapping narrows to its "location", else its "path" |
| NekoPunch.TemplateOfBareName | src-py/neko_punch/utils.py:238-258 | a field built from a bare name carries the id's last fragment, and the doc and label cleaned, absent ones staying absent |
| NekoPunch.Unions | src-py/neko_punch/utils.py:174-188 | a two-element list with "null" gives an optional field; any other list of two, three or more, or none, is rejected as a union, in a message naming it |
| NekoPunch.Schemas | src-py/neko_punch/utils.py:189-210 | enum and record schemas and record items in an `InputArraySchema` are rejected with their own categories; an array is accepted iff its items are one of the six names, otherwise it is an unsupported format |
| NekoPunch.InputArrays | src-py/neko_punch/utils.py:558-565 | an `InputArraySchema` of one of the six names becomes an array field of those items, its missing label or doc filled, cleaned, from the schema |

## Left out

- Reading documents: `fetch_document`, `download_file`, `as_uri`,
  `wf_location_to_inputs` and `wf_path_to_neko_fields`. They do file, HTTP and
  working-directory I/O.
- The CWL/YAML loader (`load_document_by_string`). The model starts from the
  loaded objects, as datatypes.
- `cwl_make_template` in both copies. It wraps cwltool and ruamel.yaml.
- `Inputs.as_json` and `as_dict`. These are JSON serialisation; the model
  keeps the field list itself.
- The Flask server, the command-line entry points and packaging.
- `_command_input_enum_field` / `_command_input_record_field` and their
  `Neko` counterparts. They have no body and are never called.
- Loaded values are null, booleans, integers, strings, lists and mappings.
  Floating-point defaults are not modelled.
- Every mapping default is treated as the loader's ordered dictionary.
- A secondary file's `required` is an optional boolean. CWL also allows an
  expression string there, and that is not modelled.
- `secondaryFiles` is always a list here (as the loader leaves it) or absent.
- A `type` attribute is one of the `TypeShape` variants. Loader classes the
  classifier never tests for are one `OtherShape`.
- An error is a category, not a Python exception object. The text of each
  message is `RejectionMessage`.
- A packed document without a main process: the source then reads `inputs`
  off a Python list and fails with an `AttributeError`. The model reports
  `NotAProcess` instead.
