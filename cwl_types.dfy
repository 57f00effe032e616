/**
 * The already-loaded CWL v1.2 object graph that the classifier reads, the flat
 * field records it produces, and the fail-fast walk over an `inputs` list that
 * both copies of the classifier perform.
 *
 * The loader's objects are values here: `deepcopy` of a parameter is the
 * parameter itself, and overwriting an attribute of a freshly built, unshared
 * record is a datatype update.
 */
module CwlTypes {
  import opened PyStr

  datatype Option<+T> = None | Some(value: T) {
    function GetOr(default: T): T
    {
      match this
      case Some(v) => v
      case None => default
    }
  }

  datatype Result<+T, +E> = Success(value: T) | Failure(error: E)

  /** A YAML/JSON value as the loader hands it over (a `default`, a `doc`,
      a `label`); mappings are the loader's ordered dictionaries, looked up by key. */
  datatype Value =
    | Null
    | Bool(b: bool)
    | Int(i: int)
    | Str(s: string)
    | List(elems: seq<Value>)
    | Dict(entries: map<string, Value>)

  /** The `type` attribute of an input parameter, one variant per loader class
      the classifier tests for. `Tag` is a bare type name such as "File" or
      "null"; `Union` is a Python list of types; the two array schemas carry
      their `items`, `label` and `doc`; `OtherShape` is every other loader
      value (an `InputEnumSchema`, `None`, ...), none of which the classifier
      accepts. The command-line classes are subclasses of the plain ones;
      the classifier tests the command-line class first, so only a nested
      `items` can tell the difference. */
  datatype TypeShape =
    | Tag(name: string)
    | Union(members: seq<TypeShape>)
    | CmdArray(items: TypeShape, labelText: Value, doc: Value)
    | InArray(items: TypeShape, labelText: Value, doc: Value)
    | CmdEnum
    | CmdRecord
    | InRecord
    | OtherShape

  const NullTag: TypeShape := Tag("null")

  /** The type names the classifier singles out. */
  const FileType: string := "File"
  const StdinType: string := "stdin"
  const FileTag: TypeShape := Tag(FileType)

  /** A `SecondaryFileSchema` as loaded: a pattern and an optional `required` flag. */
  datatype SecondaryFileSchema = SecondaryFileSchema(pattern: string, required: Option<bool>)

  /** One entry of a tool's `inputs` (a `CommandInputParameter` or a
      `WorkflowInputParameter`); `ty` is its `type`, `labelText` its `label`. */
  datatype InputParameter = InputParameter(
    id: Option<string>,
    ty: TypeShape,
    default: Value,
    doc: Value,
    labelText: Value,
    secondaryFiles: Option<seq<SecondaryFileSchema>>)

  /** A `CommandLineTool`, `Workflow` or `ExpressionTool`; `processClass` is its `class_`. */
  datatype Process = Process(processClass: string, id: Option<string>, inputs: seq<InputParameter>)

  /** What the loader returns: one process, or a list of them (a packed document). */
  datatype LoadResult = One(process: Process) | Many(processes: seq<Process>)

  /** The `SecondaryFile` record of the output. */
  datatype SecondaryFile = SecondaryFile(pattern: string, required: Option<bool>)

  /** The flat output record (`InputField` in the current copy, `NekoField` in the
      historical one). `ty` is the `type` attribute: a bare tag for every field
      the classifier checks, but whatever `items` held for an array schema that
      arrives wrapped in a one-element list. */
  datatype InputField = InputField(
    default: Value,
    doc: Value,
    id: Option<string>,
    labelText: Value,
    ty: TypeShape,
    isArray: bool,
    required: bool,
    secondaryFiles: Option<seq<SecondaryFile>>)

  /** The rejection categories of `UnsupportedValueError`, which callers tell apart
      by the words of its message. */
  datatype Rejection =
    | UnsupportedFormat
    | UnionField
    | CommandInputEnumSchema
    | CommandInputRecordSchema
    | InputRecordSchemaInArray
    | InputRecordSchema

  /** The words the test suite searches a message for (`assert "..." in
      str(e.value)`). Each message carries its own category's words, but they
      do not always tell the categories apart: the words of
      `InputRecordSchema` also occur in the `CommandInputRecordSchema` message. */
  function Marker(k: Rejection): string
  {
    match k
    case UnsupportedFormat => "an unsupported format"
    case UnionField => "union field"
    case CommandInputEnumSchema => "CommandInputEnumSchema"
    case CommandInputRecordSchema => "Command" + RecordSchemaName
    case InputRecordSchemaInArray => "InputRecordSchema field in the InputArraySchema"
    case InputRecordSchema => RecordSchemaName + FieldDoes
  }

  const RecordSchemaName: string := "InputRecordSchema"
  const FieldDoes: string := " field does"
  const NotSupportedBy: string := " not support by "

  /** The text of the `UnsupportedValueError` raised for each category; `tool`
      is the program name the message ends with. The literals are split where
      the category's marker begins and ends. */
  function RejectionMessage(k: Rejection, tool: string): (r: string)
    ensures StartsWith(r, "The ")
    ensures k != UnsupportedFormat ==> |tool| < |r| && r[|r| - |tool|..] == tool
  {
    match k
    case UnsupportedFormat => "The type field contains " + "an unsupported format"
    case UnionField => "The " + "union field" + " does not support by " + tool
    case CommandInputEnumSchema => "The " + "CommandInputEnumSchema" + " field does not support by " + tool
    case CommandInputRecordSchema => "The " + "Command" + RecordSchemaName + FieldDoes + NotSupportedBy + tool
    case InputRecordSchemaInArray => "The " + "InputRecordSchema field in the InputArraySchema" + " field does not support by " + tool
    case InputRecordSchema => "The " + (RecordSchemaName + FieldDoes) + NotSupportedBy + tool
  }

  lemma OccursBetween(a: string, b: string, c: string, d: string)
    ensures OccursAt(a + b + c + d, b, |a|)
  {
    assert (a + b + c + d)[|a|..|a| + |b|] == b;
  }

  lemma OccursAcross(a: string, b: string, c: string, d: string, e: string, f: string)
    ensures OccursAt(a + b + c + d + e + f, b + c, |a|)
    ensures OccursAt(a + b + c + d + e + f, c + d, |a| + |b|)
  {
    var s := a + b + c + d + e + f;
    assert s[|a|..|a| + |b + c|] == b + c;
    assert s[|a| + |b|..|a| + |b| + |c + d|] == c + d;
  }

  /** Every message carries the words callers search it for. */
  lemma MessageNamesItsCategory(k: Rejection, tool: string)
    ensures Contains(RejectionMessage(k, tool), Marker(k))
  {
    match k
    case UnsupportedFormat =>
      OccursBetween("The type field contains ", Marker(k), "", "");
      assert RejectionMessage(k, tool) == "The type field contains " + Marker(k) + "" + "";
    case UnionField =>
      OccursBetween("The ", Marker(k), " does not support by ", tool);
    case CommandInputEnumSchema =>
      OccursBetween("The ", Marker(k), " field does not support by ", tool);
    case CommandInputRecordSchema =>
      OccursAcross("The ", "Command", RecordSchemaName, FieldDoes, NotSupportedBy, tool);
    case InputRecordSchemaInArray =>
      OccursBetween("The ", Marker(k), " field does not support by ", tool);
    case InputRecordSchema =>
      OccursBetween("The ", Marker(k), NotSupportedBy, tool);
  }

  /** The words of `InputRecordSchema` are found in the message of
      `CommandInputRecordSchema` too, so a search for them cannot tell the two
      apart. */
  lemma MarkerOverlap(tool: string)
    ensures Contains(RejectionMessage(CommandInputRecordSchema, tool), Marker(InputRecordSchema))
  {
    OccursAcross("The ", "Command", RecordSchemaName, FieldDoes, NotSupportedBy, tool);
  }

  /** The length of each message, which tells the categories apart except
      for the two whose words start differently. */
  lemma MessageLength(k: Rejection, tool: string)
    ensures |RejectionMessage(k, tool)| == match k
      case UnsupportedFormat => 45
      case UnionField => 36 + |tool|
      case CommandInputEnumSchema => 53 + |tool|
      case CommandInputRecordSchema => 55 + |tool|
      case InputRecordSchemaInArray => 78 + |tool|
      case InputRecordSchema => 48 + |tool|
  {
  }

  /** Whatever the program name, no two categories share a message. */
  lemma MessagesDiffer(k1: Rejection, k2: Rejection, tool: string)
    requires k1 != k2
    ensures RejectionMessage(k1, tool) != RejectionMessage(k2, tool)
  {
    MessageLength(k1, tool);
    MessageLength(k2, tool);
    if {k1, k2} == {UnsupportedFormat, UnionField} {
      assert RejectionMessage(UnsupportedFormat, tool)[4] == 't';
      assert RejectionMessage(UnionField, tool)[4] == 'u';
    }
  }

  /** Why a whole document yields no field list: a rejected parameter, or a
      packed document without a main process, where the source then reads
      `inputs` off a Python list and fails with an `AttributeError`. */
  datatype ParseError = Unsupported(rejection: Rejection) | NotAProcess

  /** The type names the bare-string dispatch accepts. */
  const TypicalTags: seq<string> := ["boolean", "int", "string", "File", "stdin", "Directory", "Any"]

  /** The `items` an array schema may have: the typical tags without "stdin". */
  const ArrayItemTags: seq<string> := ["boolean", "int", "string", "File", "Directory", "Any"]

  /** `isinstance(t, InputRecordSchema)`: in the loader's class hierarchy a
      `CommandInputRecordSchema` is also an `InputRecordSchema`. */
  predicate IsRecordSchema(t: TypeShape)
  {
    t.InRecord? || t.CmdRecord?
  }

  predicate IsArrayItem(t: TypeShape)
  {
    t.Tag? && t.name in ArrayItemTags
  }

  /** What a walk over `inputs` leaves behind: the fields appended so far and,
      if it stopped early, the rejection that stopped it. */
  datatype Run = Run(emitted: seq<InputField>, failure: Option<Rejection>)

  /** The loop of both copies: convert the parameters in order, append each
      field, and stop at the first parameter that is rejected. */
  function FailFast(convert: InputParameter -> Result<InputField, Rejection>, ps: seq<InputParameter>): (r: Run)
    ensures r.failure.None? ==> |r.emitted| == |ps|
    ensures r.failure.Some? ==> |r.emitted| < |ps|
    decreases |ps|
  {
    if ps == [] then Run([], None)
    else
      var before := FailFast(convert, ps[..|ps| - 1]);
      if before.failure.Some? then before
      else
        match convert(ps[|ps| - 1])
        case Success(f) => Run(before.emitted + [f], None)
        case Failure(e) => Run(before.emitted, Some(e))
  }

  /** Every parameter before index `k` is accepted. */
  ghost predicate AcceptedBefore(convert: InputParameter -> Result<InputField, Rejection>, ps: seq<InputParameter>, k: nat)
    requires k <= |ps|
  {
    forall j :: 0 <= j < k ==> convert(ps[j]).Success?
  }

  /** The walk, characterised by the first rejected parameter `k` (or `k == |ps|`
      when there is none): one field per parameter before `k`, in order, each
      the conversion of its parameter, and the rejection of parameter `k`. */
  lemma {:induction false} FailFastSpec(convert: InputParameter -> Result<InputField, Rejection>, ps: seq<InputParameter>, k: nat)
    requires k <= |ps| && AcceptedBefore(convert, ps, k)
    requires k < |ps| ==> convert(ps[k]).Failure?
    ensures |FailFast(convert, ps).emitted| == k
    ensures forall j :: 0 <= j < k ==> FailFast(convert, ps).emitted[j] == convert(ps[j]).value
    ensures FailFast(convert, ps).failure == if k == |ps| then None else Some(convert(ps[k]).error)
    decreases |ps|
  {
    if ps != [] {
      var init := ps[..|ps| - 1];
      assert forall j :: 0 <= j < |init| ==> init[j] == ps[j];
      if k == |ps| {
        FailFastSpec(convert, init, k - 1);
      } else {
        FailFastSpec(convert, init, k);
      }
    }
  }

  /** The position of the first rejected parameter, or `|ps|` when all are accepted. */
  function FirstRejected(convert: InputParameter -> Result<InputField, Rejection>, ps: seq<InputParameter>): (k: nat)
    ensures k <= |ps| && AcceptedBefore(convert, ps, k)
    ensures k < |ps| ==> convert(ps[k]).Failure?
  {
    if ps == [] then 0
    else if convert(ps[0]).Failure? then 0
    else
      var rest := ps[1..];
      var k := FirstRejected(convert, rest);
      assert forall j :: 0 <= j < k ==> rest[j] == ps[j + 1];
      1 + k
  }

  /** The walk accepts the whole list exactly when every parameter is accepted,
      and then emits one field per parameter, in order; otherwise it stops with
      the rejection of the first rejected parameter. */
  lemma FailFastOutcome(convert: InputParameter -> Result<InputField, Rejection>, ps: seq<InputParameter>)
    ensures FailFast(convert, ps).failure.None? <==> forall j :: 0 <= j < |ps| ==> convert(ps[j]).Success?
    ensures FailFast(convert, ps).failure.None? ==>
      && |FailFast(convert, ps).emitted| == |ps|
      && forall j :: 0 <= j < |ps| ==> FailFast(convert, ps).emitted[j] == convert(ps[j]).value
    ensures FailFast(convert, ps).failure.Some? ==>
      var k := FirstRejected(convert, ps);
      k < |ps| && FailFast(convert, ps).failure == Some(convert(ps[k]).error)
  {
    var k := FirstRejected(convert, ps);
    FailFastSpec(convert, ps, k);
  }

  /** Once the walk has stopped on a prefix, the rest of the list is never looked at. */
  lemma {:induction false} FailFastStops(convert: InputParameter -> Result<InputField, Rejection>, ps: seq<InputParameter>, n: nat)
    requires n <= |ps|
    requires FailFast(convert, ps[..n]).failure.Some?
    ensures FailFast(convert, ps) == FailFast(convert, ps[..n])
    decreases |ps| - n
  {
    if n < |ps| {
      var init := ps[..|ps| - 1];
      assert init[..n] == ps[..n];
      FailFastStops(convert, init, n);
    } else {
      assert ps[..n] == ps;
    }
  }

  /** One more accepted parameter: its field is appended and the walk goes on. */
  lemma FailFastAccepts(convert: InputParameter -> Result<InputField, Rejection>, ps: seq<InputParameter>, i: nat, f: InputField)
    requires i < |ps| && FailFast(convert, ps[..i]).failure.None?
    requires convert(ps[i]) == Success(f)
    ensures FailFast(convert, ps[..i + 1]) == Run(FailFast(convert, ps[..i]).emitted + [f], None)
  {
    assert ps[..i + 1][..i] == ps[..i];
  }

  /** A rejected parameter ends the walk over the whole list, with the fields
      emitted before it. */
  lemma FailFastRejects(convert: InputParameter -> Result<InputField, Rejection>, ps: seq<InputParameter>, i: nat, e: Rejection)
    requires i < |ps| && FailFast(convert, ps[..i]).failure.None?
    requires convert(ps[i]) == Failure(e)
    ensures FailFast(convert, ps) == Run(FailFast(convert, ps[..i]).emitted, Some(e))
  {
    assert ps[..i + 1][..i] == ps[..i];
    FailFastStops(convert, ps, i + 1);
  }

  /** Two conversions that accept and reject the same parameters, with the same
      rejections, and whose fields agree on everything but `secondaryFiles`,
      walk a list to the same point with the same fields up to `secondaryFiles`. */
  lemma {:induction false} FailFastAgree(
    c1: InputParameter -> Result<InputField, Rejection>,
    c2: InputParameter -> Result<InputField, Rejection>,
    ps: seq<InputParameter>)
    requires forall p :: p in ps ==> c1(p).Success? == c2(p).Success?
    requires forall p :: p in ps && c1(p).Failure? ==> c1(p).error == c2(p).error
    requires forall p :: p in ps && c1(p).Success? ==>
      c1(p).value.(secondaryFiles := None) == c2(p).value.(secondaryFiles := None)
    ensures FailFast(c1, ps).failure == FailFast(c2, ps).failure
    ensures |FailFast(c1, ps).emitted| == |FailFast(c2, ps).emitted|
    ensures forall j :: 0 <= j < |FailFast(c1, ps).emitted| ==>
      FailFast(c1, ps).emitted[j].(secondaryFiles := None) == FailFast(c2, ps).emitted[j].(secondaryFiles := None)
    decreases |ps|
  {
    if ps != [] {
      var init := ps[..|ps| - 1];
      assert forall p :: p in init ==> p in ps;
      FailFastAgree(c1, c2, init);
      assert ps[|ps| - 1] in ps;
    }
  }
}
