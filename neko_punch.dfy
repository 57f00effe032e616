/**
 * The historical copy of the classifier (`Neko` and its helpers in
 * src-py/neko_punch/utils.py). Its builders for bare type names, files, stdin
 * and `InputArraySchema` arrays, its `clean_val`, `template_field`,
 * `extract_main_tool` and `is_remote_url` do what the current copy's do, so
 * they are the definitions of module CwlInputsParser. It differs in three
 * ways: `punch` has no secondary-file step after the dispatch, the builder for
 * a `CommandInputArraySchema` copies the parameter's secondary files verbatim,
 * and the messages name neko-punch.
 */
module NekoPunch {
  import opened PyStr
  import opened CwlTypes
  import Current = CwlInputsParser

  /** The program name the messages of this copy end with. */
  const ToolName: string := "neko-punch"

  /** The text of the `UnsupportedValueError` raised for each category. */
  function Message(k: Rejection): string
  {
    RejectionMessage(k, ToolName)
  }

  /** Both copies word the unsupported-format message alike and every other
      message differently; each still carries its category's marker. */
  lemma MessagesOfTheTwoCopies(k: Rejection)
    ensures Message(k) == Current.Message(k) <==> k == UnsupportedFormat
    ensures Contains(Message(k), Marker(k))
  {
    MessageNamesItsCategory(k, ToolName);
    MessageLength(k, ToolName);
    MessageLength(k, Current.ToolName);
  }

  /** The test suite expects the words of `InputRecordSchema` from a tool whose
      parameter is a `CommandInputRecordSchema`: they are in its message. */
  lemma RecordMessageCarriesBothMarkers()
    ensures Contains(Message(CommandInputRecordSchema), Marker(CommandInputRecordSchema))
    ensures Contains(Message(CommandInputRecordSchema), Marker(InputRecordSchema))
  {
    MessageNamesItsCategory(CommandInputRecordSchema, ToolName);
    MarkerOverlap(ToolName);
  }

  // ---------------------------------------------------------------------------
  // The builder that differs

  /** The secondary files as `command_input_array_field` copies them: pattern
      and `required` unchanged, so an unset `required` stays unset and a
      trailing "?" stays in the pattern. */
  function CopiedSecondaryFiles(sfs: seq<SecondaryFileSchema>): (r: seq<SecondaryFile>)
    ensures |r| == |sfs|
    ensures forall i :: 0 <= i < |sfs| ==>
      r[i].pattern == sfs[i].pattern && r[i].required == sfs[i].required
  {
    seq(|sfs|, i requires 0 <= i < |sfs| => SecondaryFile(sfs[i].pattern, sfs[i].required))
  }

  /** The copying loop. */
  method CopySecondaryFiles(sfs: seq<SecondaryFileSchema>) returns (out: seq<SecondaryFile>)
    ensures out == CopiedSecondaryFiles(sfs)
  {
    out := [];
    for i := 0 to |sfs|
      invariant |out| == i
      invariant forall j :: 0 <= j < i ==> out[j] == SecondaryFile(sfs[j].pattern, sfs[j].required)
    {
      out := out + [SecondaryFile(sfs[i].pattern, sfs[i].required)];
    }
    assert forall j :: 0 <= j < |sfs| ==> out[j] == CopiedSecondaryFiles(sfs)[j];
  }

  /** `command_input_array_field`: the current copy's array field, plus a copy of
      the parameter's secondary files when it lists any, whatever the items. */
  function CommandInputArrayField(p: InputParameter): (f: InputField)
    requires p.ty.CmdArray?
    ensures f.(secondaryFiles := None) == Current.CommandInputArrayField(p)
    ensures f.ty == p.ty.items && f.isArray
    ensures p.secondaryFiles.Some? && |p.secondaryFiles.value| > 0 ==>
      f.secondaryFiles == Some(CopiedSecondaryFiles(p.secondaryFiles.value))
    ensures !(p.secondaryFiles.Some? && |p.secondaryFiles.value| > 0) ==> f.secondaryFiles.None?
  {
    var result := Current.TemplateField(p).(ty := p.ty.items, isArray := true);
    if p.secondaryFiles.Some? && |p.secondaryFiles.value| > 0 then
      result.(secondaryFiles := Some(CopiedSecondaryFiles(p.secondaryFiles.value)))
    else result
  }

  /** The builder step by step, as the source writes it. */
  method BuildCommandInputArrayField(p: InputParameter) returns (f: InputField)
    requires p.ty.CmdArray?
    ensures f == CommandInputArrayField(p)
  {
    f := Current.TemplateField(p);
    f := f.(ty := p.ty.items);
    f := f.(isArray := true);
    if p.secondaryFiles.Some? && |p.secondaryFiles.value| > 0 {
      var copied := CopySecondaryFiles(p.secondaryFiles.value);
      f := f.(secondaryFiles := Some(copied));
    }
  }

  // ---------------------------------------------------------------------------
  // Classification

  /** The dispatch of `punch` on a parameter's `type`: the same if-chain as the
      current copy, with this copy's array builder and nothing after it. */
  function Classify(p: InputParameter): (r: Result<InputField, Rejection>)
    ensures r.Success? ==> (r.value.isArray <==> p.ty.CmdArray? || p.ty.InArray? || Current.IsWrappedArray(p.ty))
    ensures r.Success? ==> (r.value.required <==> !(p.ty.Union? && |p.ty.members| == 2))
    ensures r.Success? && r.value.secondaryFiles.Some? ==> p.ty.CmdArray? || IsWrappedCmdArray(p.ty)
  {
    match p.ty
    case Tag(_) => Current.TypicalField(p)
    case Union(ms) =>
      if |ms| == 1 then
        var single := p.(ty := ms[0]);
        match ms[0]
        case Tag(_) => Current.TypicalField(single)
        case CmdArray(_, _, _) => Success(CommandInputArrayField(single))
        case InArray(_, _, _) => Success(Current.InputArrayField(single))
        case _ => Failure(UnsupportedFormat)
      else if |ms| == 2 then
        if NullTag in ms then
          match Current.TypicalField(p.(ty := Current.LastNonNull(ms, p.ty)))
          case Success(f) => Success(f.(required := false))
          case Failure(e) => Failure(e)
        else
          Failure(UnionField)
      else
        Failure(UnionField)
    case CmdArray(items, _, _) =>
      if !IsArrayItem(items) then Failure(UnsupportedFormat)
      else Success(CommandInputArrayField(p))
    case CmdEnum => Failure(CommandInputEnumSchema)
    case CmdRecord => Failure(CommandInputRecordSchema)
    case InArray(items, _, _) =>
      if IsRecordSchema(items) then Failure(InputRecordSchemaInArray)
      else if !IsArrayItem(items) then Failure(UnsupportedFormat)
      else Success(Current.InputArrayField(p))
    case InRecord => Failure(InputRecordSchema)
    case OtherShape => Failure(UnsupportedFormat)
  }

  /** A `CommandInputArraySchema` wrapped in a one-element list. */
  predicate IsWrappedCmdArray(t: TypeShape)
  {
    t.Union? && |t.members| == 1 && t.members[0].CmdArray?
  }

  /** The if-chain of `punch` for one parameter, step by step. */
  method ClassifyParam(p: InputParameter) returns (r: Result<InputField, Rejection>)
    ensures r == Classify(p)
  {
    match p.ty {
      case Tag(_) =>
        r := Current.TypicalField(p);
      case Union(ms) =>
        if |ms| == 1 {
          var single := p.(ty := ms[0]);
          match ms[0] {
            case Tag(_) =>
              r := Current.TypicalField(single);
            case CmdArray(_, _, _) =>
              var f := BuildCommandInputArrayField(single);
              r := Success(f);
            case InArray(_, _, _) =>
              r := Success(Current.InputArrayField(single));
            case _ =>
              r := Failure(UnsupportedFormat);
          }
        } else if |ms| == 2 && NullTag in ms {
          var member := Current.NonNullMember(ms, p.ty);
          r := Current.TypicalField(p.(ty := member));
          if r.Success? {
            r := Success(r.value.(required := false));
          }
        } else {
          r := Failure(UnionField);
        }
      case CmdArray(items, _, _) =>
        if !IsArrayItem(items) {
          r := Failure(UnsupportedFormat);
        } else {
          var f := BuildCommandInputArrayField(p);
          r := Success(f);
        }
      case CmdEnum =>
        r := Failure(CommandInputEnumSchema);
      case CmdRecord =>
        r := Failure(CommandInputRecordSchema);
      case InArray(items, _, _) =>
        if IsRecordSchema(items) {
          r := Failure(InputRecordSchemaInArray);
        } else if !IsArrayItem(items) {
          r := Failure(UnsupportedFormat);
        } else {
          r := Success(Current.InputArrayField(p));
        }
      case InRecord =>
        r := Failure(InputRecordSchema);
      case OtherShape =>
        r := Failure(UnsupportedFormat);
    }
  }

  // ---------------------------------------------------------------------------
  // Agreement with the current copy

  /** Parameter by parameter, both copies accept and reject the same types with
      the same categories and build the same field, up to secondary files. */
  lemma ClassifyAgrees(p: InputParameter)
    ensures Classify(p).Success? <==> Current.NormalizeParam(p).Success?
    ensures Classify(p).Failure? ==> Classify(p).error == Current.NormalizeParam(p).error
    ensures Classify(p).Success? ==>
      Classify(p).value.(secondaryFiles := None) == Current.NormalizeParam(p).value.(secondaryFiles := None)
  {
    if Current.Classify(p).Success? {
      assert Current.NormalizeParam(p).value.(secondaryFiles := None) == Current.Classify(p).value;
    }
  }

  /** Only a command-line array field carries secondary files in this copy, and
      they are the parameter's own, untouched. */
  lemma SecondaryFilesOnlyOnCommandArrays(p: InputParameter)
    requires Classify(p).Success? && Classify(p).value.secondaryFiles.Some?
    ensures Classify(p).value.isArray
    ensures p.ty.CmdArray? || IsWrappedCmdArray(p.ty)
    ensures p.secondaryFiles.Some? && Classify(p).value.secondaryFiles.value == CopiedSecondaryFiles(p.secondaryFiles.value)
  {
  }

  /** `typical_field` with `file_field` and `stdin_field`: a bare name is
      accepted iff it is one of the seven, as that type with "stdin" read as
      File, not an array, required and without secondary files; a File
      default given as a mapping is narrowed to its "location", else its
      "path". */
  lemma BareTypeName(p: InputParameter)
    requires p.ty.Tag?
    ensures Classify(p).Success? <==> p.ty.name in TypicalTags
    ensures Classify(p).Failure? ==> Classify(p).error == UnsupportedFormat
    ensures Classify(p).Success? ==>
      var f := Classify(p).value;
      && f.ty == Tag(if p.ty.name == StdinType then FileType else p.ty.name)
      && !f.isArray && f.required && f.secondaryFiles.None?
    ensures Classify(p).Success? && (p.ty.name == FileType || p.ty.name == StdinType) && p.default.Dict? ==>
      Classify(p).value.default ==
        if Current.LocationKey in p.default.entries then p.default.entries[Current.LocationKey]
        else if Current.PathKey in p.default.entries then p.default.entries[Current.PathKey]
        else p.default
  {
  }

  /** `template_field` with `clean_val`: every field built from a bare name has
      the short id, the cleaned doc and label, and the copied default unless
      it is a File. */
  lemma TemplateOfBareName(p: InputParameter)
    requires p.ty.Tag? && Classify(p).Success?
    ensures var f := Classify(p).value;
      && (f.id.Some? <==> p.id.Some?)
      && (f.id.Some? ==> IsLastFragment(f.id.value, Clean(p.id.value), '#'))
      && f.doc == Current.CleanVal(p.doc) && f.labelText == Current.CleanVal(p.labelText)
      && (p.doc == Null ==> f.doc == Null) && (p.labelText == Null ==> f.labelText == Null)
  {
    ClassifyOfName(p);
    Current.TypicalFieldIsTemplate(p);
    var f := Classify(p).value;
    var t := Current.TemplateField(p);
    assert f.id == t.id && f.doc == t.doc && f.labelText == t.labelText;
  }

  lemma ClassifyOfName(p: InputParameter)
    requires p.ty.Tag?
    ensures Classify(p) == Current.TypicalField(p)
  {
  }

  /** Lists: a two-element list with "null" gives the other member's field,
      optional; other lists of two and lists of three or more, or none, are
      rejected as a union. */
  lemma Unions(p: InputParameter)
    requires p.ty.Union? && |p.ty.members| != 1
    ensures |p.ty.members| == 2 && NullTag in p.ty.members && Classify(p).Success? ==>
      !Classify(p).value.required
    ensures !(|p.ty.members| == 2 && NullTag in p.ty.members) ==> Classify(p) == Failure(UnionField)
    ensures Classify(p).Failure? ==> Contains(Message(Classify(p).error), Marker(Classify(p).error))
  {
    if Classify(p).Failure? {
      MessageNamesItsCategory(Classify(p).error, ToolName);
    }
  }

  /** Schemas: enum and record schemas, and record items of an
      `InputArraySchema`, are rejected with their own categories; array items
      outside the six names are an unsupported format. */
  lemma Schemas(p: InputParameter)
    requires p.ty.CmdEnum? || p.ty.CmdRecord? || p.ty.InRecord? || p.ty.CmdArray? || p.ty.InArray?
    ensures p.ty.CmdEnum? ==> Classify(p) == Failure(CommandInputEnumSchema)
    ensures p.ty.CmdRecord? ==> Classify(p) == Failure(CommandInputRecordSchema)
    ensures p.ty.InRecord? ==> Classify(p) == Failure(InputRecordSchema)
    ensures p.ty.InArray? && IsRecordSchema(p.ty.items) ==> Classify(p) == Failure(InputRecordSchemaInArray)
    ensures (p.ty.CmdArray? || (p.ty.InArray? && !IsRecordSchema(p.ty.items))) ==>
      (Classify(p).Success? <==> IsArrayItem(p.ty.items))
    ensures Classify(p).Failure? && (p.ty.CmdArray? || p.ty.InArray?) ==>
      Classify(p).error == if p.ty.InArray? && IsRecordSchema(p.ty.items) then InputRecordSchemaInArray else UnsupportedFormat
  {
  }

  /** `input_array_field`: the items as type, an array; a missing label or doc
      is taken, cleaned, from the schema. */
  lemma InputArrays(p: InputParameter)
    requires p.ty.InArray? && IsArrayItem(p.ty.items)
    ensures Classify(p).Success?
    ensures var f := Classify(p).value;
      && f.ty == p.ty.items && f.isArray && f.required && f.secondaryFiles.None?
      && f.labelText == Current.CleanVal(if p.labelText == Null then p.ty.labelText else p.labelText)
      && f.doc == Current.CleanVal(if p.doc == Null then p.ty.doc else p.doc)
  {
  }

  /** The test suite's unknown type name "foobar" is rejected as an unsupported format. */
  lemma UnknownNameRejected(p: InputParameter)
    requires p.ty == Tag("foobar")
    ensures Classify(p) == Failure(UnsupportedFormat)
    ensures Contains(Message(Classify(p).error), Marker(UnsupportedFormat))
  {
    assert forall i :: 0 <= i < |TypicalTags| ==> |TypicalTags[i]| != 6 || TypicalTags[i][0] != 'f';
    MessageNamesItsCategory(UnsupportedFormat, ToolName);
  }

  /** The test suite's array of Files with secondary files: this copy keeps the
      pattern with its "?" and leaves an unset `required` unset, where the
      current copy strips the "?" and makes the file optional. */
  lemma ArrayOfFilesDiffers(p: InputParameter)
    requires p.ty == CmdArray(FileTag, Null, Null)
    requires p.secondaryFiles == Some([SecondaryFileSchema(".bai?", None)])
    ensures Classify(p).Success? && Current.NormalizeParam(p).Success?
    ensures Classify(p).value.secondaryFiles == Some([SecondaryFile(".bai?", None)])
    ensures Current.NormalizeParam(p).value.secondaryFiles == Some([SecondaryFile(".bai", Some(false))])
  {
    assert IsArrayItem(FileTag) by {
      assert ArrayItemTags[3] == FileType;
    }
    var sf := p.secondaryFiles.value[0];
    assert EndsWith(sf.pattern, '?');
    assert sf.pattern[..4] == ".bai";
    assert RStripChar(".bai", '?') == ".bai";
    assert Current.ExpandedSecondaryFiles(p.secondaryFiles.value) == [SecondaryFile(".bai", Some(false))];
    assert CopiedSecondaryFiles(p.secondaryFiles.value) == [SecondaryFile(".bai?", None)];
  }

  // ---------------------------------------------------------------------------
  // The object

  class Neko {
    const oriCwlObj: LoadResult
    const cwlObj: LoadResult
    var results: seq<InputField>

    /** `Neko(cwl_obj)` only stores the document and its main process. */
    constructor (obj: LoadResult)
      ensures oriCwlObj == obj && cwlObj == Current.MainTool(obj) && results == []
    {
      oriCwlObj := obj;
      var main := Current.ExtractMainTool(obj);
      cwlObj := main;
      results := [];
    }

    /** `punch`: appends one field per parameter, in order, and stops at the
        first rejected one, keeping the fields appended before it. */
    method Punch() returns (err: Option<ParseError>)
      modifies this`results
      ensures cwlObj.Many? ==> err == Some(NotAProcess) && results == old(results)
      ensures cwlObj.One? ==>
        var run := FailFast(Classify, cwlObj.process.inputs);
        && results == old(results) + run.emitted
        && err == if run.failure.None? then None else Some(Unsupported(run.failure.value))
    {
      if cwlObj.Many? {
        return Some(NotAProcess);
      }
      var ps := cwlObj.process.inputs;
      var i := 0;
      while i < |ps|
        invariant 0 <= i <= |ps|
        invariant FailFast(Classify, ps[..i]).failure.None?
        invariant results == old(results) + FailFast(Classify, ps[..i]).emitted
      {
        var r := ClassifyParam(ps[i]);
        if r.Failure? {
          FailFastRejects(Classify, ps, i, r.error);
          return Some(Unsupported(r.error));
        }
        FailFastAccepts(Classify, ps, i, r.value);
        results := results + [r.value];
        i := i + 1;
      }
      assert ps[..i] == ps;
      err := None;
    }
  }

  /** Over a whole `inputs` list, `punch` stops where `Inputs` stops, with the
      same rejection, after the same fields up to secondary files. */
  lemma PunchAgrees(ps: seq<InputParameter>)
    ensures FailFast(Classify, ps).failure == FailFast(Current.NormalizeParam, ps).failure
    ensures |FailFast(Classify, ps).emitted| == |FailFast(Current.NormalizeParam, ps).emitted|
    ensures forall j :: 0 <= j < |FailFast(Classify, ps).emitted| ==>
      FailFast(Classify, ps).emitted[j].(secondaryFiles := None)
        == FailFast(Current.NormalizeParam, ps).emitted[j].(secondaryFiles := None)
  {
    forall p | p in ps
      ensures Classify(p).Success? == Current.NormalizeParam(p).Success?
      ensures Classify(p).Failure? ==> Classify(p).error == Current.NormalizeParam(p).error
      ensures Classify(p).Success? ==>
        Classify(p).value.(secondaryFiles := None) == Current.NormalizeParam(p).value.(secondaryFiles := None)
    {
      ClassifyAgrees(p);
    }
    FailFastAgree(Classify, Current.NormalizeParam, ps);
  }
}
