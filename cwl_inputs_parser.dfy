/**
 * The current copy of the classifier (`Inputs` and its helpers in
 * cwl_inputs_parser/utils.py): it walks the `inputs` of the main process of a
 * loaded CWL v1.2 document, classifies each parameter's `type` into one flat
 * `InputField`, normalises its id, text, default and secondary files, and
 * rejects the whole document at the first parameter whose type it does not
 * support.
 */
module CwlInputsParser {
  import opened PyStr
  import opened CwlTypes

  /** The program name the messages of this copy end with. */
  const ToolName: string := "cwl-inputs-parser"

  /** The text of the `UnsupportedValueError` raised for each category. */
  function Message(k: Rejection): string
  {
    RejectionMessage(k, ToolName)
  }

  const HttpScheme: string := "http://"
  const HttpsScheme: string := "https://"

  /** `is_remote_url`: an http or https location. */
  predicate IsRemoteUrl(location: string)
    ensures IsRemoteUrl(location) ==> |location| >= |HttpScheme| && location[..4] == "http"
  {
    assert StartsWith(location, HttpScheme) ==> location[..4] == location[..7][..4];
    assert StartsWith(location, HttpsScheme) ==> location[..4] == location[..8][..4];

    StartsWith(location, HttpScheme) || StartsWith(location, HttpsScheme)
  }

  /** Whatever follows a remote location's scheme, it stays remote; a remote
      location starts with "h", so an absolute local path never is one. */
  lemma RemoteUrlIsPrefixClosed(location: string, rest: string)
    ensures IsRemoteUrl(location) ==> IsRemoteUrl(location + rest)
    ensures IsRemoteUrl(location) ==> |location| >= |HttpScheme| && location[0] == 'h'
    ensures StartsWith(location, "/") ==> !IsRemoteUrl(location)
  {
    if StartsWith(location, HttpScheme) {
      assert location[0] == location[..7][0];
      assert (location + rest)[..7] == location[..7];
    }
    if StartsWith(location, HttpsScheme) {
      assert location[0] == location[..8][0];
      assert (location + rest)[..8] == location[..8];
    }
    if StartsWith(location, "/") {
      assert location[0] == location[..1][0];
    }
  }

  // ---------------------------------------------------------------------------
  // Main-tool extraction

  const NoneText: string := "None"
  const WorkflowClass: string := "Workflow"
  const MainId: string := "main"

  /** `str(obj.id).rsplit("#", maxsplit=1)[-1]`; Python prints a missing id as
      "None", which holds no "#". */
  function IdFragment(id: Option<string>): string
  {
    match id
    case None => NoneText
    case Some(s) => AfterLast(s, '#')
  }

  /** The test `extract_main_tool` applies to each process of a packed document. */
  predicate IsMain(p: Process)
  {
    p.processClass == WorkflowClass || IdFragment(p.id) == MainId
  }

  /** The position of the first main process at or after `i`, or `|ps|` when
      there is none. */
  function FirstMainFrom(ps: seq<Process>, i: nat): (k: nat)
    requires i <= |ps|
    ensures i <= k <= |ps|
    ensures k < |ps| ==> IsMain(ps[k])
    ensures forall j :: i <= j < k ==> !IsMain(ps[j])
    decreases |ps| - i
  {
    if i == |ps| then i
    else if IsMain(ps[i]) then i
    else FirstMainFrom(ps, i + 1)
  }

  /** The position of the first main process, or `|ps|` when there is none. */
  function FirstMainIndex(ps: seq<Process>): (k: nat)
    ensures k <= |ps|
    ensures k < |ps| ==> IsMain(ps[k])
    ensures forall j :: 0 <= j < k ==> !IsMain(ps[j])
  {
    FirstMainFrom(ps, 0)
  }

  /** What `extract_main_tool` returns: the first main process of a packed
      document, and otherwise its argument unchanged (a list, then). */
  function MainTool(obj: LoadResult): (r: LoadResult)
    ensures obj.One? ==> r == obj
    ensures obj.Many? && r.One? ==>
      var k := FirstMainIndex(obj.processes);
      k < |obj.processes| && r.process == obj.processes[k] && IsMain(r.process)
    ensures obj.Many? && r.Many? ==> r == obj && forall j :: 0 <= j < |obj.processes| ==> !IsMain(obj.processes[j])
  {
    match obj
    case One(_) => obj
    case Many(ps) =>
      var k := FirstMainIndex(ps);
      if k < |ps| then One(ps[k]) else obj
  }

  /** `extract_main_tool`: a scan with an early return. */
  method ExtractMainTool(obj: LoadResult) returns (r: LoadResult)
    ensures r == MainTool(obj)
  {
    if obj.Many? {
      var ps := obj.processes;
      for i := 0 to |ps|
        invariant forall j :: 0 <= j < i ==> !IsMain(ps[j])
      {
        if IsMain(ps[i]) {
          FirstMainIndexIs(ps, i);
          return One(ps[i]);
        }
      }
      FirstMainIndexIs(ps, |ps|);
    }
    return obj;
  }

  /** The scan's stopping point is the first main process. */
  lemma FirstMainIndexIs(ps: seq<Process>, i: nat)
    requires i <= |ps| && (i < |ps| ==> IsMain(ps[i]))
    requires forall j :: 0 <= j < i ==> !IsMain(ps[j])
    ensures FirstMainIndex(ps) == i
  {
  }

  // ---------------------------------------------------------------------------
  // Field builders

  /** `_clean_val`: a string loses its line feeds and surrounding white space;
      anything else (`None`, a list of doc lines, ...) passes through. */
  function CleanVal(v: Value): (r: Value)
    ensures !v.Str? ==> r == v
    ensures v.Str? ==> r.Str? && '\n' !in r.s && IsTrimmed(r.s)
    ensures v.Str? ==> r == Str(Clean(v.s))
  {
    if v.Str? then Str(Clean(v.s)) else v
  }

  /** Text that is already clean comes back unchanged, so cleaning twice is
      cleaning once. */
  lemma CleanValFixpoint(v: Value)
    ensures v.Str? && '\n' !in v.s && IsTrimmed(v.s) ==> CleanVal(v) == v
    ensures CleanVal(CleanVal(v)) == CleanVal(v)
  {
    if v.Str? {
      CleanFixpoint(Clean(v.s));
      if '\n' !in v.s && IsTrimmed(v.s) {
        CleanFixpoint(v.s);
      }
    }
  }

  /** The seven type names are already clean. */
  lemma TypicalTagIsClean(s: string)
    requires s in TypicalTags
    ensures Clean(s) == s
  {
    CleanFixpoint(s);
  }

  /** `_clean_val` applied to a `type` attribute. */
  function CleanShape(t: TypeShape): (r: TypeShape)
    ensures !t.Tag? ==> r == t
    ensures t.Tag? ==> r.Tag? && '\n' !in r.name && IsTrimmed(r.name)
    ensures t.Tag? && t.name in TypicalTags ==> r == t
  {
    assert t.Tag? && t.name in TypicalTags ==> Clean(t.name) == t.name by {
      if t.Tag? && t.name in TypicalTags {
        TypicalTagIsClean(t.name);
      }
    }
    if t.Tag? then Tag(Clean(t.name)) else t
  }

  /** `_template_field`: the short id, the cleaned text, the copied default and
      type; not an array, required, no secondary files. */
  function TemplateField(p: InputParameter): (f: InputField)
    ensures f.default == p.default
    ensures f.id.Some? <==> p.id.Some?
    ensures f.id.Some? ==> IsLastFragment(f.id.value, Clean(p.id.value), '#')
    ensures f.doc == CleanVal(p.doc) && f.labelText == CleanVal(p.labelText)
    ensures p.ty.Tag? && p.ty.name in TypicalTags ==> f.ty == p.ty
    ensures !f.isArray && f.required && f.secondaryFiles.None?
  {
    var id := match p.id
      case None => None
      case Some(s) => Some(AfterLast(Clean(s), '#'));
    assert p.id.Some? ==> IsLastFragment(AfterLast(Clean(p.id.value), '#'), Clean(p.id.value), '#') by {
      if p.id.Some? {
        AfterLastIsLastFragment(Clean(p.id.value), '#');
      }
    }
    var ty := CleanShape(p.ty);
    InputField(p.default, CleanVal(p.doc), id, CleanVal(p.labelText), ty, false, true, None)
  }

  const LocationKey: string := "location"
  const PathKey: string := "path"

  /** `_file_field`: a non-empty mapping default is narrowed to its "location",
      or failing that its "path"; any other default is kept. */
  function FileField(p: InputParameter): (f: InputField)
    ensures f.(default := p.default) == TemplateField(p)
    ensures p.default.Dict? && LocationKey in p.default.entries ==>
      f.default == p.default.entries[LocationKey]
    ensures p.default.Dict? && LocationKey !in p.default.entries && PathKey in p.default.entries ==>
      f.default == p.default.entries[PathKey]
    ensures !(p.default.Dict? && (LocationKey in p.default.entries || PathKey in p.default.entries)) ==>
      f.default == p.default
  {
    var field := TemplateField(p);
    if p.default.Dict? && |p.default.entries| != 0 then
      if LocationKey in p.default.entries then field.(default := p.default.entries[LocationKey])
      else if PathKey in p.default.entries then field.(default := p.default.entries[PathKey])
      else field
    else
      assert p.default.Dict? ==> p.default.entries == map[];
      field
  }

  /** `_stdin_field`: the File field, relabelled as a File. */
  function StdinField(p: InputParameter): (f: InputField)
    ensures f.ty == FileTag
    ensures f.(ty := FileField(p).ty) == FileField(p)
  {
    FileField(p).(ty := FileTag)
  }

  /** `_typical_field`: the dispatch on a bare type name. The five builders for
      boolean, int, string, Directory and Any return the template unchanged. */
  function TypicalField(p: InputParameter): (r: Result<InputField, Rejection>)
    ensures r.Success? <==> p.ty.Tag? && p.ty.name in TypicalTags
    ensures r.Failure? ==> r.error == UnsupportedFormat
    ensures r.Success? ==> r.value.ty == Tag(if p.ty.name == StdinType then FileType else p.ty.name)
    ensures r.Success? ==> !r.value.isArray && r.value.required && r.value.secondaryFiles.None?
    ensures r.Success? && p.ty.name != FileType && p.ty.name != StdinType ==> r.value == TemplateField(p)
  {
    if !(p.ty.Tag? && p.ty.name in TypicalTags) then Failure(UnsupportedFormat)
    else if p.ty.name == FileType then Success(FileField(p))
    else if p.ty.name == StdinType then Success(StdinField(p))
    else Success(TemplateField(p))
  }

  /** "File" goes through `_file_field` and "stdin" through `_stdin_field`, so
      both narrow a mapping default to its "location", else its "path". */
  lemma FileAndStdinFields(p: InputParameter)
    requires p.ty == FileTag || p.ty == Tag(StdinType)
    ensures p.ty == FileTag ==> TypicalField(p) == Success(FileField(p))
    ensures p.ty == Tag(StdinType) ==> TypicalField(p) == Success(StdinField(p))
    ensures TypicalField(p).Success? && TypicalField(p).value.ty == FileTag
    ensures p.default.Dict? && LocationKey in p.default.entries ==>
      TypicalField(p).value.default == p.default.entries[LocationKey]
    ensures p.default.Dict? && LocationKey !in p.default.entries && PathKey in p.default.entries ==>
      TypicalField(p).value.default == p.default.entries[PathKey]
    ensures !(p.default.Dict? && (LocationKey in p.default.entries || PathKey in p.default.entries)) ==>
      TypicalField(p).value.default == p.default
  {
    assert TypicalTags[3] == FileType && TypicalTags[4] == StdinType;
    if p.ty == FileTag {
      assert TypicalField(p) == Success(FileField(p));
    } else {
      assert TypicalField(p) == Success(StdinField(p));
      assert StdinField(p).default == FileField(p).default;
    }
  }

  /** Whichever builder a bare name reaches, the field is the template apart
      from its default and its type. */
  lemma TypicalFieldIsTemplate(p: InputParameter)
    requires TypicalField(p).Success?
    ensures TypicalField(p).value.(default := p.default, ty := TemplateField(p).ty) == TemplateField(p)
  {
  }

  /** `_command__input_array_field`: the element type becomes the field's type;
      the schema's own label and doc are not consulted. */
  function CommandInputArrayField(p: InputParameter): (f: InputField)
    requires p.ty.CmdArray?
    ensures f.ty == p.ty.items && f.isArray
    ensures f.(ty := TemplateField(p).ty, isArray := false) == TemplateField(p)
  {
    TemplateField(p).(ty := p.ty.items, isArray := true)
  }

  /** `_input_array_field`: as above, and a missing label or doc is taken,
      cleaned, from the array schema. */
  function InputArrayField(p: InputParameter): (f: InputField)
    requires p.ty.InArray?
    ensures f.ty == p.ty.items && f.isArray && f.required && f.secondaryFiles.None?
    ensures f.default == p.default && f.id == TemplateField(p).id
    ensures p.labelText != Null ==> f.labelText == CleanVal(p.labelText)
    ensures p.labelText == Null ==> f.labelText == CleanVal(p.ty.labelText)
    ensures p.doc != Null ==> f.doc == CleanVal(p.doc)
    ensures p.doc == Null ==> f.doc == CleanVal(p.ty.doc)
  {
    var field := TemplateField(p).(ty := p.ty.items, isArray := true);
    var field := if field.labelText == Null then field.(labelText := CleanVal(p.ty.labelText)) else field;
    if field.doc == Null then field.(doc := CleanVal(p.ty.doc)) else field
  }

  // ---------------------------------------------------------------------------
  // Classification

  /** The position of the last member that is not "null", or -1 when there is none. */
  function LastNonNullIndex(ts: seq<TypeShape>): (k: int)
    ensures -1 <= k < |ts|
    ensures k >= 0 ==> ts[k] != NullTag
    ensures forall j :: k < j < |ts| ==> ts[j] == NullTag
  {
    if ts == [] then -1
    else if ts[|ts| - 1] != NullTag then |ts| - 1
    else LastNonNullIndex(ts[..|ts| - 1])
  }

  /** The member the `for t in type: if t != 'null'` loop leaves behind: the last
      non-null member, or `start` when every member is "null". */
  function LastNonNull(ts: seq<TypeShape>, start: TypeShape): TypeShape
  {
    var k := LastNonNullIndex(ts);
    if k < 0 then start else ts[k]
  }

  /** The loop itself. */
  method NonNullMember(ts: seq<TypeShape>, start: TypeShape) returns (t: TypeShape)
    ensures t == LastNonNull(ts, start)
  {
    t := start;
    for i := 0 to |ts|
      invariant t == LastNonNull(ts[..i], start)
    {
      assert ts[..i + 1][..i] == ts[..i];
      if ts[i] != NullTag {
        t := ts[i];
      }
    }
    assert ts[..|ts|] == ts;
  }

  /** An array schema wrapped in a one-element list. */
  predicate IsWrappedArray(t: TypeShape)
  {
    t.Union? && |t.members| == 1 && (t.members[0].CmdArray? || t.members[0].InArray?)
  }

  /** The branch of `_parse` for a `type` given as a list: one element is
      classified on its own, a pair holding "null" as the other member made
      optional, and anything else is a union. */
  function ClassifyList(p: InputParameter): (r: Result<InputField, Rejection>)
    requires p.ty.Union?
    ensures r.Success? ==> r.value.secondaryFiles.None?
    ensures r.Success? && !IsWrappedArray(p.ty) ==> IsArrayItem(r.value.ty)
    ensures r.Success? ==> (r.value.isArray <==> IsWrappedArray(p.ty))
    ensures r.Success? ==> (r.value.required <==> |p.ty.members| != 2)
  {
    var ms := p.ty.members;
    if |ms| == 1 then
      var single := p.(ty := ms[0]);
      match ms[0]
      case Tag(_) => TypicalField(single)
      case CmdArray(_, _, _) => Success(CommandInputArrayField(single))
      case InArray(_, _, _) => Success(InputArrayField(single))
      case _ => Failure(UnsupportedFormat)
    else if |ms| == 2 then
      if NullTag in ms then
        match TypicalField(p.(ty := LastNonNull(ms, p.ty)))
        case Success(f) => Success(f.(required := false))
        case Failure(e) => Failure(e)
      else
        Failure(UnionField)
    else
      Failure(UnionField)
  }

  /** The dispatch of `_parse` on a parameter's `type`, before secondary files. */
  function Classify(p: InputParameter): (r: Result<InputField, Rejection>)
    ensures r.Success? ==> r.value.secondaryFiles.None?
    ensures r.Success? && !IsWrappedArray(p.ty) ==> IsArrayItem(r.value.ty)
    ensures r.Success? ==> (r.value.isArray <==> p.ty.CmdArray? || p.ty.InArray? || IsWrappedArray(p.ty))
    ensures r.Success? ==> (r.value.required <==> !(p.ty.Union? && |p.ty.members| == 2))
  {
    match p.ty
    case Tag(_) => TypicalField(p)
    case Union(_) => ClassifyList(p)
    case CmdArray(items, _, _) =>
      if !IsArrayItem(items) then Failure(UnsupportedFormat)
      else Success(CommandInputArrayField(p))
    case CmdEnum => Failure(CommandInputEnumSchema)
    case CmdRecord => Failure(CommandInputRecordSchema)
    case InArray(items, _, _) =>
      if IsRecordSchema(items) then Failure(InputRecordSchemaInArray)
      else if !IsArrayItem(items) then Failure(UnsupportedFormat)
      else Success(InputArrayField(p))
    case InRecord => Failure(InputRecordSchema)
    case OtherShape => Failure(UnsupportedFormat)
  }

  // ---------------------------------------------------------------------------
  // Secondary files

  /** One secondary file as `_parse` rewrites it: a pattern ending in "?" loses
      every trailing "?" and becomes optional; otherwise an unset `required`
      becomes true. */
  function ExpandSecondaryFile(sf: SecondaryFileSchema): (r: SecondaryFile)
    ensures r.required.Some? && !EndsWith(r.pattern, '?') && |r.pattern| <= |sf.pattern|
    ensures EndsWith(sf.pattern, '?') ==>
      r.required == Some(false) && r.pattern == sf.pattern[..|r.pattern|]
      && forall i :: |r.pattern| <= i < |sf.pattern| ==> sf.pattern[i] == '?'
    ensures !EndsWith(sf.pattern, '?') ==> r.pattern == sf.pattern && r.required == Some(sf.required.GetOr(true))
  {
    if EndsWith(sf.pattern, '?') then SecondaryFile(RStripChar(sf.pattern, '?'), Some(false))
    else SecondaryFile(sf.pattern, Some(sf.required.GetOr(true)))
  }

  /** Rewriting an already rewritten secondary file changes nothing. */
  lemma ExpandSecondaryFileIdempotent(sf: SecondaryFileSchema)
    ensures var r := ExpandSecondaryFile(sf);
      ExpandSecondaryFile(SecondaryFileSchema(r.pattern, r.required)) == r
  {
  }

  /** `rstrip("?")` drops every trailing "?", so "*.bai??" ends up as "*.bai". */
  lemma DoubleQuestionMarkStripped()
    ensures ExpandSecondaryFile(SecondaryFileSchema("*.bai??", Some(true))) == SecondaryFile("*.bai", Some(false))
  {
    assert "*.bai??"[..6] == "*.bai?";
    assert "*.bai?"[..5] == "*.bai";
    assert RStripChar("*.bai", '?') == "*.bai";
  }

  /** Every secondary file rewritten, in order. */
  function ExpandedSecondaryFiles(sfs: seq<SecondaryFileSchema>): (r: seq<SecondaryFile>)
    ensures |r| == |sfs|
    ensures forall i :: 0 <= i < |sfs| ==> r[i] == ExpandSecondaryFile(sfs[i])
  {
    seq(|sfs|, i requires 0 <= i < |sfs| => ExpandSecondaryFile(sfs[i]))
  }

  /** The `for secondary_file in inp_obj.secondaryFiles` loop of `_parse`. */
  method ExpandSecondaryFiles(sfs: seq<SecondaryFileSchema>) returns (out: seq<SecondaryFile>)
    ensures out == ExpandedSecondaryFiles(sfs)
  {
    out := [];
    for i := 0 to |sfs|
      invariant |out| == i
      invariant forall j :: 0 <= j < i ==> out[j] == ExpandSecondaryFile(sfs[j])
    {
      var required := sfs[i].required;
      var pattern := sfs[i].pattern;
      if EndsWith(pattern, '?') {
        required := Some(false);
        pattern := RStripChar(pattern, '?');
      }
      if required.None? {
        required := Some(true);
      }
      out := out + [SecondaryFile(pattern, required)];
    }
    assert forall j :: 0 <= j < |sfs| ==> out[j] == ExpandedSecondaryFiles(sfs)[j];
  }

  /** The secondary-file step of `_parse`: only a File field whose parameter
      lists secondary files gets them. */
  function WithSecondaryFiles(f: InputField, sfs: Option<seq<SecondaryFileSchema>>): (r: InputField)
    ensures r.(secondaryFiles := f.secondaryFiles) == f
    ensures f.ty != FileTag || sfs.None? || sfs.value == [] ==> r == f
    ensures f.ty == FileTag && sfs.Some? && sfs.value != [] ==>
      && r.secondaryFiles.Some? && |r.secondaryFiles.value| == |sfs.value|
      && forall i :: 0 <= i < |sfs.value| ==>
        && r.secondaryFiles.value[i] == ExpandSecondaryFile(sfs.value[i])
        && r.secondaryFiles.value[i].required.Some? && !EndsWith(r.secondaryFiles.value[i].pattern, '?')
  {
    if f.ty == FileTag && sfs.Some? && |sfs.value| > 0 then
      f.(secondaryFiles := Some(ExpandedSecondaryFiles(sfs.value)))
    else f
  }

  /** One iteration of `_parse`: classify, then attach the secondary files. */
  function NormalizeParam(p: InputParameter): (r: Result<InputField, Rejection>)
    ensures r.Success? <==> Classify(p).Success?
    ensures r.Failure? ==> r.error == Classify(p).error
    ensures r.Success? ==> r.value.(secondaryFiles := None) == Classify(p).value
  {
    match Classify(p)
    case Success(f) => Success(WithSecondaryFiles(f, p.secondaryFiles))
    case Failure(e) => Failure(e)
  }

  /** The if-chain of `_parse` for one parameter, step by step. */
  method ClassifyParam(p: InputParameter) returns (r: Result<InputField, Rejection>)
    ensures r == Classify(p)
  {
    match p.ty {
      case Tag(_) =>
        r := TypicalField(p);
      case Union(ms) =>
        if |ms| == 1 {
          var single := p.(ty := ms[0]);
          match ms[0] {
            case Tag(_) =>
              r := TypicalField(single);
            case CmdArray(_, _, _) =>
              r := Success(CommandInputArrayField(single));
            case InArray(_, _, _) =>
              r := Success(InputArrayField(single));
            case _ =>
              r := Failure(UnsupportedFormat);
          }
        } else if |ms| == 2 && NullTag in ms {
          var member := NonNullMember(ms, p.ty);
          r := TypicalField(p.(ty := member));
          if r.Success? {
            r := Success(r.value.(required := false));
          }
        } else {
          r := Failure(UnionField);
        }
      case CmdArray(items, _, _) =>
        if !IsArrayItem(items) {
          r := Failure(UnsupportedFormat);
        } else {
          r := Success(CommandInputArrayField(p));
        }
      case CmdEnum =>
        r := Failure(CommandInputEnumSchema);
      case CmdRecord =>
        r := Failure(CommandInputRecordSchema);
      case InArray(items, _, _) =>
        if IsRecordSchema(items) {
          r := Failure(InputRecordSchemaInArray);
        } else if !IsArrayItem(items) {
          r := Failure(UnsupportedFormat);
        } else {
          r := Success(InputArrayField(p));
        }
      case InRecord =>
        r := Failure(InputRecordSchema);
      case OtherShape =>
        r := Failure(UnsupportedFormat);
    }
  }

  /** The body of the `_parse` loop for one parameter: classify, then, for a
      File field, rewrite the secondary files. */
  method ParseParam(p: InputParameter) returns (r: Result<InputField, Rejection>)
    ensures r == NormalizeParam(p)
  {
    r := ClassifyParam(p);
    if r.Failure? {
      return;
    }
    var field := r.value;
    if field.ty == FileTag && p.secondaryFiles.Some? && |p.secondaryFiles.value| > 0 {
      var sfs := ExpandSecondaryFiles(p.secondaryFiles.value);
      field := field.(secondaryFiles := Some(sfs));
    }
    assert field == WithSecondaryFiles(r.value, p.secondaryFiles);
    r := Success(field);
  }

  // ---------------------------------------------------------------------------
  // What one parameter becomes

  /** A bare type name: the seven typical names are accepted as that type, with
      "stdin" read as a File; not an array, required; any other name is
      rejected as an unsupported format. */
  lemma BareTypeName(p: InputParameter)
    requires p.ty.Tag?
    ensures NormalizeParam(p).Success? <==> p.ty.name in TypicalTags
    ensures NormalizeParam(p).Failure? ==> NormalizeParam(p).error == UnsupportedFormat
    ensures NormalizeParam(p).Success? ==>
      var f := NormalizeParam(p).value;
      && f.ty == Tag(if p.ty.name == StdinType then FileType else p.ty.name)
      && !f.isArray && f.required
    ensures NormalizeParam(p).Success? && (p.ty.name == FileType || p.ty.name == StdinType) && p.default.Dict? ==>
      NormalizeParam(p).value.default ==
        if LocationKey in p.default.entries then p.default.entries[LocationKey]
        else if PathKey in p.default.entries then p.default.entries[PathKey]
        else p.default
  {
  }

  /** A one-element list holding a bare type name behaves exactly like the name. */
  lemma SingletonList(p: InputParameter)
    requires p.ty.Union? && |p.ty.members| == 1 && p.ty.members[0].Tag?
    ensures NormalizeParam(p) == NormalizeParam(p.(ty := p.ty.members[0]))
  {
  }

  /** A one-element list holding an array schema is never checked against the
      items whitelist: whatever the items, the field is built, with the items
      as its type; the same schema unwrapped is rejected unless its items are
      whitelisted. */
  lemma WrappedArraySkipsWhitelist(p: InputParameter)
    requires IsWrappedArray(p.ty)
    ensures Classify(p).Success?
    ensures Classify(p).value.ty == p.ty.members[0].items && Classify(p).value.isArray
    ensures Classify(p.(ty := p.ty.members[0])).Success? <==>
      IsArrayItem(p.ty.members[0].items)
    ensures IsArrayItem(p.ty.members[0].items) ==>
      Classify(p.(ty := p.ty.members[0])) == Classify(p)
  {
  }

  /** In `["null", T]` and `[T, "null"]` the loop settles on `T`. */
  lemma NullablePicksMember(ms: seq<TypeShape>, t: TypeShape, start: TypeShape)
    requires t != NullTag
    requires ms == [NullTag, t] || ms == [t, NullTag]
    ensures NullTag in ms && LastNonNull(ms, start) == t
  {
    if ms == [t, NullTag] {
      assert ms[..1] == [t];
      assert LastNonNullIndex(ms[..1]) == 0;
    }
  }

  /** The classification of `["null", T]` and `[T, "null"]` is that of the bare
      name `T`, made optional. */
  lemma NullableClassify(p: InputParameter, t: TypeShape)
    requires t != NullTag
    requires p.ty == Union([NullTag, t]) || p.ty == Union([t, NullTag])
    ensures Classify(p) ==
      var c := TypicalField(p.(ty := t));
      if c.Success? then Success(c.value.(required := false)) else Failure(c.error)
  {
    NullablePicksMember(p.ty.members, t, p.ty);
  }

  /** `["null", T]` or `[T, "null"]`: the field of `T` made optional. `T` must be
      a typical type name; a schema in that position reaches the bare-name
      dispatch and is rejected as an unsupported format. */
  lemma NullableUnion(p: InputParameter, t: TypeShape)
    requires t != NullTag
    requires p.ty == Union([NullTag, t]) || p.ty == Union([t, NullTag])
    ensures NormalizeParam(p).Success? <==> t.Tag? && t.name in TypicalTags
    ensures NormalizeParam(p).Failure? ==> NormalizeParam(p).error == UnsupportedFormat
    ensures NormalizeParam(p).Success? ==>
      NormalizeParam(p).value == NormalizeParam(p.(ty := t)).value.(required := false)
  {
    NullableClassify(p, t);
    var q := p.(ty := t);
    var c := TypicalField(q);
    if c.Success? {
      var f := c.value;
      ClassifyOfName(q);
      NormalizeAccepted(q, f);
      NormalizeAccepted(p, f.(required := false));
      SecondaryFilesIgnoreRequired(f, p.secondaryFiles);
      assert NormalizeParam(p).value == WithSecondaryFiles(f, p.secondaryFiles).(required := false);
    } else {
      NormalizeRejected(p, c.error);
    }
  }

  lemma SecondaryFilesIgnoreRequired(f: InputField, sfs: Option<seq<SecondaryFileSchema>>)
    ensures WithSecondaryFiles(f.(required := false), sfs) == WithSecondaryFiles(f, sfs).(required := false)
  {
  }

  lemma ClassifyOfName(p: InputParameter)
    requires p.ty.Tag?
    ensures Classify(p) == TypicalField(p)
  {
  }

  lemma NormalizeAccepted(p: InputParameter, f: InputField)
    requires Classify(p) == Success(f)
    ensures NormalizeParam(p) == Success(WithSecondaryFiles(f, p.secondaryFiles))
  {
  }

  lemma NormalizeRejected(p: InputParameter, e: Rejection)
    requires Classify(p) == Failure(e)
    ensures NormalizeParam(p) == Failure(e)
  {
  }

  /** `["null", "null"]` leaves the list itself in place, which no builder accepts. */
  lemma NullNullRejected(p: InputParameter)
    requires p.ty == Union([NullTag, NullTag])
    ensures NormalizeParam(p) == Failure(UnsupportedFormat)
  {
    assert LastNonNull(p.ty.members, p.ty) == p.ty;
  }

  /** Any other list, empty, of two non-null types or of three or more, is a
      union and is rejected as such. */
  lemma UnionRejected(p: InputParameter)
    requires p.ty.Union?
    requires |p.ty.members| != 1 && (|p.ty.members| == 2 ==> NullTag !in p.ty.members)
    ensures NormalizeParam(p) == Failure(UnionField)
  {
  }

  /** Any type object the dispatch has no branch for (a workflow's
      `InputEnumSchema`, say) is an unsupported format, not an enum. */
  lemma OtherShapeRejected(p: InputParameter)
    requires p.ty == OtherShape
    ensures NormalizeParam(p) == Failure(UnsupportedFormat)
    ensures NormalizeParam(p) != Failure(CommandInputEnumSchema)
  {
  }

  /** A one-element list holding a schema that is neither a name nor an array
      is an unsupported format, whatever its element's own category would be:
      `[CommandInputRecordSchema]` is not rejected as a record schema. */
  lemma SingletonSchemaRejected(p: InputParameter)
    requires p.ty.Union? && |p.ty.members| == 1
    requires !(p.ty.members[0].Tag? || p.ty.members[0].CmdArray? || p.ty.members[0].InArray?)
    ensures NormalizeParam(p) == Failure(UnsupportedFormat)
    ensures p.ty.members[0].CmdEnum? || p.ty.members[0].CmdRecord? || p.ty.members[0].InRecord? ==>
      NormalizeParam(p.(ty := p.ty.members[0])) != NormalizeParam(p)
  {
  }

  /** An array schema at the top level: accepted exactly when its items are one
      of the six whitelisted names ("stdin" is not one), as an array of the
      items; record items of an `InputArraySchema` are rejected first, with
      their own category. */
  lemma ArraySchemas(p: InputParameter)
    requires p.ty.CmdArray? || p.ty.InArray?
    ensures NormalizeParam(p).Success? <==> IsArrayItem(p.ty.items)
    ensures NormalizeParam(p).Success? ==>
      var f := NormalizeParam(p).value;
      f.ty == p.ty.items && f.isArray && f.required
    ensures NormalizeParam(p).Failure? ==>
      NormalizeParam(p).error == if p.ty.InArray? && IsRecordSchema(p.ty.items) then InputRecordSchemaInArray else UnsupportedFormat
    ensures !IsArrayItem(Tag(StdinType))
  {
    assert TypicalTags[4] == StdinType;
    assert forall i :: 0 <= i < |ArrayItemTags| ==> ArrayItemTags[i] != StdinType;
  }

  /** The enum and record schemas are rejected, each with a message that names it. */
  lemma SchemaRejections(p: InputParameter)
    requires p.ty.CmdEnum? || p.ty.CmdRecord? || p.ty.InRecord?
    ensures NormalizeParam(p).Failure?
    ensures p.ty.CmdEnum? ==> NormalizeParam(p).error == CommandInputEnumSchema
    ensures p.ty.CmdRecord? ==> NormalizeParam(p).error == CommandInputRecordSchema
    ensures p.ty.InRecord? ==> NormalizeParam(p).error == InputRecordSchema
    ensures Contains(Message(NormalizeParam(p).error), Marker(NormalizeParam(p).error))
  {
    MessageNamesItsCategory(NormalizeParam(p).error, ToolName);
  }

  /** Secondary files are attached to a File field, and only to one, whose
      parameter lists some; each declared one is rewritten in its place, and
      is optional exactly when its pattern ended in "?" or it said so. */
  lemma SecondaryFilesOfField(p: InputParameter)
    requires NormalizeParam(p).Success?
    ensures var f := NormalizeParam(p).value;
      f.secondaryFiles.Some? <==> f.ty == FileTag && p.secondaryFiles.Some? && |p.secondaryFiles.value| > 0
    ensures var f := NormalizeParam(p).value;
      f.secondaryFiles.Some? ==>
        && |f.secondaryFiles.value| == |p.secondaryFiles.value|
        && forall i :: 0 <= i < |f.secondaryFiles.value| ==>
          && (f.secondaryFiles.value[i].required == Some(false) <==>
               EndsWith(p.secondaryFiles.value[i].pattern, '?') || p.secondaryFiles.value[i].required == Some(false))
          && !EndsWith(f.secondaryFiles.value[i].pattern, '?')
    ensures var f := NormalizeParam(p).value;
      f.secondaryFiles.Some? ==> f.secondaryFiles.value == ExpandedSecondaryFiles(p.secondaryFiles.value)
    ensures NormalizeParam(p).value.(secondaryFiles := None) == Classify(p).value
  {
    var c := Classify(p).value;
    NormalizeAccepted(p, c);
    assert NormalizeParam(p).value == WithSecondaryFiles(c, p.secondaryFiles);
  }

  // ---------------------------------------------------------------------------
  // The document

  /** What `Inputs(cwl_obj)` yields: the field list, or the error it raises. */
  function Convert(obj: LoadResult): (r: Result<seq<InputField>, ParseError>)
    ensures r == Failure(NotAProcess) <==> MainTool(obj).Many?
    ensures r.Success? ==> |r.value| == |MainTool(obj).process.inputs|
  {
    match MainTool(obj)
    case Many(_) => Failure(NotAProcess)
    case One(process) =>
      var run := FailFast(NormalizeParam, process.inputs);
      if run.failure.None? then Success(run.emitted) else Failure(Unsupported(run.failure.value))
  }

  /** The outcome of `Inputs(cwl_obj)`: a packed document without a main
      process fails; otherwise one field per input parameter, in declaration
      order, when every parameter is supported, and else the rejection of the
      first unsupported one. A process without inputs gives no fields. */
  lemma ConvertOutcome(obj: LoadResult)
    ensures MainTool(obj).Many? <==> Convert(obj) == Failure(NotAProcess)
    ensures MainTool(obj).One? ==>
      var ps := MainTool(obj).process.inputs;
      && (Convert(obj).Success? <==> forall j :: 0 <= j < |ps| ==> NormalizeParam(ps[j]).Success?)
      && (Convert(obj).Success? ==>
           |Convert(obj).value| == |ps| && forall j :: 0 <= j < |ps| ==> Convert(obj).value[j] == NormalizeParam(ps[j]).value)
      && (Convert(obj).Failure? ==>
           var k := FirstRejected(NormalizeParam, ps);
           k < |ps| && Convert(obj).error == Unsupported(NormalizeParam(ps[k]).error))
      && (ps == [] ==> Convert(obj) == Success([]))
  {
    if MainTool(obj).One? {
      FailFastOutcome(NormalizeParam, MainTool(obj).process.inputs);
    }
  }

  /** The test suite's array of Files with two secondary files: the field is
      an array of File carrying both, in order, with their `required` flags. */
  lemma ArrayOfFilesExample(p: InputParameter)
    requires p.ty == CmdArray(FileTag, Null, Null)
    requires p.secondaryFiles == Some([SecondaryFileSchema("foo", Some(true)), SecondaryFileSchema("bar", Some(false))])
    ensures NormalizeParam(p).Success?
    ensures NormalizeParam(p).value.ty == FileTag && NormalizeParam(p).value.isArray
    ensures NormalizeParam(p).value.secondaryFiles == Some([SecondaryFile("foo", Some(true)), SecondaryFile("bar", Some(false))])
  {
    assert IsArrayItem(FileTag) by {
      assert ArrayItemTags[3] == FileType;
    }
    var sfs := p.secondaryFiles.value;
    assert !EndsWith(sfs[0].pattern, '?') && !EndsWith(sfs[1].pattern, '?');
    assert ExpandedSecondaryFiles(sfs) == [SecondaryFile("foo", Some(true)), SecondaryFile("bar", Some(false))];
  }

  class Inputs {
    const oriCwlObj: LoadResult
    const cwlObj: LoadResult
    var fields: seq<InputField>

    /** The state `__init__` sets up before it parses. */
    constructor (obj: LoadResult)
      ensures oriCwlObj == obj && cwlObj == MainTool(obj) && fields == []
    {
      oriCwlObj := obj;
      var main := ExtractMainTool(obj);
      cwlObj := main;
      fields := [];
    }

    /** `_parse`: appends one field per parameter, in order, and stops at the
        first rejected one, with the fields of the parameters before it appended. */
    method Parse() returns (err: Option<ParseError>)
      modifies this`fields
      ensures cwlObj.Many? ==> err == Some(NotAProcess) && fields == old(fields)
      ensures cwlObj.One? ==>
        var run := FailFast(NormalizeParam, cwlObj.process.inputs);
        && fields == old(fields) + run.emitted
        && err == if run.failure.None? then None else Some(Unsupported(run.failure.value))
    {
      if cwlObj.Many? {
        return Some(NotAProcess);
      }
      var ps := cwlObj.process.inputs;
      var i := 0;
      while i < |ps|
        invariant 0 <= i <= |ps|
        invariant FailFast(NormalizeParam, ps[..i]).failure.None?
        invariant fields == old(fields) + FailFast(NormalizeParam, ps[..i]).emitted
      {
        var r := ParseParam(ps[i]);
        if r.Failure? {
          FailFastRejects(NormalizeParam, ps, i, r.error);
          return Some(Unsupported(r.error));
        }
        FailFastAccepts(NormalizeParam, ps, i, r.value);
        fields := fields + [r.value];
        i := i + 1;
      }
      assert ps[..i] == ps;
      err := None;
    }

    /** `Inputs(cwl_obj)`: construct and parse; a raised error leaves no object. */
    static method Create(obj: LoadResult) returns (r: Result<Inputs, ParseError>)
      ensures r.Success? <==> Convert(obj).Success?
      ensures r.Success? ==> fresh(r.value) && r.value.fields == Convert(obj).value && r.value.cwlObj == MainTool(obj) && r.value.oriCwlObj == obj
      ensures r.Failure? ==> r.error == Convert(obj).error
    {
      var inputs := new Inputs(obj);
      var err := inputs.Parse();
      if err.Some? {
        return Failure(err.value);
      }
      return Success(inputs);
    }
  }
}
