/** The custom-assistant form (src/components/customgpt/CustomGPTForm.tsx):
    the schema's minimum-length rules and the list of reference files the
    form keeps beside the validated fields. */
module CustomGptForm {
  import opened Results
  import Text

  datatype FormValues = FormValues(name: string, description: string, instructions: string)

  datatype Field = Name | Description | Instructions

  datatype FieldError = FieldError(field: Field, message: string)

  const NameTooShort := "Name must be at least 3 characters."
  const DescriptionTooShort := "Description must be at least 10 characters."
  const InstructionsTooShort := "Instructions must be at least 20 characters."

  /** The form's `defaultValues`. */
  const DefaultValues := FormValues("", "", "")

  /** The schema's fields in declaration order. */
  const Fields := [Name, Description, Instructions]

  function FieldValue(v: FormValues, f: Field): string
  {
    match f
    case Name => v.name
    case Description => v.description
    case Instructions => v.instructions
  }

  /** Each field's `min` length. */
  function MinLength(f: Field): nat
  {
    match f
    case Name => 3
    case Description => 10
    case Instructions => 20
  }

  /** The message the schema attaches to each field's `min` rule. */
  function MessageFor(f: Field): string
  {
    match f
    case Name => NameTooShort
    case Description => DescriptionTooShort
    case Instructions => InstructionsTooShort
  }

  /** A field breaks its rule when its length, counted in UTF-16 code units
      as JavaScript counts it, is below its minimum. */
  predicate TooShort(v: FormValues, f: Field)
  {
    Text.Utf16Length(FieldValue(v, f)) < MinLength(f)
  }

  /** The schema accepts the values: no field is too short. */
  predicate MeetsMinimums(v: FormValues)
  {
    !TooShort(v, Name) && !TooShort(v, Description) && !TooShort(v, Instructions)
  }

  /** The issue one field's rule reports, if any. */
  function CheckField(v: FormValues, f: Field): seq<FieldError>
  {
    if TooShort(v, f) then [FieldError(f, MessageFor(f))] else []
  }

  /** The issues the schema reports, in field order: one for each field that
      is too short, carrying that field's own message, and none for the
      others. */
  function Validate(v: FormValues): (errors: seq<FieldError>)
    ensures errors == [] <==> MeetsMinimums(v)
  {
    CheckField(v, Name) + CheckField(v, Description) + CheckField(v, Instructions)
  }

  /** Whether `errors` holds an issue for field `f`. */
  predicate Reports(errors: seq<FieldError>, f: Field)
  {
    exists i :: 0 <= i < |errors| && errors[i].field == f
  }

  /** A field is reported exactly when it is too short. */
  lemma ValidateReportsTooShort(v: FormValues, f: Field)
    ensures Reports(Validate(v), f) <==> TooShort(v, f)
  {
    var a, b, c := CheckField(v, Name), CheckField(v, Description), CheckField(v, Instructions);
    var errors := a + b + c;
    assert Validate(v) == errors;
    if TooShort(v, f) {
      var k := match f
        case Name => 0
        case Description => |a|
        case Instructions => |a| + |b|;
      assert errors[k].field == f;
    } else {
      forall i | 0 <= i < |errors| ensures errors[i].field != f {
        if i < |a| {
          assert errors[i] == a[i];
        } else if i < |a| + |b| {
          assert errors[i] == b[i - |a|];
        } else {
          assert errors[i] == c[i - |a| - |b|];
        }
      }
    }
  }

  /** A field's place in the schema's declaration order. */
  function Position(f: Field): (n: nat)
    ensures n < |Fields| && Fields[n] == f
  {
    match f
    case Name => 0
    case Description => 1
    case Instructions => 2
  }

  /** Every issue carries its own field's message, and the issues follow
      the schema's field order, so no field is reported twice. */
  lemma ValidateIssuesInFieldOrder(v: FormValues)
    ensures forall i :: 0 <= i < |Validate(v)| ==> Validate(v)[i].message == MessageFor(Validate(v)[i].field)
    ensures forall i, j :: 0 <= i < j < |Validate(v)| ==>
              Position(Validate(v)[i].field) < Position(Validate(v)[j].field)
  {
    var a, b, c := CheckField(v, Name), CheckField(v, Description), CheckField(v, Instructions);
    var errors := a + b + c;
    assert Validate(v) == errors;
    forall i | 0 <= i < |errors|
      ensures errors[i].message == MessageFor(errors[i].field)
      ensures Position(errors[i].field) == if i < |a| then 0 else if i < |a| + |b| then 1 else 2
    {
      if i < |a| {
        assert errors[i] == a[i];
      } else if i < |a| + |b| {
        assert errors[i] == b[i - |a|];
      } else {
        assert errors[i] == c[i - |a| - |b|];
      }
    }
  }

  /** The empty defaults fail all three rules. */
  lemma DefaultsFailEveryRule()
    ensures Validate(DefaultValues) == [
      FieldError(Name, NameTooShort),
      FieldError(Description, DescriptionTooShort),
      FieldError(Instructions, InstructionsTooShort)]
  {
    assert TooShort(DefaultValues, Name) && TooShort(DefaultValues, Description) && TooShort(DefaultValues, Instructions);
  }

  /** What reaches `onSubmit` when the form is submitted: nothing while the
      submit button is disabled (`isSubmitting`) or while the schema reports
      an issue; otherwise the values unchanged. */
  function SubmittedValues(v: FormValues, isSubmitting: bool): (r: Option<FormValues>)
    ensures r.Some? <==> !isSubmitting && MeetsMinimums(v)
    ensures r.Some? ==> r.value == v
  {
    if isSubmitting then None
    else if Validate(v) != [] then None
    else Some(v)
  }

  /** A selected file: its name and size in bytes. */
  datatype File = File(name: string, size: nat)

  /** `prev.filter((_, i) => i !== index)`: drops the element at position
      `index` if there is one, and keeps the others in order. */
  function WithoutIndex<T>(s: seq<T>, index: int): (r: seq<T>)
    ensures 0 <= index < |s| ==> r == s[..index] + s[index + 1..]
    ensures !(0 <= index < |s|) ==> r == s
    decreases |s|
  {
    if s == [] then []
    else (if index == 0 then [] else [s[0]]) + WithoutIndex(s[1..], index - 1)
  }

  class FormState {
    var files: seq<File>

    constructor ()
      ensures files == []
    {
      files := [];
    }

    /** `handleFileChange`: the chosen files go after the existing ones, in
        the order of the selection; without a file list nothing changes. */
    method HandleFileChange(selected: Option<seq<File>>)
      modifies this
      ensures files == if selected.Some? then old(files) + selected.value else old(files)
    {
      if selected.Some? {
        var newFiles := selected.value;
        files := files + newFiles;
      }
    }

    /** `removeFile`: removes exactly the file at `index`, keeping the rest
        in order; an index outside the list removes nothing. */
    method RemoveFile(index: int)
      modifies this
      ensures files == WithoutIndex(old(files), index)
      ensures 0 <= index < |old(files)| ==> |files| == |old(files)| - 1
    {
      files := WithoutIndex(files, index);
    }
  }

  /** Adding files and then removing the first of the new ones leaves the old
      files followed by the rest of the new ones. */
  lemma RemoveAfterAppend(old_files: seq<File>, added: seq<File>)
    requires |added| > 0
    ensures WithoutIndex(old_files + added, |old_files|) == old_files + added[1..]
  {
    var s := old_files + added;
    assert s[..|old_files|] == old_files;
    assert s[|old_files| + 1..] == added[1..];
  }
}
