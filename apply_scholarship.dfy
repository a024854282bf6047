/** The scholarship application form: seven text fields and three optional
    documents, assembled into one multipart body. Every text field, the bank
    account, identity number and income included, is sent as typed. */
module ApplyScholarship {
  import opened Js

  /** The text fields in the order the form declares them. */
  const FieldNames: seq<string> :=
    ["bankDetails", "idNumber", "incomeDetails", "instituteName", "currentGPA", "examType", "examScore"]

  /** The same names as a set. */
  const FieldSet: set<string> :=
    {"bankDetails", "idNumber", "incomeDetails", "instituteName", "currentGPA", "examType", "examScore"}

  const SuccessText: string := "Application Submitted Successfully!"
  const ConnectionError: string := "Unable to connect to server."
  const SubmissionFailed: string := "Submission failed"

  /** A chosen document. */
  datatype File = File(name: string)

  /** One entry of the multipart body. */
  datatype Part = TextPart(key: string, value: string) | FilePart(key: string, file: File)

  /** The form as it first renders: every field empty except the exam, "JEE". */
  function InitialForm(): (form: map<string, string>)
    ensures form.Keys == FieldSet
    ensures forall k :: k in form ==> form[k] == (if k == "examType" then "JEE" else "")
  {
    map k | k in FieldNames :: if k == "examType" then "JEE" else ""
  }

  /** The form holds exactly the declared fields. */
  predicate FormShape(form: map<string, string>)
  {
    forall k :: k in FieldNames ==> k in form
  }

  /** The text parts for `keys`, appended one key after the other. */
  function TextParts(form: map<string, string>, keys: seq<string>): (r: seq<Part>)
    requires forall k :: k in keys ==> k in form
    ensures |r| == |keys|
    ensures forall i :: 0 <= i < |keys| ==> r[i] == TextPart(keys[i], form[keys[i]])
  {
    if keys == [] then []
    else TextParts(form, keys[..|keys| - 1]) + [TextPart(keys[|keys| - 1], form[keys[|keys| - 1]])]
  }

  /** The file part for `key`: present only if a file was chosen for it. */
  function FilePartFor(files: map<string, Option<File>>, key: string): (r: seq<Part>)
    ensures r == [] <==> key !in files || files[key].None?
    ensures r != [] ==> r == [FilePart(key, files[key].value)]
  {
    if key in files && files[key].Some? then [FilePart(key, files[key].value)] else []
  }

  /** The whole body: the text fields in order, then the chosen documents. */
  function Body(form: map<string, string>, files: map<string, Option<File>>): seq<Part>
    requires FormShape(form)
  {
    TextParts(form, FieldNames)
    + FilePartFor(files, "incomeProof") + FilePartFor(files, "marksheet") + FilePartFor(files, "studentCertificate")
  }

  /** Every declared field is sent, as typed, under its own name. */
  lemma TextFieldsSent(form: map<string, string>, files: map<string, Option<File>>, k: string)
    requires FormShape(form)
    requires k in FieldNames
    ensures TextPart(k, form[k]) in Body(form, files)
  {
    var i :| 0 <= i < |FieldNames| && FieldNames[i] == k;
    assert TextParts(form, FieldNames)[i] == TextPart(k, form[k]);
  }

  /** The bank account, identity number and income go out in plain text. */
  lemma SensitiveFieldsSentInPlain(form: map<string, string>, files: map<string, Option<File>>)
    requires FormShape(form)
    ensures TextPart("bankDetails", form["bankDetails"]) in Body(form, files)
    ensures TextPart("idNumber", form["idNumber"]) in Body(form, files)
    ensures TextPart("incomeDetails", form["incomeDetails"]) in Body(form, files)
  {
    TextFieldsSent(form, files, "bankDetails");
    TextFieldsSent(form, files, "idNumber");
    TextFieldsSent(form, files, "incomeDetails");
  }

  /** A document part is in the body exactly when that document was chosen, and
      the body holds at most the seven fields and three documents. */
  lemma FilePartsOnlyIfChosen(form: map<string, string>, files: map<string, Option<File>>, key: string, f: File)
    requires FormShape(form)
    ensures FilePart(key, f) in Body(form, files) <==>
              (key == "incomeProof" || key == "marksheet" || key == "studentCertificate")
              && key in files && files[key] == Some(f)
    ensures |Body(form, files)| <= |FieldNames| + 3
  {
    var t := TextParts(form, FieldNames);
    assert FilePart(key, f) !in t;
    var a, b, c := FilePartFor(files, "incomeProof"), FilePartFor(files, "marksheet"), FilePartFor(files, "studentCertificate");
    assert Body(form, files) == t + (a + b + c);
    assert FilePart(key, f) in a + b + c <==> FilePart(key, f) in a || FilePart(key, f) in b || FilePart(key, f) in c;
  }

  /** `arr.join(sep)` */
  function Join(parts: seq<string>, sep: string): string
  {
    if parts == [] then ""
    else if |parts| == 1 then parts[0]
    else parts[0] + sep + Join(parts[1..], sep)
  }

  /** The total length of `parts`. */
  function TotalLength(parts: seq<string>): nat
  {
    if parts == [] then 0 else |parts[0]| + TotalLength(parts[1..])
  }

  /** The joined text is as long as the parts and one separator between each two neighbours. */
  lemma {:induction false} JoinLength(parts: seq<string>, sep: string)
    requires parts != []
    ensures |Join(parts, sep)| == TotalLength(parts) + (|parts| - 1) * |sep|
  {
    if |parts| > 1 {
      JoinLength(parts[1..], sep);
    }
  }

  /** Joining one more part appends the separator and that part: the parts appear
      in order, each once, with the separator between neighbours. */
  lemma {:induction false} JoinAppend(parts: seq<string>, p: string, sep: string)
    requires parts != []
    ensures Join(parts + [p], sep) == Join(parts, sep) + sep + p
  {
    if |parts| == 1 {
      assert parts + [p] == [parts[0], p];
    } else {
      assert (parts + [p])[1..] == parts[1..] + [p];
      JoinAppend(parts[1..], p, sep);
    }
  }

  /** The joined text starts with the first message, and the separator follows it when more follow. */
  lemma JoinStartsWithFirst(parts: seq<string>, sep: string)
    requires parts != []
    ensures |parts[0]| <= |Join(parts, sep)| && Join(parts, sep)[..|parts[0]|] == parts[0]
    ensures |parts| > 1 ==> |parts[0]| + |sep| <= |Join(parts, sep)|
                            && Join(parts, sep)[|parts[0]|..|parts[0]| + |sep|] == sep
  {
  }

  /** `errors.map(e => e.msg)`: a missing `msg` joins as "". */
  function Messages(errors: seq<Option<string>>): (r: seq<string>)
    ensures |r| == |errors|
    ensures forall i :: 0 <= i < |errors| ==> r[i] == (if errors[i].Some? then errors[i].value else "")
  {
    if errors == [] then [] else [if errors[0].Some? then errors[0].value else ""] + Messages(errors[1..])
  }

  /** The error text after a failed submission: no response, then a validation
      list, then the server's message, then the fallback. */
  function SubmitErrorText(f: Failure): (r: string)
    ensures f.response.None? ==> r == ConnectionError
    ensures f.response.Some? && f.response.value.errors.Some? ==>
              r == Join(Messages(f.response.value.errors.value), ", ")
    ensures f.response.Some? && f.response.value.errors.None? ==>
              r == (if Truthy(f.response.value.message) then f.response.value.message.value else SubmissionFailed)
    ensures f.response.Some? && f.response.value.errors.None? ==> r != ""
  {
    if f.response.None? then ConnectionError
    else if f.response.value.errors.Some? then Join(Messages(f.response.value.errors.value), ", ")
    else OrElse(f.response.value.message, SubmissionFailed)
  }

  /** An empty validation list (an array is truthy even when empty) leaves the error text empty. */
  lemma EmptyErrorListShowsNothing(message: Option<string>, errMessage: string)
    ensures SubmitErrorText(Failure(Some(ErrorBody(message, Some([]))), errMessage)) == ""
  {
  }

  class ApplyPage {
    var form: map<string, string>
    var files: map<string, Option<File>>
    var message: string
    var error: string

    /** The form holds exactly the declared fields, so its keys enumerate in declaration order. */
    ghost predicate Valid()
      reads this
    {
      FormShape(form) && form.Keys == FieldSet
    }

    constructor ()
      ensures Valid()
      ensures form == InitialForm() && files == map[] && message == "" && error == ""
    {
      form := InitialForm();
      files := map[];
      message := "";
      error := "";
    }

    /** `handleChange`: only the named field changes. Every input of the form is
        named after one of the declared fields. */
    method HandleChange(name: string, value: string)
      requires Valid() && name in FieldNames
      modifies this
      ensures Valid()
      ensures form == old(form)[name := value] && files == old(files)
      ensures message == old(message) && error == old(error)
    {
      form := form[name := value];
    }

    /** `handleFileChange`: only the named document changes; None when the choice was cancelled. */
    method HandleFileChange(name: string, file: Option<File>)
      requires Valid()
      modifies this
      ensures Valid()
      ensures files == old(files)[name := file] && form == old(form)
      ensures message == old(message) && error == old(error)
    {
      files := files[name := file];
    }

    /** Assemble the multipart body: each text field in order, then each chosen document. */
    method BuildBody() returns (body: seq<Part>)
      requires FormShape(form)
      ensures body == Body(form, files)
    {
      body := [];
      var i := 0;
      while i < |FieldNames|
        invariant 0 <= i <= |FieldNames|
        invariant body == TextParts(form, FieldNames[..i])
      {
        var key := FieldNames[i];
        assert FieldNames[..i + 1] == FieldNames[..i] + [key];
        body := body + [TextPart(key, form[key])];
        i := i + 1;
      }
      assert FieldNames[..i] == FieldNames;
      if "incomeProof" in files && files["incomeProof"].Some? {
        body := body + [FilePart("incomeProof", files["incomeProof"].value)];
      }
      if "marksheet" in files && files["marksheet"].Some? {
        body := body + [FilePart("marksheet", files["marksheet"].value)];
      }
      if "studentCertificate" in files && files["studentCertificate"].Some? {
        body := body + [FilePart("studentCertificate", files["studentCertificate"].value)];
      }
    }

    /** `handleSubmit`: clear both texts, send the body, then show the success
        text or the selected error text. */
    method HandleSubmit(response: Outcome<Record>) returns (body: seq<Part>)
      requires Valid()
      modifies this
      ensures Valid() && form == old(form) && files == old(files)
      ensures body == Body(form, files)
      ensures response.Ok? ==> message == SuccessText && error == ""
      ensures response.Err? ==> message == "" && error == SubmitErrorText(response.failure)
    {
      message := "";
      error := "";
      body := BuildBody();
      if response.Ok? {
        message := SuccessText;
      } else {
        error := SubmitErrorText(response.failure);
      }
    }
  }
}
