/** The upload dialog of the dashboard: the content-type table, the form
    schema, the submit workflow as a specification function, and the
    component state (dialog flag, form fields) as a class whose submit
    handler is proved against that function. */
module Upload {
  import opened Wrappers
  import opened FileApi
  import opened Identity

  // ---------------------------------------------------------------------
  // Content-type classification

  /** The handler's table from media type to file kind. Keys are compared
      exactly: no case folding, no parameters, no wildcards. */
  const Types: map<string, FileType> :=
    map["image/png" := Image, "application/pdf" := Pdf, "text/csv" := Csv]

  /** The media type under which each kind is listed in `Types`. */
  function MediaType(t: FileType): string {
    match t
    case Image => "image/png"
    case Pdf => "application/pdf"
    case Csv => "text/csv"
  }

  /** `types[fileType]`: the kind for a content type, or `undefined` when the
      table has no entry for it. */
  function Classify(contentType: string): (r: Option<FileType>)
    ensures r == Some(Image) <==> contentType == "image/png"
    ensures r == Some(Pdf) <==> contentType == "application/pdf"
    ensures r == Some(Csv) <==> contentType == "text/csv"
  {
    if contentType in Types then Some(Types[contentType]) else None
  }

  /** Classification and `MediaType` are inverse: each kind is reached from
      exactly one content type. */
  lemma ClassifyInvertsMediaType(t: FileType, contentType: string)
    ensures Classify(MediaType(t)) == Some(t)
    ensures Classify(contentType) == Some(t) ==> contentType == MediaType(t)
  {
  }

  /** Types outside the table, including case variants of the keys, have no
      kind. */
  lemma UnmappedContentTypes()
    ensures Classify("application/csv") == None
    ensures Classify("image/jpeg") == None
    ensures Classify("") == None
    ensures Classify("IMAGE/PNG") == None
    ensures Classify("Text/CSV") == None
  {
  }

  // ---------------------------------------------------------------------
  // The form and its schema

  /** A file chosen in the file input: its reported content type and its
      bytes. */
  datatype LocalFile = LocalFile(contentType: string, body: seq<bv8>)

  /** The form's raw values; `file` is `undefined` until a file list is
      chosen. */
  datatype FormValues = FormValues(title: string, file: Option<seq<LocalFile>>)

  /** The values the form starts with and returns to on every reset. */
  const DefaultValues := FormValues("", None)

  const MaxTitleLength := 200

  /** The field errors the schema can report. */
  datatype FormIssue = TitleTooShort | TitleTooLong | FileRequired

  /** Values that passed the schema, as the submit handler receives them. */
  datatype Submission = Submission(title: string, files: seq<LocalFile>) {
    predicate Admissible() {
      1 <= |title| <= MaxTitleLength && |files| > 0
    }
  }

  /** The form schema: a title of 1 to 200 characters and a non-empty file
      list. On failure every violated field is reported. */
  function ParseForm(v: FormValues): (r: Result<Submission, set<FormIssue>>)
    ensures r.Ok? <==> 1 <= |v.title| <= MaxTitleLength && v.file.Some? && |v.file.value| > 0
    ensures r.Ok? ==> r.value.Admissible() && r.value.title == v.title && v.file == Some(r.value.files)
    ensures r.Err? ==> && r.error != {}
                       && (TitleTooShort in r.error <==> |v.title| == 0)
                       && (TitleTooLong in r.error <==> |v.title| > MaxTitleLength)
                       && (FileRequired in r.error <==> v.file.None? || |v.file.value| == 0)
  {
    var issues :=
      (if |v.title| < 1 then {TitleTooShort} else {})
      + (if |v.title| > MaxTitleLength then {TitleTooLong} else {})
      + (if v.file.None? || |v.file.value| == 0 then {FileRequired} else {});
    if issues == {} then Ok(Submission(v.title, v.file.value)) else Err(issues)
  }

  /** A freshly reset form never passes the schema, so a reset form cannot
      be submitted again without editing it. */
  lemma ResetFormIsRejected()
    ensures ParseForm(DefaultValues) == Err({TitleTooShort, FileRequired})
  {
    assert {TitleTooShort} + {} + {FileRequired} == {TitleTooShort, FileRequired};
  }

  // ---------------------------------------------------------------------
  // The submit workflow

  /** External calls made by one submission, in the order they are made. */
  datatype Call =
    | GenerateUploadUrl
    | Post(url: string, contentType: string, body: LocalFile)
    | CreateFile(args: CreateFileArgs)

  /** The reply of the `generateUploadUrl` mutation. */
  datatype UrlReply = UrlIssued(url: string) | UrlFailed

  /** The reply to the POST: the request fails, its body is not JSON or is
      JSON that cannot be destructured (such as `null`), or the JSON body
      carries a `storageId` (possibly missing). */
  datatype PostReply = FetchFailed | NotJson | Json(storageId: Option<string>)

  /** What the outside world answers to the calls of one submission. */
  datatype Backend = Backend(urlReply: UrlReply, postReply: PostReply, createFileSucceeds: bool)

  /** Where an exception escaped the handler (outside its `try`). */
  datatype Stage = AtGenerateUploadUrl | AtFetch | AtJson

  /** How a submission ends: nothing done for want of an owner, an
      exception escaping the handler (no toast), the success toast, or the
      destructive toast. */
  datatype SubmitOutcome = NoOwner | Escaped(stage: Stage) | Uploaded | UploadFailed

  datatype Run = Run(calls: seq<Call>, outcome: SubmitOutcome)

  /** One submission: guard on the owner, get an upload URL, POST the first
      file with its own content type, read back `storageId`, classify, and
      call `createFile`; only the last call is inside the `try`. */
  function Submit(owner: Option<string>, values: Submission, backend: Backend): (run: Run)
    requires values.Admissible()
    ensures run.calls == [] <==> !Truthy(owner)
    ensures !Truthy(owner) <==> run.outcome == NoOwner
    ensures |run.calls| <= 3
  {
    if !Truthy(owner) then Run([], NoOwner)
    else match backend.urlReply
      case UrlFailed => Run([GenerateUploadUrl], Escaped(AtGenerateUploadUrl))
      case UrlIssued(postUrl) =>
        var file := values.files[0];
        var posted := [GenerateUploadUrl, Post(postUrl, file.contentType, file)];
        match backend.postReply
        case FetchFailed => Run(posted, Escaped(AtFetch))
        case NotJson => Run(posted, Escaped(AtJson))
        case Json(storageId) =>
          var args := CreateFileArgs(values.title, storageId, owner.value, Classify(file.contentType));
          Run(posted + [CreateFile(args)], if backend.createFileSucceeds then Uploaded else UploadFailed)
  }

  /** A `createFile` call is always the third call, after the upload URL and
      the POST to that URL; it carries the title, the returned `storageId`,
      the owner, and the kind of the same content type that was sent in the
      POST header. */
  lemma CreateFileFollowsUpload(owner: Option<string>, values: Submission, backend: Backend, i: nat)
    requires values.Admissible()
    requires i < |Submit(owner, values, backend).calls|
    requires Submit(owner, values, backend).calls[i].CreateFile?
    ensures var calls := Submit(owner, values, backend).calls;
      && i == 2 && |calls| == 3
      && Truthy(owner) && backend.urlReply.UrlIssued? && backend.postReply.Json?
      && calls[0] == GenerateUploadUrl
      && calls[1] == Post(backend.urlReply.url, values.files[0].contentType, values.files[0])
      && calls[2].args == CreateFileArgs(values.title, backend.postReply.storageId, owner.value,
                                         Classify(calls[1].contentType))
  {
  }

  /** With an owner, an issued URL and a JSON reply, a submission makes all
      three calls, whatever the content type: the URL request, the POST of
      the first file with its own type to that URL, and `createFile` with
      the title, the returned `storageId`, the owner and the kind of that
      type. */
  lemma HealthyRunCreatesFile(owner: Option<string>, values: Submission, backend: Backend)
    requires values.Admissible()
    requires Truthy(owner) && backend.urlReply.UrlIssued? && backend.postReply.Json?
    ensures var f := values.files[0];
      Submit(owner, values, backend).calls ==
        [GenerateUploadUrl,
         Post(backend.urlReply.url, f.contentType, f),
         CreateFile(CreateFileArgs(values.title, backend.postReply.storageId, owner.value, Classify(f.contentType)))]
  {
  }

  /** With an owner, a failing upload-URL request, POST or JSON body ends
      the submission with an exception escaping at exactly that step, not
      with the quiet early return, and nothing is called after the failed
      step. */
  lemma FailuresEscape(owner: Option<string>, values: Submission, backend: Backend)
    requires values.Admissible()
    requires Truthy(owner)
    ensures var outcome := Submit(owner, values, backend).outcome;
      && (outcome == Escaped(AtGenerateUploadUrl) <==> backend.urlReply.UrlFailed?)
      && (outcome == Escaped(AtFetch) <==> backend.urlReply.UrlIssued? && backend.postReply.FetchFailed?)
      && (outcome == Escaped(AtJson) <==> backend.urlReply.UrlIssued? && backend.postReply.NotJson?)
    ensures var run := Submit(owner, values, backend); var f := values.files[0];
      && (backend.urlReply.UrlFailed? ==> run.calls == [GenerateUploadUrl])
      && (backend.urlReply.UrlIssued? && !backend.postReply.Json? ==>
            run.calls == [GenerateUploadUrl, Post(backend.urlReply.url, f.contentType, f)])
  {
  }

  /** A content type outside the table does not stop the upload: once the
      POST has answered with JSON, `createFile` is called with no kind. */
  lemma UnmappedTypeIsStillCreated(owner: Option<string>, values: Submission, backend: Backend)
    requires values.Admissible()
    requires Truthy(owner) && backend.urlReply.UrlIssued? && backend.postReply.Json?
    requires Classify(values.files[0].contentType) == None
    ensures CreateFile(CreateFileArgs(values.title, backend.postReply.storageId, owner.value, None))
              in Submit(owner, values, backend).calls
  {
  }

  /** The success toast follows exactly a successful `createFile`, the
      destructive toast exactly a failed one; an exception from the upload
      URL, the POST or the JSON body escapes before `createFile`. */
  lemma OutcomeMatchesCreateFile(owner: Option<string>, values: Submission, backend: Backend)
    requires values.Admissible()
    ensures var run := Submit(owner, values, backend);
      var created := exists c :: c in run.calls && c.CreateFile?;
      && (run.outcome == Uploaded <==> created && backend.createFileSucceeds)
      && (run.outcome == UploadFailed <==> created && !backend.createFileSucceeds)
      && (run.outcome.Escaped? ==> !created)
  {
    var run := Submit(owner, values, backend);
    if Truthy(owner) && backend.urlReply.UrlIssued? && backend.postReply.Json? {
      assert run.calls[2].CreateFile?;
    }
  }

  /** The invariant of the call trace of one upload dialog: every POST comes
      right after an upload URL was requested, and every `createFile` right
      after a POST, for a non-empty owner and with the kind of the content
      type that POST sent. */
  ghost predicate Sequenced(trace: seq<Call>) {
    && (forall i :: 0 <= i < |trace| && trace[i].Post? ==>
          1 <= i && trace[i - 1] == GenerateUploadUrl)
    && (forall i :: 0 <= i < |trace| && trace[i].CreateFile? ==>
          && 2 <= i && trace[i - 1].Post?
          && trace[i].args.orgId != ""
          && trace[i].args.fileType == Classify(trace[i - 1].contentType))
  }

  /** Every submission keeps the trace sequenced. */
  lemma SubmitKeepsSequenced(trace: seq<Call>, owner: Option<string>, values: Submission, backend: Backend)
    requires values.Admissible()
    requires Sequenced(trace)
    ensures Sequenced(trace + Submit(owner, values, backend).calls)
  {
    var calls := Submit(owner, values, backend).calls;
    var t := trace + calls;
    forall i | 0 <= i < |t| && t[i].Post?
      ensures 1 <= i && t[i - 1] == GenerateUploadUrl
    {
      if i >= |trace| {
        assert calls[i - |trace|].Post?;
        CallShape(owner, values, backend, i - |trace|);
      }
    }
    forall i | 0 <= i < |t| && t[i].CreateFile?
      ensures && 2 <= i && t[i - 1].Post?
              && t[i].args.orgId != ""
              && t[i].args.fileType == Classify(t[i - 1].contentType)
    {
      if i >= |trace| {
        CreateFileFollowsUpload(owner, values, backend, i - |trace|);
      }
    }
  }

  /** A POST is always the second call, right after the upload URL. */
  lemma CallShape(owner: Option<string>, values: Submission, backend: Backend, i: nat)
    requires values.Admissible()
    requires i < |Submit(owner, values, backend).calls|
    requires Submit(owner, values, backend).calls[i].Post?
    ensures i == 1 && Submit(owner, values, backend).calls[0] == GenerateUploadUrl
  {
  }

  // ---------------------------------------------------------------------
  // The component state

  /** The upload dialog: whether it is open, the form's two fields, and the
      trace of external calls its submissions have made. */
  class UploadButton {
    var dialogOpen: bool
    var formTitle: string
    var formFile: Option<seq<LocalFile>>
    ghost var trace: seq<Call>

    ghost predicate Valid()
      reads this
    {
      Sequenced(trace)
    }

    /** The form's current values. */
    function Form(): FormValues
      reads this
    {
      FormValues(formTitle, formFile)
    }

    /** The dialog starts closed with the form at its default values. */
    constructor ()
      ensures Valid()
      ensures !dialogOpen && Form() == DefaultValues && trace == []
    {
      dialogOpen := false;
      formTitle, formFile := DefaultValues.title, DefaultValues.file;
      trace := [];
    }

    /** Opening or closing the dialog sets the flag and resets the form. */
    method OnOpenChange(isOpen: bool)
      requires Valid()
      modifies this
      ensures Valid()
      ensures dialogOpen == isOpen && Form() == DefaultValues && trace == old(trace)
    {
      dialogOpen := isOpen;
      formTitle, formFile := DefaultValues.title, DefaultValues.file;
    }

    /** Typing into the title field. */
    method EditTitle(title: string)
      requires Valid()
      modifies this
      ensures Valid()
      ensures Form() == old(Form()).(title := title)
      ensures dialogOpen == old(dialogOpen) && trace == old(trace)
    {
      formTitle := title;
    }

    /** Choosing files in the file input. */
    method ChooseFiles(files: seq<LocalFile>)
      requires Valid()
      modifies this
      ensures Valid()
      ensures Form() == old(Form()).(file := Some(files))
      ensures dialogOpen == old(dialogOpen) && trace == old(trace)
    {
      formFile := Some(files);
    }

    /** The submit handler, called with values that passed the schema. It
      makes exactly the calls of `Submit`; only a successful `createFile`
      resets the form and closes the dialog. */
    method OnSubmit(values: Submission, org: OrganizationHook, user: UserHook, backend: Backend)
      returns (outcome: SubmitOutcome)
      requires Valid() && values.Admissible()
      modifies this
      ensures Valid()
      ensures var run := Submit(ResolveOwner(org, user), values, backend);
        outcome == run.outcome && trace == old(trace) + run.calls
      ensures outcome == Uploaded ==> !dialogOpen && Form() == DefaultValues
      ensures outcome != Uploaded ==> dialogOpen == old(dialogOpen) && Form() == old(Form())
    {
      var orgId := ResolveOwner(org, user);
      if !Truthy(orgId) {
        outcome := NoOwner;
        return;
      }
      ghost var run := Submit(orgId, values, backend);
      ghost var before := trace;
      SubmitKeepsSequenced(before, orgId, values, backend);

      trace := trace + [GenerateUploadUrl];
      if backend.urlReply.UrlFailed? {
        outcome := Escaped(AtGenerateUploadUrl);
        assert run.calls == [GenerateUploadUrl];
        return;
      }
      var postUrl := backend.urlReply.url;

      var fileType := values.files[0].contentType;
      trace := trace + [Post(postUrl, fileType, values.files[0])];
      assert trace == before + [GenerateUploadUrl, Post(postUrl, fileType, values.files[0])];
      if backend.postReply.FetchFailed? {
        outcome := Escaped(AtFetch);
        assert run.calls == [GenerateUploadUrl, Post(postUrl, fileType, values.files[0])];
        return;
      }
      if backend.postReply.NotJson? {
        outcome := Escaped(AtJson);
        assert run.calls == [GenerateUploadUrl, Post(postUrl, fileType, values.files[0])];
        return;
      }
      var storageId := backend.postReply.storageId;

      var args := CreateFileArgs(values.title, storageId, orgId.value, Classify(fileType));
      trace := trace + [CreateFile(args)];
      assert run.calls == [GenerateUploadUrl, Post(postUrl, fileType, values.files[0]), CreateFile(args)];
      assert trace == before + run.calls;
      if backend.createFileSucceeds {
        formTitle, formFile := DefaultValues.title, DefaultValues.file;
        dialogOpen := false;
        outcome := Uploaded;
      } else {
        outcome := UploadFailed;
      }
    }

    /** The form's submit event: values that fail the schema are reported
      and nothing else happens; valid values go to `OnSubmit`. */
    method HandleSubmit(org: OrganizationHook, user: UserHook, backend: Backend)
      returns (result: Result<SubmitOutcome, set<FormIssue>>)
      requires Valid()
      modifies this
      ensures Valid()
      ensures ParseForm(old(Form())).Err? ==>
        result == Err(ParseForm(old(Form())).error) && unchanged(this)
      ensures ParseForm(old(Form())).Ok? ==>
        var run := Submit(ResolveOwner(org, user), ParseForm(old(Form())).value, backend);
        && result == Ok(run.outcome) && trace == old(trace) + run.calls
        && (run.outcome == Uploaded ==> !dialogOpen && Form() == DefaultValues)
        && (run.outcome != Uploaded ==> dialogOpen == old(dialogOpen) && Form() == old(Form()))
    {
      var parsed := ParseForm(Form());
      if parsed.Err? {
        result := Err(parsed.error);
        return;
      }
      var outcome := OnSubmit(parsed.value, org, user, backend);
      result := Ok(outcome);
    }
  }
}
