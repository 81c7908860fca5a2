/**
 * Model of app/routes/upload.tsx: the upload page's state (selected file,
 * preview URL, `isProcessing`, `statusText`), the key/value store it writes,
 * and the three handlers `handleFileSelect`, `handleAnalyze` and
 * `handleSubmit`.
 *
 * Every external collaborator is a supplied outcome (`Collaborators`): the
 * two `fs.upload` results, the `convertPdfToImage` result, the value of
 * `genarateUUID`, the `ai.feedback` response, `prepareInstructions` and
 * `JSON.parse` (a function whose `None` stands for a thrown SyntaxError).
 * Each `await` is one sequential step.
 */
module Upload {
  import opened Wrappers
  import opened Pdf2Img

  // ---------------------------------------------------------------------------
  // Values
  // ---------------------------------------------------------------------------

  /** A JSON value, as `JSON.parse` produces it (numbers kept integral). */
  datatype Json =
    | JNull
    | JBool(b: bool)
    | JNumber(n: int)
    | JString(s: string)
    | JArray(items: seq<Json>)
    | JObject(members: seq<(string, Json)>)

  /** The record written to `kv` under `resume:<id>`. */
  datatype ResumeRecord = ResumeRecord(
    id: string,
    resumePath: string,
    imagePath: string,
    companyName: string,
    jobTitle: string,
    jobDescription: string,
    feedback: Json)

  /** The argument object of `handleAnalyze`. */
  datatype Request = Request(companyName: string, jobTitle: string, jobDescription: string, file: File)

  /** `feedback.message.content`: a plain string or an array of `{ text }` parts. */
  datatype Content = Text(text: string) | Parts(texts: seq<string>)

  /** What the collaborators return on one run of `handleAnalyze`. */
  datatype Collaborators = Collaborators(
    sourceUpload: Option<string>,                      // path of fs.upload([file])
    conversion: PdfConversionResult,                   // convertPdfToImage(file)
    imageUpload: Option<string>,                       // path of fs.upload([imageFile.file])
    uuid: string,                                      // genarateUUID()
    analysis: Option<Content>,                         // ai.feedback(...).message.content
    prepareInstructions: (string, string) -> string,   // prepareInstructions({ jobTitle, jobDescription })
    parseJson: string -> Option<Json>)                 // JSON.parse; None when it throws

  /** One call to a collaborator, in the order the page makes them. */
  datatype Call =
    | UploadFile(file: File)
    | ConvertToImage(file: File)
    | NewUuid
    | KvSet(key: string, record: ResumeRecord)
    | AiFeedback(path: string, instructions: string)
    | ParseJson(text: string)

  const UploadingFile := "Uploading the file..."
  const ConvertingToImage := "Converting to image..."
  const UploadingImage := "Uploading the image..."
  const PreparingData := "Preparing data..."
  const Analyzing := "Analyzing ..."
  const AnalysisComplete := "Analysis complete! Redirecting..."
  const UploadFileFailed := "Error: Failed to upload file"
  const ConvertFailed := "Error: Failed to convert PDF to image"
  const UploadImageFailed := "Error: Failed to upload image"
  const AnalyzeFailed := "Error: Failed to analyze resume"

  /** The labels of a run in which every step succeeds, in order. */
  const SuccessLabels: seq<string> :=
    [UploadingFile, ConvertingToImage, UploadingImage, PreparingData, Analyzing, AnalysisComplete]

  predicate IsFailureLabel(status: string) {
    status == UploadFileFailed || status == ConvertFailed || status == UploadImageFailed || status == AnalyzeFailed
  }

  /** The key of a run's record: `resume:${uuid}`. */
  function RecordKey(uuid: string): (key: string)
    ensures |key| == 7 + |uuid| && key[..7] == "resume:" && key[7..] == uuid
  {
    "resume:" + uuid
  }

  /** The record of line 71-79: both paths, the caller's text and empty feedback. */
  function InitialRecord(req: Request, uuid: string, resumePath: string, imagePath: string): (r: ResumeRecord)
    ensures r.id == uuid && r.resumePath == resumePath && r.imagePath == imagePath
    ensures r.companyName == req.companyName && r.jobTitle == req.jobTitle && r.jobDescription == req.jobDescription
    ensures r.feedback == JString("")
  {
    ResumeRecord(uuid, resumePath, imagePath, req.companyName, req.jobTitle, req.jobDescription, JString(""))
  }

  /** Two records that agree on every field except, possibly, `feedback`. */
  predicate SameExceptFeedback(a: ResumeRecord, b: ResumeRecord) {
    a.id == b.id && a.resumePath == b.resumePath && a.imagePath == b.imagePath &&
    a.companyName == b.companyName && a.jobTitle == b.jobTitle && a.jobDescription == b.jobDescription
  }

  /**
   * The text of the analysis answer: the string itself, or the text of the
   * first part. `None` when the array is empty, where `content[0].text`
   * throws a TypeError.
   */
  function FeedbackText(content: Content): (r: Option<string>)
    ensures content.Text? ==> r == Some(content.text)
    ensures content.Parts? ==> (r.Some? <==> |content.texts| > 0)
    ensures content.Parts? && r.Some? ==> r.value == content.texts[0]
  {
    match content
    case Text(t) => Some(t)
    case Parts(ts) => if |ts| == 0 then None else Some(ts[0])
  }

  // ---------------------------------------------------------------------------
  // The key/value store as the result of the calls made to it
  // ---------------------------------------------------------------------------

  /** The store after the `kv.set` calls among `calls`, applied in order. */
  function Replay(kv: map<string, ResumeRecord>, calls: seq<Call>): (r: map<string, ResumeRecord>)
    ensures kv.Keys <= r.Keys
    ensures forall k :: k in r.Keys && k !in kv.Keys ==> KvSet(k, r[k]) in calls
    decreases |calls|
  {
    if calls == [] then kv
    else
      var before := Replay(kv, calls[..|calls| - 1]);
      match calls[|calls| - 1]
      case KvSet(key, record) => before[key := record]
      case _ => before
  }

  predicate NoWrites(calls: seq<Call>) {
    forall i :: 0 <= i < |calls| ==> !calls[i].KvSet?
  }

  /** Replaying two logs one after the other is replaying their concatenation. */
  lemma {:induction false} ReplayAppend(kv: map<string, ResumeRecord>, a: seq<Call>, b: seq<Call>)
    ensures Replay(kv, a + b) == Replay(Replay(kv, a), b)
    decreases |b|
  {
    if b == [] {
      assert a + b == a;
    } else {
      var b' := b[..|b| - 1];
      assert (a + b)[..|a + b| - 1] == a + b';
      assert (a + b)[|a + b| - 1] == b[|b| - 1];
      ReplayAppend(kv, a, b');
    }
  }

  /** Calls that are not `kv.set` leave the store as it was. */
  lemma {:induction false} ReplayWithoutWrites(kv: map<string, ResumeRecord>, calls: seq<Call>)
    requires NoWrites(calls)
    ensures Replay(kv, calls) == kv
    decreases |calls|
  {
    if calls != [] {
      ReplayWithoutWrites(kv, calls[..|calls| - 1]);
    }
  }

  /** One more call: a `kv.set` overwrites its key, any other call changes nothing. */
  lemma ReplayStep(kv: map<string, ResumeRecord>, calls: seq<Call>, call: Call)
    ensures Replay(kv, calls + [call]) ==
      if call.KvSet? then Replay(kv, calls)[call.key := call.record] else Replay(kv, calls)
  {
    assert (calls + [call])[..|calls|] == calls;
  }

  /** A log with one write after `before` and none after it ends with that write. */
  lemma {:induction false} ReplayLastWrite(kv: map<string, ResumeRecord>, before: seq<Call>, key: string,
                                           record: ResumeRecord, after: seq<Call>)
    requires NoWrites(after)
    ensures Replay(kv, before + [KvSet(key, record)] + after) == Replay(kv, before)[key := record]
  {
    ReplayAppend(kv, before + [KvSet(key, record)], after);
    ReplayWithoutWrites(Replay(kv, before + [KvSet(key, record)]), after);
    ReplayStep(kv, before, KvSet(key, record));
  }

  // ---------------------------------------------------------------------------
  // handleAnalyze as a specification: labels shown, calls made, and whether
  // the returned promise rejects
  // ---------------------------------------------------------------------------

  datatype Effects = Effects(labels: seq<string>, calls: seq<Call>, rejected: bool) {
    /** These effects followed by `later`'s. */
    function Then(later: Effects): Effects {
      Effects(labels + later.labels, calls + later.calls, rejected || later.rejected)
    }
  }

  /**
   * The effects of `handleAnalyze(req)` against the given collaborators: one
   * outcome per early return, and the analysis half once both files are up.
   */
  function Run(req: Request, env: Collaborators): (r: Effects)
    ensures |r.labels| >= 2 && r.labels[0] == UploadingFile
    ensures |r.calls| >= 1 && r.calls[0] == UploadFile(req.file)
    ensures r.rejected ==> env.analysis.Some? && !AnswerParses(env)
  {
    if env.sourceUpload.None? then
      Effects([UploadingFile, UploadFileFailed], [UploadFile(req.file)], false)
    else if env.conversion.file.None? then
      Effects([UploadingFile, ConvertingToImage, ConvertFailed],
              [UploadFile(req.file), ConvertToImage(req.file)], false)
    else if env.imageUpload.None? then
      Effects([UploadingFile, ConvertingToImage, UploadingImage, UploadImageFailed],
              [UploadFile(req.file), ConvertToImage(req.file), UploadFile(env.conversion.file.value)], false)
    else
      Effects([UploadingFile, ConvertingToImage, UploadingImage],
              [UploadFile(req.file), ConvertToImage(req.file), UploadFile(env.conversion.file.value)], false)
      .Then(AnalysisEffects(req, env, env.sourceUpload.value, env.imageUpload.value))
  }

  /**
   * The second half of a run, once both files are uploaded: the first record
   * is stored and the analysis requested.
   */
  function AnalysisEffects(req: Request, env: Collaborators, resumePath: string, imagePath: string): (r: Effects)
    ensures |r.labels| >= 2 && r.labels[..2] == [PreparingData, Analyzing]
    ensures |r.calls| >= 3 && r.calls[1] == KvSet(RecordKey(env.uuid), InitialRecord(req, env.uuid, resumePath, imagePath))
    ensures |r.calls| >= 3 && r.calls[2] == AiFeedback(resumePath, env.prepareInstructions(req.jobTitle, req.jobDescription))
    ensures r.rejected <==> env.analysis.Some? && !AnswerParses(env)
  {
    var key := RecordKey(env.uuid);
    var data := InitialRecord(req, env.uuid, resumePath, imagePath);
    var asked := [NewUuid, KvSet(key, data), AiFeedback(resumePath, env.prepareInstructions(req.jobTitle, req.jobDescription))];
    if env.analysis.None? then
      Effects([PreparingData, Analyzing, AnalyzeFailed], asked, false)
    else
      Effects([PreparingData, Analyzing], asked, false).Then(FeedbackEffects(key, data, env.analysis.value, env.parseJson))
  }

  /**
   * The last step of a run: the answer's text is parsed and stored as the
   * record's feedback; the handler throws when there is no text or it does
   * not parse.
   */
  function FeedbackEffects(key: string, data: ResumeRecord, content: Content, parseJson: string -> Option<Json>): (r: Effects)
    ensures var text := FeedbackText(content);
      r.rejected <==> text.None? || parseJson(text.value).None?
    ensures r.rejected ==> r.labels == [] && NoWrites(r.calls)
    ensures !r.rejected ==>
      && r.labels == [AnalysisComplete]
      && |r.calls| == 2
      && r.calls[1] == KvSet(key, data.(feedback := parseJson(FeedbackText(content).value).value))
  {
    var text := FeedbackText(content);
    if text.None? then
      Effects([], [], true)
    else if parseJson(text.value).None? then
      Effects([], [ParseJson(text.value)], true)
    else
      Effects([AnalysisComplete], [ParseJson(text.value), KvSet(key, data.(feedback := parseJson(text.value).value))], false)
  }

  /**
   * Once both files are uploaded, the run continues with `AnalysisEffects`;
   * the calls before it do not touch the store.
   */
  lemma UploadsWriteNothing(req: Request, env: Collaborators, kv: map<string, ResumeRecord>)
    requires env.sourceUpload.Some? && env.conversion.file.Some? && env.imageUpload.Some?
    ensures var rest := AnalysisEffects(req, env, env.sourceUpload.value, env.imageUpload.value);
      && Run(req, env) == Effects(SuccessLabels[..3], [UploadFile(req.file), ConvertToImage(req.file),
                                  UploadFile(env.conversion.file.value)], false).Then(rest)
      && Replay(kv, Run(req, env).calls) == Replay(kv, rest.calls)
  {
    var rest := AnalysisEffects(req, env, env.sourceUpload.value, env.imageUpload.value);
    var uploads := [UploadFile(req.file), ConvertToImage(req.file), UploadFile(env.conversion.file.value)];
    ReplayWithoutWrites(kv, uploads);
    ReplayAppend(kv, uploads, rest.calls);
  }

  /** The store after the first three calls of the analysis half: one write. */
  lemma StoreAfterAsking(kv: map<string, ResumeRecord>, key: string, data: ResumeRecord, ask: Call)
    requires !ask.KvSet?
    ensures Replay(kv, [NewUuid, KvSet(key, data), ask]) == kv[key := data]
  {
    assert [NewUuid, KvSet(key, data), ask] == [NewUuid] + [KvSet(key, data)] + [ask];
    ReplayLastWrite(kv, [NewUuid], key, data, [ask]);
    ReplayWithoutWrites(kv, [NewUuid]);
  }

  /** The last step writes the record once more, with its feedback, when the answer parses. */
  lemma FeedbackStores(key: string, data: ResumeRecord, content: Content, parseJson: string -> Option<Json>,
                       kv: map<string, ResumeRecord>)
    ensures var text := FeedbackText(content);
      Replay(kv, FeedbackEffects(key, data, content, parseJson).calls) ==
        if text.Some? && parseJson(text.value).Some?
        then kv[key := data.(feedback := parseJson(text.value).value)]
        else kv
  {
    var text := FeedbackText(content);
    if text.Some? {
      var parse := ParseJson(text.value);
      ReplayStep(kv, [], parse);
      assert [] + [parse] == [parse];
      if parseJson(text.value).Some? {
        var write := KvSet(key, data.(feedback := parseJson(text.value).value));
        ReplayStep(kv, [parse], write);
        assert [parse] + [write] == [parse, write];
      }
    }
  }

  /** The three calls before the answer, then the last step, leave one or two writes. */
  lemma StoreAfterAnswer(kv: map<string, ResumeRecord>, key: string, data: ResumeRecord, ask: Call,
                         content: Content, parseJson: string -> Option<Json>)
    requires !ask.KvSet?
    ensures var text := FeedbackText(content);
      Replay(kv, [NewUuid, KvSet(key, data), ask] + FeedbackEffects(key, data, content, parseJson).calls) ==
        if text.Some? && parseJson(text.value).Some?
        then kv[key := data.(feedback := parseJson(text.value).value)]
        else kv[key := data]
  {
    var f := FeedbackEffects(key, data, content, parseJson);
    StoreAfterAsking(kv, key, data, ask);
    ReplayAppend(kv, [NewUuid, KvSet(key, data), ask], f.calls);
    FeedbackStores(key, data, content, parseJson, kv[key := data]);
  }

  /**
   * The analysis half stores the first record under `resume:<uuid>`, and
   * overwrites it with the parsed feedback only when the answer parses.
   */
  lemma AnalysisStores(req: Request, env: Collaborators, resumePath: string, imagePath: string,
                       kv: map<string, ResumeRecord>)
    ensures var key := RecordKey(env.uuid);
      var data := InitialRecord(req, env.uuid, resumePath, imagePath);
      Replay(kv, AnalysisEffects(req, env, resumePath, imagePath).calls) ==
        if AnswerParses(env) then kv[key := data.(feedback := ParsedFeedback(env))] else kv[key := data]
  {
    var key := RecordKey(env.uuid);
    var data := InitialRecord(req, env.uuid, resumePath, imagePath);
    var ask := AiFeedback(resumePath, env.prepareInstructions(req.jobTitle, req.jobDescription));
    if env.analysis.None? {
      StoreAfterAsking(kv, key, data, ask);
    } else {
      StoreAfterAnswer(kv, key, data, ask, env.analysis.value, env.parseJson);
    }
  }

  /**
   * The store after a run: unchanged when an upload or the conversion fails;
   * otherwise the run's record, with the parsed feedback when the answer
   * parses and with empty feedback when it does not.
   */
  lemma RunStores(req: Request, env: Collaborators, kv: map<string, ResumeRecord>)
    ensures Replay(kv, Run(req, env).calls) ==
      if env.sourceUpload.None? || env.conversion.file.None? || env.imageUpload.None? then kv
      else
        var first := InitialRecord(req, env.uuid, env.sourceUpload.value, env.imageUpload.value);
        if AnswerParses(env) then kv[RecordKey(env.uuid) := first.(feedback := ParsedFeedback(env))]
        else kv[RecordKey(env.uuid) := first]
  {
    if env.sourceUpload.None? || env.conversion.file.None? || env.imageUpload.None? {
      ReplayWithoutWrites(kv, Run(req, env).calls);
    } else {
      UploadsWriteNothing(req, env, kv);
      AnalysisStores(req, env, env.sourceUpload.value, env.imageUpload.value, kv);
    }
  }

  /** Every step of a run succeeds. */
  predicate AllSucceed(env: Collaborators) {
    env.sourceUpload.Some? && env.conversion.file.Some? && env.imageUpload.Some? && AnswerParses(env)
  }

  /** The analysis answers, its text can be taken, and that text parses. */
  predicate AnswerParses(env: Collaborators) {
    && env.analysis.Some?
    && FeedbackText(env.analysis.value).Some?
    && env.parseJson(FeedbackText(env.analysis.value).value).Some?
  }

  /** The parsed answer stored as the record's feedback. */
  function ParsedFeedback(env: Collaborators): Json
    requires AnswerParses(env)
  {
    env.parseJson(FeedbackText(env.analysis.value).value).value
  }

  // ---------------------------------------------------------------------------
  // Properties of a run
  // ---------------------------------------------------------------------------

  /**
   * Labels always follow the success order: a run shows a prefix of it,
   * followed by one failure label when a step reports failure.
   */
  lemma LabelsFollowStageOrder(req: Request, env: Collaborators)
    ensures var e := Run(req, env);
      && |e.labels| >= 2
      && e.labels[0] == UploadingFile
      && (|| e.labels == SuccessLabels
          || (e.rejected && e.labels == SuccessLabels[..5])
          || (IsFailureLabel(e.labels[|e.labels| - 1]) && e.labels[..|e.labels| - 1] < SuccessLabels))
  {
  }

  /** A full run shows the six labels in order and writes the record twice. */
  lemma FullSuccess(req: Request, env: Collaborators, kv: map<string, ResumeRecord>)
    requires AllSucceed(env)
    ensures var e := Run(req, env);
      && e.labels == SuccessLabels
      && !e.rejected
      && var first := InitialRecord(req, env.uuid, env.sourceUpload.value, env.imageUpload.value);
         var feedback := env.parseJson(FeedbackText(env.analysis.value).value).value;
         Replay(kv, e.calls) == kv[RecordKey(env.uuid) := first.(feedback := feedback)]
  {
    RunStores(req, env, kv);
  }

  /** A failed source upload: one call, no conversion, no store write. */
  lemma SourceUploadFailure(req: Request, env: Collaborators, kv: map<string, ResumeRecord>)
    requires env.sourceUpload.None?
    ensures var e := Run(req, env);
      && e.labels == [UploadingFile, UploadFileFailed]
      && e.calls == [UploadFile(req.file)]
      && Replay(kv, e.calls) == kv
  {
    ReplayWithoutWrites(kv, Run(req, env).calls);
  }

  /** A conversion without a file: no image upload, no store write. */
  lemma ConversionFailure(req: Request, env: Collaborators, kv: map<string, ResumeRecord>)
    requires env.sourceUpload.Some? && env.conversion.file.None?
    ensures var e := Run(req, env);
      && e.labels[|e.labels| - 1] == ConvertFailed
      && e.calls == [UploadFile(req.file), ConvertToImage(req.file)]
      && Replay(kv, e.calls) == kv
  {
    ReplayWithoutWrites(kv, Run(req, env).calls);
  }

  /**
   * The conversion check looks at `file` alone: a result carrying an error
   * message but also a file goes on to the image upload.
   */
  lemma ConversionCheckIsOnFile(req: Request, env: Collaborators)
    requires env.sourceUpload.Some? && env.conversion.file.Some? && env.conversion.error.Some?
    ensures Run(req, env).labels[..3] == SuccessLabels[..3]
    ensures Run(req, env).calls[2] == UploadFile(env.conversion.file.value)
  {
  }

  /** A failed image upload leaves the store unchanged and draws no uuid. */
  lemma ImageUploadFailure(req: Request, env: Collaborators, kv: map<string, ResumeRecord>)
    requires env.sourceUpload.Some? && env.conversion.file.Some? && env.imageUpload.None?
    ensures var e := Run(req, env);
      && e.labels[|e.labels| - 1] == UploadImageFailed
      && NewUuid !in e.calls
      && Replay(kv, e.calls) == kv
  {
    ReplayWithoutWrites(kv, Run(req, env).calls);
  }

  /**
   * A failed analysis leaves exactly the first record under the run's key,
   * with empty feedback; the analysis was asked about the source path.
   */
  lemma AnalysisFailure(req: Request, env: Collaborators, kv: map<string, ResumeRecord>)
    requires env.sourceUpload.Some? && env.conversion.file.Some? && env.imageUpload.Some?
    requires env.analysis.None?
    ensures var e := Run(req, env);
      && e.labels[|e.labels| - 1] == AnalyzeFailed
      && !e.rejected
      && AiFeedback(env.sourceUpload.value, env.prepareInstructions(req.jobTitle, req.jobDescription)) in e.calls
      && Replay(kv, e.calls) ==
         kv[RecordKey(env.uuid) := InitialRecord(req, env.uuid, env.sourceUpload.value, env.imageUpload.value)]
      && Replay(kv, e.calls)[RecordKey(env.uuid)].feedback == JString("")
  {
    RunStores(req, env, kv);
  }

  /**
   * An answer whose text cannot be obtained or parsed makes the handler
   * throw: the status stays at 'Analyzing ...' and only the first record
   * is stored.
   */
  lemma UnparsableAnswerAborts(req: Request, env: Collaborators, kv: map<string, ResumeRecord>)
    requires env.sourceUpload.Some? && env.conversion.file.Some? && env.imageUpload.Some?
    requires env.analysis.Some?
    requires FeedbackText(env.analysis.value).None? || env.parseJson(FeedbackText(env.analysis.value).value).None?
    ensures var e := Run(req, env);
      && e.rejected
      && e.labels[|e.labels| - 1] == Analyzing
      && Replay(kv, e.calls) ==
         kv[RecordKey(env.uuid) := InitialRecord(req, env.uuid, env.sourceUpload.value, env.imageUpload.value)]
  {
    RunStores(req, env, kv);
  }

  /**
   * Every store write goes to `resume:<uuid>` and carries the run's id, both
   * paths and the caller's text; two writes at most, the second differing
   * from the first in `feedback` only.
   */
  lemma WritesStayOnTheRunsRecord(req: Request, env: Collaborators, i: nat)
    requires i < |Run(req, env).calls| && Run(req, env).calls[i].KvSet?
    ensures var c := Run(req, env).calls[i];
      && env.sourceUpload.Some? && env.imageUpload.Some?
      && c.key == RecordKey(env.uuid)
      && SameExceptFeedback(c.record, InitialRecord(req, env.uuid, env.sourceUpload.value, env.imageUpload.value))
      && (i == 4 || (i == 7 && AllSucceed(env)))
  {
  }

  /** Analysis is always asked about the uploaded source, never the image. */
  lemma AnalysisUsesSourcePath(req: Request, env: Collaborators, i: nat)
    requires i < |Run(req, env).calls| && Run(req, env).calls[i].AiFeedback?
    ensures env.sourceUpload.Some? && Run(req, env).calls[i].path == env.sourceUpload.value
  {
  }

  // ---------------------------------------------------------------------------
  // The page
  // ---------------------------------------------------------------------------

  /** What the page has shown and called so far (ghost bookkeeping). */
  datatype History = History(statuses: seq<string>, calls: seq<Call>) {
    /** A call to a collaborator. */
    function Make(call: Call): History {
      this.(calls := calls + [call])
    }

    /** The history after a run with effects `e`. */
    function Then(e: Effects): History {
      History(statuses + e.labels, calls + e.calls)
    }
  }

  /** Recording two effects in turn is recording them together. */
  lemma HistoryThen(h: History, a: Effects, b: Effects)
    ensures h.Then(a).Then(b) == h.Then(a.Then(b))
  {
    assert h.statuses + a.labels + b.labels == h.statuses + (a.labels + b.labels);
    assert h.calls + a.calls + b.calls == h.calls + (a.calls + b.calls);
  }

  /**
   * The upload page: its React state, the store it writes, and (ghost) the
   * history of status labels and collaborator calls.
   */
  class UploadPage {
    var file: Option<File>
    var previewUrl: string
    var isProcessing: bool
    var statusText: string
    var kv: map<string, ResumeRecord>
    ghost var history: History

    /** `statusText` is the last label shown, or '' before any. */
    ghost predicate Valid()
      reads this
    {
      statusText == if history.statuses == [] then "" else history.statuses[|history.statuses| - 1]
    }

    /** The page's initial state over an existing store. */
    constructor (store: map<string, ResumeRecord>)
      ensures Valid()
      ensures file == None && previewUrl == "" && !isProcessing && statusText == ""
      ensures kv == store && history == History([], [])
    {
      file := None;
      previewUrl := "";
      isProcessing := false;
      statusText := "";
      kv := store;
      history := History([], []);
    }

    /**
     * `handleFileSelect(selected)`: the file is stored and the preview
     * cleared; in a browser the file is converted and the preview set to the
     * image URL unless the conversion reports an error.
     */
    method HandleFileSelect(selected: Option<File>, inBrowser: bool, conversion: PdfConversionResult)
      modifies this`file, this`previewUrl, this`history
      ensures file == selected
      ensures var converted := selected.Some? && inBrowser;
        && history == old(history).(calls := old(history).calls + if converted then [ConvertToImage(selected.value)] else [])
        && previewUrl == (if converted && !ReportsError(conversion) then conversion.imageUrl else "")
    {
      file := selected;
      previewUrl := "";
      if selected.None? {
        return;
      }
      if !inBrowser {
        return;
      }
      history := history.Make(ConvertToImage(selected.value));
      var result := conversion;
      if ReportsError(result) {
        return;
      }
      previewUrl := result.imageUrl;
    }

    /**
     * `handleAnalyze(req)`: shows the labels, makes the calls and leaves the
     * store as `Run` describes; `threw` when the returned promise rejects.
     */
    method HandleAnalyze(req: Request, env: Collaborators) returns (threw: bool)
      requires Valid()
      modifies this`isProcessing, this`statusText, this`kv, this`history
      ensures Valid()
      ensures isProcessing
      ensures history == old(history).Then(Run(req, env))
      ensures kv == Replay(old(kv), Run(req, env).calls)
      ensures threw == Run(req, env).rejected
    {
      ghost var h0 := history;
      ghost var e := Effects([UploadingFile], [], false);
      isProcessing := true;
      statusText, history := UploadingFile, h0.Then(e);
      e := e.(calls := [UploadFile(req.file)]);
      history := h0.Then(e);
      if env.sourceUpload.None? {
        e := e.(labels := [UploadingFile, UploadFileFailed]);
        statusText, history := UploadFileFailed, h0.Then(e);
        SourceUploadFailure(req, env, kv);
        return false;
      }
      var uploadedFile := env.sourceUpload.value;

      e := e.(labels := [UploadingFile, ConvertingToImage]);
      statusText, history := ConvertingToImage, h0.Then(e);
      e := e.(calls := [UploadFile(req.file), ConvertToImage(req.file)]);
      history := h0.Then(e);
      var imageFile := env.conversion;
      if imageFile.file.None? {
        e := e.(labels := [UploadingFile, ConvertingToImage, ConvertFailed]);
        statusText, history := ConvertFailed, h0.Then(e);
        ConversionFailure(req, env, kv);
        return false;
      }

      e := e.(labels := [UploadingFile, ConvertingToImage, UploadingImage]);
      statusText, history := UploadingImage, h0.Then(e);
      e := e.(calls := [UploadFile(req.file), ConvertToImage(req.file), UploadFile(imageFile.file.value)]);
      history := h0.Then(e);
      if env.imageUpload.None? {
        e := e.(labels := [UploadingFile, ConvertingToImage, UploadingImage, UploadImageFailed]);
        statusText, history := UploadImageFailed, h0.Then(e);
        ImageUploadFailure(req, env, kv);
        return false;
      }

      UploadsWriteNothing(req, env, kv);
      HistoryThen(h0, e, AnalysisEffects(req, env, uploadedFile, env.imageUpload.value));
      threw := StoreAndAnalyze(req, env, uploadedFile, env.imageUpload.value);
    }

    /**
     * Lines 68-99 of `handleAnalyze`, once both files are uploaded: the first
     * record is stored, the analysis requested, and its parsed answer stored
     * as the record's feedback.
     */
    method StoreAndAnalyze(req: Request, env: Collaborators, uploadedFile: string, uploadedImage: string)
      returns (threw: bool)
      requires Valid()
      modifies this`statusText, this`kv, this`history
      ensures Valid()
      ensures history == old(history).Then(AnalysisEffects(req, env, uploadedFile, uploadedImage))
      ensures kv == Replay(old(kv), AnalysisEffects(req, env, uploadedFile, uploadedImage).calls)
      ensures threw == AnalysisEffects(req, env, uploadedFile, uploadedImage).rejected
    {
      ghost var kv0, h0 := kv, history;
      ghost var e := Effects([PreparingData], [], false);
      statusText, history := PreparingData, h0.Then(e);
      e := e.(calls := [NewUuid]);
      history := h0.Then(e);
      var uuid := env.uuid;
      var key := RecordKey(uuid);
      var data := ResumeRecord(uuid, uploadedFile, uploadedImage, req.companyName, req.jobTitle, req.jobDescription, JString(""));
      e := e.(calls := [NewUuid, KvSet(key, data)]);
      kv, history := kv[key := data], h0.Then(e);

      e := e.(labels := [PreparingData, Analyzing]);
      statusText, history := Analyzing, h0.Then(e);
      var instructions := env.prepareInstructions(req.jobTitle, req.jobDescription);
      var ask := AiFeedback(uploadedFile, instructions);
      e := e.(calls := [NewUuid, KvSet(key, data), ask]);
      history := h0.Then(e);
      StoreAfterAsking(kv0, key, data, ask);
      if env.analysis.None? {
        e := e.(labels := [PreparingData, Analyzing, AnalyzeFailed]);
        statusText, history := AnalyzeFailed, h0.Then(e);
        return false;
      }

      threw := SaveFeedback(key, data, env.analysis.value, env.parseJson);
      HistoryThen(h0, e, FeedbackEffects(key, data, env.analysis.value, env.parseJson));
      ReplayAppend(kv0, e.calls, FeedbackEffects(key, data, env.analysis.value, env.parseJson).calls);
    }

    /**
     * Lines 91-99 of `handleAnalyze`: the answer's text is parsed and the
     * record stored again with it as feedback; `threw` when there is no text
     * or it does not parse.
     */
    method SaveFeedback(key: string, data: ResumeRecord, content: Content, parseJson: string -> Option<Json>)
      returns (threw: bool)
      requires Valid()
      modifies this`statusText, this`kv, this`history
      ensures Valid()
      ensures history == old(history).Then(FeedbackEffects(key, data, content, parseJson))
      ensures kv == Replay(old(kv), FeedbackEffects(key, data, content, parseJson).calls)
      ensures threw == FeedbackEffects(key, data, content, parseJson).rejected
    {
      FeedbackStores(key, data, content, parseJson, kv);
      ghost var h0 := history;
      var feedbackText := FeedbackText(content);
      if feedbackText.None? {
        return true;
      }
      ghost var e := Effects([], [ParseJson(feedbackText.value)], false);
      history := h0.Then(e);
      var parsed := parseJson(feedbackText.value);
      if parsed.None? {
        return true;
      }
      var record := data.(feedback := parsed.value);
      e := e.(calls := [ParseJson(feedbackText.value), KvSet(key, record)]);
      kv, history := kv[key := record], h0.Then(e);
      e := e.(labels := [AnalysisComplete]);
      statusText, history := AnalysisComplete, h0.Then(e);
      threw := false;
    }

    /**
     * `handleSubmit`: without a form or a selected file nothing happens;
     * otherwise the form's three fields and the file are analysed.
     */
    method HandleSubmit(hasForm: bool, companyName: string, jobTitle: string, jobDescription: string,
                        env: Collaborators) returns (threw: bool)
      requires Valid()
      modifies this`isProcessing, this`statusText, this`kv, this`history
      ensures Valid()
      ensures !hasForm || old(file).None? ==>
        && !threw && isProcessing == old(isProcessing) && statusText == old(statusText)
        && history == old(history) && kv == old(kv)
      ensures hasForm && old(file).Some? ==>
        var e := Run(Request(companyName, jobTitle, jobDescription, old(file).value), env);
        && isProcessing
        && history == old(history).Then(e)
        && kv == Replay(old(kv), e.calls)
        && threw == e.rejected
    {
      if !hasForm || file.None? {
        return false;
      }
      threw := HandleAnalyze(Request(companyName, jobTitle, jobDescription, file.value), env);
    }
  }

  /**
   * `if (result.error)`: an error message that is present and non-empty.
   * JavaScript treats a missing message and an empty one alike, as no error.
   */
  predicate ReportsError(r: PdfConversionResult)
    ensures r.error.None? || r.error == Some("") ==> !ReportsError(r)
  {
    r.error.Some? && r.error.value != ""
  }

  /**
   * For every result `convertPdfToImage` can return, the preview's test of
   * `result.error` and the pipeline's test of `imageFile.file` agree.
   */
  lemma ConversionChecksAgree(r: PdfConversionResult)
    requires (IsErrorVariant(r) && r.error.value != "") || IsSuccessVariant(r)
    ensures ReportsError(r) <==> r.file.None?
  {
  }
}
