# Resume upload and analysis pipeline, modelled in Dafny

This project models the core of the AI Resume Analyzer's upload flow:

- `app/routes/upload.tsx`: the upload page.
  - Its React state: the selected file, the preview URL, `isProcessing` and `statusText`.
  - The key/value store it writes.
  - Three handlers:
    - `handleFileSelect` previews the chosen PDF.
    - `handleAnalyze` runs the upload, conversion, store, analysis and store-again steps, and shows a status label at each step.
    - `handleSubmit` guards `handleAnalyze`.
- `app/lib/pdf2img.ts`: `convertPdfToImage`.
  - Its result shape and its error paths.
  - The preview file name, derived with `name.replace(/\.pdf$/i, "") + ".png"`.

Files:

- `wrappers.dfy`: the `Option` type.
- `pdf2img.dfy` (module `Pdf2Img`):
  - The conversion is a method over a `Rasterizer` value. That value supplies what the PDF library and the canvas do on one run.
  - The name derivation is proved equal to a leftmost-match reading of the regular expression. Case folding is ASCII, which is what a non-Unicode `i` flag does for `p`, `d` and `f`.
- `upload.dfy` (module `Upload`):
  - The function `Run(req, env)` describes one run of `handleAnalyze` against supplied collaborator outcomes (`Collaborators`). It gives the labels shown, the calls made in order, and whether the handler's promise rejects.
  - `Replay` derives the store from the `kv.set` calls.
  - The class `UploadPage` holds the page state, plus a ghost `history` of labels shown and calls made. Its methods are proved against `Run` and its two halves, `AnalysisEffects` and `FeedbackEffects`.

Behaviour the model keeps exactly as the code has it:

- Status labels are the code's strings. For example, a failed analysis shows `Error: Failed to analyze resume`.
- The conversion check reads `imageFile.file`. It does not read `imageFile.error`.
- A result that cannot be parsed gets no failure label. When the answer has no text (an empty parts array) or `JSON.parse` throws, the handler throws. The status stays at `Analyzing ...` and only the first record is stored.
- `kv.set` results are not checked. Every write is assumed to take effect.

## Model

| member | source | states |
|---|---|---|
| Pdf2Img.Failed | app/lib/pdf2img.ts:24-26 | The error variant has an empty URL, no file, and the given message. |
| Pdf2Img.StripPdfSuffix | app/lib/pdf2img.ts:41 | The result is a prefix of the name. It is four characters shorter when the name ends in `.pdf` in any ASCII casing, and is the name unchanged otherwise. |
| Pdf2Img.ImageFileName | app/lib/pdf2img.ts:41-42 | The image name ends in `.png` after a prefix of the original name. It keeps the original length exactly when a `.pdf` suffix was replaced. |
| Pdf2Img.LeftmostMatch | app/lib/pdf2img.ts:41 | A regex scan from a start position reports only positions at or after the start where `\.pdf$` matches. |
| Pdf2Img.LeftmostMatchIsSuffix | app/lib/pdf2img.ts:41 | The scan finds a match exactly when the name ends in `.pdf` in some casing, and the match is the last four characters. |
| Pdf2Img.StripIsRegexReplace | app/lib/pdf2img.ts:41 | Stripping the suffix equals the regular-expression replacement of the leftmost match by the empty string. |
| Pdf2Img.AnyCasingIsStripped | app/lib/pdf2img.ts:41-42 | Any casing of `.pdf` after any base is replaced, so the image is named `base.png`. |
| Pdf2Img.NoSuffixIsKept | app/lib/pdf2img.ts:41-42 | A name without the suffix keeps all its characters and gains `.png`. |
| Pdf2Img.DoubledExtensionLosesOne | app/lib/pdf2img.ts:41-42 | `cv.pdf.pdf` becomes `cv.pdf.png`: only the final extension is replaced. |
| Pdf2Img.InnerPdfIsKept | app/lib/pdf2img.ts:41-42 | `cv.pdf.doc` becomes `cv.pdf.doc.png`: the pattern is anchored at the end. |
| Pdf2Img.UpperCaseExtensionIsStripped | app/lib/pdf2img.ts:41-42 | `CV.PDF` becomes `CV.png`: the match ignores case. |
| Pdf2Img.ConvertPdfToImage | app/lib/pdf2img.ts:13-56 | Each result is either the error variant or the success variant. Success happens exactly when every step succeeds. An error result always carries a non-empty message. A caught exception gives `Failed to convert PDF: <err>`. A missing 2d context gives `Canvas context not available`. A null blob gives `Failed to create image blob`. On success the URL is the object URL and the file holds the blob, typed `image/png` and named from the input. |
| Upload.ReportsError | app/routes/upload.tsx:34 | A result with no error message, or with an empty one, does not count as an error. |
| Upload.ConversionChecksAgree | app/routes/upload.tsx:34-62 | For every result `convertPdfToImage` can return, the preview's test of `result.error` and the pipeline's test of `imageFile.file` agree: an error is reported exactly when there is no file. |
| Upload.RecordKey | app/routes/upload.tsx:81 | The key is `resume:` followed by the uuid. |
| Upload.InitialRecord | app/routes/upload.tsx:71-79 | The first record carries the run's uuid as its id, both uploaded paths, the caller's company name, job title and description, and an empty feedback. |
| Upload.Replay | app/routes/upload.tsx:81-97 | The store after a log of calls keeps every key it had. Any key it gains was written by a `kv.set` call in the log, with that record. |
| Upload.FeedbackText | app/routes/upload.tsx:91-94 | The answer's text is the string content itself, or the first part's text. There is none when the parts array is empty. |
| Upload.ReplayStep | app/routes/upload.tsx:81 | A `kv.set` call overwrites its key. Any other call leaves the store as it was. |
| Upload.ReplayLastWrite | app/routes/upload.tsx:97 | When no write follows a write, the store ends with that write's record under its key. |
| Upload.Run | app/routes/upload.tsx:42-102 | Every run shows `Uploading the file...` first and at least one more label. Its first call uploads the source file. It rejects only when the analysis answered and the answer does not parse. |
| Upload.AnalysisEffects | app/routes/upload.tsx:68-97 | The analysis half shows `Preparing data...` then `Analyzing ...`. Its second call stores the first record under `resume:<uuid>`, and its third asks for feedback on the source path with the prepared instructions. It rejects exactly when an answer came and does not parse. |
| Upload.FeedbackEffects | app/routes/upload.tsx:91-99 | The last step rejects exactly when the answer has no text or the text does not parse; then it shows no label and writes nothing. Otherwise it shows `Analysis complete! Redirecting...` and its second call rewrites the record with the parsed feedback. |
| Upload.UploadsWriteNothing | app/routes/upload.tsx:53-66 | Once both uploads succeed, the run is three labels and three calls followed by the analysis half. Those first calls leave the store unchanged. |
| Upload.StoreAfterAnswer | app/routes/upload.tsx:81-97 | The first write followed by the last step leaves the record with the parsed feedback when the answer parses, and the first record otherwise. |
| Upload.FeedbackStores | app/routes/upload.tsx:91-97 | The last step rewrites the record with the parsed feedback when the text exists and parses. Otherwise it writes nothing. |
| Upload.AnalysisStores | app/routes/upload.tsx:68-97 | The analysis half leaves the record under `resume:<uuid>`. The record has the parsed feedback when the answer parses, and empty feedback otherwise. |
| Upload.RunStores | app/routes/upload.tsx:53-99 | After a run the store is unchanged if an upload or the conversion failed. Otherwise it holds the run's record, with the parsed feedback or with empty feedback. |
| Upload.LabelsFollowStageOrder | app/routes/upload.tsx:53-99 | Every run starts with `Uploading the file...`. The labels are all six success labels, or the first five when the handler throws, or a prefix of the success order followed by one failure label. |
| Upload.FullSuccess | app/routes/upload.tsx:53-99 | When every step succeeds, the six labels appear in order, the handler does not throw, and the store holds the record with the parsed feedback. |
| Upload.SourceUploadFailure | app/routes/upload.tsx:56-57 | A failed source upload makes one call, shows `Error: Failed to upload file`, and writes nothing. |
| Upload.ConversionFailure | app/routes/upload.tsx:61-62 | A conversion without a file ends with the conversion failure label. It makes only the upload and conversion calls and writes nothing. |
| Upload.ConversionCheckIsOnFile | app/routes/upload.tsx:61-65 | A conversion result with both a file and an error still goes on to the image upload, with that file. |
| Upload.ImageUploadFailure | app/routes/upload.tsx:65-66 | A failed image upload ends with its failure label, draws no uuid, and writes nothing. |
| Upload.AnalysisFailure | app/routes/upload.tsx:83-89 | A missing analysis answer ends with `Error: Failed to analyze resume` without throwing. The analysis was asked about the source path. The store holds exactly the first record, whose feedback is empty. |
| Upload.UnparsableAnswerAborts | app/routes/upload.tsx:91-97 | An answer without text, or with text that does not parse, makes the handler throw. The last label stays `Analyzing ...` and only the first record is stored. |
| Upload.WritesStayOnTheRunsRecord | app/routes/upload.tsx:71-97 | Every store write goes to `resume:<uuid>` and carries the run's id, both paths and the caller's text. There are at most two writes, at fixed positions, and the second only on full success. |
| Upload.AnalysisUsesSourcePath | app/routes/upload.tsx:84-87 | The analysis is always asked about the uploaded source path, never the image path. |
| Upload.UploadPage.constructor | app/routes/upload.tsx:16-19 | The page starts with no file, an empty preview, not processing, and an empty status. |
| Upload.UploadPage.HandleFileSelect | app/routes/upload.tsx:22-40 | The file is stored and the preview cleared. The file is converted only when one is selected in a browser. The preview is set to the image URL only when the result reports no error. |
| Upload.UploadPage.HandleAnalyze | app/routes/upload.tsx:42-102 | Sets `isProcessing` and never resets it. The labels shown, the calls made and the final store follow `Run`. The status is the last label, and it throws exactly when `Run` rejects. |
| Upload.UploadPage.StoreAndAnalyze | app/routes/upload.tsx:68-99 | After both uploads, the labels, calls, store and throw follow `AnalysisEffects`. |
| Upload.UploadPage.SaveFeedback | app/routes/upload.tsx:91-99 | The answer handling follows `FeedbackEffects`: the text is parsed, the record rewritten and `Analysis complete! Redirecting...` shown. It throws when there is no text or it does not parse. |
| Upload.UploadPage.HandleSubmit | app/routes/upload.tsx:104-116 | Without a form or a selected file, nothing changes. Otherwise the run is `handleAnalyze` on the form's three fields and the selected file. |

## Left out

- JSX rendering, `NavBar`, `FileUploader`, the home page's listing of stored resumes and `ResumeCard` are not part of this model.
- The PDF library and the canvas are represented by the `Rasterizer` value: document loading, page rendering, the floating-point viewport and canvas sizing (pdf2img.ts lines 15-31) are not modelled.
- An exception thrown inside the `toBlob` callback (for example by the `File` constructor) is not modelled. It escapes the `try`, and the returned promise then never settles.
- `canvas.toBlob` throwing synchronously is not modelled. Its exception rejects the returned promise without passing through the `catch`.
- `URL.createObjectURL`, `genarateUUID`, `prepareInstructions`, `fs.upload`, `ai.feedback` and `JSON.parse` are supplied values in `Collaborators` and `Rasterizer`.
- `fs.upload`, `ai.feedback` and `kv.set` only return `null` or succeed. A rejected promise from any of them is not modelled.
- The answer shapes are limited: a `message.content` that is absent, or that is neither a string nor an array of parts, is not modelled.
- `JSON.stringify` is not modelled: the store holds records rather than their JSON text. JSON numbers are integers.
- Asynchrony and React scheduling are simplified:
  - each `await` is one sequential step;
  - `setStatusText` takes effect at once;
  - overlapping runs from repeated submits are not modelled.
- The dynamic `import('~/lib/pdf2img')` is not modelled. `HandleFileSelect` receives the conversion result, and its `inBrowser` flag stands for the `typeof window` test.
- `formData.get` is assumed to return strings; a missing field (`null`) is not modelled.
- `console.error`, `console.log` and the commented-out navigation have no effect in the model.
