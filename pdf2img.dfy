/**
 * Model of app/lib/pdf2img.ts: the result shape of `convertPdfToImage`, its
 * early-return error paths, and the derivation of the preview file name.
 * The PDF library (document loading, page rendering) and the canvas are
 * abstract: their outcomes are supplied as a `Rasterizer` value.
 */
module Pdf2Img {
  import opened Wrappers

  /** A browser `File`: its name, its bytes and its MIME type. */
  datatype File = File(name: string, content: seq<bv8>, mimeType: string)

  /** `PdfConversionResult`: `file` is `null` when absent, `error` is optional. */
  datatype PdfConversionResult = PdfConversionResult(imageUrl: string, file: Option<File>, error: Option<string>)

  const CanvasContextError := "Canvas context not available"
  const BlobError := "Failed to create image blob"
  const ThrownPrefix := "Failed to convert PDF: "
  const PngMimeType := "image/png"
  const PngExtension := ".png"

  /** The error variant: no URL, no file, an error message. */
  function Failed(message: string): (r: PdfConversionResult)
    ensures IsErrorVariant(r) && r.error == Some(message)
  {
    PdfConversionResult("", None, Some(message))
  }

  predicate IsErrorVariant(r: PdfConversionResult) {
    r.imageUrl == "" && r.file.None? && r.error.Some?
  }

  predicate IsSuccessVariant(r: PdfConversionResult) {
    r.file.Some? && r.error.None?
  }

  /**
   * What the foreign calls do on one run. `loadError` is the text `${err}`
   * gives for an exception thrown while reading the file, parsing the
   * document, fetching page 1, building the viewport or creating the canvas;
   * `renderError` the same for one thrown while rendering.
   * `blob` is what `canvas.toBlob` hands its callback (`null` as `None`), and
   * `objectUrl` what `URL.createObjectURL` returns for it.
   */
  datatype Rasterizer = Rasterizer(
    loadError: Option<string>,
    contextAvailable: bool,
    renderError: Option<string>,
    blob: Option<seq<bv8>>,
    objectUrl: string)

  /** True when every foreign step succeeds and a blob is produced. */
  predicate AllStepsSucceed(env: Rasterizer) {
    env.loadError.None? && env.contextAvailable && env.renderError.None? && env.blob.Some?
  }

  // ---------------------------------------------------------------------------
  // File-name derivation: `file.name.replace(/\.pdf$/i, "")` followed by ".png"
  // ---------------------------------------------------------------------------

  /**
   * Case folding as an ignore-case regular expression applies it to the
   * letters of the pattern: only ASCII letters fold onto "p", "d" and "f".
   */
  function Upper(c: char): char {
    if 'a' <= c <= 'z' then (c as int - 32) as char else c
  }

  /** `ext` is ".pdf" in some ASCII casing. */
  predicate IsPdfExtension(ext: string) {
    |ext| == 4 && ext[0] == '.' && Upper(ext[1]) == 'P' && Upper(ext[2]) == 'D' && Upper(ext[3]) == 'F'
  }

  /** The name's last four characters are ".pdf" in some casing. */
  predicate HasPdfSuffix(s: string) {
    |s| >= 4 && IsPdfExtension(s[|s| - 4..])
  }

  /** `name.replace(/\.pdf$/i, "")`. */
  function StripPdfSuffix(name: string): (r: string)
    ensures r <= name
    ensures HasPdfSuffix(name) ==> |r| == |name| - 4
    ensures !HasPdfSuffix(name) ==> r == name
  {
    if HasPdfSuffix(name) then name[..|name| - 4] else name
  }

  /** The name given to the rendered preview (pdf2img.ts line 41-42). */
  function ImageFileName(name: string): (r: string)
    ensures |r| >= 4 && r[|r| - 4..] == PngExtension
    ensures r[..|r| - 4] <= name
    ensures HasPdfSuffix(name) <==> |r| == |name|
  {
    StripPdfSuffix(name) + PngExtension
  }

  /**
   * Reference semantics of a non-global regular-expression replace of
   * `/\.pdf$/i`: the engine tries every start index from left to right; at
   * an index the four atoms `\.`, `p`, `d`, `f` must match the next four
   * characters (ignoring case), and then the assertion `$` must hold at the
   * position reached. The first index where both succeed is replaced.
   */
  predicate AtomsMatchAt(s: string, i: nat) {
    i + 4 <= |s| && s[i] == '.' && Upper(s[i + 1]) == 'P' && Upper(s[i + 2]) == 'D' && Upper(s[i + 3]) == 'F'
  }

  /** The assertion `$` (no multiline flag): the position is the end of input. */
  predicate EndOfInputAt(s: string, j: nat) {
    j == |s|
  }

  ghost function LeftmostMatch(s: string, from: nat): (r: Option<nat>)
    ensures r.Some? ==> from <= r.value && AtomsMatchAt(s, r.value) && EndOfInputAt(s, r.value + 4)
    decreases |s| - from
  {
    if from > |s| then None
    else if AtomsMatchAt(s, from) && EndOfInputAt(s, from + 4) then Some(from)
    else LeftmostMatch(s, from + 1)
  }

  ghost function RegexReplace(s: string): string {
    match LeftmostMatch(s, 0)
    case None => s
    case Some(i) => s[..i] + s[i + 4..]
  }

  /** The atoms followed by `$` match at one index only, |s| - 4, and exactly for a ".pdf" suffix. */
  lemma {:induction false} LeftmostMatchIsSuffix(s: string, from: nat)
    requires from <= |s|
    ensures LeftmostMatch(s, from) == if HasPdfSuffix(s) && from <= |s| - 4 then Some(|s| - 4) else None
    decreases |s| - from
  {
    if |s| >= 4 && from == |s| - 4 {
      var ext := s[|s| - 4..];
      assert ext[0] == s[from] && ext[1] == s[from + 1] && ext[2] == s[from + 2] && ext[3] == s[from + 3];
    }
    if !(AtomsMatchAt(s, from) && EndOfInputAt(s, from + 4)) && from < |s| {
      LeftmostMatchIsSuffix(s, from + 1);
    }
  }

  /** Stripping the suffix is exactly what the regular-expression replace does. */
  lemma StripIsRegexReplace(name: string)
    ensures RegexReplace(name) == StripPdfSuffix(name)
  {
    LeftmostMatchIsSuffix(name, 0);
  }

  /** Any casing of the extension is removed: `.pdf`, `.PDF`, `.Pdf`, ... */
  lemma AnyCasingIsStripped(base: string, ext: string)
    requires |ext| == 3 && Upper(ext[0]) == 'P' && Upper(ext[1]) == 'D' && Upper(ext[2]) == 'F'
    ensures ImageFileName(base + "." + ext) == base + PngExtension
  {
    var name := base + "." + ext;
    assert name[|name| - 4..] == "." + ext;
    assert HasPdfSuffix(name);
    assert name[..|name| - 4] == base;
  }

  /** Without the suffix the name is kept whole and ".png" is appended. */
  lemma NoSuffixIsKept(name: string)
    requires !HasPdfSuffix(name)
    ensures ImageFileName(name) == name + PngExtension
  {
  }

  /** Only a trailing ".pdf" goes: a doubled extension loses the last one. */
  lemma DoubledExtensionLosesOne()
    ensures ImageFileName("cv.pdf.pdf") == "cv.pdf.png"
  {
    AnyCasingIsStripped("cv.pdf", "pdf");
    assert "cv.pdf" + "." + "pdf" == "cv.pdf.pdf";
  }

  /** An inner ".pdf" is kept when the name ends otherwise. */
  lemma InnerPdfIsKept()
    ensures ImageFileName("cv.pdf.doc") == "cv.pdf.doc.png"
  {
    var name := "cv.pdf.doc";
    assert name[|name| - 3] == 'd';
    NoSuffixIsKept(name);
  }

  /** Upper-case and mixed-case extensions are stripped too. */
  lemma UpperCaseExtensionIsStripped()
    ensures ImageFileName("CV.PDF") == "CV.png"
  {
    AnyCasingIsStripped("CV", "PDF");
    assert "CV" + "." + "PDF" == "CV.PDF";
  }

  // ---------------------------------------------------------------------------
  // convertPdfToImage
  // ---------------------------------------------------------------------------

  /**
   * `convertPdfToImage(file)`: every failure the `Rasterizer` describes,
   * thrown or reported, yields the error variant with a non-empty message;
   * only a run in which every step succeeds yields a file, named after the
   * input and typed as PNG.
   */
  method ConvertPdfToImage(file: File, env: Rasterizer) returns (r: PdfConversionResult)
    ensures IsErrorVariant(r) || IsSuccessVariant(r)
    ensures IsSuccessVariant(r) <==> AllStepsSucceed(env)
    ensures IsErrorVariant(r) ==> r.error.value != ""
    ensures env.loadError.Some? ==> r == Failed(ThrownPrefix + env.loadError.value)
    ensures env.loadError.None? && !env.contextAvailable ==> r == Failed(CanvasContextError)
    ensures (env.loadError.None? && env.contextAvailable && env.renderError.Some?) ==>
              r == Failed(ThrownPrefix + env.renderError.value)
    ensures (env.loadError.None? && env.contextAvailable && env.renderError.None? && env.blob.None?) ==>
              r == Failed(BlobError)
    ensures AllStepsSucceed(env) ==>
              r.imageUrl == env.objectUrl &&
              r.file == Some(File(ImageFileName(file.name), env.blob.value, PngMimeType))
  {
    // try { ... } catch (err) { ... }: an exception from loading or rendering
    if env.loadError.Some? {
      return Failed(ThrownPrefix + env.loadError.value);
    }
    if !env.contextAvailable {
      return Failed(CanvasContextError);
    }
    if env.renderError.Some? {
      return Failed(ThrownPrefix + env.renderError.value);
    }
    // the toBlob callback
    if env.blob.None? {
      return Failed(BlobError);
    }
    var originalName := StripPdfSuffix(file.name);
    var imageFile := File(originalName + PngExtension, env.blob.value, PngMimeType);
    r := PdfConversionResult(env.objectUrl, Some(imageFile), None);
  }
}
