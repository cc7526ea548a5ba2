/** The PDF report steps: the file name of a generated report, the two-step
    generate-then-upload pipeline with its error prefixes, and the preview. The
    rasteriser, the upload, sharing and the clock are parameters. */
module PdfService {
  import opened Wrappers
  import opened Text
  import opened Http
  import HousecallProService

  /** An awaited step that returned a value or threw an error with a message. */
  datatype Attempt<T> = Returned(value: T) | Raised(message: string)

  /** `PDFGenerationResult` without the web blob. */
  datatype PdfResult = PdfResult(uri: string, fileName: string)

  /** What Housecall Pro returns for a stored attachment. */
  datatype Attachment = Attachment(id: string)

  /** The data of a successful `generateAndUploadReport`. */
  datatype ReportUpload = ReportUpload(pdfUri: string, attachmentId: string)

  const PDF_FAILED: string := "PDF generation failed: "
  const UPLOAD_FAILED: string := "HCP upload failed: "
  const UNEXPECTED: string := "Unexpected error: "
  const UNKNOWN_ERROR: string := "Unknown error"
  const PDF_MIME_TYPE: string := "application/pdf"
  const DEFAULT_DOWNLOAD_NAME: string := "Inspection_Report.pdf"
  const SHARING_UNAVAILABLE: string := "Sharing is not available on this device"

  // ---------------------------------------------------------------- the file name

  /** `name.replace(/[^a-zA-Z0-9]/g, '_')`. */
  function SanitizeName(s: string): (r: string)
    ensures |r| == |s|
    ensures forall i :: 0 <= i < |s| ==> r[i] == if IsAsciiAlnum(s[i]) then s[i] else '_'
  {
    if s == [] then [] else [if IsAsciiAlnum(s[0]) then s[0] else '_'] + SanitizeName(s[1..])
  }

  /** The sanitised name holds only letters, digits and `_`, and sanitising it again
      changes nothing. */
  lemma SanitizedIsSafe(s: string)
    ensures forall i :: 0 <= i < |SanitizeName(s)| ==> IsAsciiAlnum(SanitizeName(s)[i]) || SanitizeName(s)[i] == '_'
    ensures SanitizeName(SanitizeName(s)) == SanitizeName(s)
  {
    var r := SanitizeName(s);
    assert forall i :: 0 <= i < |r| ==> SanitizeName(r)[i] == r[i];
  }

  /** `Inspection_<sanitised project name>_<date>.pdf`, the date being the part of the
      ISO timestamp before its `T`. */
  function PdfFileName(projectName: string, isoNow: string): string
  {
    "Inspection_" + SanitizeName(projectName) + "_" + UpTo(isoNow, 'T') + ".pdf"
  }

  /** The pieces of `a + b + c + d + e`, by position. */
  lemma FiveParts(a: string, b: string, c: string, d: string, e: string)
    ensures var f := a + b + c + d + e;
      |f| == |a| + |b| + |c| + |d| + |e| &&
      f[..|a|] == a && f[|a|..|a| + |b|] == b && f[|a| + |b|..|a| + |b| + |c|] == c &&
      f[|f| - |e|..] == e
  {
    var f := a + b + c + d + e;
    assert f == a + (b + (c + (d + e)));
    assert f[..|a|] == a;
    assert f[|a|..] == b + (c + (d + e));
    assert f[|a| + |b|..] == c + (d + e);
    assert f[|f| - |e|..] == e;
  }

  /** The file name starts with `Inspection_`, continues with the sanitised name, which
      keeps the project name's length, then `_` and the date, and ends in `.pdf`. */
  lemma FileNameShape(projectName: string, isoNow: string)
    ensures var f := PdfFileName(projectName, isoNow);
      |f| == 11 + |projectName| + 1 + |UpTo(isoNow, 'T')| + 4 &&
      f[..11] == "Inspection_" && f[11..11 + |projectName|] == SanitizeName(projectName) &&
      f[11 + |projectName|..12 + |projectName|] == "_" && f[|f| - 4..] == ".pdf"
  {
    FiveParts("Inspection_", SanitizeName(projectName), "_", UpTo(isoNow, 'T'), ".pdf");
  }

  /** For an ISO timestamp the date is its first ten characters. */
  lemma IsoDatePart(isoNow: string)
    requires |isoNow| > 10 && isoNow[10] == 'T' && 'T' !in isoNow[..10]
    ensures UpTo(isoNow, 'T') == isoNow[..10]
  {
    UpToThenRest(isoNow[..10], 'T', isoNow[11..]);
    assert isoNow == isoNow[..10] + ['T'] + isoNow[11..];
  }

  /** `generateInspectionPDF`: the rendered file's URI and the file name, or the
      rasteriser's error message. */
  function GenerateInspectionPdf(projectName: string, isoNow: string, rendered: Attempt<string>): (r: ApiResponse<PdfResult>)
    ensures rendered.Returned? ==> r == Ok(PdfResult(rendered.value, PdfFileName(projectName, isoNow)))
    ensures rendered.Raised? ==> r == Err(rendered.message)
  {
    match rendered
    case Returned(uri) => Ok(PdfResult(uri, PdfFileName(projectName, isoNow)))
    case Raised(message) => Err(message)
  }

  // ---------------------------------------------------------------- generate and upload

  /** The pipeline's run: the PDF it handed to the upload, if it got that far, and its
      result. */
  datatype Pipeline = Pipeline(uploaded: Option<PdfResult>, result: ApiResponse<ReportUpload>)

  /** A step failed when it reports a truthy error or no data. */
  predicate Failed<T>(r: ApiResponse<T>)
  {
    Truthy(r.error) || r.data.None?
  }

  /** `generateAndUploadReport`, given the PDF step's result and what the upload of a
      PDF does. */
  function GenerateAndUploadReport(pdf: ApiResponse<PdfResult>, upload: PdfResult -> Attempt<ApiResponse<Attachment>>): (p: Pipeline)
    ensures p.uploaded.None? <==> Failed(pdf)
    ensures p.uploaded.Some? ==> p.uploaded == pdf.data
    ensures (p.result.data.Some? && p.result.error.None?) || (p.result.data.None? && p.result.error.Some?)
  {
    if Failed(pdf) then Pipeline(None, Err(PDF_FAILED + OrElse(pdf.error, UNKNOWN_ERROR)))
    else
      var result := match upload(pdf.data.value)
        case Raised(message) => Err(UNEXPECTED + message)
        case Returned(up) =>
          if Failed(up) then Err(UPLOAD_FAILED + OrElse(up.error, UNKNOWN_ERROR))
          else Ok(ReportUpload(pdf.data.value.uri, up.data.value.id));
      Pipeline(pdf.data, result)
  }

  /** The pipeline succeeds exactly when both steps do, with the generated URI and the
      returned attachment id; otherwise its error names the step that failed, followed
      by that step's error or 'Unknown error'. */
  lemma PipelineOutcome(pdf: ApiResponse<PdfResult>, upload: PdfResult -> Attempt<ApiResponse<Attachment>>)
    ensures var p := GenerateAndUploadReport(pdf, upload);
      Failed(pdf) ==> p.result.error == Some(PDF_FAILED + (if Truthy(pdf.error) then pdf.error.value else UNKNOWN_ERROR))
    ensures var p := GenerateAndUploadReport(pdf, upload);
      !Failed(pdf) && upload(pdf.data.value).Raised? ==> p.result.error == Some(UNEXPECTED + upload(pdf.data.value).message)
    ensures var p := GenerateAndUploadReport(pdf, upload);
      !Failed(pdf) && upload(pdf.data.value).Returned? && Failed(upload(pdf.data.value).value) ==>
        var e := upload(pdf.data.value).value.error;
        p.result.error == Some(UPLOAD_FAILED + (if Truthy(e) then e.value else UNKNOWN_ERROR))
    ensures var p := GenerateAndUploadReport(pdf, upload);
      p.result.data.Some? <==>
        !Failed(pdf) && upload(pdf.data.value).Returned? && !Failed(upload(pdf.data.value).value)
    ensures var p := GenerateAndUploadReport(pdf, upload);
      p.result.data.Some? ==>
        p.result.data.value == ReportUpload(pdf.data.value.uri, upload(pdf.data.value).value.data.value.id)
  {
  }

  /** Every error of the pipeline starts with one of its three prefixes. */
  lemma PipelineErrorPrefix(pdf: ApiResponse<PdfResult>, upload: PdfResult -> Attempt<ApiResponse<Attachment>>)
    ensures var e := GenerateAndUploadReport(pdf, upload).result.error;
      e.Some? ==> PDF_FAILED <= e.value || UPLOAD_FAILED <= e.value || UNEXPECTED <= e.value
  {
    var p := GenerateAndUploadReport(pdf, upload);
    if p.result.error.Some? {
      var e := p.result.error.value;
      if Failed(pdf) {
        assert e == PDF_FAILED + OrElse(pdf.error, UNKNOWN_ERROR);
      } else if upload(pdf.data.value).Raised? {
        assert e == UNEXPECTED + upload(pdf.data.value).message;
      } else {
        assert e == UPLOAD_FAILED + OrElse(upload(pdf.data.value).value.error, UNKNOWN_ERROR);
      }
    }
  }

  /** A rasteriser that throws an error without a message still makes the pipeline fail
      before any upload, with 'PDF generation failed: Unknown error'. */
  lemma SilentRasteriserFailure(projectName: string, isoNow: string, upload: PdfResult -> Attempt<ApiResponse<Attachment>>)
    ensures GenerateAndUploadReport(GenerateInspectionPdf(projectName, isoNow, Raised("")), upload) ==
      Pipeline(None, Err(PDF_FAILED + UNKNOWN_ERROR))
  {
  }

  /** The pipeline through `uploadJobAttachment` with the PDF's URI and file name: the
      upload is of type application/pdf, and with no stored key the pipeline fails with
      'HCP upload failed: Housecall Pro API key not configured'. */
  lemma PipelineWithoutKey<T>(projectName: string, isoNow: string, uri: string, platform: Platform,
                              supabaseUrl: string, key: Option<string>, jobId: string, blobFailure: Option<string>,
                              fetch: Request -> HousecallProService.FetchOutcome<Attachment>)
    requires !Truthy(key)
    ensures var upload := (r: PdfResult) =>
        Returned(HousecallProService.UploadJobAttachment(platform, supabaseUrl, key, jobId, r.fileName, PDF_MIME_TYPE, blobFailure, fetch).result);
      GenerateAndUploadReport(GenerateInspectionPdf(projectName, isoNow, Returned(uri)), upload).result ==
        Err(UPLOAD_FAILED + HousecallProService.NOT_CONFIGURED)
  {
  }

  // ---------------------------------------------------------------- preview

  /** What `previewPDF` did: a download of the named file, a share sheet, or nothing. */
  datatype PreviewEffect = Downloaded(name: string) | Shared | NoEffect

  datatype Preview = Preview(effect: PreviewEffect, result: ApiResponse<()>)

  /** `previewPDF`: on web a download of `fileName` or the default name; on native the
      share sheet when sharing is available. `available` is what `isAvailableAsync` did
      and `share` what `shareAsync` did. */
  function PreviewPdf(platform: Platform, fileName: Option<string>, available: Attempt<bool>, share: Attempt<()>): (p: Preview)
    ensures platform == Web ==> p == Preview(Downloaded(if Truthy(fileName) then fileName.value else DEFAULT_DOWNLOAD_NAME), ApiResponse(None, None))
    ensures platform == Native && available == Returned(false) ==> p == Preview(NoEffect, Err(SHARING_UNAVAILABLE))
  {
    match platform
    case Web => Preview(Downloaded(OrElse(fileName, DEFAULT_DOWNLOAD_NAME)), ApiResponse(None, None))
    case Native =>
      match available
      case Raised(message) => Preview(NoEffect, Err(message))
      case Returned(ok) =>
        if !ok then Preview(NoEffect, Err(SHARING_UNAVAILABLE))
        else match share
          case Raised(message) => Preview(NoEffect, Err(message))
          case Returned(_) => Preview(Shared, ApiResponse(None, None))
  }

  /** The preview never returns data; it reports no error exactly when the file was
      downloaded or shared, and the share sheet opens only where sharing is available. */
  lemma PreviewOutcome(platform: Platform, fileName: Option<string>, available: Attempt<bool>, share: Attempt<()>)
    ensures var p := PreviewPdf(platform, fileName, available, share);
      p.result.data.None? && (p.result.error.None? <==> !p.effect.NoEffect?)
    ensures var p := PreviewPdf(platform, fileName, available, share);
      p.effect.Shared? <==> platform == Native && available == Returned(true) && share.Returned?
    ensures var p := PreviewPdf(platform, fileName, available, share);
      p.effect.Downloaded? ==> p.effect.name != ""
  {
  }
}
