/** The document upload control: the size and type checks on the chosen file, the choice of
    the line or the report it is attached to, the test of the server's answer and the reset
    after every attempt. */
module DocumentUploadControl {
  import opened Js
  import opened Seqs
  import opened JsStrings
  import opened Api

  const DefaultMaxFileSize: nat := 10485760
  const DefaultAllowedTypes: seq<string> := ["pdf", "jpg", "jpeg", "png", "gif", "tiff"]

  /** A chosen file: its name and its size in bytes. */
  datatype File = File(name: string, size: nat)

  /** Splitting at a separator splits the two sides on their own. */
  lemma {:induction false} SplitAround(a: string, sep: char, t: string)
    ensures Split(a + [sep] + t, sep) == Split(a, sep) + Split(t, sep)
    decreases |a|
  {
    var s := a + [sep] + t;
    if a == [] {
      assert s == [sep] + t && s[1..] == t;
    } else {
      assert s[0] == a[0] && s[1..] == a[1..] + [sep] + t;
      SplitAround(a[1..], sep, t);
      var r1, r2 := Split(a[1..], sep), Split(t, sep);
      assert Split(s[1..], sep) == r1 + r2;
      if a[0] == sep {
        ConcatAssoc([""], r1, r2);
      } else {
        ConcatFront(r1, r2);
        ConcatAssoc([[a[0]] + r1[0]], r1[1..], r2);
      }
    }
  }

  /** `name.split('.').pop()?.toLowerCase()`: the lower-cased text after the last dot, or
      the whole name lower-cased when it has no dot. */
  function Extension(name: string): string {
    var pieces := Split(name, '.');
    Lower(pieces[|pieces| - 1])
  }

  /** The extension is what follows the last dot, whatever comes before it. */
  lemma ExtensionAfterLastDot(base: string, ext: string)
    requires Free(ext, '.')
    ensures Extension(base + "." + ext) == Lower(ext)
    ensures Extension(ext) == Lower(ext)
  {
    SplitAround(base, '.', ext);
    JoinSplit([ext], '.');
    assert Split(ext, '.') == [ext];
  }

  /** `list.join(', ')`. */
  function JoinComma(list: seq<string>): string {
    if list == [] then "" else if |list| == 1 then list[0] else list[0] + ", " + JoinComma(list[1..])
  }

  const NoTargetMessage := "No reportId or lineId provided"
  const UploadFailedMessage := "Upload failed"
  const UploadFailedDefault := "Failed to upload document"

  /** Where the document goes: the line when a line id is given, otherwise the report; an
      upload with neither fails. */
  datatype Target = LineTarget(lineId: Value) | ReportTarget(reportId: Value)

  function TargetFor(lineId: Value, reportId: Value): (r: Result<Target>)
    ensures Truthy(lineId) ==> r == Ok(LineTarget(lineId))
    ensures !Truthy(lineId) && Truthy(reportId) ==> r == Ok(ReportTarget(reportId))
    ensures r.Err? <==> !Truthy(lineId) && !Truthy(reportId)
  {
    if Truthy(lineId) then Ok(LineTarget(lineId))
    else if Truthy(reportId) then Ok(ReportTarget(reportId))
    else Err(NewError(Str(NoTargetMessage)))
  }

  /** What one attempt ends in. */
  datatype Outcome =
    | TooLarge(maxFileSize: nat)
    | TypeNotAllowed(message: string)
    | Uploaded(document: Value)
    | UploadError(error: Value)

  /** The error an answer without `success` is turned into: its message, or the fixed one. */
  function AnswerError(response: Value): Value {
    var m := Get(Get(response, "data"), "message");
    NewError(if Truthy(m) then m else Str(UploadFailedMessage))
  }

  /** An unsuccessful answer reports the server's message when there is one and the fixed
      message otherwise; a missing target reports that. */
  lemma UploadErrorMessages(response: Value)
    ensures Truthy(Get(Get(response, "data"), "message")) ==>
              HandleApiError(AnswerError(response), UploadFailedDefault) == Get(Get(response, "data"), "message")
    ensures !Truthy(Get(Get(response, "data"), "message")) ==>
              HandleApiError(AnswerError(response), UploadFailedDefault) == Str(UploadFailedMessage)
    ensures HandleApiError(NewError(Str(NoTargetMessage)), UploadFailedDefault) == Str(NoTargetMessage)
  {
  }

  class Uploader {
    var isUploading: bool
    var progress: int
    const maxFileSize: nat
    const allowedTypes: seq<string>

    constructor (maxSize: nat, allowed: seq<string>)
      ensures !isUploading && progress == 0 && maxFileSize == maxSize && allowedTypes == allowed
    {
      isUploading := false;
      progress := 0;
      maxFileSize := maxSize;
      allowedTypes := allowed;
    }

    /** `handleFileUpload(file)` answered by `server`: a file larger than the limit or with
        an extension not allowed is refused before any call; otherwise it is sent to its
        target, and only an answer with `success` counts as uploaded. Afterwards nothing is
        uploading and the progress is 0. */
    method Upload(file: File, lineId: Value, reportId: Value, server: Settled) returns (outcome: Outcome, sent: Option<Target>)
      modifies this
      ensures file.size <= maxFileSize && Extension(file.name) in allowedTypes ==> !isUploading && progress == 0
      ensures !(file.size <= maxFileSize && Extension(file.name) in allowedTypes) ==>
                isUploading == old(isUploading) && progress == old(progress)
      ensures file.size > maxFileSize ==> outcome == TooLarge(maxFileSize) && sent == None
      ensures file.size <= maxFileSize && Extension(file.name) !in allowedTypes ==>
                outcome == TypeNotAllowed("File type not allowed. Allowed types: " + JoinComma(allowedTypes)) && sent == None
      ensures sent.Some? <==> file.size <= maxFileSize && Extension(file.name) in allowedTypes && TargetFor(lineId, reportId).Ok?
      ensures sent.Some? ==> sent.value == TargetFor(lineId, reportId).value
      ensures outcome.Uploaded? <==>
                sent.Some? && server.Fulfilled? && Truthy(Get(server.value, "data")) && Truthy(Get(Get(server.value, "data"), "success"))
      ensures outcome.Uploaded? ==> outcome.document == Get(Get(server.value, "data"), "data")
      ensures sent.Some? && server.Rejected? ==> outcome == UploadError(HandleApiError(server.reason, UploadFailedDefault))
      ensures sent.Some? && server.Fulfilled? && !outcome.Uploaded? ==>
                outcome == UploadError(HandleApiError(AnswerError(server.value), UploadFailedDefault))
      ensures file.size <= maxFileSize && Extension(file.name) in allowedTypes && sent.None? ==>
                outcome == UploadError(Str(NoTargetMessage))
    {
      sent := None;
      if file.size > maxFileSize {
        outcome := TooLarge(maxFileSize);
        return;
      }
      if Extension(file.name) !in allowedTypes {
        outcome := TypeNotAllowed("File type not allowed. Allowed types: " + JoinComma(allowedTypes));
        return;
      }
      isUploading := true;
      progress := 0;
      var target := TargetFor(lineId, reportId);
      if target.Err? {
        outcome := UploadError(HandleApiError(target.error, UploadFailedDefault));
      } else {
        sent := Some(target.value);
        match server {
          case Rejected(reason) =>
            outcome := UploadError(HandleApiError(reason, UploadFailedDefault));
          case Fulfilled(response) =>
            var data := Get(response, "data");
            if Truthy(data) && Truthy(Get(data, "success")) {
              outcome := Uploaded(Get(data, "data"));
              progress := 100;
            } else {
              outcome := UploadError(HandleApiError(AnswerError(response), UploadFailedDefault));
            }
        }
      }
      isUploading := false;
      progress := 0;
    }
  }

  /** The default types accept an upper-case extension, whatever the name before it. */
  lemma DefaultTypesIgnoreCase(base: string)
    ensures Extension(base + ".PDF") == "pdf" && Extension(base + ".PDF") in DefaultAllowedTypes
  {
    var e := "PDF";
    assert Free(e, '.');
    ExtensionAfterLastDot(base, e);
    assert base + "." + e == base + ".PDF";
    assert Lower(e) == "pdf";
  }

  /** Only the text after the last dot counts: a name whose last extension is not allowed is
      refused, whatever the allowed extension before it. */
  lemma DefaultTypesUseLastDot(base: string)
    ensures Extension(base + ".pdf.exe") == "exe" && Extension(base + ".pdf.exe") !in DefaultAllowedTypes
  {
    var e := "exe";
    assert Free(e, '.');
    ExtensionAfterLastDot(base + ".pdf", e);
    assert base + ".pdf" + "." + e == base + ".pdf.exe";
    assert Lower(e) == "exe";
    assert "exe" != "pdf" && "exe" != "jpg" && "exe" != "jpeg" && "exe" != "png" && "exe" != "gif" && "exe" != "tiff";
  }
}
