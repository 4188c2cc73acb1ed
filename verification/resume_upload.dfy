/**
 * The upload component's file handler: the type check, then the size check, then the
 * parse, with the error message the component shows for each outcome.
 */
module ResumeUpload {
  import opened Wrappers
  import opened ResumeParser

  /** The selected file as the handler sees it: its MIME type and its size in bytes. */
  datatype File = File(mimeType: string, size: nat)

  /** A thrown value: an `Error` carries a message, anything else does not. */
  datatype Thrown = ErrorValue(message: string) | OtherValue

  /**
   * What the PDF or DOCX library produced: the document's text, or what it threw. The
   * libraries themselves are not modelled.
   */
  datatype Extraction = Extracted(text: string) | LibraryThrew(thrown: Thrown)

  /** The component's state: whether a parse is in progress, and the error on display. */
  datatype UploadState = UploadState(isProcessing: bool, error: Option<string>)

  /**
   * The handler's outcome: the new state, whether the parser was invoked, and the record
   * passed to the upload callback, if it was called.
   */
  datatype Selection = Selection(state: UploadState, parsed: bool, delivered: Option<ExtractedInfo>)

  /** Ten mebibytes: the largest size accepted. */
  const MaxSize: nat := 10 * 1024 * 1024

  const WrongType := "Please upload a PDF or DOCX file only."
  const TooLarge := "File size must be less than 10MB."
  const ProcessingFailed := "Failed to process resume."

  predicate AllowedType(mimeType: string) {
    mimeType in [PdfType, DocxType]
  }

  /** `parseResume` as the component observes it: a record, or the value it throws. */
  function ParseFile(file: File, extraction: Extraction, m: Matches): (r: Result)
    ensures r.Delivered? ==> r.info.isValidResume
    ensures !AllowedType(file.mimeType) ==> r == Failed(ErrorValue(UnsupportedFormat))
    ensures AllowedType(file.mimeType) && extraction.LibraryThrew? ==> r == Failed(extraction.thrown)
    ensures r.Delivered? ==> extraction.Extracted? && r.info == ExtractResumeInfo(extraction.text, m)
    ensures AllowedType(file.mimeType) && extraction.Extracted? ==>
      (r.Delivered? <==> IsResumeDocument(extraction.text, m.signals)) &&
      (r.Failed? ==> r.thrown == ErrorValue(NotAResume))
  {
    if !AllowedType(file.mimeType) then Failed(ErrorValue(UnsupportedFormat))
    else
      match extraction
      case LibraryThrew(t) => Failed(t)
      case Extracted(text) =>
        match ParseResume(file.mimeType, text, m)
        case Parsed(info) => Delivered(info)
        case Rejected(message) => Failed(ErrorValue(message))
  }

  datatype Result = Delivered(info: ExtractedInfo) | Failed(thrown: Thrown)

  /** The message the catch block shows for a thrown value. */
  function MessageOf(t: Thrown): (msg: string)
    ensures t.ErrorValue? ==> msg == t.message
    ensures t.OtherValue? ==> msg == ProcessingFailed
  {
    match t
    case ErrorValue(message) => message
    case OtherValue => ProcessingFailed
  }

  /** `handleFileSelect`, run to completion. */
  function HandleFileSelect(s: UploadState, file: Option<File>, extraction: Extraction, m: Matches): (r: Selection)
    ensures file.None? ==> r == Selection(s, false, None)
    ensures file.Some? && !AllowedType(file.value.mimeType) ==>
      r == Selection(s.(error := Some(WrongType)), false, None)
    ensures file.Some? && AllowedType(file.value.mimeType) && file.value.size > MaxSize ==>
      r == Selection(s.(error := Some(TooLarge)), false, None)
    ensures file.Some? && AllowedType(file.value.mimeType) && file.value.size <= MaxSize ==>
      r.parsed && !r.state.isProcessing && (r.delivered.Some? <==> r.state.error.None?)
    ensures r.delivered.Some? ==> r.parsed && r.delivered.value.isValidResume
    ensures file.Some? && AllowedType(file.value.mimeType) && file.value.size <= MaxSize ==>
      var p := ParseFile(file.value, extraction, m);
      && (p.Failed? ==> r.state.error == Some(MessageOf(p.thrown)) && r.delivered.None?)
      && (p.Delivered? ==> r.delivered == Some(p.info) && r.state.error.None?)
  {
    match file
    case None => Selection(s, false, None)
    case Some(f) =>
      if !AllowedType(f.mimeType) then Selection(s.(error := Some(WrongType)), false, None)
      else if f.size > MaxSize then Selection(s.(error := Some(TooLarge)), false, None)
      else
        // The error is cleared and `isProcessing` raised before the parse; `finally` lowers it.
        match ParseFile(f, extraction, m)
        case Delivered(info) => Selection(UploadState(false, None), true, Some(info))
        case Failed(t) => Selection(UploadState(false, Some(MessageOf(t))), true, None)
  }

  /**
   * End to end: a file of an allowed type within the limit, whose text the library extracted,
   * delivers exactly the record extracted from that text when it is a resume, and otherwise
   * shows the not-a-resume message.
   */
  lemma DeliveredRecord(s: UploadState, file: File, text: string, m: Matches)
    requires AllowedType(file.mimeType) && file.size <= MaxSize
    ensures var r := HandleFileSelect(s, Some(file), Extracted(text), m);
      && (IsResumeDocument(text, m.signals) ==>
            r.delivered == Some(ExtractResumeInfo(text, m)) && r.state.error.None?)
      && (!IsResumeDocument(text, m.signals) ==>
            r.delivered.None? && r.state.error == Some(NotAResume))
  {
    var p := ParseFile(file, Extracted(text), m);
    if IsResumeDocument(text, m.signals) {
      assert p.Delivered?;
    } else {
      assert p == Failed(ErrorValue(NotAResume));
    }
  }

  /** When the library throws, the component shows what `MessageOf` makes of the thrown value. */
  lemma ThrownMessageShown(s: UploadState, file: File, t: Thrown, m: Matches)
    requires AllowedType(file.mimeType) && file.size <= MaxSize
    ensures HandleFileSelect(s, Some(file), LibraryThrew(t), m) == Selection(UploadState(false, Some(MessageOf(t))), true, None)
    ensures t.ErrorValue? ==> HandleFileSelect(s, Some(file), LibraryThrew(t), m).state.error == Some(t.message)
  {
  }

  /** A file of exactly ten mebibytes of an allowed type reaches the parser. */
  lemma LimitIsInclusive(s: UploadState, mimeType: string, extraction: Extraction, m: Matches)
    requires AllowedType(mimeType)
    ensures HandleFileSelect(s, Some(File(mimeType, MaxSize)), extraction, m).parsed
    ensures !HandleFileSelect(s, Some(File(mimeType, MaxSize + 1)), extraction, m).parsed
  {
  }

  /** The type is checked first: an oversized file of the wrong type reports the type error. */
  lemma TypeCheckedBeforeSize(s: UploadState, file: File, extraction: Extraction, m: Matches)
    requires !AllowedType(file.mimeType) && file.size > MaxSize
    ensures HandleFileSelect(s, Some(file), extraction, m).state.error == Some(WrongType)
  {
  }

  /**
   * The parser's unsupported-format error never reaches the user through the component:
   * a file of another type is stopped by the component's own check. Starting from no
   * error, the message never appears.
   */
  lemma UnsupportedFormatUnreachable(s: UploadState, file: Option<File>, extraction: Extraction, m: Matches)
    requires s.error != Some(UnsupportedFormat)
    requires extraction.LibraryThrew? ==> extraction.thrown != ErrorValue(UnsupportedFormat)
    ensures HandleFileSelect(s, file, extraction, m).state.error != Some(UnsupportedFormat)
  {
    MessagesDiffer();
    if file.Some? && AllowedType(file.value.mimeType) && file.value.size <= MaxSize {
      AllowedNeverUnsupported(file.value, extraction, m);
    }
  }

  /** For a file of an allowed type the parse never fails with the unsupported-format message. */
  lemma AllowedNeverUnsupported(f: File, extraction: Extraction, m: Matches)
    requires AllowedType(f.mimeType)
    requires extraction.LibraryThrew? ==> extraction.thrown != ErrorValue(UnsupportedFormat)
    ensures ParseFile(f, extraction, m).Failed? ==> MessageOf(ParseFile(f, extraction, m).thrown) != UnsupportedFormat
  {
    MessagesDiffer();
    match extraction
    case LibraryThrew(t) =>
    case Extracted(text) =>
      var p := ParseResume(f.mimeType, text, m);
      assert p.Rejected? ==> p.message == NotAResume;
  }

  /** The unsupported-format message differs from the four the component can show. */
  lemma MessagesDiffer()
    ensures UnsupportedFormat != WrongType && UnsupportedFormat != TooLarge
    ensures UnsupportedFormat != ProcessingFailed && UnsupportedFormat != NotAResume
  {
    assert |UnsupportedFormat| == 62 && |NotAResume| == 126;
    assert |WrongType| == 38 && |TooLarge| == 33 && |ProcessingFailed| == 25;
  }

  /** The callback receives a record exactly when the text is a resume and the checks pass. */
  lemma DeliveredIffResume(s: UploadState, file: File, text: string, m: Matches)
    requires AllowedType(file.mimeType) && file.size <= MaxSize
    ensures HandleFileSelect(s, Some(file), Extracted(text), m).delivered.Some? <==>
      IsResumeDocument(text, m.signals)
  {
  }
}
