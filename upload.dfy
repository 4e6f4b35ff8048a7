/** The resume upload middleware, `upload.single('resume')` (multer with an in-memory
    store, a 5 MiB size limit and a PDF-only file filter), and the two ways its
    errors reach the caller: the serverless handler answers 400 with the error's
    message, the Express server passes the error to its global error handler. */
module Upload {
  import opened Optional
  import opened Http

  const MaxFileSize: nat := 5 * 1024 * 1024
  const PdfType := "application/pdf"
  const OnlyPdfMessage := "Only PDF files are allowed!"

  /** A file part of the multipart body: its form field, declared type and size in bytes. */
  datatype IncomingFile = IncomingFile(fieldName: string, mimetype: string, size: nat)

  /** What the middleware can fail with: the file filter's plain `Error`, or a `MulterError`. */
  datatype UploadError =
    | NotPdf
    | MulterError(code: string, message: string)

  function Message(e: UploadError): string {
    match e
    case NotPdf => OnlyPdfMessage
    case MulterError(_, m) => m
  }

  datatype UploadResult = NoFile | Accepted(file: IncomingFile) | Rejected(error: UploadError)

  /** `upload.single('resume')`: a file under another field is unexpected; otherwise the
      filter looks at the declared type first, and only a PDF is then held to the size
      limit (multer's limit trips once more than `MaxFileSize` bytes arrive). */
  function SingleResume(file: Option<IncomingFile>): (r: UploadResult)
    ensures file.None? <==> r.NoFile?
    ensures r.Accepted? ==> (r.file == file.value && r.file.fieldName == "resume"
                             && r.file.mimetype == PdfType && r.file.size <= MaxFileSize)
    ensures file.Some? && file.value.fieldName == "resume" && file.value.mimetype != PdfType ==> r == Rejected(NotPdf)
    ensures (file.Some? && file.value.fieldName == "resume" && file.value.mimetype == PdfType
             && file.value.size > MaxFileSize) ==> r == Rejected(MulterError("LIMIT_FILE_SIZE", "File too large"))
    ensures file.Some? && file.value.fieldName != "resume" ==>
              r == Rejected(MulterError("LIMIT_UNEXPECTED_FILE", "Unexpected field"))
  {
    match file
    case None => NoFile
    case Some(f) =>
      if f.fieldName != "resume" then Rejected(MulterError("LIMIT_UNEXPECTED_FILE", "Unexpected field"))
      else if f.mimetype != PdfType then Rejected(NotPdf)
      else if f.size > MaxFileSize then Rejected(MulterError("LIMIT_FILE_SIZE", "File too large"))
      else Accepted(f)
  }

  /** The size is never looked at for a file that is not a PDF: two such files that
      differ only in size are treated alike. */
  lemma TypeCheckedBeforeSize(f: IncomingFile, g: IncomingFile)
    requires f.fieldName == g.fieldName && f.mimetype == g.mimetype && f.mimetype != PdfType
    ensures SingleResume(Some(f)) == SingleResume(Some(g))
  {
  }

  /** The serverless handler's catch: any middleware error is a 400 carrying its message. */
  function MiddlewareErrorResponse(e: UploadError): (r: Response)
    ensures r.status == 400
    ensures e == NotPdf ==> r == ErrorResponse(400, OnlyPdfMessage)
  {
    ErrorResponse(400, Message(e))
  }

  /** The Express server's global error handler: a `MulterError` is a 400 (with a fixed
      message for the size limit); anything else, the file filter's plain `Error`
      included, is a 500 with the error's message. */
  function ServerErrorResponse(e: UploadError): (r: Response)
    ensures r.status == 400 <==> e.MulterError?
    ensures r.status == 500 <==> e == NotPdf
    ensures e == NotPdf ==> r == ErrorResponse(500, OnlyPdfMessage)
    ensures e.MulterError? && e.code == "LIMIT_FILE_SIZE" ==> r == ErrorResponse(400, "File is too large. Max size is 5MB.")
    ensures e.MulterError? && e.code != "LIMIT_FILE_SIZE" ==> r == ErrorResponse(400, e.message)
  {
    match e
    case MulterError(code, message) =>
      if code == "LIMIT_FILE_SIZE" then ErrorResponse(400, "File is too large. Max size is 5MB.")
      else ErrorResponse(400, message)
    case NotPdf =>
      // `err.message || 'Internal Server Error'`; the filter's message is never empty
      ErrorResponse(500, if OnlyPdfMessage != "" then OnlyPdfMessage else "Internal Server Error")
  }

  /** The two servers disagree on a non-PDF upload: 400 from the serverless handler,
      500 from the Express server. Both agree on the status of every `MulterError`. */
  lemma ServersDisagreeOnlyOnType(e: UploadError)
    ensures MiddlewareErrorResponse(e).status != ServerErrorResponse(e).status <==> e == NotPdf
  {
  }
}
