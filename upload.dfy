/** The multer upload configuration: stored file names, the image file filter
    and the two upload configurations (one profile image, up to ten product
    images). */
module Upload {
  import opened Common
  import opened Js
  import opened Text
  import opened ErrorHandler
  import opened ErrorMiddleware

  const FileSizeLimit: int := 5 * 1024 * 1024
  const AllowedImageTypes: seq<string> := ["image/jpeg", "image/png", "image/jpg", "image/webp"]

  /** What multer knows of an incoming file. It calls the filter before it reads
      the file, so at that point the size is not known (`file.size` is
      undefined) and is None here. */
  datatype IncomingFile = IncomingFile(fieldname: string, originalname: string, mimetype: string, size: Option<int>)

  /** `file.size > FILE_SIZE_LIMIT`: an undefined size compares as false. */
  predicate OverLimit(file: IncomingFile)
  {
    file.size.Some? && file.size.value > FileSizeLimit
  }

  /** The storage `filename` callback: `<fieldname>-<timestamp><ext>`, where `ext`
      is `path.extname(originalname)` (computed by the caller). */
  function StoredFilename(fieldname: string, timestamp: nat, ext: string): string
  {
    fieldname + "-" + NatToString(timestamp) + ext
  }

  /** The stored name starts with the field name and a dash, ends with the
      extension, and the digits in between read back as the timestamp. */
  lemma StoredFilenameParts(fieldname: string, timestamp: nat, ext: string)
    ensures var f := StoredFilename(fieldname, timestamp, ext);
      var digits := f[|fieldname| + 1 .. |f| - |ext|];
      |f| > |fieldname| + |ext| + 1
      && f[..|fieldname| + 1] == fieldname + "-"
      && f[|f| - |ext|..] == ext
      && AllDigits(digits) && DecimalValue(digits) == timestamp
  {
    var f := StoredFilename(fieldname, timestamp, ext);
    assert f[|fieldname| + 1 .. |f| - |ext|] == NatToString(timestamp);
  }

  /** How the filter answers: accept the file, reject it with an error passed to
      the callback, or raise an exception out of the filter itself. */
  datatype FilterOutcome = Accept | Reject(error: AppError) | Raise(name: string, message: string)

  /** Upload errors as they would read had `ErrorHandler` been in scope. */
  function TypeError(allowed: seq<string>): AppError
  {
    NewErrorHandler(Some(JStr("Only " + Join(allowed, ", ") + " are allowed")), Some(JNum(400)))
  }

  function SizeError(): AppError
  {
    NewErrorHandler(Some(JStr("File size should be less than 5MB")), Some(JNum(400)))
  }

  /** The `fileFilter` as written: the module never imports `ErrorHandler`, so
      both rejection paths fail with a ReferenceError while building the error. */
  function FileFilterAsWritten(allowed: seq<string>, file: IncomingFile): FilterOutcome
  {
    if file.mimetype !in allowed then Raise("ReferenceError", "ErrorHandler is not defined")
    else if OverLimit(file) then Raise("ReferenceError", "ErrorHandler is not defined")
    else Accept
  }

  /** A file of a type outside the list never reaches the intended 400 error. */
  lemma FilterRejectionRaises(allowed: seq<string>, file: IncomingFile)
    requires file.mimetype !in allowed
    ensures FileFilterAsWritten(allowed, file) == Raise("ReferenceError", "ErrorHandler is not defined")
    ensures FileFilterAsWritten(AllowedImageTypes, IncomingFile("productImages", "a.gif", "image/gif", None)).Raise?
  {
  }

  /** The filter with `ErrorHandler` imported: the type is checked before the size. */
  function FileFilter(allowed: seq<string>, file: IncomingFile): FilterOutcome
  {
    if file.mimetype !in allowed then Reject(TypeError(allowed))
    else if OverLimit(file) then Reject(SizeError())
    else Accept
  }

  /** A file is accepted exactly when its type is listed and it is not known
      to exceed 5 MiB; every refusal is a 400, and a file of the wrong type gets
      the type error whatever its size. As multer calls it, with no size, the
      filter decides on the type alone: its size branch never runs. */
  lemma FileFilterDecides(file: IncomingFile)
    ensures FileFilter(AllowedImageTypes, file) == Accept <==>
      file.mimetype in AllowedImageTypes && (file.size.None? || file.size.value <= 5242880)
    ensures file.size.None? ==>
      (FileFilter(AllowedImageTypes, file) == Accept <==> file.mimetype in AllowedImageTypes)
      && FileFilter(AllowedImageTypes, file) != Reject(SizeError())
    ensures FileFilter(AllowedImageTypes, file).Reject? ==> FileFilter(AllowedImageTypes, file).error.statusCode == 400
    ensures file.mimetype !in AllowedImageTypes ==> FileFilter(AllowedImageTypes, file) == Reject(TypeError(AllowedImageTypes))
    ensures FileFilterAsWritten(AllowedImageTypes, file) == Accept <==> FileFilter(AllowedImageTypes, file) == Accept
  {
  }

  /** A multer configuration: where files go, the form field, how many files and
      the per-file size limit. */
  datatype UploadConfig = UploadConfig(destination: string, field: string, maxCount: nat, fileSizeLimit: int)

  const UserUpload := UploadConfig("uploads/users", "profileImage", 1, FileSizeLimit)
  const ProductUpload := UploadConfig("uploads/products", "productImages", 10, FileSizeLimit)

  /** multer's `MulterError` for a file over `limits.fileSize` (code
      LIMIT_FILE_SIZE): it has no `statusCode`. */
  const FileTooLarge := RaisedError("MulterError", "File too large", None, None, [], None)

  /** Receiving a file of `bytes` bytes under a configuration: multer stops it
      with its own error past the size limit. */
  function ReceiveFile(config: UploadConfig, bytes: nat): (r: Option<RaisedError>)
    ensures r.Some? <==> bytes > config.fileSizeLimit
    ensures r.Some? ==> r.value == FileTooLarge
  {
    if bytes > config.fileSizeLimit then Some(FileTooLarge) else None
  }

  /** An oversized upload is stopped by multer's limit, not by the filter, and
      since the error middleware does not know `MulterError` and it carries no
      status, the reply is a 500 with multer's message. */
  lemma OversizedIsServerError(config: UploadConfig, bytes: nat, env: string)
    requires config == UserUpload || config == ProductUpload
    ensures ReceiveFile(config, bytes).Some? <==> bytes > 5242880
    ensures ReceiveFile(config, bytes).Some? ==>
      HandleError(ReceiveFile(config, bytes).value, env).status == 500
      && HandleError(ReceiveFile(config, bytes).value, env).message == "File too large"
  {
  }

  /** Whether a configuration takes `count` files sent under `fieldname`. */
  predicate TakesFiles(config: UploadConfig, fieldname: string, count: nat)
  {
    fieldname == config.field && count <= config.maxCount
  }

  /** Profile uploads take one 'profileImage' into uploads/users; product uploads
      take up to ten 'productImages' into uploads/products. */
  lemma UploadConfigurations()
    ensures TakesFiles(UserUpload, "profileImage", 1) && !TakesFiles(UserUpload, "profileImage", 2)
    ensures !TakesFiles(UserUpload, "productImages", 1)
    ensures TakesFiles(ProductUpload, "productImages", 10) && !TakesFiles(ProductUpload, "productImages", 11)
    ensures UserUpload.destination == "uploads/users" && ProductUpload.destination == "uploads/products"
    ensures UserUpload.fileSizeLimit == ProductUpload.fileSizeLimit == 5242880
  {
  }
}
