/**
 * `POST /api/upload`: the validation chain, the stored file name and the record written for an upload.
 * Writing the bytes to disk is not modelled; the clock and the random suffix are parameters.
 */
module UploadRoute {
  import opened Common
  import opened Strings

  const MaxFileSize: nat := 10 * 1024 * 1024

  /** `ALLOWED_TYPES`: the MIME types each upload type accepts; `None` for a type that is not a key. */
  function AllowedMimeTypes(fileType: string): (r: Option<seq<string>>)
    ensures r.Some? <==> fileType in {"image", "document", "avatar"}
  {
    match fileType
    case "image" => Some(["image/jpeg", "image/png", "image/webp", "image/gif"])
    case "document" => Some(["application/pdf", "application/msword",
                             "application/vnd.openxmlformats-officedocument.wordprocessingml.document"])
    case "avatar" => Some(["image/jpeg", "image/png", "image/webp"])
    case _ => None
  }

  /** The `file` form field. */
  datatype UploadedFile = UploadedFile(name: string, mimeType: string, size: nat)

  /** The row inserted into `file_uploads`. */
  datatype FileRecord = FileRecord(
    userId: string, filename: string, originalFilename: string, filePath: string, fileSize: nat,
    mimeType: string, fileType: string, entityId: Option<string>, isPublic: bool)

  /** An error response: status 400 and its message. */
  datatype Rejection = Rejection(status: int, message: string)

  /** `file.name.split(".").pop()`: the text after the last dot, or the whole name without one. */
  function Extension(name: string): (r: string)
    ensures '.' !in r
    ensures '.' !in name ==> r == name
  {
    var pieces := Split(name, '.');
    if '.' !in name then SplitWithoutSeparator(name, '.'); pieces[|pieces| - 1] else pieces[|pieces| - 1]
  }

  /** Joining all pieces but the last, then the last: the extension is what follows the last dot. */
  lemma {:induction false} JoinLast(pieces: seq<string>, d: char)
    requires |pieces| >= 2
    ensures Join(pieces, d) == Join(pieces[..|pieces| - 1], d) + [d] + pieces[|pieces| - 1]
    decreases |pieces|
  {
    if |pieces| > 2 {
      JoinLast(pieces[1..], d);
      assert pieces[1..][..|pieces| - 2] == pieces[..|pieces| - 1][1..];
    }
  }

  /** A name with a dot is some text, a dot, and the extension. */
  lemma ExtensionFollowsLastDot(name: string)
    requires '.' in name
    ensures exists stem :: name == stem + "." + Extension(name)
  {
    var pieces := Split(name, '.');
    JoinSplit(name, '.');
    JoinLast(pieces, '.');
    var stem := Join(pieces[..|pieces| - 1], '.');
    assert name == stem + "." + Extension(name);
  }

  /** The handler after `withAuth` admitted `userId`: the guards in order, then the record. */
  function Upload(userId: string, file: Option<UploadedFile>, fileType: Option<string>, entityId: Option<string>,
                  timestamp: nat, randomString: string): (r: Result<FileRecord, Rejection>)
    ensures r.Err? ==> r.error.status == 400
    ensures file.None? ==> r == Err(Rejection(400, "No file provided"))
    ensures file.Some? && (fileType.None? || AllowedMimeTypes(fileType.value).None?) ==>
      r == Err(Rejection(400, "Invalid file type specified"))
    ensures file.Some? && fileType.Some? && AllowedMimeTypes(fileType.value).Some?
            && file.value.mimeType !in AllowedMimeTypes(fileType.value).value ==>
      r == Err(Rejection(400, "File type " + file.value.mimeType + " not allowed for " + fileType.value))
    ensures file.Some? && fileType.Some? && AllowedMimeTypes(fileType.value).Some?
            && file.value.mimeType in AllowedMimeTypes(fileType.value).value && file.value.size > MaxFileSize ==>
      r == Err(Rejection(400, "File size too large"))
    ensures r.Ok? <==> (file.Some? && fileType.Some? && AllowedMimeTypes(fileType.value).Some?
                        && file.value.mimeType in AllowedMimeTypes(fileType.value).value
                        && file.value.size <= MaxFileSize)
    ensures r.Ok? ==> r.value.filename == NatToString(timestamp) + "-" + randomString + "." + Extension(file.value.name)
    ensures r.Ok? ==> (r.value.filePath == "/uploads/" + fileType.value + "/" + r.value.filename
                       && r.value.isPublic == (fileType.value in {"avatar", "image"})
                       && r.value.originalFilename == file.value.name && r.value.userId == userId)
  {
    if file.None? then Err(Rejection(400, "No file provided"))
    else if fileType.None? || fileType.value == "" || AllowedMimeTypes(fileType.value).None? then
      Err(Rejection(400, "Invalid file type specified"))
    else if file.value.mimeType !in AllowedMimeTypes(fileType.value).value then
      Err(Rejection(400, "File type " + file.value.mimeType + " not allowed for " + fileType.value))
    else if file.value.size > MaxFileSize then Err(Rejection(400, "File size too large"))
    else
      var f := file.value;
      var filename := NatToString(timestamp) + "-" + randomString + "." + Extension(f.name);
      Ok(FileRecord(userId, filename, f.name, "/uploads/" + fileType.value + "/" + filename, f.size, f.mimeType,
                    fileType.value, entityId, fileType.value == "avatar" || fileType.value == "image"))
  }

  /** The stored name keeps the extension of the uploaded one, whatever the random part holds. */
  lemma StoredNameKeepsExtension(userId: string, file: UploadedFile, fileType: string, entityId: Option<string>,
                                 timestamp: nat, randomString: string)
    requires Upload(userId, Some(file), Some(fileType), entityId, timestamp, randomString).Ok?
    ensures var stored := Upload(userId, Some(file), Some(fileType), entityId, timestamp, randomString).value;
      Extension(stored.filename) == Extension(file.name)
  {
    var stored := Upload(userId, Some(file), Some(fileType), entityId, timestamp, randomString).value;
    var stem := NatToString(timestamp) + "-" + randomString;
    var ext := Extension(file.name);
    assert stored.filename == stem + "." + ext == stem + ['.'] + ext;
    SplitLast(stem, '.', ext);
    assert stored.filename[|stem|] == '.';
  }

  /** The size limit is inclusive: a file of exactly 10 MiB of an allowed type is stored. */
  lemma MaxSizeIsAccepted(userId: string, name: string, fileType: string, timestamp: nat, randomString: string)
    requires fileType in {"image", "avatar"}
    ensures Upload(userId, Some(UploadedFile(name, "image/png", MaxFileSize)), Some(fileType), None,
                   timestamp, randomString).Ok?
    ensures Upload(userId, Some(UploadedFile(name, "image/png", MaxFileSize + 1)), Some(fileType), None,
                   timestamp, randomString) == Err(Rejection(400, "File size too large"))
  {
  }

  /** GIF images are accepted as `image` but not as `avatar`; the other image types are accepted by both. */
  lemma AvatarRefusesGif(userId: string, name: string, size: nat, timestamp: nat, randomString: string)
    requires size <= MaxFileSize
    ensures Upload(userId, Some(UploadedFile(name, "image/gif", size)), Some("image"), None, timestamp,
                   randomString).Ok?
    ensures Upload(userId, Some(UploadedFile(name, "image/gif", size)), Some("avatar"), None, timestamp,
                   randomString) == Err(Rejection(400, "File type " + "image/gif" + " not allowed for " + "avatar"))
  {
    var gif := "image/gif";
    assert AllowedMimeTypes("image").value[3] == gif;
    var avatarTypes := AllowedMimeTypes("avatar").value;
    assert avatarTypes == ["image/jpeg", "image/png", "image/webp"];
    assert avatarTypes[0][6] != gif[6] && avatarTypes[1][6] != gif[6] && avatarTypes[2][6] != gif[6];
    assert gif !in avatarTypes;
  }
}
