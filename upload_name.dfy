/** Names of uploaded files (the multer `filename` callback and the
    `/upload` route in server/index.js). The time- and random-based prefix is
    a parameter here. */
module UploadNames {
  import opened JsText

  /** The characters `/[^a-z0-9.]/gi` does not match: ASCII letters of
      either case, ASCII digits and '.'. Without the `u` flag the class is
      matched against single code units, and case-insensitive matching never
      maps a non-ASCII code unit onto an ASCII letter. */
  predicate IsSafe(c: CodeUnit)
  {
    (0x61 <= c <= 0x7A) || (0x41 <= c <= 0x5A) || (0x30 <= c <= 0x39) || c == 0x2E
  }

  /** `originalname.replace(/[^a-z0-9.]/gi, '_')`. */
  function SanitizeFilename(name: JsString): (r: JsString)
    ensures |r| == |name|
    ensures forall i | 0 <= i < |name| ::
      r[i] == (if IsSafe(name[i]) then name[i] else UNDERSCORE)
  {
    if name == [] then []
    else [if IsSafe(name[0]) then name[0] else UNDERSCORE] + SanitizeFilename(name[1..])
  }

  /** Sanitizing twice is sanitizing once. */
  lemma SanitizeIdempotent(name: JsString)
    ensures SanitizeFilename(SanitizeFilename(name)) == SanitizeFilename(name)
  {
    var once := SanitizeFilename(name);
    assert forall i | 0 <= i < |once| :: SanitizeFilename(once)[i] == once[i];
  }

  /** A name is left as it is exactly when each of its characters is safe or
      is already '_'. */
  lemma SanitizeFixedPoints(name: JsString)
    ensures SanitizeFilename(name) == name <==>
      forall i | 0 <= i < |name| :: IsSafe(name[i]) || name[i] == UNDERSCORE
  {
    if SanitizeFilename(name) == name {
      forall i | 0 <= i < |name| ensures IsSafe(name[i]) || name[i] == UNDERSCORE {
        assert SanitizeFilename(name)[i] == name[i];
      }
    }
  }

  /** The name on disk: `uniqueSuffix + '-' + saneName`. */
  function StoredFilename(uniqueSuffix: JsString, originalName: JsString): (r: JsString)
    ensures |r| == |uniqueSuffix| + 1 + |originalName|
    ensures r[..|uniqueSuffix|] == uniqueSuffix
    ensures r[|uniqueSuffix|] == 0x2D   // '-'
    ensures r[|uniqueSuffix| + 1..] == SanitizeFilename(originalName)
  {
    uniqueSuffix + [0x2D] + SanitizeFilename(originalName)
  }

  /** The URL the upload route answers: `/uploads/${filename}`. */
  function UploadUrl(filename: JsString): (url: JsString)
    ensures |url| == 9 + |filename|
    ensures url[..9] == Ascii("/uploads/")
    ensures url[9..] == filename
  {
    Ascii("/uploads/") + filename
  }

  /** Whatever the client names its file, the stored name adds no '/', so
      (with a suffix free of '/') the file stays inside the uploads directory
      and its URL has exactly the two slashes of "/uploads/". */
  lemma StoredNameHasNoSlash(uniqueSuffix: JsString, originalName: JsString)
    requires SLASH !in uniqueSuffix
    ensures SLASH !in StoredFilename(uniqueSuffix, originalName)
    ensures forall i | 9 <= i < |UploadUrl(StoredFilename(uniqueSuffix, originalName))| ::
      UploadUrl(StoredFilename(uniqueSuffix, originalName))[i] != SLASH
  {
    var sane := SanitizeFilename(originalName);
    var stored := StoredFilename(uniqueSuffix, originalName);
    assert stored == uniqueSuffix + [0x2D] + sane;
    forall i | 0 <= i < |stored| ensures stored[i] != SLASH {
      if i > |uniqueSuffix| {
        assert stored[i] == sane[i - |uniqueSuffix| - 1];
      } else if i < |uniqueSuffix| {
        assert stored[i] == uniqueSuffix[i];
      }
    }
  }
}
