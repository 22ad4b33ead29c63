/** Presigned uploads: the content-type guard, the file-name sanitiser (last path component,
    a restricted alphabet, at most 255 characters keeping the extension), and the object key
    and public URL built from the sanitised name. POSIX `path.basename` and `path.extname`
    are written out for the names they meet here. */
module Uploads {
  import opened Common

  /** The longest name the sanitiser lets through. */
  const MaxNameLength: nat := 255

  /** Seconds a presigned upload URL stays valid. */
  const ExpiresIn: nat := 3600

  /** The allowed content types when the environment does not list any. */
  const DefaultAllowedTypes: seq<string> := ["image/jpeg", "image/png", "image/webp", "application/pdf"]

  // ---------------------------------------------------------------- path helpers

  /** `s` without its trailing slashes. */
  function StripTrailingSlashes(s: string): (r: string)
    ensures |r| <= |s| && r == s[..|r|]
    ensures r == [] || r[|r| - 1] != '/'
    ensures forall i :: |r| <= i < |s| ==> s[i] == '/'
    ensures '/' !in s ==> r == s
  {
    if s != [] && s[|s| - 1] == '/' then StripTrailingSlashes(s[..|s| - 1]) else s
  }

  /** What follows the last slash of `s`. */
  function LastComponent(s: string): (r: string)
    ensures |r| <= |s| && r == s[|s| - |r|..]
    ensures '/' !in r
    ensures |r| == |s| || s[|s| - |r| - 1] == '/'
    ensures '/' !in s ==> r == s
  {
    if s == [] || s[|s| - 1] == '/' then []
    else LastComponent(s[..|s| - 1]) + [s[|s| - 1]]
  }

  /** POSIX `path.basename(s)`: the last component, trailing slashes ignored. */
  function Basename(s: string): (r: string)
    ensures '/' !in r
    ensures '/' !in s ==> r == s
    ensures |r| <= |s|
  {
    LastComponent(StripTrailingSlashes(s))
  }

  /** `Basename` pins its value: drop the trailing slashes (all of them, and nothing else),
      then keep exactly what follows the last remaining slash. */
  lemma BasenameIsLastComponent(s: string)
    ensures var t := StripTrailingSlashes(s);
            var r := Basename(s);
            && t == s[..|t|] && (forall i :: |t| <= i < |s| ==> s[i] == '/') && (t == [] || t[|t| - 1] != '/')
            && |r| <= |t| && r == t[|t| - |r|..] && '/' !in r && (|r| == |t| || t[|t| - |r| - 1] == '/')
  {
    var t := StripTrailingSlashes(s);
    assert Basename(s) == LastComponent(t);
  }

  /** The index of the last '.' of `s`. */
  function LastDot(s: string): (r: Option<nat>)
    ensures r.Some? ==> r.value < |s| && s[r.value] == '.' && '.' !in s[r.value + 1..]
    ensures r.None? <==> '.' !in s
  {
    if s == [] then None
    else if s[|s| - 1] == '.' then Some(|s| - 1)
    else
      var r := LastDot(s[..|s| - 1]);
      assert s == s[..|s| - 1] + [s[|s| - 1]];
      if r.Some? then
        assert s[r.value + 1..] == s[..|s| - 1][r.value + 1..] + [s[|s| - 1]];
        r
      else r
  }

  /** POSIX `path.extname` of a name without slashes: from the last dot on, unless there is
      no dot, the only dot leads the name (".bashrc"), or the name is "..". */
  function Extname(s: string): (e: string)
    ensures |e| <= |s| && e == s[|s| - |e|..]
    ensures e != [] ==> e[0] == '.' && '.' !in e[1..] && |e| < |s|
    ensures '.' !in s ==> e == []
  {
    var d := LastDot(s);
    if d.None? || d.value == 0 || s == ".." then [] else s[d.value..]
  }

  /** The extension is empty exactly when there is no dot, the last dot leads the name, or
      the name is "..": every other name has one. */
  lemma ExtnameEmptyExactly(s: string)
    ensures Extname(s) == [] <==> ('.' !in s || LastDot(s).value == 0 || s == "..")
  {
    if LastDot(s).Some? && LastDot(s).value != 0 && s != ".." {
      assert |s[LastDot(s).value..]| > 0;
    }
  }

  /** `path.basename(s, ext)` with `ext` its own extension: the name without it. */
  function Stem(s: string): (b: string)
    ensures b + Extname(s) == s
  {
    s[..|s| - |Extname(s)|]
  }

  // ---------------------------------------------------------------- sanitiser

  /** The characters of `[a-zA-Z0-9._-]`. */
  predicate SafeChar(c: char) {
    ('a' <= c <= 'z') || ('A' <= c <= 'Z') || ('0' <= c <= '9') || c == '.' || c == '_' || c == '-'
  }

  predicate AllSafe(s: string) {
    forall i :: 0 <= i < |s| ==> SafeChar(s[i])
  }

  /** `s.replace(/[^a-zA-Z0-9._-]/g, '_')` */
  function ReplaceUnsafe(s: string): (r: string)
    ensures |r| == |s|
    ensures forall i :: 0 <= i < |s| ==> r[i] == (if SafeChar(s[i]) then s[i] else '_')
    ensures AllSafe(r)
    ensures AllSafe(s) ==> r == s
  {
    if s == [] then []
    else [if SafeChar(s[0]) then s[0] else '_'] + ReplaceUnsafe(s[1..])
  }

  /** The length limit as written: the head cut to `255 - ext.length` characters, then the
      extension. `substring` clamps a negative end to 0, so an extension longer than the
      limit is kept whole and the result is longer than the limit. */
  function TruncateAsWritten(s: string): (r: string)
    ensures |s| <= MaxNameLength ==> r == s
    ensures |s| > MaxNameLength && |Extname(s)| <= MaxNameLength ==>
      |r| == MaxNameLength && r == s[..MaxNameLength - |Extname(s)|] + Extname(s)
    ensures |s| > MaxNameLength && |Extname(s)| > MaxNameLength ==> r == Extname(s)
  {
    if |s| > MaxNameLength then
      var ext := Extname(s);
      var keep := if |ext| <= MaxNameLength then MaxNameLength - |ext| else 0;
      s[..keep] + ext
    else s
  }

  /** `sanitizeFilename` as written. */
  function SanitizeFilenameAsWritten(filename: string): (r: string)
    ensures '/' !in r && AllSafe(r)
  {
    var s := ReplaceUnsafe(Basename(filename));
    TruncateKeepsSafe(s);
    TruncateAsWritten(s)
  }

  /** A head and a tail of a safe name, joined, are safe. */
  lemma SafeSlices(s: string, k: nat, j: nat)
    requires AllSafe(s) && k <= |s| && j <= |s|
    ensures AllSafe(s[..k] + s[j..]) && '/' !in s[..k] + s[j..]
  {
    var t := s[..k] + s[j..];
    assert forall i :: 0 <= i < |t| ==> t[i] == (if i < k then s[i] else s[j + i - k]);
  }

  /** Both length limits only cut a safe name, so it stays safe. */
  lemma TruncateKeepsSafe(s: string)
    requires AllSafe(s)
    ensures AllSafe(TruncateAsWritten(s)) && '/' !in TruncateAsWritten(s)
    ensures AllSafe(Truncate(s)) && '/' !in Truncate(s)
  {
    AsWrittenCutIsSafe(s);
    CutIsSafe(s);
  }

  lemma AsWrittenCutIsSafe(s: string)
    requires AllSafe(s)
    ensures AllSafe(TruncateAsWritten(s)) && '/' !in TruncateAsWritten(s)
  {
    if |s| > MaxNameLength {
      var ext := Extname(s);
      var keep := if |ext| <= MaxNameLength then MaxNameLength - |ext| else 0;
      var r := s[..keep] + s[|s| - |ext|..];
      assert AllSafe(r) && '/' !in r by {
        SafeSlices(s, keep, |s| - |ext|);
      }
      assert TruncateAsWritten(s) == r;
    } else {
      assert '/' !in s by {
        SafeSlices(s, |s|, |s|);
        assert s[..|s|] + s[|s|..] == s;
      }
    }
  }

  lemma CutIsSafe(s: string)
    requires AllSafe(s)
    ensures AllSafe(Truncate(s)) && '/' !in Truncate(s)
  {
    if |s| > MaxNameLength {
      var ext := Extname(s);
      var keep := if |ext| <= MaxNameLength then MaxNameLength - |ext| else MaxNameLength;
      var tail := if |ext| <= MaxNameLength then |s| - |ext| else |s|;
      SafeSlices(s, keep, tail);
      assert Truncate(s) == s[..keep] + s[tail..];
    } else {
      SafeSlices(s, |s|, |s|);
      assert s[..|s|] + s[|s|..] == s;
    }
  }

  /** As written, a safe name whose extension is longer than the limit comes out as that
      extension, whole. */
  lemma AsWrittenKeepsLongExtension(name: string)
    requires '/' !in name && AllSafe(name) && |Extname(name)| > MaxNameLength
    ensures SanitizeFilenameAsWritten(name) == Extname(name)
  {
    assert ReplaceUnsafe(Basename(name)) == name;
  }

  /** As written, a long safe name without an extension is cut to the limit. */
  lemma AsWrittenCutsBareName(name: string)
    requires '/' !in name && AllSafe(name) && |name| > MaxNameLength && Extname(name) == []
    ensures |SanitizeFilenameAsWritten(name)| == MaxNameLength
  {
    assert ReplaceUnsafe(Basename(name)) == name;
  }

  /** As written, a name whose extension alone is longer than the limit comes out longer
      than the limit, and sanitising the result again changes it: any safe, dot-free `xs`
      of 300 characters after "a." shows it. */
  lemma AsWrittenExceedsLimitFor(xs: string)
    requires |xs| == 300 && AllSafe(xs) && '.' !in xs && '/' !in xs
    ensures var once := SanitizeFilenameAsWritten("a." + xs);
            |once| == 301 && SanitizeFilenameAsWritten(once) != once
  {
    var name := "a." + xs;
    assert AllSafe(name) by {
      assert forall i :: 2 <= i < |name| ==> name[i] == xs[i - 2];
    }
    assert name[1] == '.' && name[2..] == xs;
    assert LastDot(name) == Some(1);
    AsWrittenKeepsLongExtension(name);
    var once := name[1..];
    assert once[0] == '.' && once[1..] == xs;
    assert LastDot(once) == Some(0);
    AsWrittenCutsBareName(once);
  }

  /** The concrete input: "a." followed by 300 'x' characters. */
  lemma AsWrittenExceedsLimit()
    ensures var once := SanitizeFilenameAsWritten("a." + seq(300, _ => 'x'));
            |once| == 301 && SanitizeFilenameAsWritten(once) != once
  {
    var xs := seq(300, _ => 'x');
    assert forall i :: 0 <= i < |xs| ==> xs[i] == 'x';
    AsWrittenExceedsLimitFor(xs);
  }

  /** The length limit as intended: never more than 255 characters; the extension is kept
      whenever it fits, and otherwise the name is cut at the limit. */
  function Truncate(s: string): (r: string)
    ensures |r| <= MaxNameLength
    ensures |s| <= MaxNameLength ==> r == s
    ensures |s| > MaxNameLength ==> |r| == MaxNameLength
    ensures |s| > MaxNameLength && |Extname(s)| <= MaxNameLength ==>
      r == s[..MaxNameLength - |Extname(s)|] + Extname(s)
    ensures |s| > MaxNameLength && |Extname(s)| > MaxNameLength ==> r == s[..MaxNameLength]
  {
    if |s| > MaxNameLength then
      var ext := Extname(s);
      if |ext| <= MaxNameLength then s[..MaxNameLength - |ext|] + ext else s[..MaxNameLength]
    else s
  }

  /** `sanitizeFilename` with the length limit enforced: the last path component, each
      character outside `[a-zA-Z0-9._-]` replaced by '_', at most 255 characters. */
  function SanitizeFilename(filename: string): (r: string)
    ensures '/' !in r && AllSafe(r) && |r| <= MaxNameLength
    ensures |Basename(filename)| <= MaxNameLength ==> r == ReplaceUnsafe(Basename(filename))
    ensures |Basename(filename)| > MaxNameLength ==> |r| == MaxNameLength
  {
    var s := ReplaceUnsafe(Basename(filename));
    TruncateKeepsSafe(s);
    Truncate(s)
  }

  /** Sanitising a sanitised name changes nothing. */
  lemma SanitizeIsIdempotent(filename: string)
    ensures SanitizeFilename(SanitizeFilename(filename)) == SanitizeFilename(filename)
  {
  }

  /** The two agree whenever the extension fits within the limit. */
  lemma SanitizeAgreesWhenExtensionFits(filename: string)
    requires |Extname(ReplaceUnsafe(Basename(filename)))| <= MaxNameLength
    ensures SanitizeFilenameAsWritten(filename) == SanitizeFilename(filename)
  {
  }

  /** A long name keeps its extension at the end. */
  lemma LongNameKeepsExtension(filename: string)
    requires |Basename(filename)| > MaxNameLength
    requires |Extname(ReplaceUnsafe(Basename(filename)))| <= MaxNameLength
    ensures var ext := Extname(ReplaceUnsafe(Basename(filename)));
            var r := SanitizeFilename(filename);
            |r| == MaxNameLength && r[MaxNameLength - |ext|..] == ext
  {
    var s := ReplaceUnsafe(Basename(filename));
    assert SanitizeFilename(filename) == Truncate(s);
    TruncateEndsWithExtension(s);
  }

  /** The corrected cut keeps an extension that fits at the end of the name. */
  lemma TruncateEndsWithExtension(s: string)
    requires |s| > MaxNameLength && |Extname(s)| <= MaxNameLength
    ensures |Truncate(s)| == MaxNameLength && Truncate(s)[MaxNameLength - |Extname(s)|..] == Extname(s)
  {
    var head := s[..MaxNameLength - |Extname(s)|];
    assert Truncate(s)[|head|..] == Extname(s);
  }

  // ---------------------------------------------------------------- presigning

  /** The object key: the caller's company folder when a company is given, a fresh uuid, a
      dash, then the sanitised name's stem and extension. */
  function ObjectKey(companyId: Option<string>, uuid: string, sanitized: string): (key: string)
    ensures Given(companyId) ==> key == "uploads/" + companyId.value + "/" + uuid + "-" + sanitized
    ensures !Given(companyId) ==> key == "uploads/" + uuid + "-" + sanitized
  {
    var name := Stem(sanitized) + Extname(sanitized);
    if Given(companyId) then "uploads/" + companyId.value + "/" + uuid + "-" + name
    else "uploads/" + uuid + "-" + name
  }

  /** The storage settings the URL depends on. */
  datatype S3Config = S3Config(bucket: string, region: string, endpoint: Option<string>)

  /** The public address of the object: path style under a custom endpoint, otherwise the
      AWS virtual-host form. Either way it ends with the key. */
  function FileUrl(cfg: S3Config, key: string): (url: string)
    ensures Given(cfg.endpoint) ==> url == cfg.endpoint.value + "/" + cfg.bucket + "/" + key
    ensures !Given(cfg.endpoint) ==> url == "https://" + cfg.bucket + ".s3." + cfg.region + ".amazonaws.com/" + key
    ensures |key| <= |url| && url[|url| - |key|..] == key
  {
    if Given(cfg.endpoint) then cfg.endpoint.value + "/" + cfg.bucket + "/" + key
    else "https://" + cfg.bucket + ".s3." + cfg.region + ".amazonaws.com/" + key
  }

  /** `items.join(sep)` */
  function Join(items: seq<string>, sep: string): (r: string)
    ensures items == [] ==> r == []
    ensures |items| == 1 ==> r == items[0]
    // the first item leads, followed by the separator when more items come
    ensures |items| > 1 ==> items[0] + sep <= r
  {
    if items == [] then [] else if |items| == 1 then items[0] else items[0] + sep + Join(items[1..], sep)
  }

  /** The `allowedFileTypes` setting: the list the environment gives, else the defaults. */
  function AllowedFileTypes(env: Option<seq<string>>): (types: seq<string>)
    ensures env.Some? ==> types == env.value
    ensures env.None? ==> types == DefaultAllowedTypes
  {
    if env.Some? then env.value else DefaultAllowedTypes
  }

  datatype Presigned = Presigned(uploadUrl: string, fileUrl: string, key: string, expiresIn: nat)

  /** `generatePresignedUrl`. `uuid` is the fresh identifier and `sign` the signer's URL for
      a key; both come from outside the model. */
  function GeneratePresignedUrl(filename: string, contentType: string, companyId: Option<string>,
                                allowedTypes: seq<string>, cfg: S3Config, uuid: string,
                                sign: string -> string): (r: Result<Presigned>)
    ensures contentType !in allowedTypes ==>
      r == Err(BadRequest("File type " + contentType + " not allowed. Allowed types: " + Join(allowedTypes, ", ")))
    ensures contentType in allowedTypes ==>
      var key := ObjectKey(companyId, uuid, SanitizeFilenameAsWritten(filename));
      r == Ok(Presigned(sign(key), FileUrl(cfg, key), key, ExpiresIn))
  {
    if contentType !in allowedTypes then
      Err(BadRequest("File type " + contentType + " not allowed. Allowed types: " + Join(allowedTypes, ", ")))
    else
      var key := ObjectKey(companyId, uuid, SanitizeFilenameAsWritten(filename));
      Ok(Presigned(sign(key), FileUrl(cfg, key), key, ExpiresIn))
  }

  /** A key never climbs out of the uploads folder: whatever the file name, the part after
      the uuid has no slash, and the key names the company folder it was asked for. */
  lemma KeyStaysInFolder(filename: string, contentType: string, companyId: string, allowedTypes: seq<string>,
                         cfg: S3Config, uuid: string, sign: string -> string)
    requires contentType in allowedTypes
    requires companyId != "" && '/' !in companyId && '/' !in uuid
    ensures var r := GeneratePresignedUrl(filename, contentType, Some(companyId), allowedTypes, cfg, uuid, sign);
            var prefix := "uploads/" + companyId + "/";
            r.Ok? && |prefix| <= |r.value.key| && r.value.key[..|prefix|] == prefix && '/' !in r.value.key[|prefix|..]
  {
    var s := SanitizeFilenameAsWritten(filename);
    var prefix := "uploads/" + companyId + "/";
    var rest := uuid + "-" + s;
    assert ObjectKey(Some(companyId), uuid, s) == prefix + uuid + "-" + s;
    Associate(prefix + uuid, "-", s);
    Associate(prefix, uuid, "-" + s);
    Associate(uuid, "-", s);
    Split(prefix, rest);
  }

  /** Where the extension fits within the limit, the key is the one the corrected sanitiser
      would give; only names with an over-long extension get a longer one. */
  lemma KeyAgreesWhenExtensionFits(filename: string, contentType: string, companyId: Option<string>,
                                   allowedTypes: seq<string>, cfg: S3Config, uuid: string, sign: string -> string)
    requires contentType in allowedTypes
    requires |Extname(ReplaceUnsafe(Basename(filename)))| <= MaxNameLength
    ensures GeneratePresignedUrl(filename, contentType, companyId, allowedTypes, cfg, uuid, sign).value.key
         == ObjectKey(companyId, uuid, SanitizeFilename(filename))
  {
    SanitizeAgreesWhenExtensionFits(filename);
  }

  /** Under the default setting, images and PDFs pass the type guard, and anything else,
      HTML for one, is refused. */
  lemma DefaultTypesGuard()
    ensures "image/jpeg" in AllowedFileTypes(None) && "image/png" in AllowedFileTypes(None)
    ensures "image/webp" in AllowedFileTypes(None) && "application/pdf" in AllowedFileTypes(None)
    ensures "text/html" !in AllowedFileTypes(None) && |AllowedFileTypes(None)| == 4
  {
    var d := AllowedFileTypes(None);
    assert d[0] == "image/jpeg" && d[1] == "image/png" && d[2] == "image/webp" && d[3] == "application/pdf";
    assert "text/html" != d[0] && "text/html" != d[1] && "text/html" != d[2] && "text/html" != d[3];
  }

  /** Concatenation regroups. */
  lemma Associate(a: string, b: string, c: string)
    ensures a + b + c == a + (b + c)
  {
  }

  /** A concatenation splits back into its parts. */
  lemma Split(a: string, b: string)
    ensures (a + b)[..|a|] == a && (a + b)[|a|..] == b
  {
  }
}
