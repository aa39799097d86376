/** `lib/storage.ts`: where generated images and uploads are kept. Each file
    gets a key `prefix/timestamp-random.ext`; the backend (Supabase
    Storage, an S3 bucket or the local `data/storage` directory) is chosen
    from the configuration, the same way for every operation. The storage
    clients themselves are outside the model: what they answer is a
    parameter. */
module Storage {
  import opened Common
  import opened JsNumber

  const DefaultPrefix := "generated"
  const DefaultExtension := "bin"
  const LocalUrlPrefix := "/api/file/"

  /** The three backends, with the bucket each writes to. */
  datatype Backend = SupabaseBackend(bucket: string) | S3Backend(bucket: string) | LocalBackend

  /** The dispatch shared by `saveFileWithKey`, `getImageUrl` and
      `deleteImage`: `provider` is `env.storageProvider`, `supabaseEnabled`
      what `isSupabaseEnabled()` says and the buckets are `""` when unset. */
  function ChooseBackend(provider: string, supabaseEnabled: bool, supabaseBucket: string, s3Bucket: string): (b: Backend)
    ensures b.SupabaseBackend? <==> provider == "supabase" && supabaseEnabled && supabaseBucket != ""
    ensures b.S3Backend? <==> !(provider == "supabase" && supabaseEnabled && supabaseBucket != "") && provider == "s3" && s3Bucket != ""
    ensures b.SupabaseBackend? ==> b.bucket == supabaseBucket
    ensures b.S3Backend? ==> b.bucket == s3Bucket
  {
    if provider == "supabase" && supabaseEnabled && supabaseBucket != "" then SupabaseBackend(supabaseBucket)
    else if provider == "s3" && s3Bucket != "" then S3Backend(s3Bucket)
    else LocalBackend
  }

  /** Any provider other than `supabase` and `s3`, or one whose bucket is
      not set, falls back to the local directory. */
  lemma LocalFallback(provider: string, supabaseEnabled: bool, supabaseBucket: string, s3Bucket: string)
    ensures provider != "supabase" && provider != "s3" ==> ChooseBackend(provider, supabaseEnabled, supabaseBucket, s3Bucket) == LocalBackend
    ensures provider == "s3" && s3Bucket == "" ==> ChooseBackend(provider, supabaseEnabled, supabaseBucket, s3Bucket) == LocalBackend
    ensures provider == "supabase" && (!supabaseEnabled || supabaseBucket == "") ==>
      ChooseBackend(provider, supabaseEnabled, supabaseBucket, s3Bucket) == LocalBackend
  {
  }

  /** `extension.replace(/^\./, '') || 'bin'`: one leading dot removed, and
      `bin` for what is then empty. */
  function Extension(extension: string): (ext: string)
    ensures ext != ""
    ensures extension == "" || extension == "." ==> ext == DefaultExtension
    ensures extension != "" && extension[0] == '.' && |extension| > 1 ==> ext == extension[1..]
    ensures extension != "" && extension[0] != '.' ==> ext == extension
  {
    var stripped := if extension != [] && extension[0] == '.' then extension[1..] else extension;
    OrElse(stripped, DefaultExtension)
  }

  /** Only one dot is removed: `..x` keeps one. */
  lemma OneDotStripped(rest: string)
    requires rest != ""
    ensures Extension("." + rest) == rest
    ensures Extension(".." + rest) == "." + rest
  {
    assert ("." + rest)[1..] == rest;
    assert (".." + rest)[1..] == "." + rest;
  }

  /** The key of a new file: `prefix`, the time `Date.now()` gave, the
      base-36 digits `Math.random().toString(36).slice(2)` gave and the
      extension. */
  function FileName(prefix: string, now: nat, random: string, ext: string): string
  {
    prefix + "/" + NatToString(now) + "-" + random + "." + ext
  }

  /** `saveImage`'s key: always a `.png`. */
  function ImageFileName(prefix: string, now: nat, random: string): (key: string)
    ensures EndsWith(key, ".png") && StartsWith(key, prefix + "/")
  {
    var key := FileName(prefix, now, random, "png");
    assert key == (prefix + "/") + (NatToString(now) + "-" + random) + ".png";
    key
  }

  /** `saveFile`'s key. */
  function SavedFileName(prefix: string, now: nat, random: string, extension: string): (key: string)
    ensures EndsWith(key, "." + Extension(extension)) && StartsWith(key, prefix + "/")
  {
    var ext := Extension(extension);
    var key := FileName(prefix, now, random, ext);
    assert key == (prefix + "/") + (NatToString(now) + "-" + random) + ("." + ext);
    key
  }

  /** The key reads back: split at `/` it gives the prefix and the file
      name, and the file name split at `.` gives the stem and the
      extension, when the prefix, the random part and the extension carry
      no `/` and the random part and extension no `.`. */
  lemma FileNameParts(prefix: string, now: nat, random: string, ext: string)
    requires '/' !in prefix && '/' !in random && '/' !in ext && '.' !in random && '.' !in ext
    ensures var stem := NatToString(now) + "-" + random;
      && Split(FileName(prefix, now, random, ext), '/') == [prefix, stem + "." + ext]
      && Split(stem + "." + ext, '.') == [stem, ext]
  {
    var stem := NatToString(now) + "-" + random;
    StemClean(now, random, stem);
    var name := stem + ['.'] + ext;
    assert '/' !in name;
    SplitCons(prefix, '/', name, [name]);
    SplitCons(stem, '.', ext, [ext]);
    FileNameLayout(prefix, now, random, ext, stem);
  }

  lemma FileNameLayout(prefix: string, now: nat, random: string, ext: string, stem: string)
    requires stem == NatToString(now) + "-" + random
    ensures FileName(prefix, now, random, ext) == prefix + ['/'] + (stem + ['.'] + ext)
    ensures stem + "." + ext == stem + ['.'] + ext
  {
  }

  lemma StemClean(now: nat, random: string, stem: string)
    requires '/' !in random && '.' !in random && stem == NatToString(now) + "-" + random
    ensures '/' !in stem && '.' !in stem
  {
    var digits := NatToString(now);
    assert '/' !in digits by {
      forall k | 0 <= k < |digits| ensures digits[k] != '/' {
        assert IsDigit(digits[k]);
      }
    }
  }

  /** What `saveFileWithKey` returns: `{ key }`, or the message of the error
      it throws. `writeError` is how the backend's write ends: the error
      the Supabase upload reports, the rejection of the S3 `send`, or the
      failure of `mkdir`/`writeFile` on the local disk (`None` when the
      write succeeds). A Supabase error is wrapped in a message of its
      own; the others propagate as they are. */
  function SaveFileWithKey(filename: string, backend: Backend, writeError: Option<string>): (r: Result<string, string>)
    ensures r.Err? <==> writeError.Some?
    ensures r.Ok? ==> r.value == filename
    ensures r.Err? && backend.SupabaseBackend? ==> r.error == "Supabase upload failed: " + writeError.value
    ensures r.Err? && !backend.SupabaseBackend? ==> r.error == writeError.value
  {
    match writeError
    case Some(e) => if backend.SupabaseBackend? then Err("Supabase upload failed: " + e) else Err(e)
    case None => Ok(filename)
  }

  /** `s.replace(/\/$/, '')`: one trailing slash removed. */
  function TrimTrailingSlash(s: string): (r: string)
    ensures s != "" && s[|s| - 1] == '/' ==> r == s[..|s| - 1]
    ensures (s == "" || s[|s| - 1] != '/') ==> r == s
  {
    if s != [] && s[|s| - 1] == '/' then s[..|s| - 1] else s
  }

  /** What Supabase's `createSignedUrl` answers: an error message, or the
      signed URL (`""` when missing). */
  datatype SignedReply = SignedReply(error: Option<string>, signedUrl: string)

  /** `getImageUrl(key)`: `s3PublicUrl` is `env.s3PublicUrl` (`""` when
      unset), `presigned` the URL `getSignedUrl` would make. */
  function GetImageUrl(key: string, backend: Backend, supabase: SignedReply, s3PublicUrl: string, presigned: string): (r: Result<string, string>)
    ensures backend.LocalBackend? ==> r == Ok(LocalUrlPrefix + key)
    ensures backend.S3Backend? && s3PublicUrl != "" ==> r == Ok(TrimTrailingSlash(s3PublicUrl) + "/" + key)
    ensures backend.S3Backend? && s3PublicUrl == "" ==> r == Ok(presigned)
    ensures backend.SupabaseBackend? ==>
      (r.Ok? <==> supabase.error.None? && supabase.signedUrl != "")
      && (r.Ok? ==> r.value == supabase.signedUrl)
  {
    match backend
    case SupabaseBackend(_) =>
      if supabase.error.Some? || supabase.signedUrl == "" then
        var reason := if supabase.error.Some? then OrElse(supabase.error.value, "unknown") else "unknown";
        Err("Supabase signed URL failed: " + reason)
      else Ok(supabase.signedUrl)
    case S3Backend(_) =>
      if s3PublicUrl != "" then Ok(TrimTrailingSlash(s3PublicUrl) + "/" + key) else Ok(presigned)
    case LocalBackend => Ok(LocalUrlPrefix + key)
  }

  /** A public base URL gives the same link with or without its trailing
      slash: the key is never preceded by two slashes from it. */
  lemma PublicUrlSlash(base: string, key: string, bucket: string, supabase: SignedReply, presigned: string)
    requires base != "" && base[|base| - 1] != '/'
    ensures GetImageUrl(key, S3Backend(bucket), supabase, base + "/", presigned)
         == GetImageUrl(key, S3Backend(bucket), supabase, base, presigned)
         == Ok(base + "/" + key)
  {
    assert (base + "/")[..|base + "/"| - 1] == base;
  }

  /** What `deleteImage` removes: the key from the Supabase bucket, the S3
      object, or the local file. */
  datatype Removal = RemoveFromBucket(bucket: string, keys: seq<string>) | DeleteObject(bucket: string, key: string) | RemoveFile(key: string)

  function DeleteImage(key: string, backend: Backend): Removal
  {
    match backend
    case SupabaseBackend(bucket) => RemoveFromBucket(bucket, [key])
    case S3Backend(bucket) => DeleteObject(bucket, key)
    case LocalBackend => RemoveFile(key)
  }

  /** A file saved successfully is found where it was saved: its key is
      the one returned, the local URL names it and deletion targets it in
      the same bucket. */
  lemma SavedFileAddressable(filename: string, backend: Backend, writeError: Option<string>, supabase: SignedReply, s3PublicUrl: string, presigned: string)
    requires SaveFileWithKey(filename, backend, writeError).Ok?
    ensures var key := SaveFileWithKey(filename, backend, writeError).value;
      && key == filename
      && (backend.LocalBackend? ==> GetImageUrl(key, backend, supabase, s3PublicUrl, presigned) == Ok(LocalUrlPrefix + filename))
      && (!backend.LocalBackend? ==> DeleteImage(key, backend).bucket == backend.bucket)
      && (backend.LocalBackend? ==> DeleteImage(key, backend) == RemoveFile(filename))
      && (backend.SupabaseBackend? ==> DeleteImage(key, backend).keys == [filename])
      && (backend.S3Backend? ==> DeleteImage(key, backend).key == filename)
  {
  }
}
