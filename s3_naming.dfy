/**
 * The deterministic part of the S3 manager (s3_utils.py): folder
 * normalisation, the classification of connection failures, the unique
 * file name `{base}_{YYYYMMDD_HHMMSS}_{8 chars of a uuid}{extension}`, the
 * object key layout `{folder}/{subfolder}/{filename}` and content-type
 * resolution. The clock reading, the uuid and the answer of the MIME-type
 * registry are inputs.
 */
module S3Naming {
  import opened Wrappers
  import opened Text
  import opened Paths

  /** Presigned links last 7 days unless the caller says otherwise. */
  const DefaultExpiration: int := 604800

  const DefaultVideoFolder := "videos"
  const DefaultImageFolder := "images"

  /** A folder prefix as stored by the manager: every trailing `/` removed. */
  function NormaliseFolder(folder: string): (r: string)
    ensures r == [] || r[|r| - 1] != '/'
    ensures r <= folder && forall i :: |r| <= i < |folder| ==> folder[i] == '/'
  {
    RStripFacts(folder, '/');
    RStrip(folder, '/')
  }

  /** Normalising twice changes nothing. */
  lemma NormaliseFolderIdempotent(folder: string)
    ensures NormaliseFolder(NormaliseFolder(folder)) == NormaliseFolder(folder)
  {
  }

  // ----- Connection failures -------------------------------------------------

  /** What the bucket probe at construction time reports. */
  datatype Probe =
    | Reachable
    | ClientErrorCode(code: string, detail: string)   // botocore ClientError with its error code and text
    | NoCredentials                                   // botocore NoCredentialsError
    | Unhandled(text: string)                         // any other exception, propagated as it is

  /** The error a failed probe makes the constructor raise, as its message; None when the probe succeeded. */
  function ConnectionError(bucketName: string, probe: Probe): (e: Option<string>)
    ensures e.None? <==> probe.Reachable?
  {
    match probe
    case Reachable => None
    case ClientErrorCode(code, detail) =>
      if code == "404" then Some("Bucket '" + bucketName + "' does not exist")
      else if code == "403" then Some("Access denied to bucket '" + bucketName + "'")
      else Some("Error connecting to S3: " + detail)
    case NoCredentials => Some("Invalid AWS credentials provided")
    case Unhandled(text) => Some(text)
  }

  /** The classes a classified connection failure falls into. */
  datatype FailureClass = BucketMissing | AccessDenied | ConnectionFailed | BadCredentials

  function ClassOf(probe: Probe): Option<FailureClass>
  {
    match probe
    case ClientErrorCode(code, _) =>
      Some(if code == "404" then BucketMissing else if code == "403" then AccessDenied else ConnectionFailed)
    case NoCredentials => Some(BadCredentials)
    case _ => None
  }

  /**
   * The message of a classified failure tells its class: two probes of
   * different classes never produce the same message, whatever the bucket
   * names and error texts.
   */
  lemma ClassifiedMessagesDistinct(b1: string, p1: Probe, b2: string, p2: Probe)
    requires ClassOf(p1).Some? && ClassOf(p2).Some? && ClassOf(p1) != ClassOf(p2)
    ensures ConnectionError(b1, p1) != ConnectionError(b2, p2)
  {
    var m1 := ConnectionError(b1, p1).value;
    var m2 := ConnectionError(b2, p2).value;
    assert m1[0] != m2[0];
  }

  // ----- Unique file names ---------------------------------------------------

  /** A UTC clock reading. */
  datatype UtcTime = UtcTime(year: nat, month: nat, day: nat, hour: nat, minute: nat, second: nat)
  {
    /** Python's `datetime` ranges, narrowed to years 1000 to 9999 so that the year takes four digits; `utcnow()` lies in that range. */
    predicate Valid()
    {
      1000 <= year <= 9999 && 1 <= month <= 12 && 1 <= day <= 31
      && hour < 24 && minute < 60 && second < 60
    }
  }

  /** `strftime('%Y%m%d_%H%M%S')`. */
  function Stamp(t: UtcTime): (s: string)
    ensures |s| == 15 && s[8] == '_'
    ensures AllDigits(s[..8]) && AllDigits(s[9..])
  {
    var s := Padded(t.year, 4) + Padded(t.month, 2) + Padded(t.day, 2) + "_"
             + Padded(t.hour, 2) + Padded(t.minute, 2) + Padded(t.second, 2);
    assert s[..8] == Padded(t.year, 4) + Padded(t.month, 2) + Padded(t.day, 2);
    assert s[9..] == Padded(t.hour, 2) + Padded(t.minute, 2) + Padded(t.second, 2);
    s
  }

  /** Reads a timestamp back into its fields. */
  function ParseStamp(s: string): UtcTime
    requires |s| == 15 && AllDigits(s[..8]) && AllDigits(s[9..])
  {
    UtcTime(ParseDigits(s[0..4]), ParseDigits(s[4..6]), ParseDigits(s[6..8]),
            ParseDigits(s[9..11]), ParseDigits(s[11..13]), ParseDigits(s[13..15]))
  }

  /** The timestamp format loses nothing: it reads back to the clock reading. */
  lemma StampRoundTrip(t: UtcTime)
    requires t.Valid()
    ensures ParseStamp(Stamp(t)) == t
  {
    var s := Stamp(t);
    var date := Padded(t.year, 4) + Padded(t.month, 2) + Padded(t.day, 2);
    var time := Padded(t.hour, 2) + Padded(t.minute, 2) + Padded(t.second, 2);
    assert s == date + "_" + time;
    assert s[..8] == date && s[9..] == time;
    assert s[0..4] == date[0..4] == Padded(t.year, 4);
    assert s[4..6] == date[4..6] == Padded(t.month, 2);
    assert s[6..8] == date[6..8] == Padded(t.day, 2);
    assert s[9..11] == time[0..2] == Padded(t.hour, 2);
    assert s[11..13] == time[2..4] == Padded(t.minute, 2);
    assert s[13..15] == time[4..6] == Padded(t.second, 2);
    PaddedRoundTrip(t.year, 4);
    PaddedRoundTrip(t.month, 2);
    PaddedRoundTrip(t.day, 2);
    PaddedRoundTrip(t.hour, 2);
    PaddedRoundTrip(t.minute, 2);
    PaddedRoundTrip(t.second, 2);
  }

  /** Two different clock readings give two different timestamps. */
  lemma StampInjective(t1: UtcTime, t2: UtcTime)
    requires t1.Valid() && t2.Valid() && t1 != t2
    ensures Stamp(t1) != Stamp(t2)
  {
    StampRoundTrip(t1);
    StampRoundTrip(t2);
  }

  /** The 8 characters of a uuid that go into a file name (`str(uuid4())[:8]`). */
  function ShortId(uuid: string): string
  {
    Take(uuid, 8)
  }

  /** The characters of `str(uuid.uuid4())`: lower-case hexadecimal digits and `-`. */
  predicate UuidText(uuid: string)
  {
    forall i :: 0 <= i < |uuid| ==> IsDigit(uuid[i]) || 'a' <= uuid[i] <= 'f' || uuid[i] == '-'
  }

  /** The part of a generated name before its extension. */
  function FilenameBase(originalFilename: string, prefix: string): string
  {
    if prefix != "" then prefix else Stem(originalFilename)
  }

  /**
   * `_generate_unique_filename`: the prefix when one is given, else the
   * stem of the original name; then `_`, the timestamp, `_`, the short id;
   * then the original extension.
   */
  function GenerateUniqueFilename(originalFilename: string, prefix: string, now: UtcTime, uuid: string): (r: string)
    ensures r == FilenameBase(originalFilename, prefix) + "_" + Stamp(now) + "_" + ShortId(uuid) + Suffix(originalFilename)
  {
    var timestamp := Stamp(now);
    var uniqueId := ShortId(uuid);
    var fileExtension := Suffix(originalFilename);
    if prefix != "" then prefix + "_" + timestamp + "_" + uniqueId + fileExtension
    else Stem(originalFilename) + "_" + timestamp + "_" + uniqueId + fileExtension
  }

  /** The timestamp sits at a fixed place in a generated name, right after the base and an underscore. */
  lemma GeneratedStampAt(originalFilename: string, prefix: string, now: UtcTime, uuid: string)
    ensures var b := |FilenameBase(originalFilename, prefix)|;
            var r := GenerateUniqueFilename(originalFilename, prefix, now, uuid);
            |r| >= b + 16 && r[b + 1..b + 16] == Stamp(now)
  {
  }

  /** With name, prefix and clock fixed, different short ids give different file names. */
  lemma DistinctIdsDistinctFilenames(originalFilename: string, prefix: string, now: UtcTime, u1: string, u2: string)
    requires ShortId(u1) != ShortId(u2)
    ensures GenerateUniqueFilename(originalFilename, prefix, now, u1)
         != GenerateUniqueFilename(originalFilename, prefix, now, u2)
  {
    var head := FilenameBase(originalFilename, prefix) + "_" + Stamp(now) + "_";
    var ext := Suffix(originalFilename);
    var r1 := GenerateUniqueFilename(originalFilename, prefix, now, u1);
    var r2 := GenerateUniqueFilename(originalFilename, prefix, now, u2);
    assert r1 == head + ShortId(u1) + ext;
    assert r2 == head + ShortId(u2) + ext;
    assert r1[|head|..|head| + |ShortId(u1)|] == ShortId(u1);
    assert r2[|head|..|head| + |ShortId(u2)|] == ShortId(u2);
  }

  /** With name and prefix fixed, names generated at different times differ, whatever the ids. */
  lemma DistinctTimesDistinctFilenames(originalFilename: string, prefix: string, t1: UtcTime, t2: UtcTime, u1: string, u2: string)
    requires t1.Valid() && t2.Valid() && t1 != t2
    ensures GenerateUniqueFilename(originalFilename, prefix, t1, u1)
         != GenerateUniqueFilename(originalFilename, prefix, t2, u2)
  {
    GeneratedStampAt(originalFilename, prefix, t1, u1);
    GeneratedStampAt(originalFilename, prefix, t2, u2);
    StampInjective(t1, t2);
  }

  /**
   * A generated name keeps the original extension: when the original has
   * one, the generated name's suffix is that extension again and its stem
   * is the base, timestamp and id.
   */
  lemma GeneratedKeepsExtension(originalFilename: string, prefix: string, now: UtcTime, uuid: string)
    requires Suffix(originalFilename) != ""
    requires '/' !in prefix && UuidText(uuid)
    ensures var r := GenerateUniqueFilename(originalFilename, prefix, now, uuid);
            && Suffix(r) == Suffix(originalFilename)
            && Stem(r) == FilenameBase(originalFilename, prefix) + "_" + Stamp(now) + "_" + ShortId(uuid)
  {
    var base := FilenameBase(originalFilename, prefix) + "_" + Stamp(now) + "_" + ShortId(uuid);
    var ext := Suffix(originalFilename);
    StemSuffixSplit(originalFilename);
    SuffixFacts(originalFilename);
    assert '/' !in FilenameBase(originalFilename, prefix);
    assert '/' !in Stamp(now) by {
      forall i | 0 <= i < 15 ensures Stamp(now)[i] != '/' {
        if i < 8 { assert Stamp(now)[..8][i] == Stamp(now)[i]; }
        else if i > 8 { assert Stamp(now)[9..][i - 9] == Stamp(now)[i]; }
      }
    }
    assert '/' !in ShortId(uuid) by {
      forall i | 0 <= i < |ShortId(uuid)| ensures ShortId(uuid)[i] != '/' {
        assert ShortId(uuid)[i] == uuid[i];
      }
    }
    assert '/' !in base;
    SplitExtension("", base, ext);
  }

  /** What a generated name adds after the base: `_`, the timestamp, `_` and the short id, with no `/` and no `.`. */
  lemma GeneratedTailPlain(now: UtcTime, uuid: string)
    requires UuidText(uuid)
    ensures var tail := "_" + Stamp(now) + "_" + ShortId(uuid);
            tail != [] && '/' !in tail && '.' !in tail
  {
    var tail := "_" + Stamp(now) + "_" + ShortId(uuid);
    forall i | 0 <= i < |tail| ensures tail[i] != '/' && tail[i] != '.' {
      if 1 <= i < 9 {
        assert tail[i] == Stamp(now)[..8][i - 1];
      } else if 10 <= i < 16 {
        assert tail[i] == Stamp(now)[9..][i - 10];
      } else if i > 16 {
        assert tail[i] == uuid[i - 17];
      }
    }
  }

  /**
   * Unless the original name ends in a dot, a generated name has exactly the
   * original's suffix: the same extension, or none when the original has none.
   */
  lemma GeneratedSuffix(originalFilename: string, now: UtcTime, uuid: string)
    requires UuidText(uuid) && !EndsInDot(Name(originalFilename))
    ensures Suffix(GenerateUniqueFilename(originalFilename, "", now, uuid)) == Suffix(originalFilename)
  {
    if Suffix(originalFilename) != "" {
      GeneratedKeepsExtension(originalFilename, "", now, uuid);
    } else {
      var name := Name(originalFilename);
      var tail := "_" + Stamp(now) + "_" + ShortId(uuid);
      var r := GenerateUniqueFilename(originalFilename, "", now, uuid);
      NoSuffixDots(originalFilename);
      NameFacts(originalFilename);
      GeneratedTailPlain(now, uuid);
      assert r == name + tail;
      PlainBeforeTail(name, tail);
    }
  }

  /**
   * An original name that ends in a dot has no suffix, yet the name
   * generated from it does: the dot and everything after it.
   */
  lemma GeneratedGainsSuffix(originalFilename: string, now: UtcTime, uuid: string)
    requires UuidText(uuid) && EndsInDot(Name(originalFilename))
    ensures Suffix(originalFilename) == ""
    ensures Suffix(GenerateUniqueFilename(originalFilename, "", now, uuid)) == "." + "_" + Stamp(now) + "_" + ShortId(uuid)
  {
    var name := Name(originalFilename);
    var tail := "_" + Stamp(now) + "_" + ShortId(uuid);
    TrailingDotFacts(originalFilename);
    NameFacts(originalFilename);
    GeneratedTailPlain(now, uuid);
    assert GenerateUniqueFilename(originalFilename, "", now, uuid) == name + tail;
    DotBeforeTail(name, tail);
  }

  // ----- Content types -------------------------------------------------------

  const OctetStream := "application/octet-stream"

  /** The fixed fallback table, keyed by lower-case extension. */
  const FallbackTypes: map<string, string> := map[
    ".mp4" := "video/mp4",
    ".mov" := "video/quicktime",
    ".avi" := "video/x-msvideo",
    ".jpg" := "image/jpeg",
    ".jpeg" := "image/jpeg",
    ".png" := "image/png",
    ".gif" := "image/gif",
    ".webp" := "image/webp"
  ]

  /** A video staged as `.mp4` falls back to `video/mp4`. */
  lemma Mp4Fallback(filename: string)
    requires Suffix(filename) == ".mp4"
    ensures ContentType(None, filename) == "video/mp4"
  {
    assert Lower(".mp4") == ".mp4" by {
      assert LowerChar('.') == '.' && LowerChar('m') == 'm' && LowerChar('p') == 'p' && LowerChar('4') == '4';
    }
    assert FallbackTypes[".mp4"] == "video/mp4";
  }

  /**
   * `_get_content_type`: the registry's guess when it has one; otherwise the
   * table entry for the lower-cased extension; otherwise the generic binary type.
   */
  function ContentType(guess: Option<string>, filename: string): (r: string)
    ensures guess.Some? ==> r == guess.value
    ensures guess.None? && Lower(Suffix(filename)) in FallbackTypes ==> r == FallbackTypes[Lower(Suffix(filename))]
    ensures guess.None? && Lower(Suffix(filename)) !in FallbackTypes ==> r == OctetStream
  {
    match guess
    case Some(t) => t
    case None =>
      var ext := Lower(Suffix(filename));
      if ext in FallbackTypes then FallbackTypes[ext] else OctetStream
  }

  /** Without a registry answer, names that agree on their lower-cased extension get the same type. */
  lemma ContentTypeByExtension(f1: string, f2: string)
    requires Lower(Suffix(f1)) == Lower(Suffix(f2))
    ensures ContentType(None, f1) == ContentType(None, f2)
  {
  }

  /** A generated name has the content type of the name it was generated from, unless that name ends in a dot. */
  lemma GeneratedKeepsContentType(originalFilename: string, now: UtcTime, uuid: string)
    requires !EndsInDot(Name(originalFilename)) && UuidText(uuid)
    ensures ContentType(None, GenerateUniqueFilename(originalFilename, "", now, uuid)) == ContentType(None, originalFilename)
  {
    GeneratedSuffix(originalFilename, now, uuid);
  }

  // ----- Object keys ---------------------------------------------------------

  /** Python truthiness of an optional string: present and not empty. */
  predicate Truthy(s: Option<string>)
  {
    s.Some? && s.value != ""
  }

  /** The directory part of a key: the folder, then the stripped subfolder when one is given. */
  function KeyDirectory(folder: string, subfolder: Option<string>): string
  {
    if Truthy(subfolder) then folder + "/" + Strip(subfolder.value, '/') else folder
  }

  /** The S3 key of an object: directory, `/`, file name. */
  function BuildKey(folder: string, subfolder: Option<string>, filename: string): (key: string)
    ensures KeyDirectory(folder, subfolder) + "/" <= key
    ensures Truthy(subfolder) ==> key == folder + "/" + Strip(subfolder.value, '/') + "/" + filename
    ensures !Truthy(subfolder) ==> key == folder + "/" + filename
  {
    KeyDirectory(folder, subfolder) + "/" + filename
  }

  /** The object's name in the bucket is the file name, when that is a plain component. */
  lemma KeyNamesFile(folder: string, subfolder: Option<string>, filename: string)
    requires '/' !in filename && filename != "" && filename != "."
    ensures Name(BuildKey(folder, subfolder, filename)) == filename
    ensures LastSegment(BuildKey(folder, subfolder, filename)) == filename
  {
    NameOfChild(KeyDirectory(folder, subfolder), filename);
    LastSegmentOfChild(KeyDirectory(folder, subfolder), filename);
  }

  /** Within one directory, different file names give different keys. */
  lemma DistinctFilenamesDistinctKeys(folder: string, subfolder: Option<string>, f1: string, f2: string)
    requires f1 != f2
    ensures BuildKey(folder, subfolder, f1) != BuildKey(folder, subfolder, f2)
  {
    var d := KeyDirectory(folder, subfolder) + "/";
    assert BuildKey(folder, subfolder, f1)[|d|..] == f1;
    assert BuildKey(folder, subfolder, f2)[|d|..] == f2;
  }
}
