/**
 * `upload_files_to_s3` of app.py: stage one optional video and two lists of
 * images in temporary files, upload each through the S3 manager, and
 * collect the links or the errors. A failing image is recorded under its
 * 1-based position and the batch goes on; a failing video ends the batch.
 * Every temporary file is removed after its attempt.
 *
 * The batch is specified by `Batch`, a fold over the attempts; the method
 * `UploadFilesToS3` is proved to compute it, and the lemmas below state what
 * the fold guarantees.
 */
module Uploads {
  import opened Wrappers
  import opened Text
  import opened Paths
  import opened LocalFiles
  import opened S3Naming
  import opened S3Gateway

  /** A file as the form hands it over: its original name and its bytes. */
  datatype UploadedFile = UploadedFile(name: string, data: Bytes)

  /** What one staged upload draws from its environment: the temporary file's random token and the upload call's readings. */
  datatype Attempt = Attempt(token: string, call: Call)

  /** The `results` dictionary. */
  datatype BatchResult = BatchResult(success: bool, videoUrl: Option<string>, playerImageUrls: seq<string>,
                                     jerseyImageUrls: seq<string>, errors: seq<string>)

  const EmptyResult := BatchResult(true, None, [], [], [])

  datatype ImageList = PlayerImages | JerseyImages

  function ListLabel(list: ImageList): string
  {
    match list
    case PlayerImages => "Player image"
    case JerseyImages => "Jersey image"
  }

  function ListFolder(list: ImageList): string
  {
    match list
    case PlayerImages => "player_images"
    case JerseyImages => "jersey_images"
  }

  function Urls(r: BatchResult, list: ImageList): seq<string>
  {
    match list
    case PlayerImages => r.playerImageUrls
    case JerseyImages => r.jerseyImageUrls
  }

  function WithUrl(r: BatchResult, list: ImageList, url: string): BatchResult
  {
    match list
    case PlayerImages => r.(playerImageUrls := r.playerImageUrls + [url])
    case JerseyImages => r.(jerseyImageUrls := r.jerseyImageUrls + [url])
  }

  /** The player's folder: the name with spaces turned into underscores, `_`, the number. */
  function PlayerSubfolder(playerName: string, playerNumber: int): string
  {
    Replace(playerName, ' ', '_') + "_" + IntToString(playerNumber)
  }

  /** Different player numbers give the same player different folders. */
  lemma PlayerSubfolderInjective(playerName: string, i: int, j: int)
    requires i != j
    ensures PlayerSubfolder(playerName, i) != PlayerSubfolder(playerName, j)
  {
    var head := Replace(playerName, ' ', '_') + "_";
    IntToStringInjective(i, j);
    assert PlayerSubfolder(playerName, i)[|head|..] == IntToString(i);
    assert PlayerSubfolder(playerName, j)[|head|..] == IntToString(j);
  }

  function ImageSubfolder(playerSubfolder: string, list: ImageList): string
  {
    playerSubfolder + "/" + ListFolder(list)
  }

  /** The video is always staged under this suffix, whatever its original name. */
  const VideoSuffix := ".mp4"

  /** The head of the error line for the entry at 1-based `position`. */
  function ErrorHead(list: ImageList, position: nat): string
  {
    ListLabel(list) + " " + NatToString(position) + " failed: "
  }

  /** The error line of a failed image: `ErrorHead`, then the error text. */
  function ImageError(list: ImageList, position: nat, e: UploadError): string
  {
    ListLabel(list) + " " + NatToString(position) + " failed: " + ErrorText(e)
  }

  function FatalError(e: UploadError): string
  {
    "Upload error: " + ErrorText(e)
  }

  /** What stays fixed during one batch. */
  datatype Context = Context(gateway: Gateway, files: map<string, Bytes>, tempDir: string,
                             oracle: nat -> Attempt, subfolder: string, expiration: int)

  /** The state of a batch between attempts: the results so far, the bucket, and the number of attempts made. */
  datatype Run = Run(result: BatchResult, bucket: Bucket, next: nat)

  /** The temporary path of the attempt, the disk as the upload sees it, and the upload itself. */
  function VideoOutcome(ctx: Context, bucket: Bucket, video: UploadedFile, att: Attempt): Outcome
  {
    var path := TempPath(ctx.tempDir, att.token, VideoSuffix);
    UploadFromPath(ctx.gateway, Video, bucket, ctx.files[path := video.data], path, None,
                   Some(ctx.subfolder), ctx.expiration, att.call)
  }

  function ImageOutcome(ctx: Context, list: ImageList, bucket: Bucket, img: UploadedFile, att: Attempt): Outcome
  {
    var path := TempPath(ctx.tempDir, att.token, Suffix(img.name));
    UploadFromPath(ctx.gateway, Image, bucket, ctx.files[path := img.data], path, None,
                   Some(ImageSubfolder(ctx.subfolder, list)), ctx.expiration, att.call)
  }

  /** What one image's upload adds to the results: its link, or its error headed by its 1-based `position`. */
  function Record(result: BatchResult, list: ImageList, position: nat, r: Result<string, UploadError>): BatchResult
  {
    match r
    case Success(url) => WithUrl(result, list, url)
    case Failure(e) => result.(errors := result.errors + [ImageError(list, position, e)])
  }

  /** One entry of an image list, at 1-based `position`: falsy entries are skipped. */
  function ImageStep(ctx: Context, list: ImageList, position: nat, entry: Option<UploadedFile>, run: Run): Run
  {
    match entry
    case None => run
    case Some(img) =>
      var o := ImageOutcome(ctx, list, run.bucket, img, ctx.oracle(run.next));
      Run(Record(run.result, list, position, o.result), o.bucket, run.next + 1)
  }

  /** The first `n` entries of an image list, in order. */
  function ImageLoop(ctx: Context, list: ImageList, images: seq<Option<UploadedFile>>, n: nat, start: Run): Run
    requires n <= |images|
  {
    if n == 0 then start
    else ImageStep(ctx, list, n, images[n - 1], ImageLoop(ctx, list, images, n - 1, start))
  }

  function BothLists(ctx: Context, playerImages: seq<Option<UploadedFile>>, jerseyImages: seq<Option<UploadedFile>>, start: Run): Run
  {
    var afterPlayers := ImageLoop(ctx, PlayerImages, playerImages, |playerImages|, start);
    ImageLoop(ctx, JerseyImages, jerseyImages, |jerseyImages|, afterPlayers)
  }

  /** The whole batch: the video first, then the player images, then the jersey images. */
  function Batch(ctx: Context, bucket: Bucket, video: Option<UploadedFile>,
                 playerImages: seq<Option<UploadedFile>>, jerseyImages: seq<Option<UploadedFile>>): Run
  {
    match video
    case None => BothLists(ctx, playerImages, jerseyImages, Run(EmptyResult, bucket, 0))
    case Some(v) =>
      var o := VideoOutcome(ctx, bucket, v, ctx.oracle(0));
      match o.result
      case Failure(e) => Run(EmptyResult.(success := false, errors := [FatalError(e)]), o.bucket, 1)
      case Success(url) => BothLists(ctx, playerImages, jerseyImages, Run(EmptyResult.(videoUrl := Some(url)), o.bucket, 1))
  }

  /** Every temporary name the oracle hands out is free on the disk as it is. */
  ghost predicate TempNamesFree(files: map<string, Bytes>, tempDir: string, oracle: nat -> Attempt)
  {
    forall i: nat :: TempStemUnused(files, tempDir, oracle(i).token)
  }

  /** Removing a staged file restores the disk exactly, when the name was free before. */
  lemma StagedFileRemoved(files: map<string, Bytes>, path: string, data: Bytes)
    requires path !in files
    ensures files[path := data] - {path} == files
  {
  }

  // ----- What the fold guarantees ----------------------------------------------

  /** The number of truthy entries among the first `n` of a list. */
  function CountPresent(images: seq<Option<UploadedFile>>, n: nat): nat
    requires n <= |images|
  {
    if n == 0 then 0 else CountPresent(images, n - 1) + (if images[n - 1].Some? then 1 else 0)
  }

  function OtherList(list: ImageList): ImageList
  {
    match list
    case PlayerImages => JerseyImages
    case JerseyImages => PlayerImages
  }

  /** The directory every object of an image list is written to. */
  function ImageDirectory(ctx: Context, list: ImageList): string
  {
    KeyDirectory(ctx.gateway.imageFolder, Some(ImageSubfolder(ctx.subfolder, list)))
  }

  /**
   * From `a` to `b` a loop over `list` only added: `count` new entries split
   * between links of that list and errors, the links and errors of `a` still
   * in front, every new error labelled with the list, `count` attempts used,
   * and the success flag, the video link and the other list untouched.
   */
  ghost predicate Accounts(list: ImageList, a: Run, b: Run, count: nat)
  {
    && b.result.success == a.result.success
    && b.result.videoUrl == a.result.videoUrl
    && Urls(b.result, OtherList(list)) == Urls(a.result, OtherList(list))
    && Urls(a.result, list) <= Urls(b.result, list)
    && a.result.errors <= b.result.errors
    && (|Urls(b.result, list)| - |Urls(a.result, list)|) + (|b.result.errors| - |a.result.errors|) == count
    && b.next == a.next + count
    && (forall i :: |a.result.errors| <= i < |b.result.errors| ==> ListLabel(list) + " " <= b.result.errors[i])
  }

  lemma AccountsTrans(list: ImageList, a: Run, b: Run, c: Run, m: nat, n: nat)
    requires Accounts(list, a, b, m) && Accounts(list, b, c, n)
    ensures Accounts(list, a, c, m + n)
  {
    forall i | |a.result.errors| <= i < |c.result.errors|
      ensures ListLabel(list) + " " <= c.result.errors[i]
    {
      if i < |b.result.errors| {
        assert c.result.errors[i] == b.result.errors[i];
      }
    }
  }

  lemma LinkAccounts(list: ImageList, run: Run, url: string, bucket: Bucket)
    ensures Accounts(list, run, Run(WithUrl(run.result, list, url), bucket, run.next + 1), 1)
  {
  }

  lemma ErrorAccounts(list: ImageList, position: nat, run: Run, line: string, bucket: Bucket)
    requires ErrorHead(list, position) <= line
    ensures Accounts(list, run, Run(run.result.(errors := run.result.errors + [line]), bucket, run.next + 1), 1)
  {
    assert ListLabel(list) + " " <= ErrorHead(list, position);
  }

  /** One image step: a falsy entry changes nothing, a truthy one adds one link or one error, headed by its position, and uses one attempt. */
  lemma ImageStepFacts(ctx: Context, list: ImageList, position: nat, entry: Option<UploadedFile>, run: Run)
    ensures var end := ImageStep(ctx, list, position, entry, run);
            && Accounts(list, run, end, if entry.Some? then 1 else 0)
            && (|end.result.errors| > |run.result.errors| ==> ErrorHead(list, position) <= end.result.errors[|run.result.errors|])
  {
    if entry.Some? {
      var o := ImageOutcome(ctx, list, run.bucket, entry.value, ctx.oracle(run.next));
      match o.result
      case Success(url) =>
        LinkAccounts(list, run, url, o.bucket);
      case Failure(e) =>
        ErrorAccounts(list, position, run, ImageError(list, position, e), o.bucket);
    }
  }

  /** An image loop accounts for each of its truthy entries (see `Accounts`). */
  lemma {:induction false} ImageLoopAccounting(ctx: Context, list: ImageList, images: seq<Option<UploadedFile>>, n: nat, start: Run)
    requires n <= |images|
    ensures Accounts(list, start, ImageLoop(ctx, list, images, n, start), CountPresent(images, n))
  {
    if n > 0 {
      ImageLoopAccounting(ctx, list, images, n - 1, start);
      var before := ImageLoop(ctx, list, images, n - 1, start);
      ImageStepFacts(ctx, list, n, images[n - 1], before);
      AccountsTrans(list, start, before, ImageLoop(ctx, list, images, n, start),
                    CountPresent(images, n - 1), if images[n - 1].Some? then 1 else 0);
    }
  }

  /** `e` is headed by the 1-based position of a truthy entry among the first `n`. */
  ghost predicate NamesPosition(list: ImageList, images: seq<Option<UploadedFile>>, n: nat, e: string)
    requires n <= |images|
  {
    exists position :: 1 <= position <= n && images[position - 1].Some? && ErrorHead(list, position) <= e
  }

  /** Every error from index `from` on names a position among the first `n`. */
  ghost predicate AllNamePositions(list: ImageList, images: seq<Option<UploadedFile>>, n: nat, from: nat, errors: seq<string>)
    requires n <= |images|
  {
    forall i :: from <= i < |errors| ==> NamesPosition(list, images, n, errors[i])
  }

  /** Appending at most one error that names entry `n` keeps every error from `from` on naming a position. */
  lemma ErrorsKeepPosition(list: ImageList, images: seq<Option<UploadedFile>>, n: nat, from: nat, before: seq<string>, after: seq<string>)
    requires 1 <= n <= |images|
    requires from <= |before| && before <= after && |after| <= |before| + 1
    requires AllNamePositions(list, images, n - 1, from, before)
    requires |after| > |before| ==> images[n - 1].Some? && ErrorHead(list, n) <= after[|before|]
    ensures AllNamePositions(list, images, n, from, after)
  {
    forall i | from <= i < |after|
      ensures NamesPosition(list, images, n, after[i])
    {
      if i < |before| {
        assert after[i] == before[i];
        var p :| 1 <= p <= n - 1 && images[p - 1].Some? && ErrorHead(list, p) <= before[i];
        assert 1 <= p <= n;
      } else {
        assert 1 <= n <= n && images[n - 1].Some? && ErrorHead(list, n) <= after[i];
      }
    }
  }

  /** Every error an image loop adds names the 1-based position of a truthy entry of that list. */
  lemma {:induction false} ImageLoopErrorPositions(ctx: Context, list: ImageList, images: seq<Option<UploadedFile>>, n: nat, start: Run)
    requires n <= |images|
    ensures AllNamePositions(list, images, n, |start.result.errors|, ImageLoop(ctx, list, images, n, start).result.errors)
  {
    if n > 0 {
      ImageLoopErrorPositions(ctx, list, images, n - 1, start);
      ImageLoopErrorStep(ctx, list, images, n, start);
    }
  }

  /** The `n`-th step of a loop keeps every added error naming a position. */
  lemma ImageLoopErrorStep(ctx: Context, list: ImageList, images: seq<Option<UploadedFile>>, n: nat, start: Run)
    requires 0 < n <= |images|
    requires AllNamePositions(list, images, n - 1, |start.result.errors|, ImageLoop(ctx, list, images, n - 1, start).result.errors)
    ensures AllNamePositions(list, images, n, |start.result.errors|, ImageLoop(ctx, list, images, n, start).result.errors)
  {
    ImageLoopAccounting(ctx, list, images, n - 1, start);
    var before := ImageLoop(ctx, list, images, n - 1, start);
    var end := ImageStep(ctx, list, n, images[n - 1], before);
    assert end == ImageLoop(ctx, list, images, n, start);
    ImageStepFacts(ctx, list, n, images[n - 1], before);
    ErrorsKeepPosition(list, images, n, |start.result.errors|, before.result.errors, end.result.errors);
  }

  /** `after` keeps every key of `before`, and every key added or rewritten lies under `dir`. */
  ghost predicate GrowsUnder(before: Bucket, after: Bucket, dir: string)
  {
    && (forall k {:trigger k in before} :: k in before ==> k in after)
    && (forall k {:trigger after[k]} :: k in after && (k !in before || after[k] != before[k]) ==> dir <= k)
  }

  lemma GrowsUnderTrans(b0: Bucket, b1: Bucket, b2: Bucket, dir: string)
    requires GrowsUnder(b0, b1, dir) && GrowsUnder(b1, b2, dir)
    ensures GrowsUnder(b0, b2, dir)
  {
    forall k | k in b2 && (k !in b0 || b2[k] != b0[k])
      ensures dir <= k
    {
      if k in b1 && k in b0 && b1[k] == b0[k] {
        assert b2[k] != b1[k];
      }
    }
  }

  /** One image step writes at most one key, under its list's directory, and removes nothing. */
  lemma ImageStepLocations(ctx: Context, list: ImageList, position: nat, entry: Option<UploadedFile>, run: Run)
    ensures GrowsUnder(run.bucket, ImageStep(ctx, list, position, entry, run).bucket, ImageDirectory(ctx, list) + "/")
  {
    if entry.Some? {
      var att := ctx.oracle(run.next);
      var path := TempPath(ctx.tempDir, att.token, Suffix(entry.value.name));
      var key := PathKey(ctx.gateway, Image, path, None, Some(ImageSubfolder(ctx.subfolder, list)), att.call);
      UploadFromPathFacts(ctx.gateway, Image, run.bucket, ctx.files[path := entry.value.data], path, None,
                          Some(ImageSubfolder(ctx.subfolder, list)), ctx.expiration, att.call);
      assert ImageDirectory(ctx, list) + "/" <= key;
    }
  }

  /**
   * An image loop writes only under its list's directory,
   * `{image folder}/{player folder}/player_images` or `.../jersey_images`,
   * and removes nothing.
   */
  lemma {:induction false} ImageLoopLocations(ctx: Context, list: ImageList, images: seq<Option<UploadedFile>>, n: nat, start: Run)
    requires n <= |images|
    ensures GrowsUnder(start.bucket, ImageLoop(ctx, list, images, n, start).bucket, ImageDirectory(ctx, list) + "/")
  {
    if n > 0 {
      ImageLoopLocations(ctx, list, images, n - 1, start);
      var before := ImageLoop(ctx, list, images, n - 1, start);
      var end := ImageStep(ctx, list, n, images[n - 1], before);
      assert end == ImageLoop(ctx, list, images, n, start);
      ImageStepLocations(ctx, list, n, images[n - 1], before);
      GrowsUnderTrans(start.bucket, before.bucket, end.bucket, ImageDirectory(ctx, list) + "/");
    }
  }

  /** When every upload goes through, an image loop records one link per truthy entry and no error. */
  lemma ImageLoopAllDelivered(ctx: Context, list: ImageList, images: seq<Option<UploadedFile>>, n: nat, start: Run)
    requires n <= |images|
    requires forall i: nat :: ctx.oracle(i).call.transport.Delivered?
    ensures var end := ImageLoop(ctx, list, images, n, start);
            && end.result.errors == start.result.errors
            && |Urls(end.result, list)| == |Urls(start.result, list)| + CountPresent(images, n)
  {
    ImageLoopLinks(ctx, list, images, n, start);
    ImageLoopAccounting(ctx, list, images, n, start);
    DeliveredAllGoThrough(ctx.oracle, images, n, start.next);
  }

  // ----- Which links are recorded ----------------------------------------------

  /** The key the staged video of an attempt is stored under. */
  function VideoKey(ctx: Context, att: Attempt): string
  {
    PathKey(ctx.gateway, Video, TempPath(ctx.tempDir, att.token, VideoSuffix), None, Some(ctx.subfolder), att.call)
  }

  /** The key a staged image of an attempt is stored under. */
  function ImageKey(ctx: Context, list: ImageList, img: UploadedFile, att: Attempt): string
  {
    PathKey(ctx.gateway, Image, TempPath(ctx.tempDir, att.token, Suffix(img.name)), None,
            Some(ImageSubfolder(ctx.subfolder, list)), att.call)
  }

  /** The entry and attempt of an image upload that goes through: a truthy entry whose calls both succeed. */
  function EntryDelivered(entry: Option<UploadedFile>, att: Attempt): seq<(UploadedFile, Attempt)>
  {
    match entry
    case None => []
    case Some(img) => if att.call.transport.Delivered? then [(img, att)] else []
  }

  /**
   * The uploads among the first `n` entries of a list that go through, in
   * order, when the attempts are numbered from `next`: each truthy entry
   * uses the next attempt.
   */
  function Delivered(oracle: nat -> Attempt, images: seq<Option<UploadedFile>>, n: nat, next: nat): seq<(UploadedFile, Attempt)>
    requires n <= |images|
  {
    if n == 0 then []
    else Delivered(oracle, images, n - 1, next) + EntryDelivered(images[n - 1], oracle(next + CountPresent(images, n - 1)))
  }

  /** One more entry adds its own delivered upload, if any, after the earlier ones. */
  lemma {:induction false} DeliveredStep(oracle: nat -> Attempt, images: seq<Option<UploadedFile>>, n: nat, next: nat, used: nat)
    requires 0 < n <= |images| && used == next + CountPresent(images, n - 1)
    ensures Delivered(oracle, images, n, next) == Delivered(oracle, images, n - 1, next) + EntryDelivered(images[n - 1], oracle(used))
  {
  }

  /** When every upload goes through, every truthy entry is delivered, on the attempts `next`, `next + 1`, ... in turn. */
  lemma {:induction false} DeliveredAllGoThrough(oracle: nat -> Attempt, images: seq<Option<UploadedFile>>, n: nat, next: nat)
    requires n <= |images|
    requires forall i: nat :: oracle(i).call.transport.Delivered?
    ensures var d := Delivered(oracle, images, n, next);
            && |d| == CountPresent(images, n)
            && forall k :: 0 <= k < |d| ==> d[k].1 == oracle(next + k)
  {
    if n > 0 {
      DeliveredAllGoThrough(oracle, images, n - 1, next);
      DeliveredStep(oracle, images, n, next, next + CountPresent(images, n - 1));
    }
  }

  /** The presigned link of an image's key on an attempt, as a function of the delivered upload. */
  function ImageLink(ctx: Context, list: ImageList): ((UploadedFile, Attempt)) -> string
  {
    (d: (UploadedFile, Attempt)) => ctx.gateway.presign(ImageKey(ctx, list, d.0, d.1), ctx.expiration)
  }

  /** The staged video's upload succeeds exactly when both calls go through, and then returns the presigned link of its key. */
  lemma VideoOutcomeLink(ctx: Context, bucket: Bucket, video: UploadedFile, att: Attempt)
    ensures var r := VideoOutcome(ctx, bucket, video, att).result;
            && (r.Success? <==> att.call.transport.Delivered?)
            && (r.Success? ==> r.value == ctx.gateway.presign(VideoKey(ctx, att), ctx.expiration))
  {
    var path := TempPath(ctx.tempDir, att.token, VideoSuffix);
    UploadFromPathFacts(ctx.gateway, Video, bucket, ctx.files[path := video.data], path, None,
                        Some(ctx.subfolder), ctx.expiration, att.call);
  }

  /** A staged image's upload succeeds exactly when both calls go through, and then returns the presigned link of its key. */
  lemma ImageOutcomeLink(ctx: Context, list: ImageList, bucket: Bucket, img: UploadedFile, att: Attempt)
    ensures var r := ImageOutcome(ctx, list, bucket, img, att).result;
            && (r.Success? <==> att.call.transport.Delivered?)
            && (r.Success? ==> r.value == ctx.gateway.presign(ImageKey(ctx, list, img, att), ctx.expiration))
  {
    var path := TempPath(ctx.tempDir, att.token, Suffix(img.name));
    UploadFromPathFacts(ctx.gateway, Image, bucket, ctx.files[path := img.data], path, None,
                        Some(ImageSubfolder(ctx.subfolder, list)), ctx.expiration, att.call);
  }

  /** One image step appends the link of its entry when that upload goes through, and nothing otherwise. */
  lemma ImageStepLinks(ctx: Context, list: ImageList, position: nat, entry: Option<UploadedFile>, run: Run)
    ensures var d := EntryDelivered(entry, ctx.oracle(run.next));
            && |d| <= 1
            && Urls(ImageStep(ctx, list, position, entry, run).result, list)
               == Urls(run.result, list) + (if d == [] then [] else [ImageLink(ctx, list)(d[0])])
  {
    if entry.Some? {
      ImageOutcomeLink(ctx, list, run.bucket, entry.value, ctx.oracle(run.next));
    }
  }

  /** An image loop uses one attempt per truthy entry. */
  lemma {:induction false} ImageLoopNext(ctx: Context, list: ImageList, images: seq<Option<UploadedFile>>, n: nat, start: Run)
    requires n <= |images|
    ensures ImageLoop(ctx, list, images, n, start).next == start.next + CountPresent(images, n)
  {
    if n > 0 {
      ImageLoopNext(ctx, list, images, n - 1, start);
    }
  }

  /** `after` is `before` followed by one link per element of `d`, in order. */
  predicate LinksFollow(link: ((UploadedFile, Attempt)) -> string, before: seq<string>, after: seq<string>, d: seq<(UploadedFile, Attempt)>)
  {
    && |after| == |before| + |d|
    && after[..|before|] == before
    && forall k :: 0 <= k < |d| ==> after[|before| + k] == link(d[k])
  }

  /** Appending the link of at most one more delivered upload extends `LinksFollow` by that upload. */
  lemma LinksFollowAppend(link: ((UploadedFile, Attempt)) -> string, before: seq<string>, middle: seq<string>, after: seq<string>,
                          earlier: seq<(UploadedFile, Attempt)>, e: seq<(UploadedFile, Attempt)>)
    requires LinksFollow(link, before, middle, earlier)
    requires |e| <= 1 && after == middle + (if e == [] then [] else [link(e[0])])
    ensures LinksFollow(link, before, after, earlier + e)
  {
    var d := earlier + e;
    assert after[..|before|] == middle[..|before|];
    forall k | 0 <= k < |d|
      ensures after[|before| + k] == link(d[k])
    {
      if k < |earlier| {
        assert after[|before| + k] == middle[|before| + k];
      }
    }
  }

  /** One image step extends `LinksFollow` by the upload it delivers, if any. */
  lemma ImageStepFollows(ctx: Context, list: ImageList, position: nat, entry: Option<UploadedFile>, run: Run,
                         before: seq<string>, earlier: seq<(UploadedFile, Attempt)>)
    requires LinksFollow(ImageLink(ctx, list), before, Urls(run.result, list), earlier)
    ensures LinksFollow(ImageLink(ctx, list), before, Urls(ImageStep(ctx, list, position, entry, run).result, list),
                        earlier + EntryDelivered(entry, ctx.oracle(run.next)))
  {
    ImageStepLinks(ctx, list, position, entry, run);
    LinksFollowAppend(ImageLink(ctx, list), before, Urls(run.result, list), Urls(ImageStep(ctx, list, position, entry, run).result, list),
                      earlier, EntryDelivered(entry, ctx.oracle(run.next)));
  }

  /** The same for the `n`-th step of a loop: `LinksFollow` for `n - 1` entries gives it for `n`. */
  lemma ImageLoopStepFollows(ctx: Context, list: ImageList, images: seq<Option<UploadedFile>>, n: nat, start: Run)
    requires 0 < n <= |images|
    requires LinksFollow(ImageLink(ctx, list), Urls(start.result, list), Urls(ImageLoop(ctx, list, images, n - 1, start).result, list),
                         Delivered(ctx.oracle, images, n - 1, start.next))
    ensures LinksFollow(ImageLink(ctx, list), Urls(start.result, list), Urls(ImageLoop(ctx, list, images, n, start).result, list),
                        Delivered(ctx.oracle, images, n, start.next))
  {
    var mid := ImageLoop(ctx, list, images, n - 1, start);
    ImageLoopNext(ctx, list, images, n - 1, start);
    DeliveredStep(ctx.oracle, images, n, start.next, mid.next);
    ImageStepFollows(ctx, list, n, images[n - 1], mid, Urls(start.result, list), Delivered(ctx.oracle, images, n - 1, start.next));
  }

  /**
   * An image loop keeps its list's earlier links and appends one link per
   * upload that goes through: the k-th new link is the presigned link of
   * the k-th delivered entry's key on that entry's attempt.
   */
  lemma {:induction false} ImageLoopLinks(ctx: Context, list: ImageList, images: seq<Option<UploadedFile>>, n: nat, start: Run)
    requires n <= |images|
    ensures LinksFollow(ImageLink(ctx, list), Urls(start.result, list), Urls(ImageLoop(ctx, list, images, n, start).result, list),
                        Delivered(ctx.oracle, images, n, start.next))
  {
    if n > 0 {
      ImageLoopLinks(ctx, list, images, n - 1, start);
      ImageLoopStepFollows(ctx, list, images, n, start);
    } else {
      assert Urls(start.result, list)[..|Urls(start.result, list)|] == Urls(start.result, list);
    }
  }

  /** The batch fails exactly when there is a video and its upload raised. */
  lemma BatchSuccessIff(ctx: Context, bucket: Bucket, video: Option<UploadedFile>,
                        playerImages: seq<Option<UploadedFile>>, jerseyImages: seq<Option<UploadedFile>>)
    ensures Batch(ctx, bucket, video, playerImages, jerseyImages).result.success
            <==> !(video.Some? && VideoOutcome(ctx, bucket, video.value, ctx.oracle(0)).result.Failure?)
  {
    var start := ImagesStart(ctx, bucket, video);
    if !(video.Some? && VideoOutcome(ctx, bucket, video.value, ctx.oracle(0)).result.Failure?) {
      ImageLoopAccounting(ctx, PlayerImages, playerImages, |playerImages|, start);
      ImageLoopAccounting(ctx, JerseyImages, jerseyImages, |jerseyImages|,
                          ImageLoop(ctx, PlayerImages, playerImages, |playerImages|, start));
    }
  }

  /**
   * A failed video ends the batch: no success, no links at all, exactly one
   * `Upload error: ...` entry, and no image is attempted (one attempt used).
   */
  lemma BatchVideoFatal(ctx: Context, bucket: Bucket, video: UploadedFile,
                        playerImages: seq<Option<UploadedFile>>, jerseyImages: seq<Option<UploadedFile>>)
    requires VideoOutcome(ctx, bucket, video, ctx.oracle(0)).result.Failure?
    ensures var run := Batch(ctx, bucket, Some(video), playerImages, jerseyImages);
            var e := VideoOutcome(ctx, bucket, video, ctx.oracle(0)).result.error;
            && run.result == BatchResult(false, None, [], [], [FatalError(e)])
            && run.next == 1
  {
  }

  /** The start of the image loops: the video link, if any, and nothing else recorded. */
  function ImagesStart(ctx: Context, bucket: Bucket, video: Option<UploadedFile>): Run
  {
    match video
    case None => Run(EmptyResult, bucket, 0)
    case Some(v) =>
      var o := VideoOutcome(ctx, bucket, v, ctx.oracle(0));
      Run(EmptyResult.(videoUrl := if o.result.Success? then Some(o.result.value) else None), o.bucket, 1)
  }

  /** Two loops from an empty record: the player errors come first, the jersey errors after them. */
  lemma TwoLoopsAccounting(start: Run, mid: Run, end: Run, players: nat, jerseys: nat)
    requires start.result.playerImageUrls == [] && start.result.jerseyImageUrls == [] && start.result.errors == []
    requires Accounts(PlayerImages, start, mid, players) && Accounts(JerseyImages, mid, end, jerseys)
    ensures var r := end.result;
            var playerErrors := players - |r.playerImageUrls|;
            && r.success == start.result.success
            && r.videoUrl == start.result.videoUrl
            && 0 <= playerErrors <= |r.errors|
            && |r.jerseyImageUrls| + (|r.errors| - playerErrors) == jerseys
            && (forall i :: 0 <= i < playerErrors ==> ListLabel(PlayerImages) + " " <= r.errors[i])
            && (forall i :: playerErrors <= i < |r.errors| ==> ListLabel(JerseyImages) + " " <= r.errors[i])
  {
    forall i | 0 <= i < |mid.result.errors|
      ensures ListLabel(PlayerImages) + " " <= end.result.errors[i]
    {
      assert end.result.errors[i] == mid.result.errors[i];
    }
  }

  /**
   * Without a fatal video, every truthy image is accounted for: the player
   * links plus the player errors number the truthy player entries, the same
   * for jersey entries, and all player errors come before all jersey errors.
   */
  lemma BatchAccounting(ctx: Context, bucket: Bucket, video: Option<UploadedFile>,
                        playerImages: seq<Option<UploadedFile>>, jerseyImages: seq<Option<UploadedFile>>)
    requires video.Some? ==> VideoOutcome(ctx, bucket, video.value, ctx.oracle(0)).result.Success?
    ensures var r := Batch(ctx, bucket, video, playerImages, jerseyImages).result;
            var playerErrors := CountPresent(playerImages, |playerImages|) - |r.playerImageUrls|;
            && r.success
            && (r.videoUrl.Some? <==> video.Some?)
            && (video.Some? ==> r.videoUrl.value == ctx.gateway.presign(VideoKey(ctx, ctx.oracle(0)), ctx.expiration))
            && 0 <= playerErrors <= |r.errors|
            && |r.jerseyImageUrls| + (|r.errors| - playerErrors) == CountPresent(jerseyImages, |jerseyImages|)
            && (forall i :: 0 <= i < playerErrors ==> ListLabel(PlayerImages) + " " <= r.errors[i])
            && (forall i :: playerErrors <= i < |r.errors| ==> ListLabel(JerseyImages) + " " <= r.errors[i])
  {
    var start := ImagesStart(ctx, bucket, video);
    var mid := ImageLoop(ctx, PlayerImages, playerImages, |playerImages|, start);
    var end := ImageLoop(ctx, JerseyImages, jerseyImages, |jerseyImages|, mid);
    assert end == Batch(ctx, bucket, video, playerImages, jerseyImages);
    ImageLoopAccounting(ctx, PlayerImages, playerImages, |playerImages|, start);
    ImageLoopAccounting(ctx, JerseyImages, jerseyImages, |jerseyImages|, mid);
    TwoLoopsAccounting(start, mid, end, CountPresent(playerImages, |playerImages|), CountPresent(jerseyImages, |jerseyImages|));
    if video.Some? {
      VideoOutcomeLink(ctx, bucket, video.value, ctx.oracle(0));
    }
  }

  /**
   * Without a fatal video, each list's links are exactly the presigned links
   * of its delivered uploads, in input order: the player entries use the
   * attempts after the video's, the jersey entries the attempts after those.
   */
  lemma BatchLinks(ctx: Context, bucket: Bucket, video: Option<UploadedFile>,
                   playerImages: seq<Option<UploadedFile>>, jerseyImages: seq<Option<UploadedFile>>)
    requires video.Some? ==> VideoOutcome(ctx, bucket, video.value, ctx.oracle(0)).result.Success?
    ensures var r := Batch(ctx, bucket, video, playerImages, jerseyImages).result;
            var first := if video.Some? then 1 else 0;
            && LinksFollow(ImageLink(ctx, PlayerImages), [], r.playerImageUrls,
                           Delivered(ctx.oracle, playerImages, |playerImages|, first))
            && LinksFollow(ImageLink(ctx, JerseyImages), [], r.jerseyImageUrls,
                           Delivered(ctx.oracle, jerseyImages, |jerseyImages|, first + CountPresent(playerImages, |playerImages|)))
  {
    var start := ImagesStart(ctx, bucket, video);
    var mid := ImageLoop(ctx, PlayerImages, playerImages, |playerImages|, start);
    var end := ImageLoop(ctx, JerseyImages, jerseyImages, |jerseyImages|, mid);
    assert end == Batch(ctx, bucket, video, playerImages, jerseyImages);
    ImageLoopLinks(ctx, PlayerImages, playerImages, |playerImages|, start);
    ImageLoopNext(ctx, PlayerImages, playerImages, |playerImages|, start);
    ImageLoopAccounting(ctx, PlayerImages, playerImages, |playerImages|, start);
    assert mid.result.jerseyImageUrls == [];
    ImageLoopLinks(ctx, JerseyImages, jerseyImages, |jerseyImages|, mid);
    ImageLoopAccounting(ctx, JerseyImages, jerseyImages, |jerseyImages|, mid);
  }

  // ----- Where the staged files land ------------------------------------------

  /** A player folder has no `/` to strip at either end when the name has none. */
  lemma PlayerSubfolderUnpadded(playerName: string, playerNumber: int, list: ImageList)
    requires '/' !in playerName
    ensures var sub := PlayerSubfolder(playerName, playerNumber);
            && Strip(sub, '/') == sub
            && Strip(ImageSubfolder(sub, list), '/') == ImageSubfolder(sub, list)
  {
    var sub := PlayerSubfolder(playerName, playerNumber);
    var digits := NatToString(if playerNumber < 0 then -playerNumber else playerNumber);
    assert sub[|sub| - 1] == digits[|digits| - 1];
    assert sub[0] != '/' by {
      if playerName != [] {
        assert sub[0] == Replace(playerName, ' ', '_')[0];
        assert playerName[0] != '/';
      }
    }
    StripUnpadded(sub, '/');
    var folder := ImageSubfolder(sub, list);
    assert folder[0] == sub[0];
    StripUnpadded(folder, '/');
  }

  /** The folder of player "Alex Doe", number 7. */
  lemma PlayerSubfolderExample()
    ensures PlayerSubfolder("Alex Doe", 7) == "Alex_Doe_7"
  {
    var r := Replace("Alex Doe", ' ', '_');
    forall i | 0 <= i < 8
      ensures r[i] == "Alex_Doe"[i]
    {
    }
    assert r == "Alex_Doe";
    assert NatToString(7) == "7";
  }

  /**
   * The staged video is stored under the player folder with a name
   * generated from the temporary file, `tmp{token}_{timestamp}_{id}.mp4`.
   */
  lemma StagedVideoKey(ctx: Context, att: Attempt)
    requires TempToken(att.token) && ctx.subfolder != ""
    ensures PathKey(ctx.gateway, Video, TempPath(ctx.tempDir, att.token, VideoSuffix), None, Some(ctx.subfolder), att.call)
            == ctx.gateway.videoFolder + "/" + Strip(ctx.subfolder, '/') + "/" + StagedFilename(att, VideoSuffix)
  {
    StagedName(ctx.tempDir, att, VideoSuffix);
    assert Truthy(Some(ctx.subfolder));
  }

  /** With no guess from the type table, the staged video is stored as `video/mp4`. */
  lemma StagedVideoType(ctx: Context, att: Attempt)
    requires TempToken(att.token)
    ensures ContentType(None, TempPath(ctx.tempDir, att.token, VideoSuffix)) == "video/mp4"
  {
    StagedName(ctx.tempDir, att, VideoSuffix);
    Mp4Fallback(TempPath(ctx.tempDir, att.token, VideoSuffix));
  }

  /**
   * A staged image is stored under its list's folder with a name generated
   * from the temporary file, which carries the original extension; with no
   * guess from the type table its content type is that of the original name.
   */
  lemma StagedImageKey(ctx: Context, list: ImageList, img: UploadedFile, att: Attempt)
    requires TempToken(att.token)
    ensures var path := TempPath(ctx.tempDir, att.token, Suffix(img.name));
            && PathKey(ctx.gateway, Image, path, None, Some(ImageSubfolder(ctx.subfolder, list)), att.call)
               == ImageDirectory(ctx, list) + "/" + StagedFilename(att, Suffix(img.name))
            && ContentType(None, path) == ContentType(None, img.name)
  {
    var path := TempPath(ctx.tempDir, att.token, Suffix(img.name));
    SuffixFacts(img.name);
    StagedName(ctx.tempDir, att, Suffix(img.name));
    var generated := StagedFilename(att, Suffix(img.name));
    assert PathKey(ctx.gateway, Image, path, None, Some(ImageSubfolder(ctx.subfolder, list)), att.call)
           == ImageDirectory(ctx, list) + "/" + generated;
    ContentTypeByExtension(path, img.name);
  }

  /** The name generated for a staged file: `tmp`, the random token, the timestamp, the short id, the staged suffix. */
  function StagedFilename(att: Attempt, suffix: string): string
  {
    TempPrefix + att.token + "_" + Stamp(att.call.now) + "_" + ShortId(att.call.uuid) + suffix
  }

  /** Uploading a staged file without a custom name generates `StagedFilename`; the staged suffix is the path's suffix. */
  lemma StagedName(dir: string, att: Attempt, suffix: string)
    requires TempToken(att.token) && SuffixForm(suffix)
    ensures var path := TempPath(dir, att.token, suffix);
            && PathFilename(path, None, att.call) == StagedFilename(att, suffix)
            && Suffix(path) == suffix
  {
    TempPathParts(dir, att.token, suffix);
  }

  method UploadFilesToS3(s3: S3Manager, disk: Disk, tempDir: string, oracle: nat -> Attempt,
                         videoFile: Option<UploadedFile>, playerImages: seq<Option<UploadedFile>>,
                         jerseyImages: seq<Option<UploadedFile>>, playerName: string, playerNumber: int,
                         urlExpiration: int := DefaultExpiration)
    returns (results: BatchResult)
    requires TempNamesFree(disk.files, tempDir, oracle)
    modifies s3, disk
    ensures disk.files == old(disk.files)
    ensures var ctx := Context(s3.Config(), old(disk.files), tempDir, oracle, PlayerSubfolder(playerName, playerNumber), urlExpiration);
            var run := Batch(ctx, old(s3.objects), videoFile, playerImages, jerseyImages);
            results == run.result && s3.objects == run.bucket
  {
    var ctx := Context(s3.Config(), disk.files, tempDir, oracle, PlayerSubfolder(playerName, playerNumber), urlExpiration);
    results := EmptyResult;
    var next := 0;
    if videoFile.Some? {
      var r := UploadStagedVideo(s3, disk, ctx, videoFile.value);
      next := 1;
      match r {
        case Failure(e) =>
          results := results.(success := false, errors := results.errors + [FatalError(e)]);
          return;
        case Success(url) =>
          results := results.(videoUrl := Some(url));
      }
    }
    results, next := UploadImages(s3, disk, ctx, PlayerImages, playerImages, results, next);
    results, next := UploadImages(s3, disk, ctx, JerseyImages, jerseyImages, results, next);
  }

  /** The video: staged under the first attempt's temporary name, uploaded to the player folder, unstaged. */
  method UploadStagedVideo(s3: S3Manager, disk: Disk, ctx: Context, video: UploadedFile)
    returns (r: Result<string, UploadError>)
    requires ctx.gateway == s3.Config() && disk.files == ctx.files
    requires TempNamesFree(ctx.files, ctx.tempDir, ctx.oracle)
    modifies s3, disk
    ensures disk.files == ctx.files
    ensures Outcome(r, s3.objects) == VideoOutcome(ctx, old(s3.objects), video, ctx.oracle(0))
  {
    var att := ctx.oracle(0);
    var tmpVideoPath := TempPath(ctx.tempDir, att.token, VideoSuffix);
    TempPathFree(disk.files, ctx.tempDir, att.token, VideoSuffix);
    disk.Write(tmpVideoPath, video.data);
    r := s3.UploadVideo(disk, att.call, tmpVideoPath, subfolder := Some(ctx.subfolder), expiration := ctx.expiration);
    disk.Unlink(tmpVideoPath);
    StagedFileRemoved(ctx.files, tmpVideoPath, video.data);
  }

  /** One image loop: each truthy entry is staged, uploaded, recorded and unstaged. */
  method UploadImages(s3: S3Manager, disk: Disk, ctx: Context, list: ImageList, images: seq<Option<UploadedFile>>,
                      results0: BatchResult, next0: nat)
    returns (results: BatchResult, next: nat)
    requires ctx.gateway == s3.Config() && disk.files == ctx.files
    requires TempNamesFree(ctx.files, ctx.tempDir, ctx.oracle)
    modifies s3, disk
    ensures disk.files == ctx.files
    ensures Run(results, s3.objects, next) == ImageLoop(ctx, list, images, |images|, Run(results0, old(s3.objects), next0))
  {
    results, next := results0, next0;
    var idx := 0;
    while idx < |images|
      invariant 0 <= idx <= |images|
      invariant disk.files == ctx.files
      invariant Run(results, s3.objects, next) == ImageLoop(ctx, list, images, idx, Run(results0, old(s3.objects), next0))
    {
      results, next := UploadEntry(s3, disk, ctx, list, idx + 1, images[idx], results, next);
      idx := idx + 1;
    }
  }

  /** One entry of an image list at 1-based `position`: a truthy one is uploaded and recorded. */
  method UploadEntry(s3: S3Manager, disk: Disk, ctx: Context, list: ImageList, position: nat, entry: Option<UploadedFile>,
                     results0: BatchResult, next0: nat)
    returns (results: BatchResult, next: nat)
    requires ctx.gateway == s3.Config() && disk.files == ctx.files
    requires TempNamesFree(ctx.files, ctx.tempDir, ctx.oracle)
    modifies s3, disk
    ensures disk.files == ctx.files
    ensures Run(results, s3.objects, next) == ImageStep(ctx, list, position, entry, Run(results0, old(s3.objects), next0))
  {
    results, next := results0, next0;
    if entry.Some? {
      var r := UploadStagedImage(s3, disk, ctx, list, entry.value, next);
      results := Record(results, list, position, r);
      next := next + 1;
    }
  }

  /** One truthy image, staged under the attempt's temporary name with the original suffix, uploaded to its list's folder, unstaged. */
  method UploadStagedImage(s3: S3Manager, disk: Disk, ctx: Context, list: ImageList, img: UploadedFile, attempt: nat)
    returns (r: Result<string, UploadError>)
    requires ctx.gateway == s3.Config() && disk.files == ctx.files
    requires TempNamesFree(ctx.files, ctx.tempDir, ctx.oracle)
    modifies s3, disk
    ensures disk.files == ctx.files
    ensures Outcome(r, s3.objects) == ImageOutcome(ctx, list, old(s3.objects), img, ctx.oracle(attempt))
  {
    var att := ctx.oracle(attempt);
    var tmpImgPath := TempPath(ctx.tempDir, att.token, Suffix(img.name));
    TempPathFree(disk.files, ctx.tempDir, att.token, Suffix(img.name));
    disk.Write(tmpImgPath, img.data);
    r := s3.UploadImage(disk, att.call, tmpImgPath, subfolder := Some(ImageSubfolder(ctx.subfolder, list)),
                        expiration := ctx.expiration);
    disk.Unlink(tmpImgPath);
    StagedFileRemoved(ctx.files, tmpImgPath, img.data);
  }
}
