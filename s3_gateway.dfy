/**
 * The S3 manager of s3_utils.py as an object over an abstract bucket. The
 * bucket is a map from key to stored object; the presigned-link service is a
 * function of key and lifetime fixed when the manager is built. Each upload
 * call receives the readings of the clock, the uuid generator, the MIME-type
 * registry and the outcome of the network calls as a `Call`.
 */
module S3Gateway {
  import opened Wrappers
  import opened Text
  import opened Paths
  import opened LocalFiles
  import opened S3Naming

  /** An object as the bucket holds it. */
  datatype Stored = Stored(body: Bytes, contentType: string)

  type Bucket = map<string, Stored>

  datatype AssetKind = Video | Image

  /** What a failing client call raises: a botocore `ClientError`, or some other exception. */
  datatype Fault = ClientFault(detail: string) | OtherFault(text: string)

  /** The outcome of the store call (`upload_file` / `put_object`) and then the presign call. */
  datatype Transport = Delivered | PutFailed(fault: Fault) | PresignFailed(fault: Fault)

  /** What one upload call finds in the environment. */
  datatype Call = Call(now: UtcTime, uuid: string, guess: Option<string>, transport: Transport)

  /** The errors an upload raises. */
  datatype UploadError =
    | FileNotFound(kind: AssetKind, path: string)     // FileNotFoundError
    | UploadFailed(kind: AssetKind, detail: string)   // a ClientError, wrapped
    | Propagated(text: string)                        // any other exception, unchanged

  function KindWord(kind: AssetKind, capital: bool): string
  {
    match kind
    case Video => if capital then "Video" else "video"
    case Image => if capital then "Image" else "image"
  }

  /** `str(e)` of an upload error. */
  function ErrorText(e: UploadError): string
  {
    match e
    case FileNotFound(kind, path) => KindWord(kind, true) + " file not found: " + path
    case UploadFailed(kind, detail) => "Failed to upload " + KindWord(kind, false) + ": " + detail
    case Propagated(text) => text
  }

  /** The `except ClientError` clause: client errors are wrapped, anything else passes through. */
  function Raise(kind: AssetKind, fault: Fault): UploadError
  {
    match fault
    case ClientFault(detail) => UploadFailed(kind, detail)
    case OtherFault(text) => Propagated(text)
  }

  /** The manager's fixed configuration as a value. */
  datatype Gateway = Gateway(bucketName: string, videoFolder: string, imageFolder: string, presign: (string, int) -> string)
  {
    function Folder(kind: AssetKind): string
    {
      match kind
      case Video => videoFolder
      case Image => imageFolder
    }
  }

  /** The result an upload returns or raises, and the bucket afterwards. */
  datatype Outcome = Outcome(result: Result<string, UploadError>, bucket: Bucket)

  /** The network part of an upload: store `stored` under `key`, then presign a link to it. */
  function Deliver(g: Gateway, kind: AssetKind, bucket: Bucket, key: string, stored: Stored, expiration: int, transport: Transport): Outcome
  {
    match transport
    case Delivered => Outcome(Success(g.presign(key, expiration)), bucket[key := stored])
    case PutFailed(f) => Outcome(Failure(Raise(kind, f)), bucket)
    case PresignFailed(f) => Outcome(Failure(Raise(kind, f)), bucket[key := stored])
  }

  /**
   * Only `key` can change, and it changes exactly when the store call went
   * through; the link is returned only when both calls went through, and a
   * failure raises what the fault classifies as.
   */
  lemma DeliverFacts(g: Gateway, kind: AssetKind, bucket: Bucket, key: string, stored: Stored, expiration: int, transport: Transport)
    ensures var o := Deliver(g, kind, bucket, key, stored, expiration, transport);
            && (forall k :: k in bucket ==> k in o.bucket)
            && (forall k :: k != key ==> (k in o.bucket <==> k in bucket))
            && (forall k :: k != key && k in bucket ==> o.bucket[k] == bucket[k])
            && (transport.PutFailed? ==> o.bucket == bucket)
            && (!transport.PutFailed? ==> o.bucket == bucket[key := stored])
            && (o.result.Success? <==> transport.Delivered?)
            && (o.result.Success? ==> o.result.value == g.presign(key, expiration))
            && (o.result.Failure? ==> o.result.error == Raise(kind, transport.fault))
  {
  }

  /** The file name of an upload from a local path: the custom name when it is truthy, else a generated one. */
  function PathFilename(filePath: string, customFilename: Option<string>, call: Call): string
  {
    if Truthy(customFilename) then customFilename.value
    else GenerateUniqueFilename(Name(filePath), "", call.now, call.uuid)
  }

  /** The key an upload from a local path writes. */
  function PathKey(g: Gateway, kind: AssetKind, filePath: string, customFilename: Option<string>, subfolder: Option<string>, call: Call): string
  {
    BuildKey(g.Folder(kind), subfolder, PathFilename(filePath, customFilename, call))
  }

  /** `upload_video` / `upload_image` on a disk given as a map from path to contents. */
  function UploadFromPath(g: Gateway, kind: AssetKind, bucket: Bucket, files: map<string, Bytes>,
                          filePath: string, customFilename: Option<string>, subfolder: Option<string>,
                          expiration: int, call: Call): Outcome
  {
    if filePath !in files then Outcome(Failure(FileNotFound(kind, filePath)), bucket)
    else
      var key := PathKey(g, kind, filePath, customFilename, subfolder, call);
      Deliver(g, kind, bucket, key, Stored(files[filePath], ContentType(call.guess, filePath)), expiration, call.transport)
  }

  /**
   * A missing local file raises before anything is written. Otherwise at
   * most the built key changes, and it lies under the kind's folder; a link
   * is returned exactly when both calls went through, and then the object
   * holds the file's bytes and the local path's content type.
   */
  lemma UploadFromPathFacts(g: Gateway, kind: AssetKind, bucket: Bucket, files: map<string, Bytes>,
                            filePath: string, customFilename: Option<string>, subfolder: Option<string>,
                            expiration: int, call: Call)
    ensures var o := UploadFromPath(g, kind, bucket, files, filePath, customFilename, subfolder, expiration, call);
            var key := PathKey(g, kind, filePath, customFilename, subfolder, call);
            && (filePath !in files ==> o.result == Failure(FileNotFound(kind, filePath)) && o.bucket == bucket)
            && g.Folder(kind) + "/" <= key
            && (forall k :: k in bucket ==> k in o.bucket)
            && (forall k :: k != key ==> (k in o.bucket <==> k in bucket))
            && (forall k :: k != key && k in bucket ==> o.bucket[k] == bucket[k])
            && (o.result.Success? <==> filePath in files && call.transport.Delivered?)
            && (o.result.Success? ==>
                  o.bucket == bucket[key := Stored(files[filePath], ContentType(call.guess, filePath))]
                  && o.result.value == g.presign(key, expiration))
  {
    var key := PathKey(g, kind, filePath, customFilename, subfolder, call);
    assert g.Folder(kind) + "/" <= KeyDirectory(g.Folder(kind), subfolder) + "/";
    if filePath in files {
      DeliverFacts(g, kind, bucket, key, Stored(files[filePath], ContentType(call.guess, filePath)), expiration, call.transport);
    }
  }

  /** The key an upload from bytes writes: always a generated name. */
  function BytesKey(g: Gateway, kind: AssetKind, filename: string, subfolder: Option<string>, call: Call): string
  {
    BuildKey(g.Folder(kind), subfolder, GenerateUniqueFilename(filename, "", call.now, call.uuid))
  }

  /** `upload_video_from_bytes` / `upload_image_from_bytes`. */
  function UploadFromBytes(g: Gateway, kind: AssetKind, bucket: Bucket, body: Bytes, filename: string,
                           subfolder: Option<string>, expiration: int, call: Call): Outcome
  {
    var generated := GenerateUniqueFilename(filename, "", call.now, call.uuid);
    Deliver(g, kind, bucket, BuildKey(g.Folder(kind), subfolder, generated),
            Stored(body, ContentType(call.guess, generated)), expiration, call.transport)
  }

  /**
   * The name is always generated, and the content type comes from the
   * generated name. At most that key changes, under the kind's folder; a
   * link is returned exactly when both calls went through.
   */
  lemma UploadFromBytesFacts(g: Gateway, kind: AssetKind, bucket: Bucket, body: Bytes, filename: string,
                             subfolder: Option<string>, expiration: int, call: Call)
    ensures var o := UploadFromBytes(g, kind, bucket, body, filename, subfolder, expiration, call);
            var key := BytesKey(g, kind, filename, subfolder, call);
            var generated := GenerateUniqueFilename(filename, "", call.now, call.uuid);
            && g.Folder(kind) + "/" <= key
            && (forall k :: k in bucket ==> k in o.bucket)
            && (forall k :: k != key ==> (k in o.bucket <==> k in bucket))
            && (forall k :: k != key && k in bucket ==> o.bucket[k] == bucket[k])
            && (o.result.Success? <==> call.transport.Delivered?)
            && (o.result.Success? ==>
                  o.bucket == bucket[key := Stored(body, ContentType(call.guess, generated))]
                  && o.result.value == g.presign(key, expiration))
  {
    var generated := GenerateUniqueFilename(filename, "", call.now, call.uuid);
    assert g.Folder(kind) + "/" <= KeyDirectory(g.Folder(kind), subfolder) + "/";
    DeliverFacts(g, kind, bucket, BytesKey(g, kind, filename, subfolder, call),
                 Stored(body, ContentType(call.guess, generated)), expiration, call.transport);
  }

  /**
   * A custom file name, when truthy, is the last component of the key
   * verbatim; otherwise the key ends in a name generated from the local
   * file's name.
   */
  lemma CustomFilenameVerbatim(g: Gateway, kind: AssetKind, filePath: string, customFilename: Option<string>,
                               subfolder: Option<string>, call: Call)
    ensures Truthy(customFilename) ==>
              PathKey(g, kind, filePath, customFilename, subfolder, call)
              == KeyDirectory(g.Folder(kind), subfolder) + "/" + customFilename.value
    ensures !Truthy(customFilename) ==>
              PathKey(g, kind, filePath, customFilename, subfolder, call)
              == KeyDirectory(g.Folder(kind), subfolder) + "/" + GenerateUniqueFilename(Name(filePath), "", call.now, call.uuid)
  {
  }

  /** The manager. */
  class S3Manager {
    const bucketName: string
    const videoFolder: string
    const imageFolder: string
    const presign: (string, int) -> string
    /** The bucket's contents as seen through the client. */
    var objects: Bucket

    /** Stored folder prefixes never end with `/`. */
    predicate Valid()
    {
      (videoFolder == [] || videoFolder[|videoFolder| - 1] != '/')
      && (imageFolder == [] || imageFolder[|imageFolder| - 1] != '/')
    }

    function Config(): Gateway
    {
      Gateway(bucketName, videoFolder, imageFolder, presign)
    }

    /** Field set-up of `__init__`: the folder prefixes lose their trailing slashes. */
    constructor (bucketName: string, videoFolder: string, imageFolder: string,
                 presign: (string, int) -> string, objects: Bucket)
      ensures Valid()
      ensures this.bucketName == bucketName && this.presign == presign && this.objects == objects
      ensures this.videoFolder == NormaliseFolder(videoFolder)
      ensures this.imageFolder == NormaliseFolder(imageFolder)
    {
      this.bucketName := bucketName;
      this.videoFolder := NormaliseFolder(videoFolder);
      this.imageFolder := NormaliseFolder(imageFolder);
      this.presign := presign;
      this.objects := objects;
    }

    /**
     * `S3Manager(...)`: build the manager and probe the bucket; a failed probe
     * raises its classified error and no manager exists. Credentials and the
     * region only configure the client, whose verdict is `probe`.
     */
    static method Connect(bucketName: string, probe: Probe, presign: (string, int) -> string, objects: Bucket,
                          videoFolder: string := DefaultVideoFolder, imageFolder: string := DefaultImageFolder)
      returns (r: Result<S3Manager, string>)
      ensures r.Success? <==> probe.Reachable?
      ensures r.Failure? ==> Some(r.error) == ConnectionError(bucketName, probe)
      ensures r.Success? ==> fresh(r.value) && r.value.Valid() && r.value.objects == objects
                             && r.value.Config() == Gateway(bucketName, NormaliseFolder(videoFolder), NormaliseFolder(imageFolder), presign)
    {
      var m := new S3Manager(bucketName, videoFolder, imageFolder, presign, objects);
      var e := ConnectionError(bucketName, probe);
      if e.Some? {
        return Failure(e.value);
      }
      return Success(m);
    }

    /** The body shared by `upload_video` and `upload_image`. */
    method UploadFile(kind: AssetKind, disk: Disk, call: Call, filePath: string,
                      customFilename: Option<string>, subfolder: Option<string>, expiration: int)
      returns (r: Result<string, UploadError>)
      modifies this
      ensures Outcome(r, objects) == UploadFromPath(Config(), kind, old(objects), disk.files, filePath, customFilename, subfolder, expiration, call)
    {
      if filePath !in disk.files {
        return Failure(FileNotFound(kind, filePath));
      }
      var filename := if Truthy(customFilename) then customFilename.value
                      else GenerateUniqueFilename(Name(filePath), "", call.now, call.uuid);
      var key := BuildKey(Config().Folder(kind), subfolder, filename);
      var contentType := ContentType(call.guess, filePath);
      r := Store(kind, key, Stored(disk.files[filePath], contentType), expiration, call.transport);
    }

    /** The `try` block: store, then presign; a failure raises once, without retry. */
    method Store(kind: AssetKind, key: string, stored: Stored, expiration: int, transport: Transport)
      returns (r: Result<string, UploadError>)
      modifies this
      ensures Outcome(r, objects) == Deliver(Config(), kind, old(objects), key, stored, expiration, transport)
    {
      match transport {
        case PutFailed(f) =>
          r := Failure(Raise(kind, f));
        case PresignFailed(f) =>
          objects := objects[key := stored];
          r := Failure(Raise(kind, f));
        case Delivered =>
          objects := objects[key := stored];
          r := Success(presign(key, expiration));
      }
    }

    method UploadVideo(disk: Disk, call: Call, filePath: string, customFilename: Option<string> := None,
                       subfolder: Option<string> := None, expiration: int := DefaultExpiration)
      returns (r: Result<string, UploadError>)
      modifies this
      ensures Outcome(r, objects) == UploadFromPath(Config(), Video, old(objects), disk.files, filePath, customFilename, subfolder, expiration, call)
    {
      r := UploadFile(Video, disk, call, filePath, customFilename, subfolder, expiration);
    }

    method UploadImage(disk: Disk, call: Call, filePath: string, customFilename: Option<string> := None,
                       subfolder: Option<string> := None, expiration: int := DefaultExpiration)
      returns (r: Result<string, UploadError>)
      modifies this
      ensures Outcome(r, objects) == UploadFromPath(Config(), Image, old(objects), disk.files, filePath, customFilename, subfolder, expiration, call)
    {
      r := UploadFile(Image, disk, call, filePath, customFilename, subfolder, expiration);
    }

    /** The body shared by the two `_from_bytes` uploads. */
    method UploadBytes(kind: AssetKind, call: Call, body: Bytes, filename: string, subfolder: Option<string>, expiration: int)
      returns (r: Result<string, UploadError>)
      modifies this
      ensures Outcome(r, objects) == UploadFromBytes(Config(), kind, old(objects), body, filename, subfolder, expiration, call)
    {
      var generated := GenerateUniqueFilename(filename, "", call.now, call.uuid);
      var key := BuildKey(Config().Folder(kind), subfolder, generated);
      var contentType := ContentType(call.guess, generated);
      r := Store(kind, key, Stored(body, contentType), expiration, call.transport);
    }

    method UploadVideoFromBytes(call: Call, videoBytes: Bytes, filename: string,
                                subfolder: Option<string> := None, expiration: int := DefaultExpiration)
      returns (r: Result<string, UploadError>)
      modifies this
      ensures Outcome(r, objects) == UploadFromBytes(Config(), Video, old(objects), videoBytes, filename, subfolder, expiration, call)
    {
      r := UploadBytes(Video, call, videoBytes, filename, subfolder, expiration);
    }

    method UploadImageFromBytes(call: Call, imageBytes: Bytes, filename: string,
                                subfolder: Option<string> := None, expiration: int := DefaultExpiration)
      returns (r: Result<string, UploadError>)
      modifies this
      ensures Outcome(r, objects) == UploadFromBytes(Config(), Image, old(objects), imageBytes, filename, subfolder, expiration, call)
    {
      r := UploadBytes(Image, call, imageBytes, filename, subfolder, expiration);
    }
  }
}
