# S3 upload and video-processing front end, in Dafny

This project models the core of a small Streamlit front end for a video-processing service. The page collects a game video, up to four reference images of a player and up to two of the player's jersey, plus the player's name and number. It uploads the files to an S3 bucket through an `S3Manager`, and posts presigned links to the files to a prediction endpoint as form fields.

The model covers:

- **`S3Manager`** (s3_utils.py), as the class `S3Gateway.S3Manager`.
  - Its bucket is a map from key to stored object (bytes and content type), held in the field `objects`.
  - The constructor normalises the folder prefixes and classifies connection failures.
  - The model includes the generated file names (`S3Naming.GenerateUniqueFilename`), content-type resolution (`S3Naming.ContentType`) and key building (`S3Naming.BuildKey`).
  - It includes all four upload methods. Each is proved against a pure specification: `S3Gateway.UploadFromPath` or `S3Gateway.UploadFromBytes`.
- **`upload_files_to_s3`** (app.py), as the method `Uploads.UploadFilesToS3`.
  - It stages each file in a temporary file on a modelled local disk (`LocalFiles.Disk`), uploads it, records its link or error, and removes the temporary file.
  - It is proved to compute the fold `Uploads.Batch`. The lemmas about `Batch` and `ImageLoop` state what the batch guarantees.
- **The request of `call_video_processing_api`**: the form (`Prediction.BuildForm`, proved against `Prediction.Form`), the fixed header, and how the reply becomes a result record.
- **`can_submit`, `missing_fields` and the link lifetime** (`Submission`).

A few Python library behaviours are written out because the model needs them:

- `str.rstrip`, `str.strip`, `str.replace`, `str.lower` and `str(int)` (module `Text`);
- `PurePosixPath.name`, `.suffix` and `.stem` (module `Paths`);
- the `strftime('%Y%m%d_%H%M%S')` timestamp (`S3Naming.Stamp`).

Inputs from outside the program are parameters:

- clock readings, uuid text, the MIME-type registry's guess and the outcome of each network call (`S3Gateway.Call`);
- the presign service, a function of key and lifetime fixed when the manager is built;
- the bucket probe made at construction (`S3Naming.Probe`);
- the random tokens of temporary files (the oracle `nat -> Attempt` passed to the batch);
- the HTTP exchange (`post: Request -> Reply<J>`).

All source references below are to `s3_utils.py` and `app.py`.

## Model

| member | source | states |
|---|---|---|
| Text.RStrip | s3_utils.py:37-38 | `str.rstrip(c)`; its meaning is given by `RStripFacts` |
| Text.LStrip | s3_utils.py:150 | `str.lstrip(c)`; its meaning is given by `LStripFacts` |
| Text.Strip | s3_utils.py:150 | `str.strip(c)`; its meaning is given by `StripFacts` and `StripUnpadded` |
| Text.RStripFacts | s3_utils.py:37-38 | `rstrip(c)` leaves a prefix of the input that does not end in `c`, and everything it dropped is `c` |
| Text.LStripFacts | s3_utils.py:150 | `lstrip(c)` leaves a suffix of the input that does not start with `c`, and everything it dropped is `c` |
| Text.StripFacts | s3_utils.py:150 | `strip(c)` leaves a contiguous slice that neither starts nor ends with `c`, and only `c` lies outside it |
| Text.StripUnpadded | s3_utils.py:150 | a string that neither starts nor ends with `c` is unchanged by `strip(c)` |
| Text.Replace | app.py:122 | `replace(' ', '_')` keeps the length and changes exactly the spaces |
| Text.Lower | s3_utils.py:99 | `lower()` keeps the length and folds each character |
| Text.NatToString | app.py:225 | `str(n)` is a non-empty run of digits without a leading zero |
| Text.NatToStringRoundTrip | app.py:225 | reading back `str(n)` gives `n` |
| Text.NatToStringInjective | app.py:229-234 | different numbers print differently |
| Text.IntToStringRoundTrip | app.py:122 | `int(str(i))` gives `i` back, negative numbers included, and `str(i)` is an optional minus sign and digits |
| Text.IntToStringInjective | app.py:122 | different integers print differently; `PlayerSubfolderInjective` draws the folder consequence |
| Text.Padded | s3_utils.py:74 | a zero-padded field has exactly its width and only digits |
| Text.PaddedRoundTrip | s3_utils.py:74 | a zero-padded field reads back to its number when the number fits the width |
| Text.Take | app.py:229 | the slice `s[:n]` is the first `min(len(s), n)` elements of `s` |
| Paths.LastSegment | s3_utils.py:146 | the path text after its last `/`, never longer than the path; its meaning is given by `LastSegmentFacts`, `LastSegmentOfChild` and `LastSegmentOfPlain` |
| Paths.Name | s3_utils.py:146 | `PurePosixPath(p).name`; its meaning is given by `NameFacts` and `NameOfChild` |
| Paths.RFind | s3_utils.py:76 | the last index of a character, or -1; its meaning is given by `RFindFacts`, `RFindAt`, `RFindInExtension` and `RFindAbsent` |
| Paths.Suffix | s3_utils.py:76 | `PurePosixPath(p).suffix`; its meaning is given by `SuffixFacts`, `StemSuffixSplit`, `SplitExtension` and `NoExtension` |
| Paths.Stem | s3_utils.py:81 | `PurePosixPath(p).stem`; its meaning is given by `StemSuffixSplit`, `SplitExtension` and `NoExtension` |
| Paths.LastSegmentFacts | s3_utils.py:146 | the last segment of a path holds no `/`, is a tail of the path, and follows a `/` unless it is the whole path |
| Paths.NameFacts | s3_utils.py:146 | `Path(p).name` holds no `/` and is never `.` |
| Paths.RFindFacts | s3_utils.py:76 | the last-dot search gives -1 or an index of the character, and nothing after it is that character |
| Paths.SuffixFacts | s3_utils.py:76 | `suffix` is empty or a dot followed by characters that are neither `.` nor `/`; the stem holds no `/` |
| Paths.StemSuffixSplit | s3_utils.py:76-81 | stem followed by suffix is the name |
| Paths.LastSegmentOfChild | s3_utils.py:146 | a component after a `/` is the last segment, whatever precedes it |
| Paths.LastSegmentOfPlain | s3_utils.py:146 | a string without `/` is its own last segment |
| Paths.NameOfChild | s3_utils.py:146 | a proper component is the name of a path ending in it |
| Paths.RFindAt | s3_utils.py:76 | the last-dot search finds an occurrence that no later occurrence follows |
| Paths.RFindInExtension | s3_utils.py:76 | in `base + ext`, where `ext` has only its leading dot, the last dot is the one starting `ext` |
| Paths.RFindAbsent | s3_utils.py:76 | the search gives -1 on a string without a dot |
| Paths.SplitExtension | s3_utils.py:76-81 | a plain base followed by an extension splits back into that stem and that suffix, with or without a directory |
| Paths.NoExtension | s3_utils.py:76-81 | a plain base without a dot has no suffix and is its own stem |
| Paths.NoSuffixDots | s3_utils.py:76-81 | a name with no suffix that does not end in a dot has no dot after its first character and is its own stem |
| Paths.LeadingDotOnly | s3_utils.py:76-81 | a component whose only dot is its first character has no suffix and is its own stem |
| Paths.DotBeforeTail | s3_utils.py:76-81 | a component ending in a dot, followed by a dotless tail, has that dot and the tail as its suffix |
| Paths.PlainBeforeTail | s3_utils.py:76-81 | a component with no dot after its first character, followed by a dotless tail, has no suffix |
| Paths.TrailingDotFacts | s3_utils.py:76-81 | a name ending in a dot has no suffix and is its own stem |
| LocalFiles.Disk.Write | app.py:128-130 | writing a temporary file sets exactly that path to the data |
| LocalFiles.Disk.Unlink | app.py:140-142 | `unlink(missing_ok=True)` removes the path if present and changes nothing else |
| LocalFiles.TempPathFree | app.py:128 | a temporary name whose stem is unused is not an existing file, whatever its suffix |
| LocalFiles.TempBasePlain | app.py:128 | the fixed part of a temporary name holds neither `/` nor `.` |
| LocalFiles.TempPathParts | app.py:128-130 | a temporary file's name, suffix and stem are the prefix and token, followed by exactly the requested suffix |
| S3Naming.NormaliseFolder | s3_utils.py:37-38 | a stored folder never ends with `/`; it is a prefix of the given folder, and only slashes were removed |
| S3Naming.NormaliseFolderIdempotent | s3_utils.py:37-38 | normalising a folder twice is the same as once |
| S3Naming.ConnectionError | s3_utils.py:52-61 | construction raises exactly when the probe failed |
| S3Naming.ClassifiedMessagesDistinct | s3_utils.py:52-61 | the four failure classes (404, 403, other code, no credentials) raise different messages, whatever the bucket name |
| S3Naming.Stamp | s3_utils.py:74 | the timestamp is 15 characters: 8 digits, `_` and 6 digits |
| S3Naming.StampRoundTrip | s3_utils.py:74 | the timestamp reads back to the clock reading, for years of four digits |
| S3Naming.StampInjective | s3_utils.py:74 | different clock readings give different timestamps |
| S3Naming.GenerateUniqueFilename | s3_utils.py:63-84 | the name is the base (the prefix when truthy, else the stem), `_`, the timestamp, `_`, the first 8 characters of the uuid, and the original suffix; its meaning is given by `GeneratedStampAt`, `GeneratedKeepsExtension`, `GeneratedSuffix`, `GeneratedGainsSuffix` and the two `Distinct...Filenames` lemmas |
| S3Naming.GeneratedStampAt | s3_utils.py:74-84 | the timestamp sits right after the base name and an underscore |
| S3Naming.DistinctIdsDistinctFilenames | s3_utils.py:74-84 | with name, prefix and time fixed, different 8-character ids give different file names |
| S3Naming.DistinctTimesDistinctFilenames | s3_utils.py:74-84 | with name and prefix fixed, different times give different file names, whatever the ids |
| S3Naming.GeneratedKeepsExtension | s3_utils.py:76-84 | when the original has a suffix, a generated name has that same suffix, and its stem is base, timestamp and id |
| S3Naming.GeneratedTailPlain | s3_utils.py:74-75 | the `_`, timestamp, `_` and id a generated name adds hold neither `/` nor `.` |
| S3Naming.GeneratedSuffix | s3_utils.py:76-84 | unless the original name ends in a dot, a name generated without a prefix has exactly the original's suffix, empty included |
| S3Naming.GeneratedGainsSuffix | s3_utils.py:76-84 | an original name ending in a dot has no suffix, but the name generated from it has one: that dot, the timestamp and the id |
| S3Naming.Mp4Fallback | s3_utils.py:99-110 | without a registry guess, a `.mp4` name is typed `video/mp4` |
| S3Naming.ContentType | s3_utils.py:96-112 | the registry guess wins; otherwise the table entry for the lower-cased suffix; otherwise `application/octet-stream` |
| S3Naming.ContentTypeByExtension | s3_utils.py:96-110 | without a guess, names whose lower-cased suffixes agree get the same type |
| S3Naming.GeneratedKeepsContentType | s3_utils.py:265-272 | unless the original name ends in a dot, the generated name of a bytes upload is typed like the original name |
| S3Naming.BuildKey | s3_utils.py:148-152 | the key is folder, stripped subfolder when truthy, and file name, joined by `/` |
| S3Naming.KeyNamesFile | s3_utils.py:148-152 | the last component of a key is the file name |
| S3Naming.DistinctFilenamesDistinctKeys | s3_utils.py:148-152 | in one directory, different file names give different keys |
| S3Gateway.Deliver | s3_utils.py:157-178 | the store-then-presign block on one call's outcome; its meaning is given by `DeliverFacts` |
| S3Gateway.UploadFromPath | s3_utils.py:114-178 | the specification of the path uploads; its meaning is given by `UploadFromPathFacts` and `CustomFilenameVerbatim` |
| S3Gateway.UploadFromBytes | s3_utils.py:246-342 | the specification of the bytes uploads; its meaning is given by `UploadFromBytesFacts` and `GeneratedKeepsContentType` |
| S3Gateway.DeliverFacts | s3_utils.py:157-178 | only the built key can change, exactly when the store call succeeds; a link comes back only when both calls succeed; a client error is wrapped once, with no retry |
| S3Gateway.UploadFromPathFacts | s3_utils.py:137-178 | a missing local file raises before any write; otherwise at most the built key changes, under the kind's folder; on success it holds the file's bytes and content type, and the returned link is for that key |
| S3Gateway.UploadFromBytesFacts | s3_utils.py:246-293 | the name is always generated and sets the content type; at most that key changes; a link comes back exactly when both calls succeed |
| S3Gateway.CustomFilenameVerbatim | s3_utils.py:143-146 | a truthy custom name ends the key verbatim; otherwise a name generated from the local file's name does |
| S3Gateway.S3Manager.constructor | s3_utils.py:36-38 | the folders are stored normalised, so they never end with `/` |
| S3Gateway.S3Manager.Connect | s3_utils.py:40-61 | a manager exists exactly when the probe succeeds; otherwise the classified message is raised |
| S3Gateway.S3Manager.UploadFile | s3_utils.py:137-178 | the new bucket and the result are those of `UploadFromPath` |
| S3Gateway.S3Manager.Store | s3_utils.py:157-178 | the store-then-presign block changes the bucket and returns as `Deliver` says |
| S3Gateway.S3Manager.UploadVideo | s3_utils.py:114-178 | `upload_video` is `UploadFromPath` on the video folder |
| S3Gateway.S3Manager.UploadImage | s3_utils.py:180-244 | `upload_image` is `UploadFromPath` on the image folder |
| S3Gateway.S3Manager.UploadBytes | s3_utils.py:265-293 | the shared body of the bytes uploads is `UploadFromBytes` |
| S3Gateway.S3Manager.UploadVideoFromBytes | s3_utils.py:246-293 | `upload_video_from_bytes` is `UploadFromBytes` on the video folder |
| S3Gateway.S3Manager.UploadImageFromBytes | s3_utils.py:295-342 | `upload_image_from_bytes` is `UploadFromBytes` on the image folder |
| Uploads.PlayerSubfolder | app.py:122 | the player folder; its meaning is given by `PlayerSubfolderInjective`, `PlayerSubfolderUnpadded` and `PlayerSubfolderExample` |
| Uploads.PlayerSubfolderInjective | app.py:122 | different player numbers give the same player different folders |
| Uploads.Record | app.py:161-163 | an upload result becomes a link in its list or a labelled error; its meaning is given by `LinkAccounts` and `ErrorAccounts` |
| Uploads.ImageStep | app.py:147-166 | one entry of an image loop; its meaning is given by `ImageStepFacts`, `ImageStepLocations` and `ImageStepLinks` |
| Uploads.ImageLoop | app.py:145-166 | one image loop as a fold of `ImageStep`; its meaning is given by `ImageLoopAccounting`, `ImageLoopErrorPositions`, `ImageLoopLocations`, `ImageLoopNext`, `ImageLoopLinks` and `ImageLoopAllDelivered` |
| Uploads.Batch | app.py:112-201 | the whole upload batch as a function of its inputs and outcomes; its meaning is given by `BatchSuccessIff`, `BatchVideoFatal`, `BatchAccounting` and `BatchLinks` |
| Uploads.StagedFileRemoved | app.py:140-142 | unlinking a staged file restores the disk when its name was free |
| Uploads.AccountsTrans | app.py:147-166 | two accounted stretches of one loop make one accounted stretch |
| Uploads.LinkAccounts | app.py:161 | recording a link accounts for one entry |
| Uploads.ErrorAccounts | app.py:162-163 | recording a labelled error accounts for one entry |
| Uploads.ImageStepFacts | app.py:147-166 | a falsy entry changes nothing; a truthy one adds one link or one error headed by its 1-based position, and uses one attempt |
| Uploads.ImageLoopAccounting | app.py:147-166 | per list, links plus errors number the truthy entries; earlier links and errors stay in front; other fields are untouched |
| Uploads.ErrorsKeepPosition | app.py:163 | appending an error that names the current entry keeps every error naming a position |
| Uploads.ImageLoopErrorPositions | app.py:147-166 | every error a loop adds names the 1-based position of a truthy entry of that list |
| Uploads.GrowsUnderTrans | app.py:156-160 | writing under a directory twice is writing under it |
| Uploads.ImageStepLocations | app.py:156-160 | one image writes at most one key, under its list's folder, and removes nothing |
| Uploads.ImageLoopLocations | app.py:155-160 | an image loop writes only under its list's folder |
| Uploads.ImageLoopNext | app.py:147-166 | an image loop uses exactly one attempt per truthy entry |
| Uploads.VideoOutcomeLink | app.py:132-137 | the staged video's upload succeeds exactly when both calls go through, and then returns the presigned link of the video's key |
| Uploads.ImageOutcomeLink | app.py:155-160 | a staged image's upload succeeds exactly when both calls go through, and then returns the presigned link of its key |
| Uploads.ImageStepLinks | app.py:148-161 | one entry appends the presigned link of its key when it is truthy and its upload goes through, and nothing otherwise |
| Uploads.DeliveredAllGoThrough | app.py:147-161 | when every upload goes through, every truthy entry is delivered, on consecutive attempts |
| Uploads.ImageLoopLinks | app.py:147-166 | a loop keeps the earlier links and appends one link per delivered entry, in input order: the k-th new link is the presigned link of the k-th delivered entry's key |
| Uploads.ImageLoopAllDelivered | app.py:147-161 | when every upload goes through, a loop adds one link per truthy entry and no error |
| Uploads.BatchSuccessIff | app.py:112-201 | the batch reports success exactly unless there is a video and its upload raised |
| Uploads.BatchVideoFatal | app.py:132-142 | a failed video gives no success, no links, one `Upload error:` entry, and no image attempt |
| Uploads.TwoLoopsAccounting | app.py:144-194 | after both loops, player errors come before jersey errors, and each list's links and errors add up |
| Uploads.BatchAccounting | app.py:125-194 | without a fatal video, the video link is the presigned link of the staged video's key, every truthy image of each list gives a link or an error, and player errors precede jersey errors |
| Uploads.BatchLinks | app.py:144-194 | without a fatal video, each list's links are exactly the presigned links of its delivered entries, in order; player entries use the attempts after the video's, jersey entries those after the players' |
| Uploads.PlayerSubfolderUnpadded | app.py:122 | a player folder from a name without `/` is unchanged by `strip('/')`, as are both image folders |
| Uploads.PlayerSubfolderExample | app.py:122 | "Alex Doe", 7 gives the folder `Alex_Doe_7` |
| Uploads.StagedVideoKey | app.py:128-137 | the video's key is the player folder and a name generated from the temporary file, ending in `.mp4` |
| Uploads.StagedVideoType | app.py:128 | without a registry guess, the staged video is typed `video/mp4` |
| Uploads.StagedImageKey | app.py:150-160 | an image's key is its list's folder and a name generated from the temporary file; it is typed like the original name |
| Uploads.StagedName | app.py:128-137 | the name generated for a staged file is the temp prefix, token, timestamp, id and staged suffix |
| Uploads.UploadFilesToS3 | app.py:100-201 | the returned results and the new bucket are those of `Batch`; the disk is as before |
| Uploads.UploadStagedVideo | app.py:125-142 | stage, upload, unstage: the bucket and result are `VideoOutcome`, and the disk is restored |
| Uploads.UploadImages | app.py:145-166 | one image loop computes `ImageLoop` and restores the disk |
| Uploads.UploadEntry | app.py:147-166 | one entry computes `ImageStep` |
| Uploads.UploadStagedImage | app.py:148-166 | stage, upload, unstage: the bucket and result are `ImageOutcome`, and the disk is restored |
| Prediction.Fill | app.py:229-234 | one numbered loop as a fold over the links; its meaning is given by `FillKeys`, `FillKeeps`, `FillValues` and `FillSize` |
| Prediction.Form | app.py:222-234 | the form the request carries; its meaning is given by `FormKeys`, `FormValues` and `FormSize` |
| Prediction.Headers | app.py:216-218 | the headers are exactly the fixed bearer token |
| Prediction.HeadersIgnoreKey | app.py:211-218 | the `api_key` argument has no effect on the headers |
| Prediction.BuildForm | app.py:222-234 | the two numbered loops fill exactly `Form` |
| Prediction.NumberedKeysDistinct | app.py:229-234 | different indexes give different keys under one prefix |
| Prediction.NumberedKeyStep | app.py:229-234 | the numbered keys up to `n` are those up to `n - 1` plus key `n` |
| Prediction.FillKeys | app.py:229-234 | a loop adds exactly the keys `prefix1..prefixN` |
| Prediction.FillKeeps | app.py:229-234 | a loop keeps every other key and its value |
| Prediction.FillValues | app.py:229-234 | key `prefix i` maps to the i-th link |
| Prediction.FillSize | app.py:229-234 | a loop adds one entry per link when no numbered key was present |
| Prediction.PrefixesApart | app.py:229-234 | a key under one prefix is not numbered under another of the same length |
| Prediction.BaseKeysApart | app.py:222-234 | the fixed keys are not numbered keys |
| Prediction.BaseFormContents | app.py:222-226 | the fixed part holds the video link, the name and `str(number)` |
| Prediction.PlayersApartFromJerseys | app.py:229-234 | player keys never collide with jersey keys |
| Prediction.FormKeys | app.py:222-234 | the form's keys are the three fixed ones, `player_image_1..min(4, n)` and `jersey_image_1..min(2, m)` |
| Prediction.FormValues | app.py:222-234 | fixed keys carry their inputs; numbered keys carry the links in order |
| Prediction.FormSize | app.py:222-234 | the form has 3 + min(4, n) + min(2, m) entries; extra links are dropped |
| Prediction.Outcome | app.py:237-253 | success exactly when the reply arrived with a non-error status and a decodable body; otherwise the error text of whichever step failed |
| Prediction.CallVideoProcessingApi | app.py:204-253 | the request posted is the endpoint, `Form`, the fixed headers and a 600-second timeout; the result is `Outcome` of the reply |
| Submission.CanSubmit | app.py:329-337 | `can_submit`; its meaning is given by `MissingEmptyIffCanSubmit` and `NegativeNumberUnreported` |
| Submission.Missing | app.py:339-352 | `missing_fields`; its meaning is given by `MissingFields`, `MissingMembers` and `MissingEmptyIffCanSubmit` |
| Submission.LabelInjective | app.py:340-350 | the five field labels are different texts |
| Submission.FailingSnoc | app.py:340-350 | each check appends its field after the earlier ones when it fails |
| Submission.FailingMembers | app.py:340-350 | a field is listed exactly when it is checked and its check fails |
| Submission.FailingNone | app.py:340-350 | nothing is listed when no check fails |
| Submission.FailingDistinct | app.py:340-350 | no field is listed twice |
| Submission.MissingFields | app.py:340-350 | the successive appends give the failing fields in the order API Endpoint URL, Video File, Player Name, Player Number, S3 Credentials |
| Submission.MissingMembers | app.py:340-350 | each field is listed exactly when its check fails, and at most once |
| Submission.MissingEmptyIffCanSubmit | app.py:329-350 | with a player number that is not negative, the list is empty exactly when `can_submit` holds |
| Submission.NegativeNumberUnreported | app.py:329-350 | number -1 with everything else given blocks submission but lists nothing, because `missing_fields` tests `== 0` |
| Submission.ExpirationSeconds | app.py:388 | days to seconds; its meaning is given by `AppExpirationIsDefault` |
| Submission.AppExpirationIsDefault | app.py:29 | the app's 7 days equal the manager's default of 604800 seconds |

## Left out

- The page layout, widgets, CSS and messages (`st.*`). The number widget's bounds (0 to 99) are UI; `Submission.MissingEmptyIffCanSubmit` states the non-negative bound as a precondition instead.
- The MB size display, because it uses floating-point formatting.
- The boto3 client itself: `head_bucket`, `upload_file`, `put_object`, `generate_presigned_url`. The store result and the presign function are parameters, and credentials and region only configure the client. No retry or multipart behaviour is modelled.
- `requests.post`, `raise_for_status` and `response.json`: the reply is a parameter.
- The `print` logging, dotenv or environment loading, and the example block at the end of s3_utils.py.
- `datetime.utcnow`, `uuid.uuid4` and `mimetypes.guess_type`: their results are parameters. The guess is taken on the given path text.
- `tempfile.NamedTemporaryFile`: the name is the directory, the prefix `tmp`, a random token and the suffix. There is no model of its collision retry or of a failed write; the batch assumes that every token it is handed names a free file.
- Failures while reading the uploaded files or writing their temporary copies.
- Exceptions raised inside the image loops outside their `try` blocks. Only the upload's error is recorded.
- Paths.Name: follows `PurePosixPath` up to Python 3.13 (a name such as `a.` has no suffix). It does not model normalisation of repeated or trailing separators beyond dropping empty and `.` components.
- S3Naming.GeneratedKeepsExtension: states the suffix only when the original has one; `GeneratedSuffix` covers every original whose name does not end in a dot. A name ending in a dot (such as `clip.`) has no suffix, yet the name generated from it gains one, as `GeneratedGainsSuffix` states; `GeneratedKeepsContentType` is therefore stated for the other names only.
- Prediction.Form: a map, so it does not keep the insertion order of `form_data`. The order of the multipart fields is not modelled.
- Text.Lower: folds ASCII letters only. The fallback table's keys are ASCII, so the lookup is unaffected.
- S3Naming.Stamp: `StampRoundTrip` and `StampInjective` hold for years 1000-9999 only (`UtcTime.Valid`). `datetime` admits years 1-9999, where `%Y` pads differently by platform; `utcnow()` lies in that range.
- Actual uniqueness of generated names, which is probabilistic. Only "distinct ids or distinct times give distinct names" is proved.
- Submission.FormState: the S3 settings are optional strings as read from the environment, and the other inputs are given as values. The widgets' own defaults and `None` results are not modelled.
