# Object-detection service and queue consumer, modelled in Dafny

The service accepts an image, runs object detection on it and keeps the result. It stores one
prediction session per image and one detection row per box it found. HTTP handlers read the
results back by uuid, by label or by minimum score, and serve the stored images. A separate
queue consumer handles jobs that name an image in the object-store bucket: it downloads the
image, annotates it and uploads the result, and it always acknowledges the job.

The model has six modules:

- `Common` (common.dfy): `Option` and the handlers' `Response` (a value or an HTTP error status).
- `PyPath` (pypath.dfy): the Python library behaviour the handlers rely on. This covers
  `os.path.splitext`, `os.path.basename`, `os.path.join` on POSIX, `str.rfind` and the
  substring test `in`.
- `S3` (s3.dfy, modelling s3.py): the bucket name and the two key schemes, `{chat_id}/original/{name}` and
  `{chat_id}/predicted/{name}`.
- `Storage` (storage.dfy, modelling database.py): the two storage backends as classes whose methods update their
  tables in place.
  - `SQLiteStorage` has a session map, a detection list and the AUTOINCREMENT counter. Its
    invariant is that detection ids are positive, at most the counter, and strictly increasing.
  - `DynamoDBStorage` has an item map keyed by prediction id.
- `App` (app.dfy, modelling app.py): the HTTP service as a class `Server`. It holds the database, the local files
  (a set of paths) and the uploads made to the bucket.
  - `Predict` is proved against the spec function `Stage`, which chooses the input and names
    the temporary files. It is also proved against `DetectionRows`, the rows the service
    inserts. The modelled error paths give 400 or 500, and Predict states exactly what each
    of them leaves behind; database failures are not among them (see "Left out").
  - The GET handlers are functions over the server state.
- `Consumer` (consumer.dfy, modelling consumer.py): the poll loop as a class `Worker`. The worker holds the queue, the
  local files, the bucket keys and an event log of the steps it started. Its methods are proved
  equal to the spec functions `Settle`, `Step` and `Run`. Lemmas about those functions state
  the acknowledgment policy, the step order, the cleanup and the queue discipline.

External calls are parameters:

- the bucket download and upload;
- inference;
- the queue's `receive_message`;
- the clock (`now`);
- `uuid4` (`uid`).

`uuid4` is assumed fresh: `Predict` requires that no session or detection row uses `uid` yet.

Some behaviour described for the system differs from the code. The model follows the code:

- `predict` removes its temporary files only on the success path. An inference or upload
  failure leaves them in place, and `Predict` states which files remain.
- The queue consumer sends no callback to a downstream service. It runs inference in-process
  and republishes the annotated image, and nothing else.
- The service's own SQLite table (app.py:33-55) has no `chat_id` column. Sessions written by
  `predict` therefore carry no conversation id. Both the service and `database.py` write the
  same rows, so both use the one `SQLiteStorage` model.

## Model

| member | source | states |
|---|---|---|
| PyPath.RFind | app.py:215 | the result is -1 or an index holding the character, and no later index holds it |
| PyPath.SplitExt | app.py:88 | splitting a path into root and extension loses nothing (`root + ext == p`); the extension is empty or a dot followed by characters that are neither dots nor separators, so it starts at the last dot; it is non-empty exactly when the last path component has a dot after some non-dot character (leading dots alone give none) |
| PyPath.ExtOfPlainName | app.py:88 | a plain file name `stem.suffix` has extension `.suffix` |
| PyPath.BaseName | app.py:215 | the base name is the suffix of the path after its last separator: it contains no separator, and it is the whole path or is preceded by a separator |
| PyPath.Join | app.py:109-110 | an absolute second part replaces the first; otherwise the two parts are concatenated, with one separator between them unless the first part is empty or already ends with one |
| PyPath.Contains | app.py:223-225 | Python's `sub in s`; `ContainsAt` and `ContainsFound` prove it is exactly the positional substring test |
| PyPath.ContainsAt | app.py:223-225 | the substring test holds whenever the text has the substring at some position |
| PyPath.ContainsFound | app.py:223-225 | conversely, the substring test holds only when the text has the substring at some position |
| S3.OriginalKey | s3.py:9 | the key `{chat_id}/original/{image_name}`; its properties are stated by the key lemmas below |
| S3.PredictedKey | s3.py:13 | the key `{chat_id}/predicted/{image_name}`; its properties are stated by the key lemmas below |
| S3.Download | s3.py:8-10 | the download reads from the service's bucket, under a key that is the conversation id followed by `/original/` and the image name, into the given local path |
| S3.Upload | s3.py:12-14 | the upload writes into the service's bucket, under the conversation id followed by `/predicted/` and the image name, from the given local path |
| S3.KindsNeverCollide | s3.py:9-13 | the original and the annotated image of one upload never share a key |
| S3.NamesGiveDistinctKeys | s3.py:9-13 | within one conversation, distinct image names give distinct keys of each kind |
| S3.KeysUnambiguous | s3.py:9-13 | for conversation ids without `/`, equal keys mean the same kind, conversation and image name, and an original key never equals an annotated one |
| S3.KeysAmbiguousAcrossChats | s3.py:9 | without that restriction, two different conversations and image names address the same object |
| Storage.RowsOf | database.py:84 | the rows selected for a uid are exactly the stored rows carrying that uid |
| Storage.RowsOfAppend | database.py:84 | inserting one row adds it to the selection of its own uid only, at the end |
| Storage.RowsOfFreshBatch | database.py:84 | after a batch of rows for a uid that had none, that uid selects exactly the batch, in order |
| Storage.SQLiteStorage.constructor | database.py:39-62 | a new database has no sessions and no detections and satisfies the id invariant |
| Storage.SQLiteStorage.SavePrediction | database.py:64-69 | the insert fails with a duplicate key exactly when the uid exists, changing nothing; otherwise it adds the session row; detections are untouched; the id invariant is kept |
| Storage.SQLiteStorage.SaveDetection | database.py:71-76 | the row is appended with the next id, without requiring the session to exist; every uid's selection grows only for this uid; the id invariant is kept |
| Storage.SQLiteStorage.GetPrediction | database.py:78-99 | None exactly for an unknown uid; otherwise the session's columns and one object per detection row of that uid, in insertion order, and no other object |
| Storage.SQLiteStorage.GetPredictionsByLabel | database.py:101-110 | a (uid, timestamp) pair is listed exactly when the session exists and one of its detections has the label; each uid appears once |
| Storage.SQLiteStorage.GetPredictionsByScore | database.py:112-121 | a (uid, timestamp) pair is listed exactly when the session exists and one of its detections scores at least the threshold; each uid appears once |
| Storage.ScoreQueryMonotone | database.py:112-121 | lowering the score threshold never drops a session from the result |
| Storage.DetectionIdsUnique | database.py:52 | AUTOINCREMENT ids never repeat |
| Storage.DynamoDBStorage.constructor | database.py:125-126 | the backend starts from an empty table |
| Storage.DynamoDBStorage.SavePrediction | database.py:128-137 | `put_item` never reports a duplicate; it replaces any item with that key and resets the item's detection list to empty |
| Storage.DynamoDBStorage.SaveDetection | database.py:139-147 | the detection goes after the earlier ones of that uid; an unknown uid gets an item holding only it; other items are unchanged |
| Storage.DynamoDBStorage.GetPrediction | database.py:149-160 | None exactly for an unknown key; otherwise the item's attributes, no timestamp, and its detections in list order without ids |
| Storage.DynamoDBStorage.GetPredictionsByLabel | database.py:162-163 | always 501 |
| Storage.DynamoDBStorage.GetPredictionsByScore | database.py:165-166 | always 501 |
| App.Stage | app.py:79-102 | nothing is staged exactly when the JSON path fails and there is no upload. The JSON path fails when the body has no `image_name` and `chat_id`, or when the download fails. Otherwise: the temporary names are `/tmp/{uid}_original{ext}` on the JSON path and `/tmp/{uid}{ext}` on the upload path, with `/tmp/{uid}_predicted{ext}` on both; the conversation id and image name carried are the body's values; the extension is the one of the image name or of the uploaded file's name; the conversation id and image name are kept whenever the body had them, even when the upload was used |
| App.TempNamesDiffer | app.py:89-98 | within one request the original and the annotated temporary names never coincide, on either input path |
| App.TempNamespacesDisjoint | app.py:79-98 | requests with different uuids never share a temporary file, whatever their inputs |
| App.HasBucketReference | app.py:85 | the JSON body is an object holding both `image_name` and `chat_id` |
| App.OriginalFinal | app.py:109 | `os.path.join(UPLOAD_DIR, f"{uid}{ext}")`; `FinalLocations` gives the resulting string |
| App.PredictedFinal | app.py:110 | `os.path.join(PREDICTED_DIR, f"{uid}_predicted{ext}")`; `FinalLocations` gives the resulting string |
| App.FinalLocations | app.py:109-110 | for a uuid, the final places are `uploads/original/{uid}{ext}` and `uploads/predicted/{uid}_predicted{ext}`, outside `/tmp/` |
| App.FinalsAreNotTemporary | app.py:109-128 | the final places are never among the request's temporary names, so cleanup keeps them |
| App.WantsUpload | app.py:114 | `if chat_id:`: a present, non-empty conversation id (with its image name) republishes the annotated image |
| App.Labels | app.py:135 | one label per box, each the box's class name, in box order |
| App.DetectionRows | app.py:119-124 | one row per box, in box order, all under the request's uid, with the ids that follow the last one used |
| App.IsImageKind | app.py:187 | the only image types `get_image` accepts are `original` and `predicted` |
| App.ImagePath | app.py:189 | `os.path.join("uploads", type, filename)`; `ImageDirs` proves it lands in the directories `predict` writes |
| App.Negotiate | app.py:223-228 | PNG exactly when the Accept header mentions `image/png`. JPEG exactly when it does not, but mentions `image/jpeg`, `image/jpg` or the any-type wildcard. Otherwise no type |
| App.JpegRequestServedJpeg | app.py:223-226 | a client sending `Accept: image/jpeg` is served JPEG |
| App.ImageWildcardRefused | app.py:223-228 | a client accepting only the image wildcard type is refused |
| App.Server.SavePredictionSession | app.py:61-66 | the session is stored without a conversation id; the duplicate-key failure mirrors the database's |
| App.Server.SaveDetectionObject | app.py:69-74 | one detection row is appended with the next id |
| App.Server.Predict | app.py:77-136 | 400, with nothing changed, exactly when nothing can be staged; 500 when inference fails, leaving the staged original behind; 500 when the republishing upload fails, leaving both temporary files and both final copies and recording nothing; otherwise the response (the uid, the number of boxes, their labels in order), exactly one new session pointing at the final copies, the detection rows in box order, the temporary files gone, and one upload exactly when a non-empty conversation id was given; the id counter advances by the number of boxes on success and is unchanged on every error path |
| App.Server.Complete | app.py:104-136 | the part of `predict` after staging, with the same outcomes stated over the staged names; the id counter advances by the number of boxes on success and stays put on the upload failure |
| App.Server.CopyToFinal | app.py:106-112 | the annotated temporary file and both final copies are added |
| App.Server.RecordPrediction | app.py:117-124 | the session is inserted first, then the boxes' detection rows in box order; the id counter advances by the number of boxes |
| App.Server.StageInput | app.py:79-102 | stages exactly what `Stage` says, creating only the staged original |
| App.Server.SaveDetections | app.py:119-124 | the loop over the boxes appends exactly their detection rows, in order, with consecutive ids |
| App.Server.GetPredictionByUid | app.py:139-156 | 404 exactly for an unknown uid; otherwise the session's timestamp and images and one object per stored detection of that uid, in insertion order |
| App.Server.GetPredictionsByLabel | app.py:159-169 | a (uid, timestamp) pair is listed exactly when the session exists and has a detection with that label |
| App.Server.GetPredictionsByScore | app.py:172-182 | a (uid, timestamp) pair is listed exactly when the session exists and has a detection scoring at least the threshold |
| App.Server.GetImage | app.py:185-192 | 400 for a type other than `original` and `predicted`; otherwise the file under `uploads/{type}/`, and 404 exactly when it does not exist |
| App.Server.GetPredictionImage | app.py:195-228 | 404 for an unknown uid. 404 when the recorded file is missing and the bucket fallback cannot run: the base name has no underscore, or the fetch fails. 406 exactly when the image is available but the Accept header names no served type. No other error status. The image is served exactly when the uid is known, the file exists or the fallback can run, and a type is negotiated; it is the recorded path with the negotiated type |
| App.Server.GetPredictionImageAsWritten | app.py:208-221 | as written, a missing file always gives 404; otherwise it agrees with `GetPredictionImage` when the fetch fails |
| App.PredictedBaseNameHasUnderscore | app.py:213-217 | every annotated image `predict` records passes the fallback's underscore check |
| App.PredictionReadsBack | app.py:117-156 | after `predict`, `GET /prediction/{uid}` returns one object per box, in box order, with the new ids and the boxes' labels, scores and coordinates |
| App.PredictedImagesServed | app.py:185-228 | after `predict`, both images are served by `GET /image`, and the annotated one is served by `GET /prediction/{uid}/image` to a JPEG client |
| App.ImageDirs | app.py:189 | `get_image` builds the same directories `predict` writes to |
| App.FallbackServesRecordedImage | app.py:213-221 | for a recorded image whose local file is gone, the code as written answers 404; with a working fetch, a JPEG client is served |
| App.PredictedNotUnderUploadName | test/test_api.py:50-55 | the annotated image is not found under the uploaded name `{uid}{ext}` in `uploads/predicted` |
| Consumer.ParseBody | consumer.py:37-39 | a job exists exactly when the body is an object with both `image_name` and `chat_id`, and it carries their values |
| Consumer.OriginalTemp | consumer.py:42 | `/tmp/{uid}_original_{image_name}` |
| Consumer.PredictedTemp | consumer.py:43 | `/tmp/{uid}_predicted_{image_name}` |
| Consumer.TempPathsDistinct | consumer.py:42-43 | the two temporary files of one message never coincide, whatever the image name |
| Consumer.Settle | consumer.py:45-68 | the `try` and `finally` blocks for the head message: the log only grows, the bucket only gains keys, and no file other than the message's two temporary files appears or disappears |
| Consumer.Step | consumer.py:25-68 | one turn of the loop: an escaped exception changes nothing; otherwise the log and the bucket only grow |
| Consumer.Run | consumer.py:24-68 | the loop over a script of polls, stopping at the first escaped exception; the log and the bucket only grow |
| Consumer.SettleAcknowledges | consumer.py:45-68 | every message that reaches the `try` is deleted, whatever the outcome: it leaves the queue, the log ends with its deletion and holds exactly one more, and its temporary files are gone |
| Consumer.SettleInOrder | consumer.py:45-58 | the steps come in the order download, inference, upload, removals, deletion; inference runs exactly when the download succeeded and the upload exactly when inference succeeded; the annotated key appears in the bucket exactly when all three succeed |
| Consumer.EmptyPollOnlySleeps | consumer.py:31-34 | an empty poll processes, deletes and creates nothing; it only sleeps |
| Consumer.AtMostOnePerPoll | consumer.py:25-29 | a poll takes at most the head message off the queue, and only by deleting it |
| Consumer.MalformedBodyAborts | consumer.py:37-39 | a body that does not parse or lacks a field aborts the loop, and the message is neither processed nor deleted |
| Consumer.RunKeepsQueueAndFiles | consumer.py:24-68 | over any script of polls, no file is left behind that was not already there; the queue that remains is a suffix of the original; the deletions logged equal the messages that left the queue |
| Consumer.AbortIsFinal | consumer.py:24-39 | once an exception has escaped, later polls change nothing |
| Consumer.Worker.SettleMessage | consumer.py:45-68 | settling the head message changes the worker's state exactly as `Settle` says |
| Consumer.Worker.TryBlock | consumer.py:45-58 | the `try` block starts download, inference and upload in turn, each only after the previous succeeded; the annotated key reaches the bucket only when all succeed |
| Consumer.Worker.RemoveQuietly | consumer.py:60-63 | every path is removed in turn, and a missing one is not an error |
| Consumer.Worker.PollOnce | consumer.py:25-68 | one turn of the loop changes the state exactly as `Step` says |
| Consumer.Worker.Serve | consumer.py:24-68 | the loop over a script of polls ends in the state `Run` gives, stopping at the first escaped exception |

## Findings

| source | as written | input that shows it | evidently intended | confidence | as-written member | corrected member |
|---|---|---|---|---|---|---|
| app.py:219 | the fallback calls `download_predicted_image_from_s3`, which no file defines or imports; the call raises `NameError`, and the surrounding `except Exception` turns it into 404 | a recorded prediction whose file under `uploads/predicted` has been removed, requested with `Accept: image/jpeg` | fetch the annotated image from the bucket and serve it | high; not executed | App.Server.GetPredictionImageAsWritten | App.Server.GetPredictionImage (proved in App.FallbackServesRecordedImage) |

## Left out

- Object detection itself (the model call, plotting and saving the annotated image) is not
  modelled. Its outcome is an input: `PredictEnv.inference` (the boxes, or a failure) and
  `Attempt.inferenceOk`. The class names come already resolved.
- The bucket and queue clients are not modelled. Only the keys, the local paths and the
  success of each transfer are. A download always writes the complete file when it succeeds.
- The routing layer is not modelled: request parsing, `FileResponse`, `/health`, `/hello`,
  start-up and the GPU switch-off. A JSON body is a map of strings, and a body that is not a
  JSON object counts as having no bucket reference. Non-string JSON values are not modelled.
- Floating-point scores and box coordinates are `real`. The conversion of a box to text when
  it is stored, and of a score to `Decimal`, is not modelled.
- `CURRENT_TIMESTAMP` is the parameter `now`.
- SQL results without `ORDER BY` are sets for the label and score queries. A session's
  detections are read back in insertion order; SQLite does not promise that order.
- App.Server.GetPredictionImage: the database error that the handler turns into 500 is not
  modelled. Neither is which key the fallback would fetch: it derives a conversation id from
  the file name, which for recorded images is the uuid. The parameter `fallbackOk` stands for
  the fetch's outcome.
- App.Server.Predict: a failing database insert is not modelled. Each insert opens its own
  connection and commits on its own, so such a failure gives 500 after the session row and
  possibly some detection rows are already committed, and leaves both temporary files behind;
  the model assumes every insert succeeds.
- App.Server.Predict: a failing `shutil.copy`, file writes and directory creation are not
  modelled. The duplicate-key failure of the session insert cannot happen under a fresh uuid.
  The cleanup removes both temporary files, as the code does when both exist.
- App.Server.GetImage: files are a set of paths. Directories and path segments such as `..`
  are not modelled.
- The abstract storage interface is not modelled as a type: the two backends are classes with
  the same operations.
- The key-value backend's `get_prediction` returns the stored detection records as they are.
  The model shows them as objects without ids.
- Consumer.SettleAcknowledges: `receive_message` and `delete_message` are assumed never to
  raise. In the code either one raising escapes the `while True` loop, and a failed delete
  leaves the message on the queue; "deleted, whatever the outcome" holds only under that
  assumption.
- The consumer's `while True` loop is a finite script of polls. Several consumers,
  visibility timeouts and redelivery are not modelled. A message that is received is the one
  at the head of the queue.
- Logging and `print` output are not modelled.
