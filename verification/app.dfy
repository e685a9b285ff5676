/** The HTTP service: `POST /predict` stages an image (fetched from the bucket or uploaded),
    runs inference, keeps both images under `uploads/`, optionally republishes the annotated
    image, and records the session and its detections; the GET handlers read them back. The
    local file system, the bucket and the outcome of each external call are explicit. */
module App {
  import opened Common
  import opened Storage
  import PyPath
  import S3

  const UploadDir: string := "uploads/original"
  const PredictedDir: string := "uploads/predicted"

  /** What `str(uuid.uuid4())` produces: 36 lower-case hex digits and dashes. */
  predicate IsUuid(u: string) {
    |u| == 36 && forall k :: 0 <= k < |u| ==> u[k] in "0123456789abcdef-"
  }

  /** One object reported by inference: its class name, confidence and box. */
  datatype Found = Found(className: string, score: real, box: Box)

  /** The request as `predict` sees it: the JSON object of the body (None when the body is not
      JSON), and the file name of the uploaded file, if any. */
  datatype PredictRequest = PredictRequest(json: Option<map<string, string>>, uploadName: Option<string>)

  /** The outcome of each external call during one request: the bucket download, inference
      (None when it raises; otherwise the boxes in the order reported) and the bucket upload. */
  datatype PredictEnv = PredictEnv(downloadOk: bool, inference: Option<seq<Found>>, uploadOk: bool)

  /** The variables `predict` has set once its input is staged. */
  datatype Staging = Staging(chatId: Option<string>, imageName: Option<string>, ext: string,
                             originalTmp: string, predictedTmp: string)

  datatype PredictResponse = PredictResponse(predictionUid: Uid, detectionCount: nat, labels: seq<string>)

  datatype MediaType = Png | Jpeg

  datatype ImageReply = ImageReply(path: string, mediaType: MediaType)

  /** The JSON body names an image in the bucket. */
  predicate HasBucketReference(req: PredictRequest) {
    req.json.Some? && "image_name" in req.json.value && "chat_id" in req.json.value
  }

  /** Input selection of `predict`: the bucket reference when the JSON body has one and the
      download succeeds; otherwise (the bare `except` catches both a missing reference and a
      failed download) the uploaded file; otherwise nothing. On the fallback the conversation id
      and image name read from the JSON body stay set. */
  function Stage(req: PredictRequest, uid: Uid, downloadOk: bool): (r: Option<Staging>)
    ensures r.None? <==> !(HasBucketReference(req) && downloadOk) && req.uploadName.None?
    ensures r.Some? ==>
      && r.value.originalTmp != r.value.predictedTmp
      && InNamespace(r.value.originalTmp, uid) && InNamespace(r.value.predictedTmp, uid)
      && (r.value.ext == [] || PyPath.IsExtension(r.value.ext))
      && (r.value.chatId.Some? <==> HasBucketReference(req))
      && (r.value.imageName.Some? <==> HasBucketReference(req))
    ensures r.Some? && HasBucketReference(req) && downloadOk ==>
      r.value.ext == PyPath.Ext(req.json.value["image_name"])
    ensures r.Some? && !(HasBucketReference(req) && downloadOk) ==>
      r.value.ext == PyPath.Ext(req.uploadName.value)
    // the conversation id and image name carried are the body's own values
    ensures r.Some? && HasBucketReference(req) ==>
      r.value.chatId == Some(req.json.value["chat_id"]) && r.value.imageName == Some(req.json.value["image_name"])
    // the temporary names built on each path
    ensures r.Some? && HasBucketReference(req) && downloadOk ==>
      r.value.originalTmp == "/tmp/" + uid + "_original" + r.value.ext
    ensures r.Some? && !(HasBucketReference(req) && downloadOk) ==>
      r.value.originalTmp == "/tmp/" + uid + r.value.ext
    ensures r.Some? ==> r.value.predictedTmp == "/tmp/" + uid + "_predicted" + r.value.ext
  {
    var chatId := if HasBucketReference(req) then Some(req.json.value["chat_id"]) else None;
    var imageName := if HasBucketReference(req) then Some(req.json.value["image_name"]) else None;
    if HasBucketReference(req) && downloadOk then
      var ext := PyPath.Ext(imageName.value);
      TempNamesDiffer(uid, ext);
      Some(Staging(chatId, imageName, ext, "/tmp/" + uid + "_original" + ext, "/tmp/" + uid + "_predicted" + ext))
    else if req.uploadName.Some? then
      var ext := PyPath.Ext(req.uploadName.value);
      TempNamesDiffer(uid, ext);
      Some(Staging(chatId, imageName, ext, "/tmp/" + uid + ext, "/tmp/" + uid + "_predicted" + ext))
    else None
  }

  /** The temporary names of one request never coincide. */
  lemma TempNamesDiffer(uid: string, ext: string)
    ensures "/tmp/" + uid + "_original" + ext != "/tmp/" + uid + "_predicted" + ext
    ensures "/tmp/" + uid + ext != "/tmp/" + uid + "_predicted" + ext
  {
    assert ("/tmp/" + uid + "_original" + ext)[|uid| + 6] == 'o';
    assert ("/tmp/" + uid + "_predicted" + ext)[|uid| + 6] == 'p';
    assert |"/tmp/" + uid + ext| != |"/tmp/" + uid + "_predicted" + ext|;
  }

  /** Every temporary name of a request starts with `/tmp/` and its uid. */
  predicate InNamespace(path: string, uid: Uid) {
    |path| >= 5 + |uid| && path[..5 + |uid|] == "/tmp/" + uid
  }

  /** Names in the namespaces of two different uuids differ. */
  lemma NamespacesDiffer(p: string, uid1: Uid, q: string, uid2: Uid)
    requires |uid1| == |uid2| && uid1 != uid2
    requires InNamespace(p, uid1) && InNamespace(q, uid2)
    ensures p != q
  {
    assert p[..5 + |uid1|][5..] == uid1;
    assert q[..5 + |uid2|][5..] == uid2;
  }

  /** Requests with different uuids never share a temporary file, whatever their inputs. */
  lemma {:induction false} TempNamespacesDisjoint(req1: PredictRequest, uid1: Uid, ok1: bool,
                                                 req2: PredictRequest, uid2: Uid, ok2: bool)
    requires IsUuid(uid1) && IsUuid(uid2) && uid1 != uid2
    requires Stage(req1, uid1, ok1).Some? && Stage(req2, uid2, ok2).Some?
    ensures var s1, s2 := Stage(req1, uid1, ok1).value, Stage(req2, uid2, ok2).value;
      && s1.originalTmp != s2.originalTmp && s1.originalTmp != s2.predictedTmp
      && s1.predictedTmp != s2.originalTmp && s1.predictedTmp != s2.predictedTmp
  {
    var s1, s2 := Stage(req1, uid1, ok1).value, Stage(req2, uid2, ok2).value;
    NamespacesDiffer(s1.originalTmp, uid1, s2.originalTmp, uid2);
    NamespacesDiffer(s1.originalTmp, uid1, s2.predictedTmp, uid2);
    NamespacesDiffer(s1.predictedTmp, uid1, s2.originalTmp, uid2);
    NamespacesDiffer(s1.predictedTmp, uid1, s2.predictedTmp, uid2);
  }

  /** `os.path.join(UPLOAD_DIR, f"{uid}{ext}")`. */
  function OriginalFinal(uid: Uid, ext: string): string {
    PyPath.Join(UploadDir, uid + ext)
  }

  /** `os.path.join(PREDICTED_DIR, f"{uid}_predicted{ext}")`. */
  function PredictedFinal(uid: Uid, ext: string): string {
    PyPath.Join(PredictedDir, uid + "_predicted" + ext)
  }

  /** For a uuid the final locations are `uploads/original/{uid}{ext}` and
      `uploads/predicted/{uid}_predicted{ext}`, and they are outside `/tmp/`. */
  lemma FinalLocations(uid: Uid, ext: string)
    requires IsUuid(uid)
    ensures OriginalFinal(uid, ext) == "uploads/original/" + uid + ext
    ensures PredictedFinal(uid, ext) == "uploads/predicted/" + uid + "_predicted" + ext
    ensures OriginalFinal(uid, ext)[0] == 'u' && PredictedFinal(uid, ext)[0] == 'u'
  {
    assert (uid + ext)[0] == uid[0] && uid[0] != '/';
    assert (uid + "_predicted" + ext)[0] == uid[0];
  }

  /** The final places of a request's images are never among its temporary names, so the
      cleanup leaves them in place. */
  lemma FinalsAreNotTemporary(uid: Uid, st: Staging)
    requires IsUuid(uid)
    requires |st.originalTmp| > 0 && st.originalTmp[0] == '/' && |st.predictedTmp| > 0 && st.predictedTmp[0] == '/'
    ensures OriginalFinal(uid, st.ext) !in {st.originalTmp, st.predictedTmp}
    ensures PredictedFinal(uid, st.ext) !in {st.originalTmp, st.predictedTmp}
  {
    FinalLocations(uid, st.ext);
  }

  /** The class names of the boxes, in box order. */
  function Labels(found: seq<Found>): (r: seq<string>)
    ensures |r| == |found|
    ensures forall k :: 0 <= k < |found| ==> r[k] == found[k].className
  {
    seq(|found|, k requires 0 <= k < |found| => found[k].className)
  }

  /** The detection rows `predict` inserts for `found`, with the ids that follow `lastId`. */
  function DetectionRows(uid: Uid, found: seq<Found>, lastId: nat): (r: seq<DetectionRow>)
    ensures |r| == |found|
    ensures forall k :: 0 <= k < |r| ==> r[k].predictionUid == uid && r[k].id == lastId + 1 + k
    ensures forall k :: 0 <= k < |r| ==>
      r[k].className == found[k].className && r[k].score == found[k].score && r[k].box == found[k].box
  {
    seq(|found|, k requires 0 <= k < |found| =>
      DetectionRow(lastId + 1 + k, uid, found[k].className, found[k].score, found[k].box))
  }

  /** The image-type check and path of `get_image`. */
  predicate IsImageKind(kind: string) {
    kind == "original" || kind == "predicted"
  }

  function ImagePath(kind: string, filename: string): string {
    PyPath.Join(PyPath.Join("uploads", kind), filename)
  }

  /** Accept-header negotiation of `get_prediction_image`: PNG if the header mentions
      `image/png`; otherwise JPEG if it mentions `image/jpeg`, `image/jpg` or the any-type wildcard; otherwise
      nothing (406). */
  function Negotiate(accept: string): (m: Option<MediaType>)
    ensures m == Some(Png) <==> PyPath.Contains(accept, "image/png")
    ensures m == Some(Jpeg) <==>
      && !PyPath.Contains(accept, "image/png")
      && (PyPath.Contains(accept, "image/jpeg") || PyPath.Contains(accept, "image/jpg") || PyPath.Contains(accept, "*/*"))
  {
    if PyPath.Contains(accept, "image/png") then Some(Png)
    else if PyPath.Contains(accept, "image/jpeg") || PyPath.Contains(accept, "image/jpg")
         || PyPath.Contains(accept, "*/*") then Some(Jpeg)
    else None
  }

  /** A client asking for `image/jpeg` (as the tests do) is served JPEG. */
  lemma JpegRequestServedJpeg()
    ensures Negotiate("image/jpeg") == Some(Jpeg)
  {
    var h := "image/jpeg";
    assert h[..9] != "image/png" by { assert h[..9][6] == 'j'; }
    assert h[1..][..9] != "image/png" by { assert h[1..][..9][0] == 'm'; }
    assert !PyPath.Contains(h[1..][1..], "image/png");
    assert h[..10] == "image/jpeg";
  }

  /** A wildcard image type alone matches none of the tested substrings: it is refused. */
  lemma ImageWildcardRefused()
    ensures Negotiate("image/*").None?
  {
    var h := "image/*";
    assert !PyPath.Contains(h, "image/png") && !PyPath.Contains(h, "image/jpeg") && !PyPath.Contains(h, "image/jpg");
    assert h[..3] != "*/*" by { assert h[..3][0] == 'i'; }
    assert h[1..][..3] != "*/*" by { assert h[1..][..3][0] == 'm'; }
    assert h[2..][..3] != "*/*" by { assert h[2..][..3][0] == 'a'; }
    assert h[3..][..3] != "*/*" by { assert h[3..][..3][0] == 'g'; }
    assert h[4..][..3] != "*/*" by { assert h[4..][..3][0] == 'e'; }
    assert h[4..][1..] == h[5..];
    assert h[5..] == "/*";
  }

  /** The service's state: the database, the local file system (the paths that exist) and the
      transfers made to the bucket. */
  class Server {
    const db: SQLiteStorage
    var files: set<string>
    var uploads: seq<S3.Transfer>

    constructor (db: SQLiteStorage)
      ensures this.db == db && files == {} && uploads == []
    {
      this.db := db;
      files, uploads := {}, [];
    }

    /** `save_prediction_session`: the service's own session table has no `chat_id` column, so
        the session is stored with none. */
    method SavePredictionSession(uid: Uid, originalImage: string, predictedImage: string, now: Timestamp)
      returns (res: SaveOutcome)
      requires db.Valid()
      modifies db
      ensures db.Valid()
      ensures res == DuplicateKey <==> uid in old(db.sessions)
      ensures res == DuplicateKey ==> db.sessions == old(db.sessions)
      ensures res == Saved ==> db.sessions == old(db.sessions)[uid := SessionRow(now, None, originalImage, predictedImage)]
      ensures db.detections == old(db.detections) && db.lastId == old(db.lastId)
    {
      res := db.SavePrediction(uid, None, originalImage, predictedImage, now);
    }

    /** `save_detection_object`: the service's own insert into `detection_objects`. */
    method SaveDetectionObject(uid: Uid, className: string, score: real, box: Box)
      requires db.Valid()
      modifies db
      ensures db.Valid()
      ensures db.sessions == old(db.sessions) && db.lastId == old(db.lastId) + 1
      ensures db.detections == old(db.detections) + [DetectionRow(db.lastId, uid, className, score, box)]
    {
      db.SaveDetection(uid, className, score, box);
    }

    /** No session and no detection row names `uid` yet (a fresh uuid). */
    predicate Fresh(uid: Uid)
      reads db
    {
      uid !in db.sessions && forall i :: 0 <= i < |db.detections| ==> db.detections[i].predictionUid != uid
    }

    /** `POST /predict`. */
    method Predict(req: PredictRequest, uid: Uid, now: Timestamp, env: PredictEnv)
      returns (r: Response<PredictResponse>)
      requires db.Valid() && IsUuid(uid) && Fresh(uid)
      modifies this, db
      ensures db.Valid()
      // neither input shape: 400 before inference, any copy or any write
      ensures Stage(req, uid, env.downloadOk).None? ==>
        r == HttpError(400) && files == old(files) && uploads == old(uploads)
        && db.sessions == old(db.sessions) && db.detections == old(db.detections)
      // inference raises: 500, the staged original is left behind, nothing recorded
      ensures var st := Stage(req, uid, env.downloadOk);
        st.Some? && env.inference.None? ==>
          r == HttpError(500) && files == old(files) + {st.value.originalTmp} && uploads == old(uploads)
          && db.sessions == old(db.sessions) && db.detections == old(db.detections)
      // the republishing upload raises: 500 after the copies, nothing recorded
      ensures var st := Stage(req, uid, env.downloadOk);
        st.Some? && env.inference.Some? && WantsUpload(st.value) && !env.uploadOk ==>
          && r == HttpError(500) && uploads == old(uploads)
          && files == old(files) + {st.value.originalTmp, st.value.predictedTmp,
                                    OriginalFinal(uid, st.value.ext), PredictedFinal(uid, st.value.ext)}
          && db.sessions == old(db.sessions) && db.detections == old(db.detections)
      ensures r.Ok? <==>
        && Stage(req, uid, env.downloadOk).Some? && env.inference.Some?
        && (WantsUpload(Stage(req, uid, env.downloadOk).value) ==> env.uploadOk)
      // success: one session, then one detection per box in box order; temp files removed
      ensures r.Ok? ==> r.value == PredictResponse(uid, |env.inference.value|, Labels(env.inference.value))
      ensures r.Ok? ==> db.detections == old(db.detections) + DetectionRows(uid, env.inference.value, old(db.lastId))
      ensures var st := Stage(req, uid, env.downloadOk);
        r.Ok? ==>
          && db.sessions == old(db.sessions)[uid := SessionRow(now, None, OriginalFinal(uid, st.value.ext), PredictedFinal(uid, st.value.ext))]
          && files == old(files) - {st.value.originalTmp, st.value.predictedTmp}
                     + {OriginalFinal(uid, st.value.ext), PredictedFinal(uid, st.value.ext)}
          && uploads == old(uploads) + (if WantsUpload(st.value)
                                        then [S3.Upload(st.value.chatId.value, st.value.imageName.value, st.value.predictedTmp)]
                                        else [])
      ensures r.Ok? ==> r.value.predictionUid == uid && r.value.detectionCount == |r.value.labels|
      // the AUTOINCREMENT counter advances by one per box on success and not at all otherwise
      ensures db.lastId == old(db.lastId) + (if r.Ok? then |env.inference.value| else 0)
    {
      var staged := StageInput(req, uid, env.downloadOk);
      if staged.None? {
        return HttpError(400);
      }
      var st := staged.value;
      if env.inference.None? {
        return HttpError(500);
      }
      r := Complete(uid, st, env.inference.value, env.uploadOk, now);
    }

    /** `predict` after inference: copy the staged files to their final places, republish the
        annotated image when the request named a conversation, then record the prediction and
        remove the temporary files. */
    method Complete(uid: Uid, st: Staging, found: seq<Found>, uploadOk: bool, now: Timestamp)
      returns (r: Response<PredictResponse>)
      requires db.Valid() && IsUuid(uid) && Fresh(uid)
      requires |st.originalTmp| > 0 && st.originalTmp[0] == '/' && |st.predictedTmp| > 0 && st.predictedTmp[0] == '/'
      requires st.chatId.Some? <==> st.imageName.Some?
      modifies this, db
      ensures db.Valid()
      ensures r.Ok? <==> (WantsUpload(st) ==> uploadOk)
      ensures r.HttpError? ==>
        && r.status == 500 && uploads == old(uploads)
        && files == old(files) + {st.predictedTmp, OriginalFinal(uid, st.ext), PredictedFinal(uid, st.ext)}
        && db.sessions == old(db.sessions) && db.detections == old(db.detections) && db.lastId == old(db.lastId)
      ensures r.Ok? ==>
        && r.value == PredictResponse(uid, |found|, Labels(found))
        && db.sessions == old(db.sessions)[uid := SessionRow(now, None, OriginalFinal(uid, st.ext), PredictedFinal(uid, st.ext))]
        && db.detections == old(db.detections) + DetectionRows(uid, found, old(db.lastId))
        && db.lastId == old(db.lastId) + |found|
        && files == old(files) - {st.originalTmp, st.predictedTmp} + {OriginalFinal(uid, st.ext), PredictedFinal(uid, st.ext)}
        && uploads == old(uploads) + (if WantsUpload(st) then [S3.Upload(st.chatId.value, st.imageName.value, st.predictedTmp)] else [])
    {
      var originalFinal, predictedFinal := CopyToFinal(uid, st);

      if st.chatId.Some? && st.chatId.value != "" {
        if !uploadOk {
          return HttpError(500);
        }
        uploads := uploads + [S3.Upload(st.chatId.value, st.imageName.value, st.predictedTmp)];
      }

      RecordPrediction(uid, found, originalFinal, predictedFinal, now);

      // cleanup, on the success path only
      files := files - {st.originalTmp, st.predictedTmp};
      r := Ok(PredictResponse(uid, |found|, Labels(found)));
      FinalsAreNotTemporary(uid, st);
    }

    /** The annotated image is written to its temporary name, then both images are copied to
        their final places. */
    method CopyToFinal(uid: Uid, st: Staging) returns (originalFinal: string, predictedFinal: string)
      modifies this`files
      ensures originalFinal == OriginalFinal(uid, st.ext) && predictedFinal == PredictedFinal(uid, st.ext)
      ensures files == old(files) + {st.predictedTmp, originalFinal, predictedFinal}
    {
      files := files + {st.predictedTmp};
      originalFinal := PyPath.Join(UploadDir, uid + st.ext);
      predictedFinal := PyPath.Join(PredictedDir, uid + "_predicted" + st.ext);
      files := files + {originalFinal, predictedFinal};
    }

    /** The writes of a successful `predict`: the session row, then one detection row per box in
        box order. */
    method RecordPrediction(uid: Uid, found: seq<Found>, originalImage: string, predictedImage: string, now: Timestamp)
      requires db.Valid() && Fresh(uid)
      modifies db
      ensures db.Valid()
      ensures db.sessions == old(db.sessions)[uid := SessionRow(now, None, originalImage, predictedImage)]
      ensures db.detections == old(db.detections) + DetectionRows(uid, found, old(db.lastId))
      ensures db.lastId == old(db.lastId) + |found|
    {
      var saved := SavePredictionSession(uid, originalImage, predictedImage, now);
      SaveDetections(uid, found);
    }

    /** The `try`/`except` block of `predict`: take the bucket reference from a JSON body and
        download it; on any exception use the uploaded file; with neither, stage nothing. */
    method StageInput(req: PredictRequest, uid: Uid, downloadOk: bool) returns (staged: Option<Staging>)
      modifies this`files
      ensures staged == Stage(req, uid, downloadOk)
      ensures files == if staged.None? then old(files) else old(files) + {staged.value.originalTmp}
    {
      var ext := ".jpg";
      var chatId: Option<string> := None;
      var imageName: Option<string> := None;
      var originalTmp, predictedTmp := "", "";
      var ok := false;
      if req.json.Some? && "image_name" in req.json.value && "chat_id" in req.json.value {
        imageName := Some(req.json.value["image_name"]);
        chatId := Some(req.json.value["chat_id"]);
        ext := PyPath.Ext(imageName.value);
        originalTmp := "/tmp/" + uid + "_original" + ext;
        predictedTmp := "/tmp/" + uid + "_predicted" + ext;
        if downloadOk {
          files := files + {originalTmp};
          ok := true;
        }
      }
      if !ok {
        if req.uploadName.Some? {
          ext := PyPath.Ext(req.uploadName.value);
          originalTmp := "/tmp/" + uid + ext;
          predictedTmp := "/tmp/" + uid + "_predicted" + ext;
          files := files + {originalTmp};
        } else {
          return None;
        }
      }
      staged := Some(Staging(chatId, imageName, ext, originalTmp, predictedTmp));
    }

    /** The loop over the boxes of `predict`: one `save_detection_object` per box, in box order. */
    method SaveDetections(uid: Uid, found: seq<Found>)
      requires db.Valid()
      modifies db
      ensures db.Valid()
      ensures db.sessions == old(db.sessions) && db.lastId == old(db.lastId) + |found|
      ensures db.detections == old(db.detections) + DetectionRows(uid, found, old(db.lastId))
    {
      var i := 0;
      while i < |found|
        invariant 0 <= i <= |found|
        invariant db.Valid()
        invariant db.sessions == old(db.sessions)
        invariant db.lastId == old(db.lastId) + i
        invariant db.detections == old(db.detections) + DetectionRows(uid, found[..i], old(db.lastId))
      {
        SaveDetectionObject(uid, found[i].className, found[i].score, found[i].box);
        assert DetectionRows(uid, found[..i + 1], old(db.lastId))
            == DetectionRows(uid, found[..i], old(db.lastId))
               + [DetectionRow(old(db.lastId) + 1 + i, uid, found[i].className, found[i].score, found[i].box)];
        i := i + 1;
      }
      assert found[..i] == found;
    }

    /** `GET /prediction/{uid}`: 404 for an unknown uid; otherwise the session and exactly its
        detections. */
    function GetPredictionByUid(uid: Uid): (r: Response<Prediction>)
      reads this, db
      ensures r.HttpError? <==> uid !in db.sessions
      ensures r.HttpError? ==> r.status == 404
      ensures r.Ok? ==>
        && r.value.uid == uid
        && r.value.timestamp == Some(db.sessions[uid].timestamp)
        && r.value.originalImage == Some(db.sessions[uid].originalImage)
        && r.value.predictedImage == Some(db.sessions[uid].predictedImage)
        && |r.value.objects| == |RowsOf(db.detections, uid)|
        && (forall k :: 0 <= k < |r.value.objects| ==> r.value.objects[k] == ObjectOf(RowsOf(db.detections, uid)[k]))
        && forall o :: o in r.value.objects <==>
             exists i :: 0 <= i < |db.detections| && db.detections[i].predictionUid == uid && o == ObjectOf(db.detections[i])
    {
      match db.GetPrediction(uid)
      case None => HttpError(404)
      case Some(p) => Ok(p)
    }

    /** `GET /predictions/label/{label}`. */
    function GetPredictionsByLabel(className: string): (r: set<Listing>)
      reads this, db
      ensures forall l :: l in r <==>
        && l.uid in db.sessions && l.timestamp == db.sessions[l.uid].timestamp
        && exists i :: 0 <= i < |db.detections| && db.detections[i].predictionUid == l.uid && db.detections[i].className == className
    {
      db.GetPredictionsByLabel(className).listings
    }

    /** `GET /predictions/score/{min_score}`. */
    function GetPredictionsByScore(minScore: real): (r: set<Listing>)
      reads this, db
      ensures forall l :: l in r <==>
        && l.uid in db.sessions && l.timestamp == db.sessions[l.uid].timestamp
        && exists i :: 0 <= i < |db.detections| && db.detections[i].predictionUid == l.uid && db.detections[i].score >= minScore
    {
      db.GetPredictionsByScore(minScore).listings
    }

    /** `GET /image/{type}/{filename}`: 400 for an unknown type before the path is even built,
        404 if the file is missing, otherwise the file. */
    function GetImage(kind: string, filename: string): (r: Response<string>)
      reads this
      ensures !IsImageKind(kind) ==> r == HttpError(400)
      ensures IsImageKind(kind) ==> (r.Ok? <==> ImagePath(kind, filename) in files)
      ensures IsImageKind(kind) && r.HttpError? ==> r.status == 404
      ensures r.Ok? ==> r.value == ImagePath(kind, filename) && r.value in files
    {
      if !IsImageKind(kind) then HttpError(400)
      else
        var path := ImagePath(kind, filename);
        if path !in files then HttpError(404) else Ok(path)
    }

    /** `GET /prediction/{uid}/image`: 404 for an unknown uid; if the stored file is missing, the
        bucket fallback needs an underscore in its base name and a successful fetch (its outcome
        is `fallbackOk`), else 404; then Accept negotiation, 406 when no image type is accepted. */
    function GetPredictionImage(uid: Uid, accept: string, fallbackOk: bool): (r: Response<ImageReply>)
      reads this, db
      ensures uid !in db.sessions ==> r == HttpError(404)
      ensures (uid in db.sessions && db.sessions[uid].predictedImage !in files
               && ('_' !in PyPath.BaseName(db.sessions[uid].predictedImage) || !fallbackOk)) ==> r == HttpError(404)
      ensures r == HttpError(406) <==>
        && uid in db.sessions
        && (db.sessions[uid].predictedImage in files || ('_' in PyPath.BaseName(db.sessions[uid].predictedImage) && fallbackOk))
        && Negotiate(accept).None?
      ensures r.Ok? <==>
        && uid in db.sessions
        && (db.sessions[uid].predictedImage in files || ('_' in PyPath.BaseName(db.sessions[uid].predictedImage) && fallbackOk))
        && Negotiate(accept).Some?
      ensures r.HttpError? ==> r.status == 404 || r.status == 406
      ensures r.Ok? ==> r.value.path == db.sessions[uid].predictedImage && Some(r.value.mediaType) == Negotiate(accept)
    {
      if uid !in db.sessions then HttpError(404)
      else
        var path := db.sessions[uid].predictedImage;
        if path !in files && ('_' !in PyPath.BaseName(path) || !fallbackOk) then HttpError(404)
        else match Negotiate(accept)
          case None => HttpError(406)
          case Some(m) => Ok(ImageReply(path, m))
    }

    /** `get_prediction_image` exactly as written: the helper its fallback calls is defined
        nowhere, so the call raises `NameError`, which the handler's `except Exception` turns
        into 404 like a failed fetch; a missing file is therefore never served. */
    function GetPredictionImageAsWritten(uid: Uid, accept: string): (r: Response<ImageReply>)
      reads this, db
      ensures uid in db.sessions && db.sessions[uid].predictedImage !in files ==> r == HttpError(404)
      ensures r == GetPredictionImage(uid, accept, false)
    {
      if uid !in db.sessions then HttpError(404)
      else
        var path := db.sessions[uid].predictedImage;
        if path !in files then HttpError(404)
        else match Negotiate(accept)
          case None => HttpError(406)
          case Some(m) => Ok(ImageReply(path, m))
    }
  }

  /** `if chat_id:` — a present, non-empty conversation id republishes the annotated image. */
  predicate WantsUpload(st: Staging) {
    st.chatId.Some? && st.chatId.value != "" && st.imageName.Some?
  }

  /** The annotated images `predict` records always pass the fallback's underscore check. */
  lemma PredictedBaseNameHasUnderscore(uid: Uid, ext: string)
    requires IsUuid(uid) && (ext == [] || PyPath.IsExtension(ext))
    ensures '_' in PyPath.BaseName(PredictedFinal(uid, ext))
  {
    FinalLocations(uid, ext);
    var p := PredictedFinal(uid, ext);
    assert p[17] == '/';
    forall k | 17 < k < |p| ensures p[k] != '/' {
      if k < 54 {
        assert p[k] == uid[k - 18];
      } else if k >= 64 {
        assert p[k] == ext[k - 64];
      }
    }
    assert PyPath.RFind(p, '/') == 17;
    assert PyPath.BaseName(p)[36] == p[54] == '_';
  }

  /** What a successful `predict` stored reads back through `GET /prediction/{uid}`: the session
      with one object per box, in box order and with the ids that follow `lastId`. */
  lemma PredictionReadsBack(s: Server, uid: Uid, found: seq<Found>, before: seq<DetectionRow>, lastId: nat)
    requires uid in s.db.sessions
    requires s.db.detections == before + DetectionRows(uid, found, lastId)
    requires forall i :: 0 <= i < |before| ==> before[i].predictionUid != uid
    ensures s.GetPredictionByUid(uid).Ok?
    ensures |s.GetPredictionByUid(uid).value.objects| == |found|
    ensures forall k :: 0 <= k < |found| ==>
      s.GetPredictionByUid(uid).value.objects[k]
        == DetectionObject(Some(lastId + 1 + k), found[k].className, found[k].score, found[k].box)
  {
    RowsOfFreshBatch(before, DetectionRows(uid, found, lastId), uid);
  }

  /** The files a successful `predict` stored are served: both images through `GET /image`, and
      the annotated image through `GET /prediction/{uid}/image` for a JPEG client, without
      needing the bucket fallback. */
  lemma PredictedImagesServed(s: Server, uid: Uid, ext: string, fallbackOk: bool)
    requires IsUuid(uid)
    requires uid in s.db.sessions && s.db.sessions[uid].predictedImage == PredictedFinal(uid, ext)
    requires OriginalFinal(uid, ext) in s.files && PredictedFinal(uid, ext) in s.files
    ensures s.GetImage("original", uid + ext) == Ok(OriginalFinal(uid, ext))
    ensures s.GetImage("predicted", uid + "_predicted" + ext) == Ok(PredictedFinal(uid, ext))
    ensures s.GetPredictionImage(uid, "image/jpeg", fallbackOk) == Ok(ImageReply(PredictedFinal(uid, ext), Jpeg))
  {
    JpegRequestServedJpeg();
    ImageDirs();
  }

  /** `get_image` builds its directories the way `predict` names them. */
  lemma ImageDirs()
    ensures forall f :: ImagePath("original", f) == PyPath.Join(UploadDir, f)
    ensures forall f :: ImagePath("predicted", f) == PyPath.Join(PredictedDir, f)
  {
    var u := "uploads";
    assert u[|u| - 1] == 's';
    assert PyPath.Join(u, "original") == u + "/" + "original" == UploadDir;
    assert PyPath.Join(u, "predicted") == u + "/" + "predicted" == PredictedDir;
  }

  /** The bucket fallback for an image `predict` recorded whose local file is gone: as written
      it answers 404; with a working fetch the name passes the underscore check and a JPEG
      client is served. */
  lemma FallbackServesRecordedImage(s: Server, uid: Uid, ext: string)
    requires IsUuid(uid) && (ext == [] || PyPath.IsExtension(ext))
    requires uid in s.db.sessions && s.db.sessions[uid].predictedImage == PredictedFinal(uid, ext)
    requires PredictedFinal(uid, ext) !in s.files
    ensures s.GetPredictionImageAsWritten(uid, "image/jpeg") == HttpError(404)
    ensures s.GetPredictionImage(uid, "image/jpeg", true) == Ok(ImageReply(PredictedFinal(uid, ext), Jpeg))
  {
    PredictedBaseNameHasUnderscore(uid, ext);
    JpegRequestServedJpeg();
  }

  /** The annotated image is stored as `{uid}_predicted{ext}`: asking `GET /image/predicted/`
      for `{uid}{ext}` does not address it. */
  lemma PredictedNotUnderUploadName(uid: Uid, ext: string)
    requires IsUuid(uid)
    ensures ImagePath("predicted", uid + ext) != PredictedFinal(uid, ext)
  {
    ImageDirs();
    FinalLocations(uid, ext);
    assert (uid + ext)[0] == uid[0] && uid[0] != '/';
    assert |ImagePath("predicted", uid + ext)| < |PredictedFinal(uid, ext)|;
  }
}
