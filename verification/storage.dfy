/** The storage abstraction: five operations (save a session, save a detection, look up a
    session with its detections, list sessions by detection label, list sessions by minimum
    score) and two backends. The relational backend keeps a `prediction_sessions` table keyed by
    uid and a `detection_objects` table with an autoincrement id; the key-value backend keeps one
    item per uid holding its detections as a list. */
module Storage {
  import opened Common

  type Uid = string

  /** Stand-in for the database's `CURRENT_TIMESTAMP` at insertion; never inspected. */
  type Timestamp = int

  /** Bounding box `(x1, y1, x2, y2)`; stored as text and never inspected by the storage. */
  datatype Box = Box(x1: real, y1: real, x2: real, y2: real)

  /** A row of `prediction_sessions` (the uid is its key in the table map). */
  datatype SessionRow = SessionRow(timestamp: Timestamp, chatId: Option<string>,
                                   originalImage: string, predictedImage: string)

  /** A row of `detection_objects`. */
  datatype DetectionRow = DetectionRow(id: nat, predictionUid: Uid, className: string, score: real, box: Box)

  /** A detection as `get_prediction` reports it; the key-value backend has no id. */
  datatype DetectionObject = DetectionObject(id: Option<nat>, className: string, score: real, box: Box)

  /** What `get_prediction` returns for a known uid. A field the backend does not report is None. */
  datatype Prediction = Prediction(uid: Uid, chatId: Option<string>, timestamp: Option<Timestamp>,
                                   originalImage: Option<string>, predictedImage: Option<string>,
                                   objects: seq<DetectionObject>)

  /** One `{uid, timestamp}` entry of a predicate query. */
  datatype Listing = Listing(uid: Uid, timestamp: Timestamp)

  datatype SaveOutcome = Saved | DuplicateKey

  /** Result of a predicate query: the distinct matching sessions (row order is unspecified, so
      a set), or the status of the error raised. */
  datatype Query = Rows(listings: set<Listing>) | Unsupported(status: int)

  function ObjectOf(row: DetectionRow): DetectionObject {
    DetectionObject(Some(row.id), row.className, row.score, row.box)
  }

  /** The detection rows of `uid`, in insertion order (`WHERE prediction_uid = ?`). */
  function RowsOf(rows: seq<DetectionRow>, uid: Uid): (r: seq<DetectionRow>)
    ensures |r| <= |rows|
    ensures forall row :: row in r <==> row in rows && row.predictionUid == uid
  {
    if rows == [] then []
    else (if rows[0].predictionUid == uid then [rows[0]] else []) + RowsOf(rows[1..], uid)
  }

  /** Appending a row extends the rows of its own uid by that row and leaves every other uid's
      rows as they were. */
  lemma {:induction false} RowsOfAppend(rows: seq<DetectionRow>, row: DetectionRow, uid: Uid)
    ensures RowsOf(rows + [row], uid) == RowsOf(rows, uid) + (if row.predictionUid == uid then [row] else [])
  {
    if rows == [] {
      assert rows + [row] == [row];
    } else {
      assert (rows + [row])[1..] == rows[1..] + [row];
      RowsOfAppend(rows[1..], row, uid);
    }
  }

  /** Rows of other uids followed by rows that all belong to `uid`: the rows of `uid` are exactly
      the latter, in order. */
  lemma {:induction false} RowsOfFreshBatch(rows: seq<DetectionRow>, batch: seq<DetectionRow>, uid: Uid)
    requires forall i :: 0 <= i < |rows| ==> rows[i].predictionUid != uid
    requires forall i :: 0 <= i < |batch| ==> batch[i].predictionUid == uid
    ensures RowsOf(rows + batch, uid) == batch
    decreases |rows| + |batch|
  {
    if rows != [] {
      assert (rows + batch)[1..] == rows[1..] + batch;
      RowsOfFreshBatch(rows[1..], batch, uid);
    } else if batch != [] {
      assert rows + batch == batch;
      assert batch == [batch[0]] + batch[1..];
      RowsOfFreshBatch([], batch[1..], uid);
      assert [] + batch[1..] == batch[1..];
    }
  }

  /** The relational backend. `uid` is the primary key of `sessions`; `prediction_uid` is declared
      a foreign key, but the constraint is not enforced (foreign keys are off unless a connection
      turns them on), so detections may name any uid. */
  class SQLiteStorage {
    var sessions: map<Uid, SessionRow>
    var detections: seq<DetectionRow>
    /** Largest id ever handed out by AUTOINCREMENT. */
    var lastId: nat

    /** Ids are positive, at most `lastId` and strictly increase in insertion order. */
    ghost predicate Valid()
      reads this
    {
      && (forall i :: 0 <= i < |detections| ==> 0 < detections[i].id <= lastId)
      && (forall i, j :: 0 <= i < j < |detections| ==> detections[i].id < detections[j].id)
    }

    /** `init_db` on a fresh database file: both tables empty. */
    constructor ()
      ensures Valid()
      ensures sessions == map[] && detections == [] && lastId == 0
    {
      sessions, detections, lastId := map[], [], 0;
    }

    /** `save_prediction`: INSERT into `prediction_sessions`; a uid already present violates the
        primary key and the insert fails without changing anything. */
    method SavePrediction(uid: Uid, chatId: Option<string>, originalImage: string, predictedImage: string,
                          now: Timestamp) returns (res: SaveOutcome)
      requires Valid()
      modifies this
      ensures Valid()
      ensures res == DuplicateKey <==> uid in old(sessions)
      ensures res == DuplicateKey ==> sessions == old(sessions)
      ensures res == Saved ==> sessions == old(sessions)[uid := SessionRow(now, chatId, originalImage, predictedImage)]
      ensures detections == old(detections) && lastId == old(lastId)
    {
      if uid in sessions {
        res := DuplicateKey;
      } else {
        sessions := sessions[uid := SessionRow(now, chatId, originalImage, predictedImage)];
        res := Saved;
      }
    }

    /** `save_detection`: INSERT into `detection_objects` with the next AUTOINCREMENT id. The
        session is not required to exist. */
    method SaveDetection(uid: Uid, className: string, score: real, box: Box)
      requires Valid()
      modifies this
      ensures Valid()
      ensures sessions == old(sessions)
      ensures lastId == old(lastId) + 1
      ensures detections == old(detections) + [DetectionRow(lastId, uid, className, score, box)]
      ensures forall u ::
                RowsOf(detections, u) ==
                RowsOf(old(detections), u) + (if u == uid then [DetectionRow(lastId, uid, className, score, box)] else [])
    {
      lastId := lastId + 1;
      var row := DetectionRow(lastId, uid, className, score, box);
      forall u ensures RowsOf(detections + [row], u) == RowsOf(detections, u) + (if u == uid then [row] else []) {
        RowsOfAppend(detections, row, u);
      }
      detections := detections + [row];
    }

    /** `get_prediction`: None for an unknown uid; otherwise the session's columns and exactly the
        detections stored under that uid, in insertion order. */
    function GetPrediction(uid: Uid): (r: Option<Prediction>)
      reads this
      ensures r.None? <==> uid !in sessions
      ensures r.Some? ==>
        && r.value.uid == uid
        && r.value.chatId == sessions[uid].chatId
        && r.value.timestamp == Some(sessions[uid].timestamp)
        && r.value.originalImage == Some(sessions[uid].originalImage)
        && r.value.predictedImage == Some(sessions[uid].predictedImage)
      ensures r.Some? ==> |r.value.objects| == |RowsOf(detections, uid)|
      ensures r.Some? ==> forall k :: 0 <= k < |r.value.objects| ==> r.value.objects[k] == ObjectOf(RowsOf(detections, uid)[k])
      ensures r.Some? ==> forall o :: o in r.value.objects <==>
        exists i :: 0 <= i < |detections| && detections[i].predictionUid == uid && o == ObjectOf(detections[i])
    {
      if uid !in sessions then None
      else
        var s := sessions[uid];
        var rows := RowsOf(detections, uid);
        var objects := seq(|rows|, k requires 0 <= k < |rows| => ObjectOf(rows[k]));
        assert forall o :: o in objects <==> exists row :: row in rows && o == ObjectOf(row) by {
          forall o | o in objects ensures exists row :: row in rows && o == ObjectOf(row) {
            var k :| 0 <= k < |objects| && objects[k] == o;
            assert rows[k] in rows;
          }
          forall o | exists row :: row in rows && o == ObjectOf(row) ensures o in objects {
            var row :| row in rows && o == ObjectOf(row);
            var k :| 0 <= k < |rows| && rows[k] == row;
            assert objects[k] == o;
          }
        }
        Some(Prediction(uid, s.chatId, Some(s.timestamp), Some(s.originalImage), Some(s.predictedImage), objects))
    }

    /** `get_predictions_by_label`: `SELECT DISTINCT` over the join of sessions and detections.
        A session is listed iff it exists and one of its detections has that label; orphan
        detections drop out of the join; each uid appears once. */
    function GetPredictionsByLabel(className: string): (r: Query)
      reads this
      ensures r.Rows?
      ensures forall l :: l in r.listings <==>
        && l.uid in sessions
        && l.timestamp == sessions[l.uid].timestamp
        && exists i :: 0 <= i < |detections| && detections[i].predictionUid == l.uid && detections[i].className == className
      ensures forall a, b :: a in r.listings && b in r.listings && a.uid == b.uid ==> a == b
    {
      Rows(set i | 0 <= i < |detections| && detections[i].predictionUid in sessions && detections[i].className == className
             :: Listing(detections[i].predictionUid, sessions[detections[i].predictionUid].timestamp))
    }

    /** `get_predictions_by_score`: as above with `score >= min_score` (inclusive). */
    function GetPredictionsByScore(minScore: real): (r: Query)
      reads this
      ensures r.Rows?
      ensures forall l :: l in r.listings <==>
        && l.uid in sessions
        && l.timestamp == sessions[l.uid].timestamp
        && exists i :: 0 <= i < |detections| && detections[i].predictionUid == l.uid && detections[i].score >= minScore
      ensures forall a, b :: a in r.listings && b in r.listings && a.uid == b.uid ==> a == b
    {
      Rows(set i | 0 <= i < |detections| && detections[i].predictionUid in sessions && detections[i].score >= minScore
             :: Listing(detections[i].predictionUid, sessions[detections[i].predictionUid].timestamp))
    }
  }

  /** Lowering the score threshold never drops a session from the result. */
  lemma ScoreQueryMonotone(db: SQLiteStorage, lower: real, higher: real)
    requires lower <= higher
    ensures db.GetPredictionsByScore(higher).listings <= db.GetPredictionsByScore(lower).listings
  {
  }

  /** AUTOINCREMENT ids never repeat, so every detection of a session has its own id. */
  lemma DetectionIdsUnique(db: SQLiteStorage, i: int, j: int)
    requires db.Valid()
    requires 0 <= i < |db.detections| && 0 <= j < |db.detections| && i != j
    ensures db.detections[i].id != db.detections[j].id
  {
  }

  /** A detection of the key-value backend: an element of the item's `Detections` list. */
  datatype DynamoDetection = DynamoDetection(className: string, score: real, box: Box)

  /** An item of the key-value table (keyed by `PredictionID`). Attributes that were never
      written are None: an item created by `save_detection` alone has only its detections. */
  datatype DynamoItem = DynamoItem(chatId: Option<string>, originalImage: Option<string>,
                                   predictedImage: Option<string>, detections: seq<DynamoDetection>)

  /** The key-value backend. */
  class DynamoDBStorage {
    var items: map<Uid, DynamoItem>

    constructor ()
      ensures items == map[]
    {
      items := map[];
    }

    /** `save_prediction`: `put_item` replaces any item with that key, so an existing session is
        overwritten and its detection list reset to empty; it never reports a duplicate. */
    method SavePrediction(uid: Uid, chatId: Option<string>, originalImage: string, predictedImage: string)
      returns (res: SaveOutcome)
      modifies this
      ensures res == Saved
      ensures items == old(items)[uid := DynamoItem(chatId, Some(originalImage), Some(predictedImage), [])]
    {
      items := items[uid := DynamoItem(chatId, Some(originalImage), Some(predictedImage), [])];
      res := Saved;
    }

    /** `save_detection`: `list_append(if_not_exists(Detections, []), [det])`. The detection goes
        after all earlier ones of that uid; an unknown uid gets a new item holding only it. */
    method SaveDetection(uid: Uid, className: string, score: real, box: Box)
      modifies this
      ensures uid in items
      ensures items[uid].detections ==
        (if uid in old(items) then old(items)[uid].detections else []) + [DynamoDetection(className, score, box)]
      ensures uid in old(items) ==> items[uid] == old(items)[uid].(detections := items[uid].detections)
      ensures uid !in old(items) ==> items[uid] == DynamoItem(None, None, None, [DynamoDetection(className, score, box)])
      ensures items.Keys == old(items).Keys + {uid}
      ensures forall u :: u in old(items) && u != uid ==> items[u] == old(items)[u]
    {
      var previous := if uid in items then items[uid] else DynamoItem(None, None, None, []);
      items := items[uid := previous.(detections := previous.detections + [DynamoDetection(className, score, box)])];
    }

    /** `get_prediction`: None for an unknown uid; otherwise the item's attributes (no timestamp)
        and its detection list in order, without ids. */
    function GetPrediction(uid: Uid): (r: Option<Prediction>)
      reads this
      ensures r.None? <==> uid !in items
      ensures r.Some? ==>
        && r.value.uid == uid
        && r.value.timestamp.None?
        && r.value.chatId == items[uid].chatId
        && r.value.originalImage == items[uid].originalImage
        && r.value.predictedImage == items[uid].predictedImage
        && |r.value.objects| == |items[uid].detections|
        && forall k :: 0 <= k < |r.value.objects| ==>
             var d := items[uid].detections[k];
             r.value.objects[k] == DetectionObject(None, d.className, d.score, d.box)
    {
      if uid !in items then None
      else
        var item := items[uid];
        Some(Prediction(uid, item.chatId, None, item.originalImage, item.predictedImage,
                        seq(|item.detections|, k requires 0 <= k < |item.detections| =>
                          DetectionObject(None, item.detections[k].className, item.detections[k].score, item.detections[k].box))))
    }

    /** `get_predictions_by_label`: always raises 501 (a secondary index would be needed). */
    function GetPredictionsByLabel(className: string): (r: Query)
      ensures r.Unsupported? && r.status == 501
    {
      Unsupported(501)
    }

    /** `get_predictions_by_score`: always raises 501 (a secondary index would be needed). */
    function GetPredictionsByScore(minScore: real): (r: Query)
      ensures r.Unsupported? && r.status == 501
    {
      Unsupported(501)
    }
  }
}
