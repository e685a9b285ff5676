/** The queue consumer: a loop that polls the job queue for at most one message at a time, and
    for each message downloads the original image, runs the detector on it, uploads the
    annotated image, then always removes its temporary files and deletes the message.

    The queue service, the object store and the detector are outside the model: what one poll
    delivers and whether each external step succeeds are inputs (`Poll`, `Attempt`), and every
    step the consumer starts is recorded in an event log. */
module Consumer {
  import opened Common
  import S3

  /** A queue message: its JSON body as an object of strings (`None` when `json.loads` fails or
      does not give an object) and the receipt handle used to delete it. */
  datatype Message = Message(body: Option<map<string, string>>, receiptHandle: string)

  /** The two fields a job needs. */
  datatype Job = Job(imageName: string, chatId: string)

  /** How the external steps for one message turn out: the `uuid4` drawn for it and whether the
      download, the inference (with saving the annotated image) and the upload succeed. */
  datatype Attempt = Attempt(uid: string, downloadOk: bool, inferenceOk: bool, uploadOk: bool)

  /** One `receive_message` call: whether it hands out the message at the head of the queue
      (a long poll can come back empty even when the queue is not), and how that message's
      processing turns out. */
  datatype Poll = Poll(delivered: bool, attempt: Attempt)

  /** A step the consumer starts. */
  datatype Event =
    | Slept
    | Downloading(transfer: S3.Transfer)
    | Inferring(input: string, output: string)
    | Uploading(transfer: S3.Transfer)
    | Removing(path: string)
    | Deleting(receiptHandle: string)

  /** What the consumer can observe and change: the queue, the local files, the keys in the
      bucket, and the steps started so far. */
  datatype World = World(queue: seq<Message>, files: set<string>, bucket: set<string>, events: seq<Event>)

  /** `body['image_name']` and `body['chat_id']`; `None` when either lookup (or the parse
      before it) raises. */
  function ParseBody(m: Message): (r: Option<Job>)
    ensures r.Some? <==> m.body.Some? && "image_name" in m.body.value && "chat_id" in m.body.value
    ensures r.Some? ==> r.value.imageName == m.body.value["image_name"] && r.value.chatId == m.body.value["chat_id"]
  {
    if m.body.Some? && "image_name" in m.body.value && "chat_id" in m.body.value
    then Some(Job(m.body.value["image_name"], m.body.value["chat_id"]))
    else None
  }

  function OriginalTemp(uid: string, imageName: string): string {
    "/tmp/" + uid + "_original_" + imageName
  }

  function PredictedTemp(uid: string, imageName: string): string {
    "/tmp/" + uid + "_predicted_" + imageName
  }

  /** The two temporary files of one message never coincide, whatever the image name. */
  lemma TempPathsDistinct(uid: string, imageName: string)
    ensures OriginalTemp(uid, imageName) != PredictedTemp(uid, imageName)
  {
    assert OriginalTemp(uid, imageName)[|uid| + 6] == 'o';
    assert PredictedTemp(uid, imageName)[|uid| + 6] == 'p';
  }

  /** The steps the `try` block starts: the download always; inference only after a successful
      download; the upload only after a successful inference. */
  function TryEvents(job: Job, a: Attempt): seq<Event> {
    var original := OriginalTemp(a.uid, job.imageName);
    var predicted := PredictedTemp(a.uid, job.imageName);
    [Downloading(S3.Download(job.chatId, job.imageName, original))]
    + if !a.downloadOk then []
      else [Inferring(original, predicted)]
           + if !a.inferenceOk then [] else [Uploading(S3.Upload(job.chatId, job.imageName, predicted))]
  }

  /** The temporary files the `try` block creates. */
  function Created(job: Job, a: Attempt): set<string> {
    (if a.downloadOk then {OriginalTemp(a.uid, job.imageName)} else {})
    + (if a.downloadOk && a.inferenceOk then {PredictedTemp(a.uid, job.imageName)} else {})
  }

  /** Settling the message at the head of the queue: the `try` block, then the `finally` block,
      which removes both temporary files (a missing file is ignored) and deletes the message. */
  function Settle(w: World, job: Job, a: Attempt): (r: World)
    requires w.queue != []
    // the log only grows, and the bucket only gains keys
    ensures w.events < r.events && w.bucket <= r.bucket
    // no file other than this message's two temporary files appears or disappears
    ensures forall f :: f != OriginalTemp(a.uid, job.imageName) && f != PredictedTemp(a.uid, job.imageName) ==>
      (f in r.files <==> f in w.files)
  {
    var original := OriginalTemp(a.uid, job.imageName);
    var predicted := PredictedTemp(a.uid, job.imageName);
    World(
      w.queue[1..],
      w.files + Created(job, a) - {original} - {predicted},
      if a.downloadOk && a.inferenceOk && a.uploadOk then w.bucket + {S3.PredictedKey(job.chatId, job.imageName)} else w.bucket,
      w.events + TryEvents(job, a) + [Removing(original), Removing(predicted), Deleting(w.queue[0].receiptHandle)])
  }

  /** One turn of the `while True` loop; the flag says that an exception escaped the loop. */
  function Step(w: World, p: Poll): (r: (World, bool))
    // an escaped exception leaves everything as it was
    ensures r.1 ==> r.0 == w
    ensures w.events <= r.0.events && w.bucket <= r.0.bucket
  {
    if !p.delivered || w.queue == [] then (w.(events := w.events + [Slept]), false)
    else match ParseBody(w.queue[0])
      case None => (w, true)
      case Some(job) => (Settle(w, job, p.attempt), false)
  }

  /** The loop over a finite script of polls; it stops at the first escaped exception. */
  function Run(w: World, polls: seq<Poll>): (r: (World, bool))
    // over any script the log and the bucket only grow
    ensures w.events <= r.0.events && w.bucket <= r.0.bucket
    decreases |polls|
  {
    if polls == [] then (w, false)
    else
      var prev := Run(w, polls[..|polls| - 1]);
      if prev.1 then prev else Step(prev.0, polls[|polls| - 1])
  }

  /** The number of messages deleted in a log. */
  function Deletions(events: seq<Event>): nat {
    if events == [] then 0
    else Deletions(events[..|events| - 1]) + (if events[|events| - 1].Deleting? then 1 else 0)
  }

  lemma {:induction false} DeletionsAppend(a: seq<Event>, b: seq<Event>)
    ensures Deletions(a + b) == Deletions(a) + Deletions(b)
    decreases |b|
  {
    if b == [] {
      assert a + b == a;
    } else {
      assert (a + b)[..|a + b| - 1] == a + b[..|b| - 1];
      DeletionsAppend(a, b[..|b| - 1]);
    }
  }

  /** The order of the steps for one message. */
  function Rank(e: Event): nat {
    match e
    case Slept => 0
    case Downloading(_) => 1
    case Inferring(_, _) => 2
    case Uploading(_) => 3
    case Removing(_) => 4
    case Deleting(_) => 5
  }

  /** Settling a message always acknowledges it, whether or not the steps succeed: the message
      leaves the queue, the log ends with its deletion and holds exactly one more deletion, and
      every temporary file is gone (only files named after this message's uuid are touched). */
  lemma {:induction false} SettleAcknowledges(w: World, job: Job, a: Attempt)
    requires w.queue != []
    ensures Settle(w, job, a).queue == w.queue[1..]
    ensures Settle(w, job, a).events[|Settle(w, job, a).events| - 1] == Deleting(w.queue[0].receiptHandle)
    ensures Deletions(Settle(w, job, a).events) == Deletions(w.events) + 1
    ensures Settle(w, job, a).files == w.files - {OriginalTemp(a.uid, job.imageName), PredictedTemp(a.uid, job.imageName)}
  {
    var original := OriginalTemp(a.uid, job.imageName);
    var predicted := PredictedTemp(a.uid, job.imageName);
    var tail := [Removing(original), Removing(predicted), Deleting(w.queue[0].receiptHandle)];
    TryHasNoDeletion(job, a);
    DeletionsAppend(w.events, TryEvents(job, a));
    DeletionsAppend(w.events + TryEvents(job, a), tail);
    DeletionsAppend([Removing(original)], [Removing(predicted)]);
    DeletionsAppend([Removing(original), Removing(predicted)], [Deleting(w.queue[0].receiptHandle)]);
    assert [Removing(original), Removing(predicted)] + [Deleting(w.queue[0].receiptHandle)] == tail;
    DeletionsOfOne(Removing(original));
    DeletionsOfOne(Removing(predicted));
    DeletionsOfOne(Deleting(w.queue[0].receiptHandle));
  }

  lemma DeletionsOfOne(e: Event)
    ensures Deletions([e]) == if e.Deleting? then 1 else 0
  {
    assert [e][..0] == [];
  }

  lemma TryHasNoDeletion(job: Job, a: Attempt)
    ensures Deletions(TryEvents(job, a)) == 0
  {
    var original := OriginalTemp(a.uid, job.imageName);
    var predicted := PredictedTemp(a.uid, job.imageName);
    var d := Downloading(S3.Download(job.chatId, job.imageName, original));
    var f := Inferring(original, predicted);
    var u := Uploading(S3.Upload(job.chatId, job.imageName, predicted));
    DeletionsOfOne(d);
    DeletionsOfOne(f);
    DeletionsOfOne(u);
    DeletionsAppend([d], [f]);
    DeletionsAppend([d, f], [u]);
    assert [d] + [f] == [d, f];
    assert [d, f] + [u] == [d, f, u];
    if !a.downloadOk {
      assert TryEvents(job, a) == [d];
    } else if !a.inferenceOk {
      assert TryEvents(job, a) == [d, f];
    } else {
      assert TryEvents(job, a) == [d, f, u];
    }
  }

  /** The steps for one message come in the order download, inference, upload, removals,
      deletion; each external step runs only after the previous one succeeded, and the
      annotated image reaches the bucket exactly when all three succeed. */
  lemma SettleInOrder(w: World, job: Job, a: Attempt)
    requires w.queue != []
    ensures var added := Settle(w, job, a).events[|w.events|..];
      && (forall i, j :: 0 <= i < j < |added| ==> Rank(added[i]) <= Rank(added[j]))
      && added[0].Downloading?
      && ((exists i :: 0 <= i < |added| && added[i].Inferring?) <==> a.downloadOk)
      && ((exists i :: 0 <= i < |added| && added[i].Uploading?) <==> a.downloadOk && a.inferenceOk)
    ensures S3.PredictedKey(job.chatId, job.imageName) in Settle(w, job, a).bucket
            <==> S3.PredictedKey(job.chatId, job.imageName) in w.bucket || (a.downloadOk && a.inferenceOk && a.uploadOk)
  {
    var original := OriginalTemp(a.uid, job.imageName);
    var predicted := PredictedTemp(a.uid, job.imageName);
    var d := Downloading(S3.Download(job.chatId, job.imageName, original));
    var f := Inferring(original, predicted);
    var u := Uploading(S3.Upload(job.chatId, job.imageName, predicted));
    var tail := [Removing(original), Removing(predicted), Deleting(w.queue[0].receiptHandle)];
    var added := Settle(w, job, a).events[|w.events|..];
    assert added == TryEvents(job, a) + tail;
    if !a.downloadOk {
      assert added == [d] + tail;
    } else if !a.inferenceOk {
      assert added == [d, f] + tail;
      assert added[1].Inferring?;
    } else {
      assert added == [d, f, u] + tail;
      assert added[1].Inferring? && added[2].Uploading?;
    }
  }

  /** An empty poll only sleeps: nothing is processed, deleted or created. */
  lemma EmptyPollOnlySleeps(w: World, p: Poll)
    requires !p.delivered || w.queue == []
    ensures Step(w, p).0.queue == w.queue && Step(w, p).0.files == w.files && Step(w, p).0.bucket == w.bucket
    ensures Step(w, p).0.events == w.events + [Slept] && !Step(w, p).1
  {
  }

  /** A poll takes at most one message off the queue, and only by deleting it. */
  lemma AtMostOnePerPoll(w: World, p: Poll)
    ensures Step(w, p).0.queue == w.queue || (w.queue != [] && Step(w, p).0.queue == w.queue[1..])
    ensures |Step(w, p).0.queue| + Deletions(Step(w, p).0.events) == |w.queue| + Deletions(w.events)
  {
    if p.delivered && w.queue != [] && ParseBody(w.queue[0]).Some? {
      SettleAcknowledges(w, ParseBody(w.queue[0]).value, p.attempt);
    } else if !p.delivered || w.queue == [] {
      DeletionsAppend(w.events, [Slept]);
      assert [Slept][..0] == [];
    }
  }

  /** A message whose body does not parse, or lacks a field, raises before the `try`: the loop
      aborts and the message is neither processed nor deleted. */
  lemma MalformedBodyAborts(w: World, p: Poll)
    requires p.delivered && w.queue != [] && ParseBody(w.queue[0]).None?
    ensures Step(w, p) == (w, true)
  {
  }

  /** Over any script of polls the consumer leaves no file behind that it did not find, takes
      messages only from the head of the queue, and deletes exactly the messages that left it. */
  lemma {:induction false} RunKeepsQueueAndFiles(w: World, polls: seq<Poll>)
    ensures Run(w, polls).0.files <= w.files
    ensures |Run(w, polls).0.queue| <= |w.queue|
    ensures Run(w, polls).0.queue == w.queue[|w.queue| - |Run(w, polls).0.queue|..]
    ensures Deletions(Run(w, polls).0.events) == Deletions(w.events) + |w.queue| - |Run(w, polls).0.queue|
    decreases |polls|
  {
    if polls != [] {
      var prev := Run(w, polls[..|polls| - 1]);
      RunKeepsQueueAndFiles(w, polls[..|polls| - 1]);
      if !prev.1 {
        var p := polls[|polls| - 1];
        AtMostOnePerPoll(prev.0, p);
        if p.delivered && prev.0.queue != [] && ParseBody(prev.0.queue[0]).Some? {
          SettleAcknowledges(prev.0, ParseBody(prev.0.queue[0]).value, p.attempt);
          var q := prev.0.queue;
          assert q[1..] == w.queue[|w.queue| - |q| + 1..];
        }
      }
    }
  }

  /** Once an exception has escaped, later polls change nothing. */
  lemma {:induction false} AbortIsFinal(w: World, polls: seq<Poll>, i: nat)
    requires i <= |polls| && Run(w, polls[..i]).1
    ensures Run(w, polls) == Run(w, polls[..i])
    decreases |polls| - i
  {
    if i < |polls| {
      assert polls[..i + 1][..i] == polls[..i];
      AbortIsFinal(w, polls, i + 1);
    } else {
      assert polls[..i] == polls;
    }
  }

  /** The consumer process: the job queue it polls, its local files, the bucket and its log. */
  class Worker {
    var queue: seq<Message>
    var files: set<string>
    var bucket: set<string>
    var events: seq<Event>

    constructor (queue: seq<Message>, files: set<string>, bucket: set<string>)
      ensures State() == World(queue, files, bucket, [])
    {
      this.queue, this.files, this.bucket, this.events := queue, files, bucket, [];
    }

    function State(): World
      reads this
    {
      World(queue, files, bucket, events)
    }

    /** The `try`/`except`/`finally` for the message at the head of the queue. */
    method SettleMessage(job: Job, a: Attempt)
      requires queue != []
      modifies this
      ensures State() == Settle(old(State()), job, a)
    {
      var original := OriginalTemp(a.uid, job.imageName);
      var predicted := PredictedTemp(a.uid, job.imageName);
      var handle := queue[0].receiptHandle;
      TryBlock(job, a);
      // finally: remove both temporary files, ignoring missing ones, then acknowledge
      RemoveQuietly([original, predicted]);
      queue := queue[1..];
      events := events + [Deleting(handle)];
      assert seq(2, k requires 0 <= k < 2 => Removing([original, predicted][k])) == [Removing(original), Removing(predicted)];
      assert files == old(files) + Created(job, a) - {original} - {predicted};
    }

    /** The `try` block: download, inference, upload, each only after the previous succeeded;
        the `except` branch only logs. */
    method TryBlock(job: Job, a: Attempt)
      modifies this
      ensures queue == old(queue) && events == old(events) + TryEvents(job, a)
      ensures files == old(files) + Created(job, a)
      ensures bucket == if a.downloadOk && a.inferenceOk && a.uploadOk
                        then old(bucket) + {S3.PredictedKey(job.chatId, job.imageName)} else old(bucket)
    {
      var original := OriginalTemp(a.uid, job.imageName);
      var predicted := PredictedTemp(a.uid, job.imageName);
      events := events + [Downloading(S3.Download(job.chatId, job.imageName, original))];
      if a.downloadOk {
        files := files + {original};
        events := events + [Inferring(original, predicted)];
        if a.inferenceOk {
          files := files + {predicted};
          events := events + [Uploading(S3.Upload(job.chatId, job.imageName, predicted))];
          if a.uploadOk {
            bucket := bucket + {S3.PredictedKey(job.chatId, job.imageName)};
          }
        }
      }
    }

    /** `for p in paths: try: os.remove(p) except: pass` — every path is tried in turn, and a
        missing file is not an error. */
    method RemoveQuietly(paths: seq<string>)
      modifies this
      ensures queue == old(queue) && bucket == old(bucket)
      ensures forall f :: f in files <==> f in old(files) && f !in paths
      ensures events == old(events) + seq(|paths|, k requires 0 <= k < |paths| => Removing(paths[k]))
    {
      var i := 0;
      while i < |paths|
        invariant 0 <= i <= |paths|
        invariant queue == old(queue) && bucket == old(bucket)
        invariant forall f :: f in files <==> f in old(files) && f !in paths[..i]
        invariant events == old(events) + seq(i, k requires 0 <= k < i => Removing(paths[k]))
      {
        assert paths[..i + 1] == paths[..i] + [paths[i]];
        files := files - {paths[i]};
        events := events + [Removing(paths[i])];
        i := i + 1;
      }
      assert paths[..i] == paths;
    }

    /** One turn of the loop: receive at most one message and settle it. */
    method PollOnce(p: Poll) returns (aborted: bool)
      modifies this
      ensures (State(), aborted) == Step(old(State()), p)
    {
      var messages := if p.delivered && queue != [] then [queue[0]] else [];
      if messages == [] {
        events := events + [Slept];
        return false;
      }
      var job := ParseBody(messages[0]);
      if job.None? {
        return true;
      }
      SettleMessage(job.value, p.attempt);
      aborted := false;
    }

    /** The `while True` loop over a finite script of polls. */
    method Serve(polls: seq<Poll>) returns (aborted: bool)
      modifies this
      ensures (State(), aborted) == Run(old(State()), polls)
    {
      aborted := false;
      var i := 0;
      while i < |polls| && !aborted
        invariant 0 <= i <= |polls|
        invariant (State(), aborted) == Run(old(State()), polls[..i])
      {
        assert polls[..i + 1][..i] == polls[..i];
        aborted := PollOnce(polls[i]);
        i := i + 1;
      }
      if aborted {
        AbortIsFinal(old(State()), polls, i);
      } else {
        assert polls[..i] == polls;
      }
    }
  }
}
