/** Object-store addressing shared by the HTTP service and the queue consumer: one bucket, and
    per conversation an `original/` and a `predicted/` folder. Only the addressing is modelled;
    the transfer itself belongs to the object store. */
module S3 {

  const Bucket: string := "ameer-polybot-images-dev"

  /** One transfer between the bucket and a local file. */
  datatype Transfer = Transfer(bucket: string, key: string, localPath: string)

  function OriginalKey(chatId: string, imageName: string): string {
    chatId + "/original/" + imageName
  }

  function PredictedKey(chatId: string, imageName: string): string {
    chatId + "/predicted/" + imageName
  }

  /** `download_image_from_s3`: fetch the conversation's original image to `localPath`. */
  function Download(chatId: string, imageName: string, localPath: string): (t: Transfer)
    ensures t.bucket == Bucket && t.localPath == localPath
    ensures |t.key| > |chatId| && t.key[..|chatId|] == chatId
    ensures t.key[|chatId|..] == "/original/" + imageName
  {
    Transfer(Bucket, OriginalKey(chatId, imageName), localPath)
  }

  /** `upload_predicted_image_to_s3`: store the annotated image from `localPath`. */
  function Upload(chatId: string, imageName: string, localPath: string): (t: Transfer)
    ensures t.bucket == Bucket && t.localPath == localPath
    ensures |t.key| > |chatId| && t.key[..|chatId|] == chatId
    ensures t.key[|chatId|..] == "/predicted/" + imageName
  {
    Transfer(Bucket, PredictedKey(chatId, imageName), localPath)
  }

  /** The original and the annotated image of one upload never share a key. */
  lemma KindsNeverCollide(chatId: string, imageName: string)
    ensures OriginalKey(chatId, imageName) != PredictedKey(chatId, imageName)
  {
    assert OriginalKey(chatId, imageName)[|chatId| + 1] == 'o';
    assert PredictedKey(chatId, imageName)[|chatId| + 1] == 'p';
  }

  /** Within one conversation, distinct image names give distinct keys of each kind. */
  lemma NamesGiveDistinctKeys(chatId: string, name1: string, name2: string)
    requires name1 != name2
    ensures OriginalKey(chatId, name1) != OriginalKey(chatId, name2)
    ensures PredictedKey(chatId, name1) != PredictedKey(chatId, name2)
  {
    var n := |chatId|;
    assert OriginalKey(chatId, name1)[n + 10..] == name1;
    assert OriginalKey(chatId, name2)[n + 10..] == name2;
    assert PredictedKey(chatId, name1)[n + 11..] == name1;
    assert PredictedKey(chatId, name2)[n + 11..] == name2;
  }

  /** A conversation id without a separator: then every key
      determines its conversation, its kind and its image name. */
  predicate PlainChatId(chatId: string) {
    forall k :: 0 <= k < |chatId| ==> chatId[k] != '/'
  }

  /** Where one split of a string is shorter than another, the second piece of the shorter split
      starts with a character of the first piece of the longer one. */
  lemma CharAfterPrefix(a: string, r: string, b: string, r': string)
    ensures a + r == b + r' && |a| < |b| && |r| > 0 ==> r[0] == b[|a|]
  {
    if a + r == b + r' && |a| < |b| && |r| > 0 {
      assert (a + r)[|a|] == (b + r')[|a|];
    }
  }

  /** Past the separator, the `original` and the `predicted` folder differ at once. */
  lemma FoldersDiffer(n1: string, n2: string)
    ensures "/original/" + n1 != "/predicted/" + n2
  {
    assert ("/original/" + n1)[1] == 'o';
    assert ("/predicted/" + n2)[1] == 'p';
  }

  /** The first separator of a key over a plain conversation id sits right after that id. */
  lemma FirstSeparator(chatId: string, rest: string, other: string, rest': string)
    requires PlainChatId(chatId) && PlainChatId(other)
    requires |rest| > 0 && rest[0] == '/' && |rest'| > 0 && rest'[0] == '/'
    requires chatId + rest == other + rest'
    ensures chatId == other && rest == rest'
  {
    var s := chatId + rest;
    if |chatId| < |other| {
      CharAfterPrefix(chatId, rest, other, rest');
      assert false;
    } else if |other| < |chatId| {
      CharAfterPrefix(other, rest', chatId, rest);
      assert false;
    } else {
      assert chatId == s[..|chatId|] == other;
      assert rest == s[|chatId|..] == rest';
    }
  }

  /** Over plain conversation ids, keys are unambiguous: equal keys mean the same kind, the same
      conversation and the same image name. */
  lemma {:induction false} KeysUnambiguous(c1: string, n1: string, c2: string, n2: string)
    requires PlainChatId(c1) && PlainChatId(c2)
    ensures OriginalKey(c1, n1) == OriginalKey(c2, n2) ==> c1 == c2 && n1 == n2
    ensures PredictedKey(c1, n1) == PredictedKey(c2, n2) ==> c1 == c2 && n1 == n2
    ensures OriginalKey(c1, n1) != PredictedKey(c2, n2)
  {
    assert OriginalKey(c1, n1) == c1 + ("/original/" + n1);
    assert OriginalKey(c2, n2) == c2 + ("/original/" + n2);
    assert PredictedKey(c1, n1) == c1 + ("/predicted/" + n1);
    assert PredictedKey(c2, n2) == c2 + ("/predicted/" + n2);
    if OriginalKey(c1, n1) == OriginalKey(c2, n2) {
      FirstSeparator(c1, "/original/" + n1, c2, "/original/" + n2);
      assert n1 == ("/original/" + n1)[10..];
      assert n2 == ("/original/" + n2)[10..];
    }
    if PredictedKey(c1, n1) == PredictedKey(c2, n2) {
      FirstSeparator(c1, "/predicted/" + n1, c2, "/predicted/" + n2);
      assert n1 == ("/predicted/" + n1)[11..];
      assert n2 == ("/predicted/" + n2)[11..];
    }
    if OriginalKey(c1, n1) == PredictedKey(c2, n2) {
      FirstSeparator(c1, "/original/" + n1, c2, "/predicted/" + n2);
      FoldersDiffer(n1, n2);
      assert false;
    }
  }

  /** Without that restriction keys are ambiguous: two different conversations and image names
      address the same object. */
  lemma KeysAmbiguousAcrossChats()
    ensures OriginalKey("a", "b/original/c") == OriginalKey("a/original/b", "c")
  {
  }
}
