/** `uploadMealImage`: derive a storage key and content type from the local
    file, upload it, register an image row, consume one unit of image quota,
    classify, and record the outcome on the row. Every collaborator (clock,
    random identifier, file fetch, object store, database, quota procedure,
    classifier) is an input; a run returns the caller's result, the trace of
    calls made, and the image row as it stands afterwards. */
module ImageUpload {
  import opened Wrappers
  import JsText
  import Quota

  /** The `status` column of an image row. */
  datatype ImageStatus = Uploaded | Done | Failed

  datatype DetectedFood = DetectedFood(name: string, confidence: real)

  /** `fetch(localUri)` then `response.blob()`: the blob's `type`, or a thrown exception. */
  datatype FetchOutcome = Fetched(blobType: string) | FetchThrew(thrown: Thrown)

  /** The storage upload: the stored object's `path` (possibly absent), or a storage error. */
  datatype StorageOutcome = Stored(path: Option<string>) | StorageError(message: string)

  /** The row insert: the new row's `id`, a database error, or no error and no row. */
  datatype InsertOutcome = Inserted(id: string) | InsertError(message: string) | NoRowReturned

  /** The classifier: the foods it detected, or a thrown exception. */
  datatype ClassifyOutcome = Classified(foods: seq<DetectedFood>) | ClassifyThrew(thrown: Thrown)

  /** Everything outside the function that one run depends on. `updateApplied`
      says whether the final status update took effect; its error, if any, is
      ignored by the code. */
  datatype Collaborators = Collaborators(
    now: nat,
    uuid: string,
    fetch: FetchOutcome,
    storage: StorageOutcome,
    insert: InsertOutcome,
    quota: Quota.RpcOutcome,
    classify: ClassifyOutcome,
    updateApplied: bool)

  /** The calls a run makes, in order. */
  datatype Effect =
    | FetchLocal(uri: string)
    | StoreObject(bucket: string, key: string, contentType: string, upsert: bool)
    | InsertImage(userId: string, storagePath: string, status: ImageStatus)
    | ConsumeImageQuota(call: Quota.RpcCall, granted: bool)
    | Classify(imageId: string, storagePath: string)
    | UpdateStatus(imageId: string, status: ImageStatus, detectedFoods: Option<seq<DetectedFood>>)

  /** A row of the `images` table. */
  datatype ImageRecord = ImageRecord(
    id: string, userId: string, storagePath: string, status: ImageStatus, detectedFoods: Option<seq<DetectedFood>>)

  datatype UploadResult = UploadResult(ok: bool, error: Option<string>, imageId: Option<string>, storagePath: Option<string>)

  /** The result returned, the calls made, and the image row afterwards (`None` when none was created). */
  datatype Run = Run(result: UploadResult, effects: seq<Effect>, record: Option<ImageRecord>)

  const Bucket := "images"
  const FallbackExtension := "jpg"
  const RegisterFailedMessage := "Erro ao registrar imagem"
  const NoQuotaMessage := "Sem quota para classificação"
  const ClassifyFailedMessage := "Erro ao classificar imagem"
  const UnknownErrorMessage := "Erro desconhecido"

  /** The classifier as the code stands: a fixed answer that never throws. */
  const StubClassifier := Classified([DetectedFood("Arroz", 0.85)])

  // ---------------------------------------------------------------------------
  // Key, extension and content type
  // ---------------------------------------------------------------------------

  /** `Array.prototype.pop` on a fresh array: its last element, or `undefined` when empty. */
  function Pop(parts: seq<string>): Option<string> {
    if |parts| == 0 then None else Some(parts[|parts| - 1])
  }

  /** `localUri.split('.').pop() ?? 'jpg'`: the text after the last dot, or
      the whole URI when it has no dot. */
  function FileExt(localUri: string): (ext: string)
    ensures '.' !in ext
    ensures |ext| <= |localUri| && ext == localUri[|localUri| - |ext|..]
    ensures '.' !in localUri ==> ext == localUri
    ensures '.' in localUri ==> |ext| < |localUri| && localUri[|localUri| - |ext| - 1] == '.'
  {
    JsText.LastPieceIsTextAfterLastSeparator(localUri, '.');
    Pop(JsText.Split(localUri, '.')).GetOr(FallbackExtension)
  }

  /** `split` never returns an empty array, so the `'jpg'` fallback is never taken. */
  lemma FallbackExtensionIsDead(localUri: string)
    ensures Pop(JsText.Split(localUri, '.')).Some?
    ensures FileExt(localUri) == JsText.LastPiece(localUri, '.')
  {
  }

  /** `${userId}/${Date.now()}-${uuidv4()}.${fileExt}`. */
  function StorageKey(userId: string, now: nat, uuid: string, ext: string): (key: string)
    ensures |key| > |userId| + |ext| + 1
    ensures key[..|userId| + 1] == userId + "/"
    ensures key[|key| - |ext| - 1..] == "." + ext
  {
    userId + "/" + JsText.Decimal(now) + "-" + uuid + "." + ext
  }

  /** The key keeps the file's extension: the text after its last dot is the
      extension of the local URI. */
  lemma StorageKeyKeepsExtension(userId: string, now: nat, uuid: string, localUri: string)
    ensures JsText.LastPiece(StorageKey(userId, now, uuid, FileExt(localUri)), '.') == FileExt(localUri)
  {
    var ext := FileExt(localUri);
    var prefix := userId + "/" + JsText.Decimal(now) + "-" + uuid;
    assert StorageKey(userId, now, uuid, ext) == prefix + ['.'] + ext;
    JsText.LastPieceAfterSeparator(prefix, ext, '.');
  }

  /** `blob.type || \`image/${fileExt}\``. */
  function ContentType(blobType: string, ext: string): (r: string)
    ensures blobType != "" ==> r == blobType
    ensures blobType == "" ==> |r| == 6 + |ext| && r[..6] == "image/" && r[6..] == ext
  {
    if blobType != "" then blobType else "image/" + ext
  }

  // ---------------------------------------------------------------------------
  // The life cycle of an image row
  // ---------------------------------------------------------------------------

  /** The phases of a run, as its calls advance it. */
  datatype Phase = Start | Fetching | Storing | Registering | Refused | Granted | Classifying | Closed

  /** The phase after `e`, or `None` when `e` is out of order. The row is
      registered as `uploaded`; a refused quota may only mark it `failed`; a
      granted one leads to classification, after which it is marked `done`
      with the detected foods or `failed`; nothing follows a status update. */
  function Next(p: Phase, e: Effect): Option<Phase> {
    match (p, e)
    case (Start, FetchLocal(_)) => Some(Fetching)
    case (Fetching, StoreObject(_, _, _, _)) => Some(Storing)
    case (Storing, InsertImage(_, _, Uploaded)) => Some(Registering)
    case (Registering, ConsumeImageQuota(_, granted)) => Some(if granted then Granted else Refused)
    case (Refused, UpdateStatus(_, Failed, None)) => Some(Closed)
    case (Granted, Classify(_, _)) => Some(Classifying)
    case (Classifying, UpdateStatus(_, Failed, None)) => Some(Closed)
    case (Classifying, UpdateStatus(_, Done, Some(_))) => Some(Closed)
    case _ => None
  }

  /** The phase reached by `effects` from `p`, or `None` when some call is out of order. */
  function Replay(p: Phase, effects: seq<Effect>): Option<Phase>
    decreases |effects|
  {
    if |effects| == 0 then Some(p)
    else
      match Next(p, effects[0])
      case None => None
      case Some(q) => Replay(q, effects[1..])
  }

  /** Replaying one more call takes one more step. */
  lemma {:induction false} ReplayStep(p: Phase, effects: seq<Effect>, e: Effect)
    ensures Replay(p, effects + [e]) == if Replay(p, effects).Some? then Next(Replay(p, effects).value, e) else None
    decreases |effects|
  {
    if |effects| > 0 {
      assert (effects + [e])[1..] == effects[1..] + [e];
      if Next(p, effects[0]).Some? {
        ReplayStep(Next(p, effects[0]).value, effects[1..], e);
      }
    }
  }

  lemma ReplayFetch(uri: string)
    ensures Replay(Start, [FetchLocal(uri)]) == Some(Fetching)
  {
  }

  predicate FollowsLifeCycle(effects: seq<Effect>) {
    Replay(Start, effects).Some?
  }

  /** A status update is the last call of any run that follows the life cycle,
      so there is at most one. */
  lemma {:induction false} StatusUpdateIsLast(p: Phase, effects: seq<Effect>, i: int)
    requires Replay(p, effects).Some?
    requires 0 <= i < |effects| && effects[i].UpdateStatus?
    ensures i == |effects| - 1
    ensures Replay(p, effects) == Some(Closed)
    decreases |effects|
  {
    var q := Next(p, effects[0]).value;
    if i == 0 {
      assert q == Closed;
      assert |effects| == 1;
    } else {
      StatusUpdateIsLast(q, effects[1..], i - 1);
    }
  }

  /** A trace that follows the life cycle never sets a row back to `uploaded`. */
  lemma {:induction false} UpdatesAreTerminal(p: Phase, effects: seq<Effect>, i: int)
    requires Replay(p, effects).Some?
    requires 0 <= i < |effects| && effects[i].UpdateStatus?
    ensures effects[i].status == Done || effects[i].status == Failed
    decreases |effects|
  {
    if i > 0 {
      UpdatesAreTerminal(Next(p, effects[0]).value, effects[1..], i - 1);
    }
  }

  /** A `Classify` call comes right after a quota call that granted the unit. */
  lemma {:induction false} ClassifyFollowsGrantedQuota(p: Phase, effects: seq<Effect>, i: int)
    requires Replay(p, effects).Some?
    requires 0 <= i < |effects| && effects[i].Classify?
    ensures (i == 0 && p == Granted) || (i > 0 && effects[i - 1].ConsumeImageQuota? && effects[i - 1].granted)
    decreases |effects|
  {
    var q := Next(p, effects[0]).value;
    if i > 0 {
      ClassifyFollowsGrantedQuota(q, effects[1..], i - 1);
    }
  }

  /** How many calls separate `Start` from each phase before the quota call. */
  function CallsBefore(p: Phase): nat {
    match p
    case Start => 0
    case Fetching => 1
    case Storing => 2
    case Registering => 3
    case _ => 4
  }

  /** From the start, the quota call is always the fourth call. */
  lemma {:induction false} QuotaCallIsFourth(p: Phase, effects: seq<Effect>, i: int)
    requires Replay(p, effects).Some?
    requires 0 <= i < |effects| && effects[i].ConsumeImageQuota?
    ensures CallsBefore(p) + i == 3
    decreases |effects|
  {
    if i > 0 {
      QuotaCallIsFourth(Next(p, effects[0]).value, effects[1..], i - 1);
    }
  }

  /** A status update applied to a row, or not when `applied` is false. A
      `failed` update leaves `detected_foods` as it was. */
  function ApplyUpdate(row: ImageRecord, status: ImageStatus, foods: Option<seq<DetectedFood>>, applied: bool): (r: ImageRecord)
    ensures r.id == row.id && r.userId == row.userId && r.storagePath == row.storagePath
    ensures applied ==> r.status == status
    ensures !applied ==> r == row
    ensures foods.Some? && applied ==> r.detectedFoods == foods
    ensures foods.None? ==> r.detectedFoods == row.detectedFoods
  {
    if !applied then row
    else row.(status := status, detectedFoods := if foods.Some? then foods else row.detectedFoods)
  }

  // ---------------------------------------------------------------------------
  // The pipeline
  // ---------------------------------------------------------------------------

  function Fail(message: string): UploadResult {
    UploadResult(false, Some(message), None, None)
  }

  /** Steps 5 to 7, once the row `row` is registered after the calls `registered`:
      charge one unit of image quota, classify, and record the outcome. */
  function ChargeAndClassify(row: ImageRecord, registered: seq<Effect>, c: Collaborators): (run: Run)
    requires Replay(Start, registered) == Some(Registering)
    requires row.status == Uploaded && row.detectedFoods.None?
    ensures FollowsLifeCycle(run.effects) && |run.effects| > |registered| && run.effects[..|registered|] == registered
    ensures run.result.ok <==> run.result.error.None?
    ensures run.result.ok <==> Quota.ConsumeQuota(row.userId, Quota.Image, c.quota).result.ok && c.classify.Classified?
    ensures run.result.ok ==> run.result == UploadResult(true, None, Some(row.id), Some(row.storagePath))
    ensures run.record.Some?
    ensures var r := run.record.value;
      && r.id == row.id && r.userId == row.userId && r.storagePath == row.storagePath
      && (r.status == Uploaded <==> !c.updateApplied)
      && (r.status == Done <==> run.result.ok && c.updateApplied)
      && (r.status == Done ==> r.detectedFoods == Some(c.classify.foods))
    ensures var quota := Quota.ConsumeQuota(row.userId, Quota.Image, c.quota);
      run.effects[|registered|] == ConsumeImageQuota(quota.call, quota.result.ok)
  {
    var imageId := row.id;
    var quota := Quota.ConsumeQuota(row.userId, Quota.Image, c.quota, 1);
    var charged := registered + [ConsumeImageQuota(quota.call, quota.result.ok)];
    ReplayStep(Start, registered, ConsumeImageQuota(quota.call, quota.result.ok));
    if !quota.result.ok then
      ReplayStep(Start, charged, UpdateStatus(imageId, Failed, None));
      Run(Fail(quota.result.error.GetOr(NoQuotaMessage)),
          charged + [UpdateStatus(imageId, Failed, None)],
          Some(ApplyUpdate(row, Failed, None, c.updateApplied)))
    else
      var classifying := charged + [Classify(imageId, row.storagePath)];
      ReplayStep(Start, charged, Classify(imageId, row.storagePath));
      match c.classify
      case Classified(foods) =>
        ReplayStep(Start, classifying, UpdateStatus(imageId, Done, Some(foods)));
        Run(UploadResult(true, None, Some(imageId), Some(row.storagePath)),
            classifying + [UpdateStatus(imageId, Done, Some(foods))],
            Some(ApplyUpdate(row, Done, Some(foods), c.updateApplied)))
      case ClassifyThrew(t) =>
        ReplayStep(Start, classifying, UpdateStatus(imageId, Failed, None));
        Run(Fail(t.message.GetOr(ClassifyFailedMessage)),
            classifying + [UpdateStatus(imageId, Failed, None)],
            Some(ApplyUpdate(row, Failed, None, c.updateApplied)))
  }

  /** Steps 4 to 7, once the object is stored under `storagePath` after the
      two calls `stored`: insert the row, then charge and classify. */
  function Register(userId: string, storagePath: string, stored: seq<Effect>, c: Collaborators): (run: Run)
    requires |stored| == 2 && Replay(Start, stored) == Some(Storing)
    ensures FollowsLifeCycle(run.effects) && |run.effects| >= 3 && run.effects[..2] == stored
    ensures run.effects[2] == InsertImage(userId, storagePath, Uploaded)
    ensures run.result.ok <==> run.result.error.None?
    ensures run.result.ok <==>
      c.insert.Inserted? && Quota.ConsumeQuota(userId, Quota.Image, c.quota).result.ok && c.classify.Classified?
    ensures run.record.Some? <==> c.insert.Inserted?
    ensures run.record.Some? ==>
      && run.record.value.id == c.insert.id
      && run.record.value.userId == userId
      && run.record.value.storagePath == storagePath
      && (run.record.value.status == Uploaded <==> !c.updateApplied)
      && (run.record.value.status == Done <==> run.result.ok && c.updateApplied)
      && (run.record.value.status == Done ==> run.record.value.detectedFoods == Some(c.classify.foods))
    ensures |run.effects| > 3 ==>
      run.effects[3] == ConsumeImageQuota(Quota.RpcCall(Quota.ProcedureName, userId, Quota.Image, 1),
                                          Quota.ConsumeQuota(userId, Quota.Image, c.quota).result.ok)
    ensures run.result.ok ==> run.result == UploadResult(true, None, Some(c.insert.id), Some(storagePath))
  {
    var registered := stored + [InsertImage(userId, storagePath, Uploaded)];
    ReplayStep(Start, stored, InsertImage(userId, storagePath, Uploaded));
    match c.insert
    case InsertError(message) => Run(Fail(message), registered, None)
    case NoRowReturned => Run(Fail(RegisterFailedMessage), registered, None)
    case Inserted(imageId) =>
      var run := ChargeAndClassify(ImageRecord(imageId, userId, storagePath, Uploaded, None), registered, c);
      assert run.effects[..3] == registered;
      run
  }

  /** `uploadMealImage(userId, localUri)` against the given collaborators. */
  function UploadMealImage(userId: string, localUri: string, c: Collaborators): (run: Run)
    ensures FollowsLifeCycle(run.effects)
    ensures run.result.ok <==> run.result.error.None?
    ensures run.result.ok <==>
      && c.fetch.Fetched? && c.storage.Stored? && c.insert.Inserted?
      && Quota.ConsumeQuota(userId, Quota.Image, c.quota).result.ok
      && c.classify.Classified?
    ensures run.record.Some? <==> c.fetch.Fetched? && c.storage.Stored? && c.insert.Inserted?
    ensures run.record.Some? ==>
      && run.record.value.id == c.insert.id
      && run.record.value.userId == userId
      && run.record.value.storagePath == c.storage.path.GetOr(StorageKey(userId, c.now, c.uuid, FileExt(localUri)))
      && (run.record.value.status == Uploaded <==> !c.updateApplied)
      && (run.record.value.status == Done <==> run.result.ok && c.updateApplied)
      && (run.record.value.status == Done ==> run.record.value.detectedFoods == Some(c.classify.foods))
    ensures |run.effects| > 3 ==>
      run.effects[3] == ConsumeImageQuota(Quota.RpcCall(Quota.ProcedureName, userId, Quota.Image, 1),
                                          Quota.ConsumeQuota(userId, Quota.Image, c.quota).result.ok)
    ensures run.result.ok ==> run.result.imageId == Some(run.record.value.id)
                              && run.result.storagePath == Some(run.record.value.storagePath)
  {
    var ext := FileExt(localUri);
    var key := StorageKey(userId, c.now, c.uuid, ext);
    ReplayFetch(localUri);
    match c.fetch
    case FetchThrew(t) =>
      Run(Fail(t.message.GetOr(UnknownErrorMessage)), [FetchLocal(localUri)], None)
    case Fetched(blobType) =>
      var stored := [FetchLocal(localUri), StoreObject(Bucket, key, ContentType(blobType, ext), false)];
      ReplayStep(Start, [FetchLocal(localUri)], stored[1]);
      assert [FetchLocal(localUri)] + [stored[1]] == stored;
      match c.storage
      case StorageError(message) => Run(Fail(message), stored, None)
      case Stored(path) => Register(userId, path.GetOr(key), stored, c)
  }

  // ---------------------------------------------------------------------------
  // The outcome of each path
  // ---------------------------------------------------------------------------

  /** The upload request every run that gets past the fetch makes. */
  function UploadCall(userId: string, localUri: string, c: Collaborators, blobType: string): Effect {
    StoreObject(Bucket, StorageKey(userId, c.now, c.uuid, FileExt(localUri)), ContentType(blobType, FileExt(localUri)), false)
  }

  /** A failed fetch reaches the outer handler: nothing is uploaded or recorded. */
  lemma FetchFailurePath(userId: string, localUri: string, c: Collaborators)
    requires c.fetch.FetchThrew?
    ensures UploadMealImage(userId, localUri, c) ==
      Run(Fail(c.fetch.thrown.message.GetOr(UnknownErrorMessage)), [FetchLocal(localUri)], None)
  {
  }

  /** An upload error is returned as is; no row is inserted, no quota consumed
      and no status updated. */
  lemma UploadErrorPath(userId: string, localUri: string, c: Collaborators)
    requires c.fetch.Fetched? && c.storage.StorageError?
    ensures UploadMealImage(userId, localUri, c) ==
      Run(UploadResult(false, Some(c.storage.message), None, None),
          [FetchLocal(localUri), UploadCall(userId, localUri, c, c.fetch.blobType)], None)
  {
  }

  /** An insert error, or an insert that returns no row, ends the run before
      any quota is consumed or any status updated; no row exists. */
  lemma InsertErrorPath(userId: string, localUri: string, c: Collaborators)
    requires c.fetch.Fetched? && c.storage.Stored? && !c.insert.Inserted?
    ensures var run := UploadMealImage(userId, localUri, c);
      && !run.result.ok
      && run.result.error == Some(if c.insert.InsertError? then c.insert.message else RegisterFailedMessage)
      && run.record.None?
      && |run.effects| == 3
      && run.effects[2] == InsertImage(userId, c.storage.path.GetOr(StorageKey(userId, c.now, c.uuid, FileExt(localUri))), Uploaded)
  {
  }

  /** A refused quota marks the row failed with exactly one status update and
      returns the quota's error; classification is never attempted. */
  lemma QuotaDeniedPath(userId: string, localUri: string, c: Collaborators)
    requires c.fetch.Fetched? && c.storage.Stored? && c.insert.Inserted?
    requires !Quota.ConsumeQuota(userId, Quota.Image, c.quota).result.ok
    ensures var run := UploadMealImage(userId, localUri, c);
      && run.result == Fail(Quota.ConsumeQuota(userId, Quota.Image, c.quota).result.error.value)
      && |run.effects| == 5
      && run.effects[3] == ConsumeImageQuota(Quota.RpcCall(Quota.ProcedureName, userId, Quota.Image, 1), false)
      && run.effects[4] == UpdateStatus(c.insert.id, Failed, None)
      && run.record.value.status == (if c.updateApplied then Failed else Uploaded)
  {
  }

  /** A granted quota and a successful classification mark the row done with
      the detected foods and return the row's identifier and storage path,
      which is the path the store reported or else the generated key. */
  lemma ClassifiedPath(userId: string, localUri: string, c: Collaborators)
    requires c.fetch.Fetched? && c.storage.Stored? && c.insert.Inserted?
    requires Quota.ConsumeQuota(userId, Quota.Image, c.quota).result.ok && c.classify.Classified?
    ensures var run := UploadMealImage(userId, localUri, c);
      var path := c.storage.path.GetOr(StorageKey(userId, c.now, c.uuid, FileExt(localUri)));
      && run.result == UploadResult(true, None, Some(c.insert.id), Some(path))
      && |run.effects| == 6
      && run.effects[4] == Classify(c.insert.id, path)
      && run.effects[5] == UpdateStatus(c.insert.id, Done, Some(c.classify.foods))
      && (c.updateApplied ==> run.record == Some(ImageRecord(c.insert.id, userId, path, Done, Some(c.classify.foods))))
  {
  }

  /** A classification failure marks the row failed and returns the failure's message. */
  lemma ClassifyFailurePath(userId: string, localUri: string, c: Collaborators)
    requires c.fetch.Fetched? && c.storage.Stored? && c.insert.Inserted?
    requires Quota.ConsumeQuota(userId, Quota.Image, c.quota).result.ok && c.classify.ClassifyThrew?
    ensures var run := UploadMealImage(userId, localUri, c);
      && run.result == Fail(c.classify.thrown.message.GetOr(ClassifyFailedMessage))
      && |run.effects| == 6
      && run.effects[5] == UpdateStatus(c.insert.id, Failed, None)
  {
  }

  /** Every run issues at most one status update, and only to `done` or `failed`. */
  lemma AtMostOneStatusUpdate(userId: string, localUri: string, c: Collaborators)
    ensures var es := UploadMealImage(userId, localUri, c).effects;
      forall i, j :: 0 <= i < j < |es| ==> !(es[i].UpdateStatus? && es[j].UpdateStatus?)
    ensures var es := UploadMealImage(userId, localUri, c).effects;
      forall i :: 0 <= i < |es| && es[i].UpdateStatus? ==> es[i].status != Uploaded
  {
    var es := UploadMealImage(userId, localUri, c).effects;
    forall i | 0 <= i < |es| && es[i].UpdateStatus?
      ensures i == |es| - 1 && es[i].status != Uploaded
    {
      StatusUpdateIsLast(Start, es, i);
      UpdatesAreTerminal(Start, es, i);
    }
  }

  /** Classification is attempted only as the fifth call, right after a quota
      call that granted the unit. */
  lemma ClassifyOnlyAfterGrantedQuota(userId: string, localUri: string, c: Collaborators)
    ensures var es := UploadMealImage(userId, localUri, c).effects;
      forall i :: 0 <= i < |es| && es[i].Classify? ==>
        && i == 4 && es[3].ConsumeImageQuota? && es[3].granted
        && Quota.ConsumeQuota(userId, Quota.Image, c.quota).result.ok
  {
    var es := UploadMealImage(userId, localUri, c).effects;
    forall i | 0 <= i < |es| && es[i].Classify?
      ensures i == 4 && es[3].ConsumeImageQuota? && es[3].granted
    {
      ClassifyFollowsGrantedQuota(Start, es, i);
      QuotaCallIsFourth(Start, es, i - 1);
    }
  }

  /** The code ignores the outcome of the status update: the result and the
      calls are the same whether or not it took effect. */
  lemma ResultIgnoresStatusUpdate(userId: string, localUri: string, c: Collaborators)
    ensures UploadMealImage(userId, localUri, c).result == UploadMealImage(userId, localUri, c.(updateApplied := !c.updateApplied)).result
    ensures UploadMealImage(userId, localUri, c).effects == UploadMealImage(userId, localUri, c.(updateApplied := !c.updateApplied)).effects
  {
  }

  /** With the fixed classifier the code ships, a granted quota always ends in success. */
  lemma StubClassifierNeverFails(userId: string, localUri: string, c: Collaborators)
    requires c.classify == StubClassifier
    requires c.fetch.Fetched? && c.storage.Stored? && c.insert.Inserted?
    ensures UploadMealImage(userId, localUri, c).result.ok <==> Quota.ConsumeQuota(userId, Quota.Image, c.quota).result.ok
  {
  }
}
