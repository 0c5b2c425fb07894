/** The record store (src/database/service.py) as the job lifecycle uses it:
    a value holding the user, task and image collections, with one function
    per store call. Documents are kept as the records they were written
    from, which the round-trip lemmas of `Models` justify. Indexes, the
    unique-key errors they raise, connection failures and clean-up are not
    part of this model. */
module Database {
  import opened Values
  import opened Models

  datatype Store = Store(
    users: map<int, User>,
    tasks: map<string, TaskRecord>,
    images: seq<ImageRecord>)

  const EmptyStore: Store := Store(map[], map[], [])

  /** `get_or_create_user(telegram_id)`: the stored user, or a freshly
      inserted one with default preferences and zeroed usage counters. */
  function GetOrCreateUser(s: Store, telegramId: int, now: int): (res: (Store, User))
    ensures telegramId in s.users ==> res == (s, s.users[telegramId])
    ensures telegramId !in s.users ==>
      res.0 == s.(users := s.users[telegramId := res.1]) &&
      res.1.telegramId == telegramId &&
      res.1.usageStats == DefaultUsageStats && res.1.preferences == DefaultPreferences
    ensures telegramId in res.0.users && res.0.users[telegramId] == res.1
  {
    if telegramId in s.users then (s, s.users[telegramId])
    else
      var u := NewUser(telegramId, None, None, None, None, None, None, None, None, now);
      (s.(users := s.users[telegramId := u]), u)
  }

  /** `get_task_record(task_id)`: the stored task with that id, or `None`
      when there is none. */
  function GetTaskRecord(s: Store, taskId: string): (r: Option<TaskRecord>)
    ensures r.Some? <==> taskId in s.tasks
    ensures r.Some? ==> r.value == s.tasks[taskId]
  {
    if taskId in s.tasks then Some(s.tasks[taskId]) else None
  }

  /** `save_task_record(record)`: afterwards the record is what a lookup of
      its task id returns; no other task and nothing else changes. */
  function SaveTaskRecord(s: Store, r: TaskRecord): (s': Store)
    ensures GetTaskRecord(s', r.taskId) == Some(r)
    ensures forall t :: t != r.taskId ==> GetTaskRecord(s', t) == GetTaskRecord(s, t)
    ensures s'.users == s.users && s'.images == s.images
  {
    s.(tasks := s.tasks[r.taskId := r])
  }

  /** `update_task_status(task_id, status, result_url, error_message)`:
      only an existing task is touched; its status and update time are
      always written, the result URL and the error message only when
      truthy. The flag says whether a task was matched. */
  function UpdateTaskStatus(s: Store, taskId: string, status: string, resultUrl: Value,
                            errorMessage: Value, now: int): (res: (Store, bool))
    ensures res.1 <==> taskId in s.tasks
    ensures !res.1 ==> res.0 == s
    ensures res.0.users == s.users && res.0.images == s.images
    ensures res.0.tasks.Keys == s.tasks.Keys
    ensures forall t :: t in s.tasks && t != taskId ==> res.0.tasks[t] == s.tasks[t]
    ensures taskId in s.tasks ==>
      var old_, new_ := s.tasks[taskId], res.0.tasks[taskId];
      new_.status == status && new_.updatedAt == now &&
      new_.resultUrl == (if Truthy(resultUrl) then resultUrl else old_.resultUrl) &&
      new_.errorMessage == (if Truthy(errorMessage) then errorMessage else old_.errorMessage) &&
      new_ == old_.(status := new_.status, updatedAt := now, resultUrl := new_.resultUrl,
                    errorMessage := new_.errorMessage)
  {
    if taskId !in s.tasks then (s, false)
    else
      var r := s.tasks[taskId].(status := status, updatedAt := now);
      var r := if Truthy(resultUrl) then r.(resultUrl := resultUrl) else r;
      var r := if Truthy(errorMessage) then r.(errorMessage := errorMessage) else r;
      (s.(tasks := s.tasks[taskId := r]), true)
  }

  /** `save_image_record(record)`: appends to the image collection. */
  function SaveImageRecord(s: Store, r: ImageRecord): (s': Store)
    ensures s'.images == s.images + [r]
    ensures s'.users == s.users && s'.tasks == s.tasks
  {
    s.(images := s.images + [r])
  }

  /** The counter `usage_stats.<stat>` of a user as a number; an absent
      user or counter reads as 0. */
  function UsageCount(s: Store, user: int, stat: string): int {
    if user in s.users && stat in s.users[user].usageStats && s.users[user].usageStats[stat].Int?
    then s.users[user].usageStats[stat].i
    else 0
  }

  /** Whether `$inc` on `usage_stats.<stat>` applies: the user document
      exists, the counter is absent or numeric, and it is not `last_used`,
      which the same update also `$set`s. An update on a missing user
      matches nothing; the other cases are store errors, which
      `increment_usage_stats` logs and swallows. */
  predicate CanIncrement(s: Store, user: int, stat: string) {
    user in s.users && stat != "last_used" &&
    (stat !in s.users[user].usageStats || s.users[user].usageStats[stat].Int?)
  }

  /** `increment_usage_stats(telegram_id, stat)`: adds one to the counter,
      stamps `last_used` and `updated_at`, and is a no-op when the update
      cannot apply. */
  function IncrementUsageStats(s: Store, user: int, stat: string, now: int): (s': Store)
    ensures CanIncrement(s, user, stat) ==>
      UsageCount(s', user, stat) == UsageCount(s, user, stat) + 1 &&
      user in s'.users && "last_used" in s'.users[user].usageStats &&
      s'.users[user].usageStats["last_used"] == Int(now) && s'.users[user].updatedAt == now
    ensures !CanIncrement(s, user, stat) ==> s' == s
    ensures forall other :: other != stat && other != "last_used" ==>
      UsageCount(s', user, other) == UsageCount(s, user, other)
    ensures forall v :: v != user ==> UsageCount(s', v, stat) == UsageCount(s, v, stat)
    ensures s'.users.Keys == s.users.Keys && s'.tasks == s.tasks && s'.images == s.images
    ensures forall v :: v in s.users && v != user ==> s'.users[v] == s.users[v]
    ensures CanIncrement(s, user, stat) ==> IncrementedOnly(s.users[user], s'.users[user], stat)
  {
    if !CanIncrement(s, user, stat) then s
    else
      var u := s.users[user];
      var count := UsageCount(s, user, stat);
      var stats := u.usageStats[stat := Int(count + 1)]["last_used" := Int(now)];
      s.(users := s.users[user := u.(usageStats := stats, updatedAt := now)])
  }

  /** Between `u` and `u'` only the counter `stat`, `last_used` and
      `updated_at` differ: every other field and every other counter keeps
      its value, and no counter other than those two appears. */
  predicate IncrementedOnly(u: User, u': User, stat: string) {
    u' == u.(usageStats := u'.usageStats, updatedAt := u'.updatedAt) &&
    u'.usageStats.Keys == u.usageStats.Keys + {stat, "last_used"} &&
    forall k :: k in u.usageStats && k != stat && k != "last_used" ==>
      u'.usageStats[k] == u.usageStats[k]
  }

  // ----- Inserting documents -----

  /** No `_id` occurs twice. */
  predicate Distinct(ids: seq<Value>) {
    forall i, j :: 0 <= i < j < |ids| ==> ids[i] != ids[j]
  }

  /** The `_id` a document is stored under: the one it carries, `None`
      included, or the freshly generated `newId` when it has no `_id` key. */
  function StoredId(doc: map<string, Value>, newId: int): Value {
    if "_id" in doc then doc["_id"] else Int(newId)
  }

  /** `insert_one(doc)` on a collection, seen through the `_id`s it holds:
      the unique index on `_id` refuses a document whose stored id is
      already there; otherwise the id is appended and the ids stay
      distinct. */
  function InsertOne(ids: seq<Value>, doc: map<string, Value>, newId: int): (r: Result<seq<Value>, string>)
    ensures r.Err? <==> StoredId(doc, newId) in ids
    ensures r.Ok? ==> |r.value| == |ids| + 1 && r.value[..|ids|] == ids &&
                      r.value[|ids|] == StoredId(doc, newId)
    ensures r.Ok? && Distinct(ids) ==> Distinct(r.value)
  {
    var id := StoredId(doc, newId);
    if id in ids then Err("E11000 duplicate key error") else Ok(ids + [id])
  }

  /** As written, `to_dict()` of a record not yet stored keeps `"_id": None`
      (dataclasses' `asdict` emits every field), so the first new user,
      task or image of a collection is stored under `_id` null and every
      later one is refused as a duplicate. */
  lemma NewRecordsShareNullId(ids: seq<Value>, u: User, t: TaskRecord, i: ImageRecord, newId: int)
    requires u.id == None && t.id == None && i.id == None
    ensures Null !in ids ==>
      InsertOne(ids, UserToDict(u), newId) == Ok(ids + [Null]) &&
      InsertOne(ids, TaskToDict(t), newId) == Ok(ids + [Null]) &&
      InsertOne(ids, ImageToDict(i), newId) == Ok(ids + [Null])
    ensures Null in ids ==>
      InsertOne(ids, UserToDict(u), newId).Err? &&
      InsertOne(ids, TaskToDict(t), newId).Err? &&
      InsertOne(ids, ImageToDict(i), newId).Err?
  {
  }

  /** The evidently intended document: `_id` only when the record has one,
      so that the driver generates a fresh id for a new record. */
  function InsertDoc(d: map<string, Value>): (r: map<string, Value>)
    ensures "_id" in d && d["_id"] != Null ==> r == d
    ensures "_id" in r ==> r["_id"] != Null
    ensures r.Keys == d.Keys || r.Keys == d.Keys - {"_id"}
    ensures forall k :: k in r ==> r[k] == d[k]
  {
    if "_id" in d && d["_id"] == Null then d - {"_id"} else d
  }

  /** With the intended document every new user, task or image is stored
      under the id the driver generates, so inserting it succeeds whenever
      that id is new, and the ids stay distinct. */
  lemma NewRecordsInsertFresh(ids: seq<Value>, u: User, t: TaskRecord, i: ImageRecord, newId: int)
    requires u.id == None && t.id == None && i.id == None
    requires Int(newId) !in ids && Distinct(ids)
    ensures InsertOne(ids, InsertDoc(UserToDict(u)), newId) == Ok(ids + [Int(newId)])
    ensures InsertOne(ids, InsertDoc(TaskToDict(t)), newId) == Ok(ids + [Int(newId)])
    ensures InsertOne(ids, InsertDoc(ImageToDict(i)), newId) == Ok(ids + [Int(newId)])
    ensures Distinct(ids + [Int(newId)])
  {
  }
}
