/** The three persisted record types of the bot (src/database/models.py).
    Each Python dataclass becomes a datatype; its `__post_init__` becomes the
    `New...` function that fills the fields left as `None` with their
    defaults; `to_dict` becomes `...ToDict`, and the `Record(**doc)` calls
    with which the store reads documents back become `...FromDoc`.
    Clock readings are passed in as `now`; ObjectIds are integers. */
module Models {
  import opened Values

  datatype User = User(
    telegramId: int,
    username: Option<string>,
    firstName: Option<string>,
    lastName: Option<string>,
    preferences: map<string, Value>,
    usageStats: map<string, Value>,
    createdAt: int,
    updatedAt: int,
    id: Option<int>)

  datatype ImageRecord = ImageRecord(
    userId: int,
    prompt: string,
    imageUrl: Value,
    taskId: string,
    metadata: map<string, Value>,
    imageType: string,
    createdAt: int,
    id: Option<int>)

  /** `prompt` is an optional string; `resultUrl` and `errorMessage` hold
      whatever the provider sent (`Null` when unset). */
  datatype TaskRecord = TaskRecord(
    userId: int,
    taskId: string,
    taskType: string,
    status: string,
    prompt: Option<string>,
    resultUrl: Value,
    errorMessage: Value,
    createdAt: int,
    updatedAt: int,
    id: Option<int>)

  const UserFields: set<string> :=
    {"telegram_id", "username", "first_name", "last_name", "preferences",
     "usage_stats", "created_at", "updated_at", "_id"}

  const ImageFields: set<string> :=
    {"user_id", "prompt", "image_url", "task_id", "metadata", "image_type",
     "created_at", "_id"}

  const TaskFields: set<string> :=
    {"user_id", "task_id", "task_type", "status", "prompt", "result_url",
     "error_message", "created_at", "updated_at", "_id"}

  /** Preferences of a user created without any. */
  const DefaultPreferences: map<string, Value> :=
    map["default_style" := Str("realistic"), "image_quality" := Str("high"),
        "notifications" := Bool(true)]

  /** Usage counters of a user created without any. */
  const DefaultUsageStats: map<string, Value> :=
    map["total_generations" := Int(0), "total_edits" := Int(0),
        "total_enhancements" := Int(0), "last_used" := Null]

  /** `User(...)` followed by `__post_init__`: `None` preferences, usage
      stats and timestamps are replaced by the defaults (the timestamps by
      `now`); anything supplied, even an empty dict, is kept. */
  function NewUser(telegramId: int, username: Option<string>, firstName: Option<string>,
                   lastName: Option<string>, preferences: Option<map<string, Value>>,
                   usageStats: Option<map<string, Value>>, createdAt: Option<int>,
                   updatedAt: Option<int>, id: Option<int>, now: int): (u: User)
    ensures u.telegramId == telegramId && u.id == id
    ensures u.username == username && u.firstName == firstName && u.lastName == lastName
    ensures preferences.Some? ==> u.preferences == preferences.value
    ensures preferences.None? ==>
      u.preferences.Keys == {"default_style", "image_quality", "notifications"} &&
      u.preferences["default_style"] == Str("realistic") &&
      u.preferences["image_quality"] == Str("high") &&
      u.preferences["notifications"] == Bool(true)
    ensures usageStats.Some? ==> u.usageStats == usageStats.value
    ensures usageStats.None? ==>
      u.usageStats.Keys == {"total_generations", "total_edits", "total_enhancements", "last_used"} &&
      u.usageStats["total_generations"] == Int(0) && u.usageStats["total_edits"] == Int(0) &&
      u.usageStats["total_enhancements"] == Int(0) && u.usageStats["last_used"] == Null
    ensures u.createdAt == (if createdAt.Some? then createdAt.value else now)
    ensures u.updatedAt == (if updatedAt.Some? then updatedAt.value else now)
  {
    User(telegramId, username, firstName, lastName,
         if preferences.Some? then preferences.value else DefaultPreferences,
         if usageStats.Some? then usageStats.value else DefaultUsageStats,
         if createdAt.Some? then createdAt.value else now,
         if updatedAt.Some? then updatedAt.value else now,
         id)
  }

  /** `ImageRecord(...)` followed by `__post_init__`: missing metadata becomes
      `{}`, a missing creation time becomes `now`; `image_type` keeps its
      declared default `"generation"` unless the caller passes one. */
  function NewImageRecord(userId: int, prompt: string, imageUrl: Value, taskId: string,
                          metadata: Option<map<string, Value>>, imageType: Option<string>,
                          createdAt: Option<int>, now: int): (r: ImageRecord)
    ensures r.userId == userId && r.prompt == prompt && r.imageUrl == imageUrl
    ensures r.taskId == taskId && r.id == None
    ensures r.metadata == (if metadata.Some? then metadata.value else map[])
    ensures r.imageType == (if imageType.Some? then imageType.value else "generation")
    ensures r.createdAt == (if createdAt.Some? then createdAt.value else now)
  {
    ImageRecord(userId, prompt, imageUrl, taskId,
                if metadata.Some? then metadata.value else map[],
                if imageType.Some? then imageType.value else "generation",
                if createdAt.Some? then createdAt.value else now,
                None)
  }

  /** `TaskRecord(...)` followed by `__post_init__`: result and error start
      unset; only the two timestamps are filled in, and only when `None`. */
  function NewTaskRecord(userId: int, taskId: string, taskType: string, status: string,
                         prompt: Option<string>, createdAt: Option<int>,
                         updatedAt: Option<int>, now: int): (r: TaskRecord)
    ensures r.userId == userId && r.taskId == taskId && r.taskType == taskType
    ensures r.status == status && r.prompt == prompt && r.id == None
    ensures r.resultUrl == Null && r.errorMessage == Null
    ensures r.createdAt == (if createdAt.Some? then createdAt.value else now)
    ensures r.updatedAt == (if updatedAt.Some? then updatedAt.value else now)
  {
    TaskRecord(userId, taskId, taskType, status, prompt, Null, Null,
               if createdAt.Some? then createdAt.value else now,
               if updatedAt.Some? then updatedAt.value else now,
               None)
  }

  /** `User.to_dict()`: one key per dataclass field, `_id` included whether
      or not the user has one yet. */
  function UserToDict(u: User): (d: map<string, Value>)
    ensures d.Keys == UserFields
    ensures d["_id"] == OptInt(u.id)
    ensures d["telegram_id"] == Int(u.telegramId)
    ensures d["preferences"] == Obj(u.preferences) && d["usage_stats"] == Obj(u.usageStats)
  {
    var data := map["telegram_id" := Int(u.telegramId), "username" := OptStr(u.username),
                    "first_name" := OptStr(u.firstName), "last_name" := OptStr(u.lastName),
                    "preferences" := Obj(u.preferences), "usage_stats" := Obj(u.usageStats),
                    "created_at" := Int(u.createdAt), "updated_at" := Int(u.updatedAt),
                    "_id" := OptInt(u.id)];
    if u.id.Some? then data["_id" := Int(u.id.value)] else data
  }

  /** `ImageRecord.to_dict()`. */
  function ImageToDict(r: ImageRecord): (d: map<string, Value>)
    ensures d.Keys == ImageFields
    ensures d["_id"] == OptInt(r.id)
    ensures d["image_url"] == r.imageUrl && d["task_id"] == Str(r.taskId)
  {
    var data := map["user_id" := Int(r.userId), "prompt" := Str(r.prompt),
                    "image_url" := r.imageUrl, "task_id" := Str(r.taskId),
                    "metadata" := Obj(r.metadata), "image_type" := Str(r.imageType),
                    "created_at" := Int(r.createdAt), "_id" := OptInt(r.id)];
    if r.id.Some? then data["_id" := Int(r.id.value)] else data
  }

  /** `TaskRecord.to_dict()`. */
  function TaskToDict(r: TaskRecord): (d: map<string, Value>)
    ensures d.Keys == TaskFields
    ensures d["_id"] == OptInt(r.id)
    ensures d["task_id"] == Str(r.taskId) && d["status"] == Str(r.status)
    ensures d["result_url"] == r.resultUrl && d["error_message"] == r.errorMessage
  {
    var data := map["user_id" := Int(r.userId), "task_id" := Str(r.taskId),
                    "task_type" := Str(r.taskType), "status" := Str(r.status),
                    "prompt" := OptStr(r.prompt), "result_url" := r.resultUrl,
                    "error_message" := r.errorMessage, "created_at" := Int(r.createdAt),
                    "updated_at" := Int(r.updatedAt), "_id" := OptInt(r.id)];
    if r.id.Some? then data["_id" := Int(r.id.value)] else data
  }

  // Reading one keyword argument of `Record(**doc)`: an absent key and an
  // explicit `None` both leave the dataclass default in place. The outer
  // `None` marks a stored value of a type this model does not represent.

  function OptStrArg(doc: map<string, Value>, key: string): Option<Option<string>> {
    var v := Get(doc, key, Null);
    if v == Null then Some(None) else if v.Str? then Some(Some(v.s)) else None
  }

  function OptIntArg(doc: map<string, Value>, key: string): Option<Option<int>> {
    var v := Get(doc, key, Null);
    if v == Null then Some(None) else if v.Int? then Some(Some(v.i)) else None
  }

  function OptObjArg(doc: map<string, Value>, key: string): Option<Option<map<string, Value>>> {
    var v := Get(doc, key, Null);
    if v == Null then Some(None) else if v.Obj? then Some(Some(v.fields)) else None
  }

  /** `User(**doc)`: `None` when the document has a key that is not a field
      or lacks `telegram_id` (Python raises `TypeError`), or holds a value of
      a type the model does not represent. */
  function UserFromDoc(doc: map<string, Value>, now: int): (u: Option<User>)
    ensures u.Some? ==> doc.Keys <= UserFields && "telegram_id" in doc
    ensures u.Some? ==> doc["telegram_id"] == Int(u.value.telegramId)
  {
    var name := OptStrArg(doc, "username");
    var first := OptStrArg(doc, "first_name");
    var last := OptStrArg(doc, "last_name");
    var prefs := OptObjArg(doc, "preferences");
    var stats := OptObjArg(doc, "usage_stats");
    var created := OptIntArg(doc, "created_at");
    var updated := OptIntArg(doc, "updated_at");
    var id := OptIntArg(doc, "_id");
    if !(doc.Keys <= UserFields) || "telegram_id" !in doc || !doc["telegram_id"].Int? then None
    else if name.None? || first.None? || last.None? || prefs.None? || stats.None? ||
            created.None? || updated.None? || id.None? then None
    else Some(NewUser(doc["telegram_id"].i, name.value, first.value, last.value, prefs.value,
                      stats.value, created.value, updated.value, id.value, now))
  }

  /** `ImageRecord(**doc)`: the four fields without a default are required. */
  function ImageFromDoc(doc: map<string, Value>, now: int): (r: Option<ImageRecord>)
    ensures r.Some? ==> doc.Keys <= ImageFields
    ensures r.Some? ==> {"user_id", "prompt", "image_url", "task_id"} <= doc.Keys
    ensures r.Some? ==> r.value.imageUrl == doc["image_url"]
  {
    var meta := OptObjArg(doc, "metadata");
    var created := OptIntArg(doc, "created_at");
    var id := OptIntArg(doc, "_id");
    var kind := Get(doc, "image_type", Str("generation"));
    if !(doc.Keys <= ImageFields) || !({"user_id", "prompt", "image_url", "task_id"} <= doc.Keys) then None
    else if !doc["user_id"].Int? || !doc["prompt"].Str? || !doc["task_id"].Str? || !kind.Str? then None
    else if meta.None? || created.None? || id.None? then None
    else
      var r := NewImageRecord(doc["user_id"].i, doc["prompt"].s, doc["image_url"],
                              doc["task_id"].s, meta.value, Some(kind.s), created.value, now);
      Some(r.(id := id.value))
  }

  /** `TaskRecord(**doc)`: the four fields without a default are required. */
  function TaskFromDoc(doc: map<string, Value>, now: int): (r: Option<TaskRecord>)
    ensures r.Some? ==> doc.Keys <= TaskFields
    ensures r.Some? ==> {"user_id", "task_id", "task_type", "status"} <= doc.Keys
    ensures r.Some? ==> doc["task_id"] == Str(r.value.taskId)
  {
    var prompt := OptStrArg(doc, "prompt");
    var created := OptIntArg(doc, "created_at");
    var updated := OptIntArg(doc, "updated_at");
    var id := OptIntArg(doc, "_id");
    if !(doc.Keys <= TaskFields) || !({"user_id", "task_id", "task_type", "status"} <= doc.Keys) then None
    else if !doc["user_id"].Int? || !doc["task_id"].Str? || !doc["task_type"].Str? || !doc["status"].Str? then None
    else if prompt.None? || created.None? || updated.None? || id.None? then None
    else
      var r := NewTaskRecord(doc["user_id"].i, doc["task_id"].s, doc["task_type"].s,
                             doc["status"].s, prompt.value, created.value, updated.value, now);
      Some(r.(resultUrl := Get(doc, "result_url", Null),
              errorMessage := Get(doc, "error_message", Null), id := id.value))
  }

  /** A stored user reads back as the same user: `User(**u.to_dict())`
      equals `u`, whatever the clock says at reading time. */
  lemma UserRoundTrip(u: User, now: int)
    ensures UserFromDoc(UserToDict(u), now) == Some(u)
  {
    var d := UserToDict(u);
    assert d.Keys == UserFields;
    assert OptStrArg(d, "username") == Some(u.username);
    assert OptStrArg(d, "first_name") == Some(u.firstName);
    assert OptStrArg(d, "last_name") == Some(u.lastName);
    assert OptObjArg(d, "preferences") == Some(Some(u.preferences));
    assert OptObjArg(d, "usage_stats") == Some(Some(u.usageStats));
    assert OptIntArg(d, "created_at") == Some(Some(u.createdAt));
    assert OptIntArg(d, "updated_at") == Some(Some(u.updatedAt));
    assert OptIntArg(d, "_id") == Some(u.id);
  }

  /** `ImageRecord(**r.to_dict())` equals `r`. */
  lemma ImageRoundTrip(r: ImageRecord, now: int)
    ensures ImageFromDoc(ImageToDict(r), now) == Some(r)
  {
    var d := ImageToDict(r);
    assert d.Keys == ImageFields;
  }

  /** `TaskRecord(**r.to_dict())` equals `r`. */
  lemma TaskRoundTrip(r: TaskRecord, now: int)
    ensures TaskFromDoc(TaskToDict(r), now) == Some(r)
  {
    var d := TaskToDict(r);
    assert d.Keys == TaskFields;
  }
}
