/** The job lifecycle of the command handlers (src/handlers/commands.py).
    A command is admitted by the rate limiter and then, in a separate step,
    takes an active-task slot and starts a background job; the job submits
    to the image provider, polls it, records the outcome in the store and,
    in its `finally` block, gives the slot back and drops the user's
    `pending_tasks` entry. Jobs run one at a time, each to completion, in
    whatever order the caller chooses. Telegram replies are left out; a
    `sendOk` flag says whether the Telegram calls made before the slot is
    taken succeeded. */
module Commands {
  import opened Values
  import opened Models
  import opened Database
  import opened RateLimiting
  import opened AiService
  import Text

  datatype JobKind = Generation | Enhancement

  /** A started background job: `id` stands for the asyncio task object. */
  datatype Job = Job(id: nat, user: UserId, kind: JobKind, prompt: string)

  const EnhancementPrompt := "high quality, detailed, professional, enhanced, 4k resolution"

  /** Both task bodies poll with a 300-second timeout. */
  const PollTimeout := 300

  /** The keyword arguments both task bodies pass to `generate_image`; also
      the metadata of a generated image's record. */
  const ImageSize: map<string, Value> := map["width" := Int(1024), "height" := Int(1024)]

  // ----- What a finished poll means to a task -----

  /** `result.get("result", {}).get("sample")`; `None` when the `result`
      entry is present but not a dict, where the expression raises. */
  function Sample(result: map<string, Value>): (r: Option<Value>)
    ensures r.None? <==> "result" in result && !result["result"].Obj?
    ensures r.Some? && "result" in result ==> r.value == Get(result["result"].fields, "sample", Null)
    ensures "result" !in result ==> r == Some(Null)
  {
    match Get(result, "result", Obj(map[]))
    case Obj(fields) => Some(Get(fields, "sample", Null))
    case _ => None
  }

  /** How a task body reads the poll result. */
  datatype Outcome =
    | Delivered(url: Value)                   // `Ready` with a truthy sample
    | NoImage                                 // `Ready` with a missing or falsy sample
    | ProviderFailed(status: string, error: Value)  // `Error`, `Failed`, `Content Moderated`
    | NotFinished                             // `Timeout`, a missing or unknown status
    | Crashed                                 // `Ready` whose `result` is not a dict

  const UnknownError := "Unknown error occurred"

  function ClassifyResult(result: map<string, Value>): (o: Outcome)
    ensures o.Delivered? <==>
      StatusOf(result) == Str("Ready") && Sample(result).Some? && Truthy(Sample(result).value)
    ensures o.Delivered? ==> Truthy(o.url) && Sample(result) == Some(o.url)
    ensures o.NoImage? <==>
      StatusOf(result) == Str("Ready") && Sample(result).Some? && !Truthy(Sample(result).value)
    ensures o.Crashed? <==> StatusOf(result) == Str("Ready") && Sample(result).None?
    ensures o.ProviderFailed? <==> Classify(StatusOf(result)) == FailureStatus
    ensures o.ProviderFailed? ==>
      StatusOf(result) == Str(o.status) && o.error == Get(result, "error", Str(UnknownError))
    ensures o.NotFinished? <==> Classify(StatusOf(result)) in {WaitingStatus, UnknownStatus}
  {
    var status := StatusOf(result);
    if status == Str("Ready") then
      match Sample(result)
      case None => Crashed
      case Some(url) => if Truthy(url) then Delivered(url) else NoImage
    else if Classify(status) == FailureStatus then
      ProviderFailed(status.s, Get(result, "error", Str(UnknownError)))
    else NotFinished
  }

  /** Whatever the provider did, a settled poll result (one that is never
      `Pending` or `Request Moderated`) is read as not finished only when
      its status is a timeout, missing or unknown. */
  lemma SettledNotFinished(result: map<string, Value>)
    requires Classify(StatusOf(result)) != WaitingStatus
    ensures ClassifyResult(result).NotFinished? <==> Classify(StatusOf(result)) == UnknownStatus
  {
  }

  // ----- Store effects of the two task bodies -----

  /** The `Pending` record the generation task saves once submission has
      returned a task id. */
  function PendingRecord(job: Job, taskId: string, now: int): TaskRecord {
    NewTaskRecord(job.user, taskId, "generation", "Pending", Some(job.prompt), None, None, now)
  }

  /** The store writes of `_generate_image_task` after its poll. */
  function GenerationEffect(s: Store, job: Job, taskId: string, o: Outcome, now: int): Store
  {
    match o
    case Delivered(url) =>
      var s1 := UpdateTaskStatus(s, taskId, "Ready", url, Null, now).0;
      var s2 := SaveImageRecord(s1, NewImageRecord(job.user, job.prompt, url, taskId,
                                                   Some(ImageSize), None, None, now));
      IncrementUsageStats(s2, job.user, "total_generations", now)
    case ProviderFailed(status, error) => UpdateTaskStatus(s, taskId, status, Null, error, now).0
    case _ => s
  }

  /** The store after `_generate_image_task`: the user is fetched or
      created, then, only if submission succeeded, the `Pending` record is
      saved and the poll outcome applied. */
  function GenerationStore(s: Store, job: Job, submitted: Result<Accepted, string>,
                           result: map<string, Value>, now: int): Store
  {
    var s1 := GetOrCreateUser(s, job.user, now).0;
    match submitted
    case Err(_) => s1
    case Ok(acc) =>
      GenerationEffect(SaveTaskRecord(s1, PendingRecord(job, acc.id, now)), job, acc.id,
                       ClassifyResult(result), now)
  }

  /** The store after `_enhance_image_task`: nothing unless submission
      succeeded and the result is `Ready` with a truthy sample; then one
      enhancement image record and one `total_enhancements` increment. */
  function EnhancementStore(s: Store, job: Job, submitted: Result<Accepted, string>,
                            result: map<string, Value>, now: int): Store
  {
    match submitted
    case Err(_) => s
    case Ok(acc) =>
      match ClassifyResult(result)
      case Delivered(url) =>
        var s1 := SaveImageRecord(s, NewImageRecord(job.user, "Image Enhancement", url, acc.id,
                                                    None, Some("enhancement"), None, now));
        IncrementUsageStats(s1, job.user, "total_enhancements", now)
      case _ => s
  }

  /** What the generation task may touch: it adds its own user if missing
      and leaves every other user as it was; it writes no task record but
      the one of the task id it was given, and that only after a
      successful submission; and it only appends to the images: at most
      one record, for this user, prompt and task. */
  lemma GenerationFrame(s: Store, job: Job, submitted: Result<Accepted, string>,
                        result: map<string, Value>, now: int)
    ensures var s' := GenerationStore(s, job, submitted, result, now);
      s'.users.Keys == s.users.Keys + {job.user} &&
      (forall v :: v in s.users && v != job.user ==> s'.users[v] == s.users[v]) &&
      (submitted.Err? ==> s'.tasks == s.tasks && s'.images == s.images) &&
      (submitted.Ok? ==>
         s'.tasks.Keys == s.tasks.Keys + {submitted.value.id} &&
         forall t :: t in s.tasks && t != submitted.value.id ==> s'.tasks[t] == s.tasks[t]) &&
      |s.images| <= |s'.images| <= |s.images| + 1 && s'.images[..|s.images|] == s.images &&
      (|s'.images| > |s.images| ==>
         var im := s'.images[|s.images|];
         submitted.Ok? && im.userId == job.user && im.prompt == job.prompt &&
         im.taskId == submitted.value.id && im.imageType == "generation")
  {
    var s1 := GetOrCreateUser(s, job.user, now).0;
    if submitted.Ok? {
      var acc := submitted.value;
      var s2 := SaveTaskRecord(s1, PendingRecord(job, acc.id, now));
      assert s2.tasks.Keys == s.tasks.Keys + {acc.id};
      EffectFrame(s2, job, acc.id, ClassifyResult(result), now);
    }
  }

  /** The writes after the poll keep the users' and the tasks' keys, touch
      no task but `taskId`, and append at most the delivered image. */
  lemma EffectFrame(s: Store, job: Job, taskId: string, o: Outcome, now: int)
    ensures var s' := GenerationEffect(s, job, taskId, o, now);
      s'.users.Keys == s.users.Keys &&
      (forall v :: v in s.users && v != job.user ==> s'.users[v] == s.users[v]) &&
      s'.tasks.Keys == s.tasks.Keys &&
      (forall t :: t in s.tasks && t != taskId ==> s'.tasks[t] == s.tasks[t]) &&
      (!o.Delivered? ==> s'.images == s.images) &&
      (o.Delivered? ==>
         |s'.images| == |s.images| + 1 && s'.images[..|s.images|] == s.images &&
         var im := s'.images[|s.images|];
         im.userId == job.user && im.prompt == job.prompt && im.taskId == taskId &&
         im.imageType == "generation")
  {
  }

  /** What the enhancement task may touch: no task record and no user
      document but its own, and the images only by appending at most one
      enhancement record for this user and task. */
  lemma EnhancementFrame(s: Store, job: Job, submitted: Result<Accepted, string>,
                         result: map<string, Value>, now: int)
    ensures var s' := EnhancementStore(s, job, submitted, result, now);
      s'.tasks == s.tasks && s'.users.Keys == s.users.Keys &&
      (forall v :: v in s.users && v != job.user ==> s'.users[v] == s.users[v]) &&
      |s.images| <= |s'.images| <= |s.images| + 1 && s'.images[..|s.images|] == s.images &&
      (|s'.images| > |s.images| ==>
         var im := s'.images[|s.images|];
         submitted.Ok? && im.userId == job.user && im.prompt == "Image Enhancement" &&
         im.taskId == submitted.value.id && im.imageType == "enhancement")
  {
  }

  /** If submission fails, the generation task saves no task record and no
      image; at most the user document is created. */
  lemma GenerationWithoutSubmission(s: Store, job: Job, e: string, result: map<string, Value>,
                                    now: int)
    ensures var s' := GenerationStore(s, job, Err(e), result, now);
      s'.tasks == s.tasks && s'.images == s.images && s'.users.Keys == s.users.Keys + {job.user}
  {
  }

  /** After a submitted generation job the task record exists; it is
      `Ready` with the image URL on delivery, carries the provider's status
      on a failure, with the error written only when truthy, and stays
      `Pending` otherwise: no image, a crash, a timeout or an unknown
      status. */
  lemma GenerationRecord(s: Store, job: Job, acc: Accepted, result: map<string, Value>, now: int)
    ensures var s' := GenerationStore(s, job, Ok(acc), result, now);
      var o := ClassifyResult(result);
      acc.id in s'.tasks &&
      (s'.tasks[acc.id].status == "Pending" <==> !o.Delivered? && !o.ProviderFailed?) &&
      (o.Delivered? ==> s'.tasks[acc.id].status == "Ready" && s'.tasks[acc.id].resultUrl == o.url) &&
      (o.ProviderFailed? ==>
         s'.tasks[acc.id].status == o.status && s'.tasks[acc.id].resultUrl == Null &&
         s'.tasks[acc.id].errorMessage == (if Truthy(o.error) then o.error else Null)) &&
      (!o.Delivered? && !o.ProviderFailed? ==> s'.tasks[acc.id] == PendingRecord(job, acc.id, now))
  {
    var o := ClassifyResult(result);
    var s1 := SaveTaskRecord(GetOrCreateUser(s, job.user, now).0, PendingRecord(job, acc.id, now));
    assert s1.tasks[acc.id] == PendingRecord(job, acc.id, now);
    if o.ProviderFailed? {
      assert Classify(Str(o.status)) == FailureStatus;
      assert o.status != "Pending";
    }
  }

  /** Fetching or creating the user changes none of its counters as read
      by `UsageCount`: a new user's counters are all zero. */
  lemma GetOrCreateKeepsCounts(s: Store, user: UserId, now: int, st: string)
    ensures UsageCount(GetOrCreateUser(s, user, now).0, user, st) == UsageCount(s, user, st)
  {
    if user !in s.users {
      assert GetOrCreateUser(s, user, now).0.users[user].usageStats == DefaultUsageStats;
    }
  }

  /** A generation job adds an image record exactly when the image was
      delivered. */
  lemma GenerationImages(s: Store, job: Job, acc: Accepted, result: map<string, Value>, now: int)
    ensures var s' := GenerationStore(s, job, Ok(acc), result, now);
      |s'.images| == |s.images| + (if ClassifyResult(result).Delivered? then 1 else 0)
  {
  }

  /** A generation job counts one generation exactly when the image was
      delivered (the counter moves only if the store can increment it);
      the user's other counters do not change. */
  lemma GenerationUsage(s: Store, job: Job, acc: Accepted, result: map<string, Value>, now: int,
                        st: string)
    requires st != "last_used"
    ensures var s' := GenerationStore(s, job, Ok(acc), result, now);
      var s1 := GetOrCreateUser(s, job.user, now).0;
      var counted := ClassifyResult(result).Delivered? &&
                     CanIncrement(s1, job.user, "total_generations");
      UsageCount(s', job.user, st) ==
        UsageCount(s, job.user, st) +
        (if st == "total_generations" && counted then 1 else 0)
  {
    GetOrCreateKeepsCounts(s, job.user, now, st);
    var s1 := GetOrCreateUser(s, job.user, now).0;
    var s2 := SaveTaskRecord(s1, PendingRecord(job, acc.id, now));
    assert s2.users == s1.users;
    match ClassifyResult(result)
    case Delivered(url) =>
      var s3 := UpdateTaskStatus(s2, acc.id, "Ready", url, Null, now).0;
      var s4 := SaveImageRecord(s3, NewImageRecord(job.user, job.prompt, url, acc.id,
                                                   Some(ImageSize), None, None, now));
      assert s4.users == s1.users;
    case ProviderFailed(status, error) =>
      assert UpdateTaskStatus(s2, acc.id, status, Null, error, now).0.users == s1.users;
    case _ =>
  }

  /** A user new to the store can always be counted: the generation task
      creates the user with numeric counters before it could increment. */
  lemma NewUserCountable(s: Store, user: UserId, now: int)
    requires user !in s.users
    ensures CanIncrement(GetOrCreateUser(s, user, now).0, user, "total_generations")
  {
  }

  /** The enhancement task never writes a task record or a user document
      other than its own counters; it adds one image and counts one
      enhancement exactly when the image was delivered. */
  lemma EnhancementEffects(s: Store, job: Job, submitted: Result<Accepted, string>,
                           result: map<string, Value>, now: int)
    ensures var s' := EnhancementStore(s, job, submitted, result, now);
      var delivered := submitted.Ok? && ClassifyResult(result).Delivered?;
      s'.tasks == s.tasks && s'.users.Keys == s.users.Keys &&
      |s'.images| == |s.images| + (if delivered then 1 else 0) &&
      UsageCount(s', job.user, "total_enhancements") ==
        UsageCount(s, job.user, "total_enhancements") +
        (if delivered && CanIncrement(s, job.user, "total_enhancements") then 1 else 0) &&
      (forall st :: st != "total_enhancements" && st != "last_used" ==>
         UsageCount(s', job.user, st) == UsageCount(s, job.user, st))
  {
  }

  // ----- Jobs started and not finished -----

  /** The ids of the started, unfinished jobs that belong to `u`. */
  ghost function JobsOf(live: map<nat, Job>, u: UserId): set<nat> {
    set j | j in live && live[j].user == u
  }

  /** How many started, unfinished jobs belong to `u`. */
  ghost function LiveCount(live: map<nat, Job>, u: UserId): nat {
    |JobsOf(live, u)|
  }

  lemma LiveCountAdd(live: map<nat, Job>, job: Job, v: UserId)
    requires job.id !in live
    ensures LiveCount(live[job.id := job], v) == LiveCount(live, v) + (if v == job.user then 1 else 0)
  {
    if v == job.user {
      assert JobsOf(live[job.id := job], v) == JobsOf(live, v) + {job.id};
    } else {
      assert JobsOf(live[job.id := job], v) == JobsOf(live, v);
    }
  }

  lemma LiveCountRemove(live: map<nat, Job>, id: nat, v: UserId)
    requires id in live
    ensures v == live[id].user ==> LiveCount(live, v) >= 1
    ensures LiveCount(live - {id}, v) == LiveCount(live, v) - (if v == live[id].user then 1 else 0)
  {
    if v == live[id].user {
      assert JobsOf(live - {id}, v) == JobsOf(live, v) - {id};
      assert id in JobsOf(live, v);
    } else {
      assert JobsOf(live - {id}, v) == JobsOf(live, v);
    }
  }

  class CommandHandlers {
    const limiter: RateLimiter
    var store: Store
    /** `pending_tasks`: the latest job started for each user. */
    var pendingTasks: map<UserId, nat>
    var nextJob: nat
    /** The jobs started and not yet finished, by id. */
    ghost var live: map<nat, Job>

    /** Every unfinished job holds exactly one active-task slot of its user,
        and a user's `pending_tasks` entry, when there is one, names an
        unfinished job of that user. */
    ghost predicate Valid()
      reads this, limiter
    {
      limiter.Valid() &&
      (forall j :: j in live ==> j < nextJob && live[j].id == j) &&
      (forall u :: limiter.Active(u) == LiveCount(live, u)) &&
      (forall u :: u in pendingTasks ==> pendingTasks[u] in live && live[pendingTasks[u]].user == u)
    }

    /** The handlers over a limiter that has not counted any task yet. */
    constructor (limiter: RateLimiter, store: Store)
      requires limiter.Valid() && limiter.activeTasks == map[]
      ensures Valid()
      ensures this.limiter == limiter && this.store == store
      ensures pendingTasks == map[] && live == map[] && nextJob == 0
    {
      this.limiter := limiter;
      this.store := store;
      pendingTasks := map[];
      nextJob := 0;
      live := map[];
    }

    /** Takes an active-task slot for `u`, starts the job and makes it the
        user's `pending_tasks` entry, overwriting any earlier one. */
    method StartJob(u: UserId, kind: JobKind, prompt: string) returns (job: Job)
      requires Valid()
      modifies this, limiter
      ensures Valid()
      ensures job == Job(old(nextJob), u, kind, prompt) && nextJob == old(nextJob) + 1
      ensures limiter.activeTasks == old(limiter.activeTasks)[u := old(limiter.Active(u)) + 1]
      ensures limiter.requests == old(limiter.requests)
      ensures pendingTasks == old(pendingTasks)[u := job.id]
      ensures live == old(live)[job.id := job] && store == old(store)
    {
      ghost var before := live;
      limiter.IncrementActiveTasks(u);
      job := Job(nextJob, u, kind, prompt);
      live := live[job.id := job];
      pendingTasks := pendingTasks[u := job.id];
      nextJob := nextJob + 1;
      forall v ensures limiter.Active(v) == LiveCount(live, v) {
        LiveCountAdd(before, job, v);
        assert limiter.Active(v) == old(limiter.Active(v)) + (if v == u then 1 else 0);
      }
    }

    /** The admission sequence shared by every command that starts a job:
        `is_allowed`, then, only if it admits and the status reply went
        out, the slot and the job. A denied request changes nothing but the
        user's window. */
    method AdmitAndStart(u: UserId, kind: JobKind, prompt: string, now: int, sendOk: bool)
      returns (job: Option<Job>)
      requires Valid()
      modifies this, limiter
      ensures Valid()
      ensures limiter.requests == old(limiter.requests)[u := old(limiter.Step(u, now)).1]
      ensures job.Some? <==> old(limiter.Step(u, now)).0.None? && sendOk
      ensures job.Some? ==>
        job.value == Job(old(nextJob), u, kind, prompt) && nextJob == old(nextJob) + 1 &&
        limiter.activeTasks == old(limiter.activeTasks)[u := old(limiter.Active(u)) + 1] &&
        pendingTasks == old(pendingTasks)[u := job.value.id] &&
        live == old(live)[job.value.id := job.value]
      ensures job.None? ==>
        limiter.activeTasks == old(limiter.activeTasks) && pendingTasks == old(pendingTasks) &&
        live == old(live) && nextJob == old(nextJob)
      ensures store == old(store)
    {
      var allowed, _ := limiter.IsAllowed(u, now);
      if !allowed || !sendOk {
        return None;
      }
      var j := StartJob(u, kind, prompt);
      return Some(j);
    }

    /** `generate_command`: no arguments is refused before admission;
        otherwise the prompt is the arguments joined by single spaces. */
    method GenerateCommand(u: UserId, args: seq<string>, now: int, sendOk: bool)
      returns (job: Option<Job>)
      requires Valid()
      modifies this, limiter
      ensures Valid()
      ensures args == [] ==>
        job.None? && limiter.requests == old(limiter.requests) &&
        limiter.activeTasks == old(limiter.activeTasks) && pendingTasks == old(pendingTasks) &&
        live == old(live) && nextJob == old(nextJob)
      ensures args != [] ==>
        limiter.requests == old(limiter.requests)[u := old(limiter.Step(u, now)).1]
      ensures job.Some? <==> args != [] && old(limiter.Step(u, now)).0.None? && sendOk
      ensures job.Some? ==>
        job.value == Job(old(nextJob), u, Generation, Text.Join(args, " ")) &&
        limiter.activeTasks == old(limiter.activeTasks)[u := old(limiter.Active(u)) + 1] &&
        pendingTasks == old(pendingTasks)[u := job.value.id] &&
        live == old(live)[job.value.id := job.value]
      ensures args != [] && job.None? ==>
        limiter.activeTasks == old(limiter.activeTasks) && pendingTasks == old(pendingTasks) &&
        live == old(live)
      ensures store == old(store)
    {
      if args == [] {
        return None;
      }
      job := AdmitAndStart(u, Generation, Text.Join(args, " "), now, sendOk);
    }

    /** `enhance_command`: a command that does not reply to a photo is
        refused before admission; otherwise the fixed enhancement prompt is
        admitted like any other job. */
    method EnhanceCommand(u: UserId, repliesToPhoto: bool, now: int, sendOk: bool)
      returns (job: Option<Job>)
      requires Valid()
      modifies this, limiter
      ensures Valid()
      ensures !repliesToPhoto ==>
        job.None? && limiter.requests == old(limiter.requests) &&
        limiter.activeTasks == old(limiter.activeTasks) && pendingTasks == old(pendingTasks) &&
        live == old(live)
      ensures repliesToPhoto ==>
        limiter.requests == old(limiter.requests)[u := old(limiter.Step(u, now)).1]
      ensures job.Some? <==> repliesToPhoto && old(limiter.Step(u, now)).0.None? && sendOk
      ensures job.Some? ==>
        job.value == Job(old(nextJob), u, Enhancement, EnhancementPrompt) &&
        limiter.activeTasks == old(limiter.activeTasks)[u := old(limiter.Active(u)) + 1] &&
        pendingTasks == old(pendingTasks)[u := job.value.id]
      ensures store == old(store)
    {
      if !repliesToPhoto {
        return None;
      }
      job := AdmitAndStart(u, Enhancement, EnhancementPrompt, now, sendOk);
    }

    /** The `finally` block of both task bodies: the job's slot is given
        back exactly once, and the user's `pending_tasks` entry is deleted
        whichever job it names. */
    method Finish(job: Job)
      requires Valid() && job.id in live && live[job.id] == job
      modifies this, limiter
      ensures Valid()
      ensures old(limiter.Active(job.user)) >= 1
      ensures limiter.activeTasks ==
        old(limiter.activeTasks)[job.user := old(limiter.Active(job.user)) - 1]
      ensures limiter.requests == old(limiter.requests)
      ensures pendingTasks == old(pendingTasks) - {job.user}
      ensures live == old(live) - {job.id} && nextJob == old(nextJob) && store == old(store)
    {
      LiveCountRemove(live, job.id, job.user);
      limiter.DecrementActiveTasks(job.user);
      forall v
        ensures LiveCount(live - {job.id}, v) ==
                LiveCount(live, v) - (if v == job.user then 1 else 0)
      {
        LiveCountRemove(live, job.id, v);
      }
      live := live - {job.id};
      pendingTasks := pendingTasks - {job.user};
    }

    /** `_generate_image_task` run to completion. `post`, `fetch` and
        `latency` are the provider and its timing; `submitted` is what
        `generate_image` gave, and `result`/`fetches` what polling gave when
        it ran. */
    method RunGenerationTask(job: Job, post: (string, map<string, Value>) -> SubmitReply,
                             fetch: (string, string, nat) -> FetchReply, latency: nat -> nat,
                             baseUrl: string, now: int)
      returns (submitted: Result<Accepted, string>, result: map<string, Value>, fetches: nat)
      requires Valid() && job.id in live && live[job.id] == job && job.kind == Generation
      modifies this, limiter
      ensures Valid()
      ensures submitted == GenerateImage(post, baseUrl, job.prompt, ImageSize)
      ensures submitted.Ok? ==>
        PollSpec(fetch, latency, ResultUrl(baseUrl, submitted.value.pollingUrl),
                 submitted.value.id, PollTimeout, result, fetches)
      ensures store == GenerationStore(old(store), job, submitted, result, now)
      ensures old(limiter.Active(job.user)) >= 1
      ensures limiter.activeTasks ==
        old(limiter.activeTasks)[job.user := old(limiter.Active(job.user)) - 1]
      ensures limiter.requests == old(limiter.requests)
      ensures pendingTasks == old(pendingTasks) - {job.user}
      ensures live == old(live) - {job.id} && nextJob == old(nextJob)
    {
      submitted, result, fetches := GenerationBody(job, post, fetch, latency, baseUrl, now);
      Finish(job);
    }

    /** The `try` part of `_generate_image_task`. */
    method GenerationBody(job: Job, post: (string, map<string, Value>) -> SubmitReply,
                          fetch: (string, string, nat) -> FetchReply, latency: nat -> nat,
                          baseUrl: string, now: int)
      returns (submitted: Result<Accepted, string>, result: map<string, Value>, fetches: nat)
      modifies this
      ensures submitted == GenerateImage(post, baseUrl, job.prompt, ImageSize)
      ensures submitted.Ok? ==>
        PollSpec(fetch, latency, ResultUrl(baseUrl, submitted.value.pollingUrl),
                 submitted.value.id, PollTimeout, result, fetches)
      ensures store == GenerationStore(old(store), job, submitted, result, now)
      ensures pendingTasks == old(pendingTasks) && live == old(live) && nextJob == old(nextJob)
    {
      var s := GetOrCreateUser(store, job.user, now).0;
      submitted := GenerateImage(post, baseUrl, job.prompt, ImageSize);
      result, fetches := map[], 0;
      if submitted.Ok? {
        var acc := submitted.value;
        s := SaveTaskRecord(s, PendingRecord(job, acc.id, now));
        result, fetches := PollForResult(fetch, latency, baseUrl, acc.id, acc.pollingUrl, PollTimeout);
        s := GenerationEffect(s, job, acc.id, ClassifyResult(result), now);
      }
      store := s;
    }

    /** `_enhance_image_task` run to completion. */
    method RunEnhancementTask(job: Job, post: (string, map<string, Value>) -> SubmitReply,
                              fetch: (string, string, nat) -> FetchReply, latency: nat -> nat,
                              baseUrl: string, now: int)
      returns (submitted: Result<Accepted, string>, result: map<string, Value>, fetches: nat)
      requires Valid() && job.id in live && live[job.id] == job && job.kind == Enhancement
      modifies this, limiter
      ensures Valid()
      ensures submitted == GenerateImage(post, baseUrl, job.prompt, ImageSize)
      ensures submitted.Ok? ==>
        PollSpec(fetch, latency, ResultUrl(baseUrl, submitted.value.pollingUrl),
                 submitted.value.id, PollTimeout, result, fetches)
      ensures store == EnhancementStore(old(store), job, submitted, result, now)
      ensures old(limiter.Active(job.user)) >= 1
      ensures limiter.activeTasks ==
        old(limiter.activeTasks)[job.user := old(limiter.Active(job.user)) - 1]
      ensures limiter.requests == old(limiter.requests)
      ensures pendingTasks == old(pendingTasks) - {job.user}
      ensures live == old(live) - {job.id} && nextJob == old(nextJob)
    {
      submitted, result, fetches := EnhancementBody(job, post, fetch, latency, baseUrl, now);
      Finish(job);
    }

    /** The `try` part of `_enhance_image_task`. */
    method EnhancementBody(job: Job, post: (string, map<string, Value>) -> SubmitReply,
                           fetch: (string, string, nat) -> FetchReply, latency: nat -> nat,
                           baseUrl: string, now: int)
      returns (submitted: Result<Accepted, string>, result: map<string, Value>, fetches: nat)
      modifies this
      ensures submitted == GenerateImage(post, baseUrl, job.prompt, ImageSize)
      ensures submitted.Ok? ==>
        PollSpec(fetch, latency, ResultUrl(baseUrl, submitted.value.pollingUrl),
                 submitted.value.id, PollTimeout, result, fetches)
      ensures store == EnhancementStore(old(store), job, submitted, result, now)
      ensures pendingTasks == old(pendingTasks) && live == old(live) && nextJob == old(nextJob)
    {
      submitted := GenerateImage(post, baseUrl, job.prompt, ImageSize);
      result, fetches := map[], 0;
      if submitted.Ok? {
        var acc := submitted.value;
        result, fetches := PollForResult(fetch, latency, baseUrl, acc.id, acc.pollingUrl, PollTimeout);
        store := EnhancementStore(store, job, submitted, result, now);
      }
    }
  }

  // ----- Whole runs -----

  /** One admitted `/generate` on fresh handlers, run to completion: the
      slot it took is given back, so the counter is 0 again and no pending
      entry is left, whatever the provider answered. */
  method OneJobNetZero(post: (string, map<string, Value>) -> SubmitReply,
                       fetch: (string, string, nat) -> FetchReply, latency: nat -> nat)
    returns (started: bool, active: int, pendingLeft: bool)
    ensures started && active == 0 && !pendingLeft
  {
    var limiter := new RateLimiter(10, 60);
    var handlers := new CommandHandlers(limiter, EmptyStore);
    var job := handlers.GenerateCommand(1, ["a", "cat"], 0, true);
    started := job.Some?;
    if job.Some? {
      var _, _, _ := handlers.RunGenerationTask(job.value, post, fetch, latency, "https://api", 0);
    }
    active := limiter.Active(1);
    pendingLeft := 1 in handlers.pendingTasks;
  }

  /** Two jobs of one user: the second overwrites the `pending_tasks`
      entry, and when the first finishes it deletes that entry although the
      second job is still running and still holds its slot. Both jobs are
      taken as already admitted. */
  method FinishingFirstJobDropsSecondEntry(post: (string, map<string, Value>) -> SubmitReply,
                                           fetch: (string, string, nat) -> FetchReply,
                                           latency: nat -> nat)
    returns (active: int, pendingLeft: bool)
    ensures active == 1 && !pendingLeft
  {
    var limiter := new RateLimiter(10, 60);
    var handlers := new CommandHandlers(limiter, EmptyStore);
    var first := handlers.StartJob(1, Generation, "a cat");
    var second := handlers.StartJob(1, Generation, "a dog");
    var _, _, _ := handlers.RunGenerationTask(first, post, fetch, latency, "https://api", 0);
    active := limiter.Active(1);
    pendingLeft := 1 in handlers.pendingTasks;
  }
}
