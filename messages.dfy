/** The message and callback handlers (src/handlers/messages.py). They
    share the command handlers' rate limiter, store and `pending_tasks`, and
    start the same background jobs. Telegram replies are left out; `sendOk`
    says whether the Telegram calls made before the slot is taken
    succeeded. */
module Messages {
  import opened Values
  import opened Database
  import opened RateLimiting
  import opened Commands
  import Text

  // ----- Text prompts -----

  /** What `handle_text_message` makes of a text, after `strip()`. */
  datatype TextVerdict = Ignored | TooShort | TooLong(length: nat) | Accepted(prompt: string)

  const MinPromptLength := 3
  const MaxPromptLength := 500

  /** A stripped text starting with `/` is ignored; otherwise it must be
      3 to 500 characters long, and the stripped text is the prompt. */
  function ValidateText(text: string): (v: TextVerdict)
    ensures var t := Text.Strip(text);
      (v.Ignored? <==> Text.StartsWith(t, "/")) &&
      (v.TooShort? <==> !Text.StartsWith(t, "/") && |t| < MinPromptLength) &&
      (v.TooLong? <==> !Text.StartsWith(t, "/") && |t| > MaxPromptLength) &&
      (v.Accepted? <==>
         !Text.StartsWith(t, "/") && MinPromptLength <= |t| <= MaxPromptLength) &&
      (v.TooLong? ==> v.length == |t|) &&
      (v.Accepted? ==> v.prompt == t)
  {
    var t := Text.Strip(text);
    if Text.StartsWith(t, "/") then Ignored
    else if |t| < MinPromptLength then TooShort
    else if |t| > MaxPromptLength then TooLong(|t|)
    else Accepted(t)
  }

  /** An accepted prompt is accepted again, unchanged: it has no
      surrounding whitespace left to strip. */
  lemma AcceptedPromptStable(text: string)
    requires ValidateText(text).Accepted?
    ensures ValidateText(ValidateText(text).prompt) == ValidateText(text)
  {
    var t := Text.Strip(text);
    Text.StripFixed(t);
  }

  // ----- Photo captions -----

  /** What every edit instruction is suffixed with. */
  const QualitySuffix := ", high quality, detailed"

  /** The generation prompt made from an edit instruction: the instruction
      itself, followed by the 24-character quality suffix. */
  function EditPrompt(instruction: string): (p: string)
    ensures |p| == |instruction| + 24 && p[..|instruction|] == instruction
    ensures p[|instruction|..] == QualitySuffix
  {
    instruction + QualitySuffix
  }

  /** Different instructions give different prompts. */
  lemma EditPromptInjective(a: string, b: string)
    requires EditPrompt(a) == EditPrompt(b)
    ensures a == b
  {
    assert a == EditPrompt(a)[..|a|];
  }

  // ----- Callback data -----

  datatype Callback =
    | QuickGenerate
    | Help
    | Settings
    | Regenerate(prompt: string)
    | EnhanceTask(taskId: string)
    | Examples
    | ComingSoon

  const RegeneratePrefix := "regenerate:"
  const EnhancePrefix := "enhance:"

  /** The branch `handle_callback_query` takes for `data`, checked in the
      source's order; a prefixed callback carries everything after the
      first `:`. */
  function ParseCallback(data: string): (c: Callback)
    ensures c.Regenerate? <==>
      data !in {"quick_generate", "help", "settings"} && Text.StartsWith(data, RegeneratePrefix)
    ensures c.EnhanceTask? <==>
      data !in {"quick_generate", "help", "settings"} && !Text.StartsWith(data, RegeneratePrefix) &&
      Text.StartsWith(data, EnhancePrefix)
    ensures c.QuickGenerate? <==> data == "quick_generate"
    ensures c.Help? <==> data == "help"
    ensures c.Settings? <==> data == "settings"
    ensures c.Examples? <==> data == "examples"
    ensures c.ComingSoon? <==>
      data !in {"quick_generate", "help", "settings", "examples"} &&
      !Text.StartsWith(data, RegeneratePrefix) && !Text.StartsWith(data, EnhancePrefix)
    ensures c.Regenerate? ==> c.prompt == data[|RegeneratePrefix|..]
    ensures c.EnhanceTask? ==> c.taskId == data[|EnhancePrefix|..]
  {
    if data == "quick_generate" then QuickGenerate
    else if data == "help" then Help
    else if data == "settings" then Settings
    else if Text.StartsWith(data, RegeneratePrefix) then
      PrefixedPayload(RegeneratePrefix, data);
      Regenerate(Text.AfterFirst(data, ':').value)
    else if Text.StartsWith(data, EnhancePrefix) then
      PrefixedPayload(EnhancePrefix, data);
      EnhanceTask(Text.AfterFirst(data, ':').value)
    else if data == "examples" then Examples
    else ComingSoon
  }

  /** `data.split(":", 1)[1]` of a callback that starts with a tag ending in
      its only `:` is the rest of the data. */
  lemma PrefixedPayload(prefix: string, data: string)
    requires prefix != [] && prefix[|prefix| - 1] == ':' && ':' !in prefix[..|prefix| - 1]
    requires Text.StartsWith(data, prefix)
    ensures Text.AfterFirst(data, ':') == Some(data[|prefix|..])
  {
    var tag := prefix[..|prefix| - 1];
    assert data == tag + [':'] + data[|prefix|..];
    Text.AfterFirstOfTag(tag, ':', data[|prefix|..]);
  }

  /** The "Generate Again" button's data `regenerate:{prompt}` gives the
      prompt back, whatever it contains. */
  lemma RegenerateRoundTrip(prompt: string)
    ensures ParseCallback(RegeneratePrefix + prompt) == Regenerate(prompt)
  {
    var data := RegeneratePrefix + prompt;
    assert data[..|RegeneratePrefix|] == RegeneratePrefix;
    assert data[|RegeneratePrefix|..] == prompt;
    assert data[0] == 'r';
  }

  /** The "Enhance" button's data `enhance:{task_id}` gives the task id
      back. */
  lemma EnhanceRoundTrip(taskId: string)
    ensures ParseCallback(EnhancePrefix + taskId) == EnhanceTask(taskId)
  {
    var data := EnhancePrefix + taskId;
    assert data[..|EnhancePrefix|] == EnhancePrefix;
    assert data[|EnhancePrefix|..] == taskId;
    assert data[0] == 'e';
    assert !Text.StartsWith(data, RegeneratePrefix) by {
      if |RegeneratePrefix| <= |data| {
        assert data[..|RegeneratePrefix|][0] == 'e';
      }
    }
  }

  /** The photo menu's `enhance_uploaded:{id}` is not an enhance callback:
      it falls through to "coming soon". */
  lemma UploadedEnhanceIsComingSoon(messageId: string)
    ensures ParseCallback("enhance_uploaded:" + messageId) == ComingSoon
  {
    var data := "enhance_uploaded:" + messageId;
    assert data[7] == '_' && EnhancePrefix[7] == ':';
    assert data[0] == 'e' && RegeneratePrefix[0] == 'r';
    assert data[..8] != EnhancePrefix;
  }

  // ----- Handlers -----

  class MessageHandlers {
    const commands: CommandHandlers

    constructor (commands: CommandHandlers)
      ensures this.commands == commands
    {
      this.commands := commands;
    }

    /** `handle_text_message`: only an accepted prompt reaches admission; an
        admitted one starts a generation job for the stripped text. */
    method HandleTextMessage(u: UserId, text: string, now: int, sendOk: bool)
      returns (job: Option<Job>)
      requires commands.Valid()
      modifies commands, commands.limiter
      ensures commands.Valid()
      ensures !ValidateText(text).Accepted? ==>
        job.None? && unchanged(commands, commands.limiter)
      ensures ValidateText(text).Accepted? ==>
        commands.limiter.requests ==
          old(commands.limiter.requests)[u := old(commands.limiter.Step(u, now)).1]
      ensures job.Some? <==>
        ValidateText(text).Accepted? && old(commands.limiter.Step(u, now)).0.None? && sendOk
      ensures job.Some? ==>
        job.value == Job(old(commands.nextJob), u, Generation, Text.Strip(text)) &&
        commands.limiter.activeTasks ==
          old(commands.limiter.activeTasks)[u := old(commands.limiter.Active(u)) + 1] &&
        commands.pendingTasks == old(commands.pendingTasks)[u := job.value.id]
      ensures job.None? ==>
        commands.limiter.activeTasks == old(commands.limiter.activeTasks) &&
        commands.pendingTasks == old(commands.pendingTasks)
      ensures commands.store == old(commands.store)
    {
      match ValidateText(text)
      case Accepted(prompt) =>
        job := commands.AdmitAndStart(u, Generation, prompt, now, sendOk);
      case _ =>
        return None;
    }

    /** `handle_photo_message` and `_handle_image_edit`: a photo without a
        caption only gets the options menu; a caption is an edit
        instruction, admitted like a text prompt. */
    method HandlePhotoMessage(u: UserId, caption: Option<string>, now: int, sendOk: bool)
      returns (job: Option<Job>)
      requires commands.Valid()
      modifies commands, commands.limiter
      ensures commands.Valid()
      ensures caption.None? || caption.value == "" ==>
        job.None? && unchanged(commands, commands.limiter)
      ensures caption.Some? && caption.value != "" ==>
        commands.limiter.requests ==
          old(commands.limiter.requests)[u := old(commands.limiter.Step(u, now)).1]
      ensures job.Some? <==>
        caption.Some? && caption.value != "" && old(commands.limiter.Step(u, now)).0.None? &&
        sendOk
      ensures job.Some? ==>
        job.value == Job(old(commands.nextJob), u, Generation, EditPrompt(caption.value)) &&
        commands.limiter.activeTasks ==
          old(commands.limiter.activeTasks)[u := old(commands.limiter.Active(u)) + 1] &&
        commands.pendingTasks == old(commands.pendingTasks)[u := job.value.id]
      ensures job.None? ==>
        commands.limiter.activeTasks == old(commands.limiter.activeTasks) &&
        commands.pendingTasks == old(commands.pendingTasks)
      ensures commands.store == old(commands.store)
    {
      var text := if caption.Some? then caption.value else "";
      if text == "" {
        return None;
      }
      job := commands.AdmitAndStart(u, Generation, EditPrompt(text), now, sendOk);
    }

    /** The regenerate path as it is evidently meant to work: the prompt is
        split into arguments and handed to `generate_command`, so it is
        admitted with its whitespace collapsed. */
    method Regenerate(u: UserId, prompt: string, now: int, sendOk: bool)
      returns (job: Option<Job>)
      requires commands.Valid()
      modifies commands, commands.limiter
      ensures commands.Valid()
      ensures Text.SplitWords(prompt) != [] ==>
        commands.limiter.requests ==
          old(commands.limiter.requests)[u := old(commands.limiter.Step(u, now)).1]
      ensures Text.SplitWords(prompt) == [] ==>
        commands.limiter.requests == old(commands.limiter.requests)
      ensures job.Some? <==>
        Text.SplitWords(prompt) != [] && old(commands.limiter.Step(u, now)).0.None? && sendOk
      ensures job.Some? ==>
        job.value == Job(old(commands.nextJob), u, Generation,
                         Text.Join(Text.SplitWords(prompt), " ")) &&
        commands.limiter.activeTasks ==
          old(commands.limiter.activeTasks)[u := old(commands.limiter.Active(u)) + 1] &&
        commands.pendingTasks == old(commands.pendingTasks)[u := job.value.id]
      ensures job.None? ==>
        commands.limiter.activeTasks == old(commands.limiter.activeTasks) &&
        commands.pendingTasks == old(commands.pendingTasks)
      ensures commands.store == old(commands.store)
    {
      job := commands.GenerateCommand(u, Text.SplitWords(prompt), now, sendOk);
    }

    /** `handle_callback_query`. A regenerate callback hands
        `generate_command` a stand-in update whose message has no
        `reply_text`, so its first reply raises before a slot is taken:
        the request is still counted in the window, but no job starts. An
        enhance callback takes a slot and starts an enhancement job without
        asking the rate limiter, provided the task record exists and has a
        truthy result URL. The settings callback fetches or creates the user
        before it displays anything; the other callbacks only display text. */
    method HandleCallbackQuery(u: UserId, data: string, now: int, sendOk: bool)
      returns (job: Option<Job>)
      requires commands.Valid()
      modifies commands, commands.limiter
      ensures commands.Valid()
      ensures ParseCallback(data).Regenerate? ==>
        job.None? &&
        commands.limiter.activeTasks == old(commands.limiter.activeTasks) &&
        commands.pendingTasks == old(commands.pendingTasks)
      ensures ParseCallback(data).Regenerate? && Text.SplitWords(ParseCallback(data).prompt) != [] ==>
        commands.limiter.requests ==
          old(commands.limiter.requests)[u := old(commands.limiter.Step(u, now)).1]
      ensures ParseCallback(data).Regenerate? && Text.SplitWords(ParseCallback(data).prompt) == [] ==>
        commands.limiter.requests == old(commands.limiter.requests)
      ensures !ParseCallback(data).Regenerate? ==>
        commands.limiter.requests == old(commands.limiter.requests)
      ensures job.Some? <==>
        ParseCallback(data).EnhanceTask? && sendOk &&
        GetTaskRecord(old(commands.store), ParseCallback(data).taskId).Some? &&
        Truthy(GetTaskRecord(old(commands.store), ParseCallback(data).taskId).value.resultUrl)
      ensures job.Some? ==>
        job.value == Job(old(commands.nextJob), u, Enhancement, EnhancementPrompt) &&
        commands.limiter.activeTasks ==
          old(commands.limiter.activeTasks)[u := old(commands.limiter.Active(u)) + 1] &&
        commands.pendingTasks == old(commands.pendingTasks)[u := job.value.id]
      ensures job.None? ==>
        commands.limiter.activeTasks == old(commands.limiter.activeTasks) &&
        commands.pendingTasks == old(commands.pendingTasks)
      ensures ParseCallback(data).Settings? ==>
        commands.store == GetOrCreateUser(old(commands.store), u, now).0
      ensures !ParseCallback(data).Settings? ==> commands.store == old(commands.store)
    {
      match ParseCallback(data)
      case Regenerate(prompt) =>
        job := Regenerate(u, prompt, now, false);
      case EnhanceTask(taskId) =>
        var record := GetTaskRecord(commands.store, taskId);
        if record.Some? && Truthy(record.value.resultUrl) && sendOk {
          var j := commands.StartJob(u, Enhancement, EnhancementPrompt);
          return Some(j);
        }
        return None;
      case Settings =>
        commands.store := GetOrCreateUser(commands.store, u, now).0;
        return None;
      case _ =>
        return None;
    }
  }

  // ----- Whole runs -----

  /** Six enhance callbacks for a finished task, all at the same instant:
      none is checked by the rate limiter, so the user ends with six active
      tasks, above the cap of 5 that `is_allowed` enforces. */
  method EnhanceCallbacksExceedCap() returns (active: int, maxActive: int)
    ensures active == 6 && maxActive == 5
  {
    var limiter := new RateLimiter(10, 60);
    var record := Models.NewTaskRecord(1, "t1", "generation", "Ready", None, None, None, 0);
    var store := SaveTaskRecord(EmptyStore, record.(resultUrl := Str("https://img")));
    var commands := new CommandHandlers(limiter, store);
    var handlers := new MessageHandlers(commands);
    var data := EnhancePrefix + "t1";
    EnhanceRoundTrip("t1");
    assert ParseCallback(data) == EnhanceTask("t1");
    assert GetTaskRecord(store, "t1").Some? && Truthy(GetTaskRecord(store, "t1").value.resultUrl);
    var i := 0;
    while i < 6
      invariant 0 <= i <= 6
      invariant commands.Valid() && handlers.commands == commands && commands.limiter == limiter
      invariant limiter.Active(1) == i && limiter.maxActiveTasks == 5
      invariant commands.store == store
    {
      var _ := handlers.HandleCallbackQuery(1, data, 0, true);
      i := i + 1;
    }
    active, maxActive := limiter.Active(1), limiter.maxActiveTasks;
  }

  /** A regenerate callback never starts a job, even on fresh handlers with
      nothing else running; the corrected path does. */
  method RegenerateStartsNothing() returns (asWritten: bool, corrected: bool)
    ensures !asWritten && corrected
  {
    var limiter := new RateLimiter(10, 60);
    var commands := new CommandHandlers(limiter, EmptyStore);
    var handlers := new MessageHandlers(commands);
    RegenerateRoundTrip("a cat");
    assert Text.SplitWords("a cat") != [] by {
      assert "a cat"[0] == 'a';
    }
    var job := handlers.HandleCallbackQuery(1, RegeneratePrefix + "a cat", 0, true);
    asWritten := job.Some?;
    KeepAfterAll(limiter.Requests(1), -60);
    var fixed := handlers.Regenerate(1, "a cat", 0, true);
    corrected := fixed.Some?;
  }
}
