# Job admission and job lifecycle of the tgimg image bot

tgimg is a Telegram bot that turns text prompts into images through an
external provider (the BFL "flux-pro-1.1" API). This project models the
part of the bot that decides whether a user may start a job and follows
each job from admission to its recorded outcome:

- **Rate limiter** (`rate_limiter.dfy`, class `RateLimiting.RateLimiter`).
  It keeps one sliding window of request timestamps per user and one
  active-task counter per user. `is_allowed` evicts old timestamps, then
  applies the rate check, then the active-task check, and only then records
  the request. The counter moves only through `increment_active_tasks` and
  `decrement_active_tasks`, and the decrement stops at zero. Over any run of
  calls with non-decreasing clock readings, no interval of `time_window`
  seconds holds more than `max_requests` admitted requests
  (`SlidingWindowBound`).
- **Provider client** (`ai_service.dfy`, module `AiService`). It covers the
  submission payload and its defaults, how each HTTP status and exception
  becomes a result, the polling URL, and the poll loop. HTTP is replaced by
  oracle functions: `post`, `fetch`, and a `latency` per request. The loop
  is specified by `PollSpec`: every reply before the last is a waiting
  status that arrived before the deadline, and the result is settled from
  the last reply.
- **Command handlers** (`commands.dfy`, class `Commands.CommandHandlers`).
  `/generate` and `/enhance` go through admission; then a slot is taken and
  a background job starts; the job submits, saves a `Pending` task record,
  polls, and writes the outcome to the store. Its `finally` block gives the
  slot back and deletes the user's `pending_tasks` entry. A ghost map of
  started, unfinished jobs carries the invariant: every user's active-task
  counter equals that user's number of unfinished jobs.
- **Message handlers** (`messages.dfy`, class `Messages.MessageHandlers`).
  These cover text prompts (stripped, 3 to 500 characters), photo captions
  as edit instructions, and inline-button callbacks.
- **Records and store** (`models.dfy`, `database.dfy`, `values.dfy`,
  `text.dfy`). The three dataclasses come with their defaults and their
  dict round trips. The record store is a value with one function per
  store call the core makes. Dynamic Python/JSON values are a `Value`
  datatype. `text.dfy` holds the few Python string operations involved.

The bot's own help text (src/handlers/commands.py:463-466) promises "10
requests per minute" and "5 concurrent generations". The code keeps the
first promise (`SlidingWindowBound`) but not the second, and it differs
from what the help text suggests in a few other places. The model follows
the code:

- **Admission and the counter are separate steps.** `is_allowed` only
  records the request. The counter is incremented later by the handler,
  after a Telegram reply (src/handlers/commands.py:93-108). Requests that
  all pass `is_allowed` before any increment can push the counter past the
  cap (`InterleavedAdmissions`).
- **The enhance button bypasses the rate limiter.** It takes a slot
  whenever the task record has a result URL, so the cap of 5 can be
  exceeded (`EnhanceCallbacksExceedCap`).
- **No `Timeout` status is persisted.** A timeout, an unknown status and a
  `Ready` result without an image all leave the task record `Pending`
  (`GenerationRecord`).
- **Unknown provider statuses end polling** with the result as it is.
  They do not keep the loop polling.
- **Enhancement jobs write no task record at all.**
- **A user's `pending_tasks` entry names the latest job.** When an earlier
  job of the same user finishes, it deletes the entry even though a later
  job is still running (`FinishingFirstJobDropsSecondEntry`).

Time is an integer number of seconds supplied by the caller. Jobs run one
at a time, each to completion, interleaved with commands in any order the
caller chooses. The `sendOk` parameter of the handlers says whether the
Telegram replies sent before a slot is taken succeeded. When one fails, the
handler's `except` branch runs and no job starts.

## Model

| member | source | states |
|---|---|---|
| Text.Strip | src/handlers/messages.py:18 | The stripped text has no whitespace at either end and is empty exactly when the input is all whitespace. It is the slice of the input that starts after the leading whitespace, and everything outside that slice is whitespace. |
| Text.StripSlice | src/handlers/messages.py:18 | Trimming the end of the left-trimmed text keeps a slice of the input with only whitespace after it. |
| Text.StripFixed | src/handlers/messages.py:18 | A text with no whitespace at either end is its own `strip()`. |
| Text.SplitWords | src/handlers/messages.py:179 | `str.split()` yields only non-empty, whitespace-free words, and no words exactly when the text is all whitespace. |
| Text.SplitWordsSplits | src/handlers/messages.py:179 | The words are the maximal whitespace-free runs of the text, in order: after skipping whitespace, each word starts the rest and ends at whitespace or at the end, and nothing but whitespace is left over. |
| Text.SplitsUnique | src/handlers/messages.py:179 | A text has only one such sequence of runs, so `str.split()` is fully determined by that description. |
| Text.SplitJoin | src/handlers/commands.py:90 | Joining words with single spaces and splitting the result gives the same words back. |
| Text.CollapseIdempotent | src/handlers/messages.py:179 | Normalising a prompt's whitespace by split-then-join a second time changes nothing. |
| Text.AfterFirst | src/handlers/messages.py:168 | `split(":", 1)[1]` is absent exactly when the separator does not occur. Otherwise it is the suffix after the first separator, and no separator occurs before it. |
| Text.AfterFirstOfTag | src/handlers/messages.py:183 | A separator-free tag, the separator, then any payload: the payload comes back whole, even when it contains the separator. |
| Text.NatToString | src/utils/rate_limiter.py:32 | Integer formatting yields a non-empty string of decimal digits. |
| Text.NatToStringInjective | src/utils/rate_limiter.py:32 | Distinct non-negative numbers print differently. |
| Text.IntToStringInjective | src/services/ai_service.py:68 | Distinct integers, negatives included, print differently. |
| Models.NewUser | src/database/models.py:8-37 | Given fields are kept. Missing preferences and usage counters get the documented defaults (all counters 0, `last_used` None). Missing timestamps become the current time. |
| Models.NewImageRecord | src/database/models.py:45-60 | Missing metadata becomes `{}`, `image_type` defaults to `"generation"`, and a missing creation time becomes the current time. |
| Models.NewTaskRecord | src/database/models.py:68-85 | Result URL and error start unset. Only missing timestamps are filled in. |
| Models.UserToDict | src/database/models.py:39-43 | The dict has exactly one key per dataclass field, `_id` included. |
| Models.ImageToDict | src/database/models.py:62-66 | The dict has exactly one key per dataclass field, `_id` included. |
| Models.TaskToDict | src/database/models.py:87-91 | The dict has exactly one key per dataclass field, `_id` included. |
| Models.UserFromDoc | src/database/service.py:41 | `User(**doc)` succeeds only when the document's keys are fields and include `telegram_id`. |
| Models.ImageFromDoc | src/database/service.py:103 | `ImageRecord(**doc)` succeeds only when the keys are fields and include the four fields without a default. |
| Models.TaskFromDoc | src/database/service.py:148 | `TaskRecord(**doc)` succeeds only when the keys are fields and include the four fields without a default. |
| Models.UserRoundTrip | src/database/models.py:39-43 | Reading back a stored user gives the same user. |
| Models.ImageRoundTrip | src/database/models.py:62-66 | Reading back a stored image record gives the same record. |
| Models.TaskRoundTrip | src/database/models.py:87-91 | Reading back a stored task record gives the same record. |
| Database.GetOrCreateUser | src/database/service.py:35-53 | Returns the stored user untouched. Otherwise it inserts a new user with default preferences and zeroed counters, and the user is stored afterwards. |
| Database.GetTaskRecord | src/database/service.py:144-151 | Finds a record exactly when the task id is stored, and then it is the stored record. |
| Database.SaveTaskRecord | src/database/service.py:110-117 | Afterwards a lookup of the record's task id finds it. No other task, user or image changes. |
| Database.UpdateTaskStatus | src/database/service.py:119-142 | It matches exactly when the task exists, and a missing task changes nothing. Status and update time are always written; result URL and error only when truthy; nothing else changes. |
| Database.InsertOne | src/database/service.py:113 | `insert_one` is refused exactly when the document's stored id is already in the collection; otherwise that id is appended and the ids stay distinct. |
| Database.NewRecordsShareNullId | src/database/models.py:87-91 | As written, a new user, task or image is stored under `_id` null: it goes in when no null id is there yet and is refused otherwise. |
| Database.InsertDoc | src/database/models.py:87-91 | The corrected document drops only a null `_id` and keeps every other entry. |
| Database.NewRecordsInsertFresh | src/database/service.py:110-117 | With the corrected document, a new user, task or image is stored under the driver's fresh id, the insert succeeds, and the ids stay distinct. |
| Database.SaveImageRecord | src/database/service.py:84-92 | Appends exactly the record to the image collection and changes nothing else. |
| Database.IncrementUsageStats | src/database/service.py:68-82 | When the update applies, the counter goes up by one and `last_used`/`updated_at` become the current time, while every other field and counter of the user keeps its value and no other counter appears. Otherwise nothing changes. Other users never change. |
| RateLimiting.KeepAfter | src/utils/rate_limiter.py:25-28 | The window after eviction is no longer than before and holds only timestamps later than the cutoff. |
| RateLimiting.KeepAfterCounts | src/utils/rate_limiter.py:25-28 | Eviction keeps every timestamp later than the cutoff, as often as it occurs, and drops every other. |
| RateLimiting.KeepAfterAll | src/utils/rate_limiter.py:25-28 | Nothing is evicted exactly when every timestamp is later than the cutoff, and then the window is unchanged. |
| RateLimiting.KeepAfterAppend | src/utils/rate_limiter.py:25-28 | Eviction of a concatenation is the concatenation of the evictions. |
| RateLimiting.KeepAfterTwice | src/utils/rate_limiter.py:24-28 | Evicting at one cutoff and then at a later one is the same as evicting at the later one. |
| RateLimiting.Decide | src/utils/rate_limiter.py:31-36 | Admits exactly when the window is below the rate limit and the counter below the task cap. The rate check takes precedence over the task check. |
| RateLimiting.WindowStep | src/utils/rate_limiter.py:24-40 | The decision is taken on the evicted window, and `now` is appended exactly when admitted. An admitted window never exceeds `max_requests`. |
| RateLimiting.RateLimiter.constructor | src/utils/rate_limiter.py:12-17 | The limits are as given, the task cap is 5, and both maps are empty. |
| RateLimiting.RateLimiter.IsAllowed | src/utils/rate_limiter.py:19-40 | The user's window becomes the evicted window, plus `now` exactly when admitted. The refusal reason and its message follow the check order. Counters and other users' windows do not change. |
| RateLimiting.RateLimiter.IncrementActiveTasks | src/utils/rate_limiter.py:42-45 | The user's counter goes up by exactly one and nothing else changes. |
| RateLimiting.RateLimiter.DecrementActiveTasks | src/utils/rate_limiter.py:47-51 | The counter goes down by one when positive and is untouched otherwise, so it never goes negative. |
| RateLimiting.RateLimiter.GetUserStats | src/utils/rate_limiter.py:53-68 | Counts the recent requests without evicting any: the count is the length of the window `is_allowed` would evict to, and it equals the stored window's length exactly when nothing is stale. Counter and limits are reported as they are. |
| RateLimiting.StepTracks | src/utils/rate_limiter.py:24-40 | After a call, the stored window still evicts exactly like the full history of admissions. |
| RateLimiting.StepBound | src/utils/rate_limiter.py:31-40 | Admitting only below the limit keeps every trailing interval within `max_requests`. |
| RateLimiting.ReplayStep | src/utils/rate_limiter.py:19-40 | One more call, no earlier than the last, preserves the replay invariant. |
| RateLimiting.ReplayInvariant | src/utils/rate_limiter.py:19-40 | For every non-decreasing run of calls, the window tracks the history and every trailing interval is within the limit. |
| RateLimiting.SlidingWindowBound | src/utils/rate_limiter.py:19-40 | For non-decreasing clock readings, no interval `(t - time_window, t]` contains more than `max_requests` admitted calls, whatever the task counts were. |
| RateLimiting.SequentialAdmissions | src/utils/rate_limiter.py:35-36 | With each admission immediately followed by its increment, six simultaneous requests admit only five. |
| RateLimiting.InterleavedAdmissions | src/handlers/commands.py:93-108 | If six requests pass `is_allowed` before any increment runs, all six are admitted and the counter reaches 6, above the cap of 5. |
| AiService.DropNulls | src/services/ai_service.py:42 | Keeps exactly the entries whose value is not `None`, unchanged. |
| AiService.BuildPayload | src/services/ai_service.py:31-42 | Only the seven payload keys, never a `None` value, and the prompt is always present. |
| AiService.PayloadSeed | src/services/ai_service.py:36-42 | `seed` is sent exactly when the caller supplies a non-`None` value. |
| AiService.PayloadOverride | src/services/ai_service.py:33-42 | A supplied option is sent as given, or dropped when it is `None`. |
| AiService.PayloadDefaults | src/services/ai_service.py:33-38 | An option that is not supplied is sent with its default: 1024 by 1024, no upsampling, tolerance 2, JPEG. |
| AiService.SubmitOutcome | src/services/ai_service.py:44-75 | Succeeds exactly on status 200, with the body's id and polling URL. Status 429, status 402, other statuses, network errors and other exceptions each give their own message. |
| AiService.GenerateImage | src/services/ai_service.py:18-75 | One request goes to the generation endpoint with the payload built from the prompt and the options. It succeeds exactly when that reply has status 200, and then returns the reply's body; otherwise the reply's failure message. |
| AiService.SubmitMessageIdentifiesStatus | src/services/ai_service.py:55-68 | Two refused submissions with the same message had the same status code. |
| AiService.ResultUrl | src/services/ai_service.py:81 | The polling URL when it is non-empty, otherwise the base URL's `/v1/get_result`. |
| AiService.GetResult | src/services/ai_service.py:90-107 | Gives the body exactly on status 200. Other statuses, network errors and other exceptions each give their message. |
| AiService.Classify | src/services/ai_service.py:121-142 | `Ready`, the three failure statuses, and the two waiting statuses are recognised exactly. Everything else is unknown. |
| AiService.Elapsed | src/services/ai_service.py:131-137 | When the reply to request `k` arrives, at least `2k` seconds of sleep have passed. |
| AiService.ElapsedNoLatency | src/services/ai_service.py:131-137 | With instant replies, request `k` is answered at exactly `2k` seconds. |
| AiService.PollForResult | src/services/ai_service.py:109-146 | Polls until a reply is not a waiting status or arrives after the deadline. The result comes from the last reply (body, timeout result, or error result) and is never a waiting status. At most `timeout / 2 + 2` requests are made. |
| AiService.StopsAtSettledReply | src/services/ai_service.py:121-146 | An error or a non-waiting reply is the last request, and the result is the error result or that body. |
| AiService.PollSpecUnique | src/services/ai_service.py:109-146 | The provider's replies and latencies determine the number of requests and the result. |
| AiService.PendingProviderTimesOut | src/services/ai_service.py:129-138 | A provider that stays `Pending` leads to the timeout result after exactly `timeout / 2 + 2` requests. |
| Commands.Sample | src/handlers/commands.py:162 | `result.get("result", {}).get("sample")` is Python `None` when there is no `result` entry, the entry's `sample` otherwise, and raises exactly when the entry is not a dict. |
| Commands.ClassifyResult | src/handlers/commands.py:158-220 | Delivered exactly for `Ready` with a truthy sample. No-image, crash, provider failure (with the status and `error` or the default message) and not-finished are each recognised exactly. |
| Commands.SettledNotFinished | src/handlers/commands.py:214-220 | Once polling has settled, a job counts as not finished exactly when the status is a timeout, missing or unknown. |
| Commands.GenerationFrame | src/handlers/commands.py:124-220 | `GenerationStore` adds the job's user if missing and leaves every other user as is. It writes only the task record of the submitted id, and only after a successful submission. It only appends to the images: at most one record, for this user, prompt and task. |
| Commands.EffectFrame | src/handlers/commands.py:158-212 | The writes after the poll keep every other task and user, and append an image exactly on delivery. |
| Commands.EnhancementFrame | src/handlers/commands.py:286-329 | `EnhancementStore` writes no task record and no other user. It only appends to the images: at most one enhancement record, for this user and task. |
| Commands.GenerationWithoutSubmission | src/handlers/commands.py:127-136 | When submission fails, no task record or image is written; at most the user is created. |
| Commands.GenerationRecord | src/handlers/commands.py:139-212 | After submission the task record exists. It is `Ready` with the URL on delivery, carries the provider status and a truthy error on failure, and otherwise stays the saved `Pending` record. |
| Commands.GetOrCreateKeepsCounts | src/handlers/commands.py:129 | Fetching or creating the user changes none of its usage counts. |
| Commands.GenerationImages | src/handlers/commands.py:169-176 | A generation adds one image record exactly when the image was delivered. |
| Commands.GenerationUsage | src/handlers/commands.py:178-179 | `total_generations` goes up by one exactly on a countable delivery. The other counters do not move. |
| Commands.NewUserCountable | src/handlers/commands.py:129 | A user created by the task can always have a generation counted. |
| Commands.EnhancementEffects | src/handlers/commands.py:301-316 | Enhancement never writes a task record. It adds one image and one `total_enhancements` exactly on delivery, and no other counter moves. |
| Commands.CommandHandlers.constructor | src/handlers/commands.py:17-23 | Handlers start with an empty `pending_tasks` and no job. |
| Commands.CommandHandlers.StartJob | src/handlers/commands.py:107-116 | Takes exactly one slot of the user, starts a new job, and makes it the user's `pending_tasks` entry. The windows and the store do not change. |
| Commands.CommandHandlers.AdmitAndStart | src/handlers/commands.py:92-116 | The window follows `is_allowed`. A job starts exactly when it admits and the status reply went out; a refused request changes nothing else. |
| Commands.CommandHandlers.GenerateCommand | src/handlers/commands.py:77-122 | No arguments: nothing changes. Otherwise the prompt is the space-joined arguments, admitted as above. |
| Commands.CommandHandlers.EnhanceCommand | src/handlers/commands.py:238-284 | Not replying to a photo: nothing changes. Otherwise the fixed enhancement prompt is admitted as above. |
| Commands.CommandHandlers.Finish | src/handlers/commands.py:230-236 | Gives the job's slot back exactly once, since the counter was at least 1. Deletes the user's `pending_tasks` entry whichever job it names. |
| Commands.CommandHandlers.RunGenerationTask | src/handlers/commands.py:124-236 | The submission is `generate_image` at 1024 by 1024. The poll meets `PollSpec` with a 300-second timeout. The store becomes `GenerationStore`, the slot is returned, and the entry is removed. |
| Commands.CommandHandlers.GenerationBody | src/handlers/commands.py:127-220 | The `try` part of the generation job: submission, poll, and the store writes of `GenerationStore`. |
| Commands.CommandHandlers.RunEnhancementTask | src/handlers/commands.py:286-342 | As for generation, with the store becoming `EnhancementStore`. |
| Commands.CommandHandlers.EnhancementBody | src/handlers/commands.py:289-329 | The `try` part of the enhancement job: submission, poll, and the writes of `EnhancementStore`. |
| Commands.OneJobNetZero | src/handlers/commands.py:77-236 | One admitted `/generate` run to completion leaves the counter at 0 and no pending entry, whatever the provider did. |
| Commands.FinishingFirstJobDropsSecondEntry | src/handlers/commands.py:230-236 | With two jobs of one user, finishing the first leaves one slot held but no `pending_tasks` entry. |
| Messages.ValidateText | src/handlers/messages.py:18-40 | On the stripped text: starting with `/` is ignored; shorter than 3 or longer than 500 is refused, with the length reported; otherwise it is accepted as the prompt. All of these are iff. |
| Messages.AcceptedPromptStable | src/handlers/messages.py:18-40 | An accepted prompt is accepted again, unchanged. |
| Messages.EditPrompt | src/handlers/messages.py:127 | The edit prompt is the instruction followed by the 24-character suffix ", high quality, detailed". |
| Messages.EditPromptInjective | src/handlers/messages.py:127 | Different instructions give different prompts. |
| Messages.ParseCallback | src/handlers/messages.py:149-246 | Branches are chosen in the source's order: `quick_generate`, `help`, `settings` and `examples` each exactly on their literal; regenerate and enhance exactly on their prefix (regenerate first), carrying everything after it; anything else is "coming soon". |
| Messages.PrefixedPayload | src/handlers/messages.py:168 | For data that starts with a tag ending in its only `:`, `split(":", 1)[1]` is the rest of the data. |
| Messages.RegenerateRoundTrip | src/handlers/commands.py:183 | The "Generate Again" button's data parses back to the same prompt. |
| Messages.EnhanceRoundTrip | src/handlers/commands.py:184 | The "Enhance" button's data parses back to the same task id. |
| Messages.UploadedEnhanceIsComingSoon | src/handlers/messages.py:87 | The photo menu's `enhance_uploaded:` data falls through to "coming soon" and is not an enhance callback. |
| Messages.MessageHandlers.constructor | src/handlers/messages.py:13-14 | Shares the given command handlers. |
| Messages.MessageHandlers.HandleTextMessage | src/handlers/messages.py:16-75 | A text that is not accepted changes nothing. An accepted one is admitted, and an admitted one starts a generation of the stripped text with one slot and a pending entry. |
| Messages.MessageHandlers.HandlePhotoMessage | src/handlers/messages.py:77-142 | No caption changes nothing. A caption is admitted, and an admitted one starts a generation of the edit prompt. The store never changes. |
| Messages.MessageHandlers.Regenerate | src/handlers/messages.py:167-180 | Corrected regenerate path: the prompt's words go to `generate_command`, so a job starts exactly when there are words, `is_allowed` admits, and the reply went out. |
| Messages.MessageHandlers.HandleCallbackQuery | src/handlers/messages.py:144-252 | Regenerate (as written) counts the request when the prompt has words, leaves the window alone when it has none, and never starts a job. Enhance starts a job without admission exactly when the record has a truthy result URL. Settings creates the user. Nothing else changes. |
| Messages.EnhanceCallbacksExceedCap | src/handlers/messages.py:182-202 | Six enhance callbacks leave the user with 6 active tasks against a cap of 5. |
| Messages.RegenerateStartsNothing | src/handlers/messages.py:167-180 | On fresh handlers the as-written regenerate callback starts no job, while the corrected path does. |

## Left out

- I/O is not modelled. Telegram messages, edits, photos and keyboards are left out; only the `sendOk` flag stays, covering whether replies made before a slot is taken succeeded. File downloads (`get_file`) are treated as part of that flag.
- Concurrency is not modelled. Jobs run to completion one at a time; asyncio interleavings are represented only by the caller's choice of call order. Task cancellation is not modelled.
- Time is an integer number of seconds supplied by the caller. One timestamp stands for every `utcnow()` call inside a single job. Sub-second precision is not modelled.
- The `defaultdict` side effect of reading a user's entry (inserting an empty window or a zero counter) is not modelled. A missing entry reads as empty, which gives the same observable values.
- Whitespace is ASCII only: Unicode whitespace for `strip()`/`split()` is not modelled.
- Submission replies with status 200 are taken to carry a string `id`. A body without one, and non-object JSON bodies, are not modelled.
- The record store has no indexes, connection failures or clean-up. `Database.UpdateTaskStatus` reports "the task exists" in place of MongoDB's `modified_count > 0`, which also differs when the update writes identical values.
- Database.GetOrCreateUser, Database.SaveTaskRecord and Database.SaveImageRecord always succeed: they follow the corrected insert of the `_id` finding below. As written, every insert after the first new record of a collection fails on a duplicate `_id`, and a new user's generation job then ends in its `except` branch (src/handlers/commands.py:222) with no task record.
- Telegram calls made after the slot is taken (the status edits, `reply_photo`, the result keyboard) are taken to succeed. In the source a failing `edit_text` at src/handlers/commands.py:149 skips the poll and leaves the record `Pending`; Commands.GenerationRecord holds only under this assumption.
- Documents are the records they were written from. A stored document with ill-typed fields, which `Record(**doc)` would accept without checking, is not representable.
- The `/start`, `/help`, `/history` and `/settings` commands are not modelled. The help, quick-generate, examples and "coming soon" callbacks only display text.
- `enhance_image` of the provider client is not modelled because the handlers never call it. src/services/image_service.py is not part of this model.
- Configuration is fixed. The limiter's `max_requests` and `time_window` are constructor arguments. The task cap is fixed at 5, as in the source, which ignores any configured value.
- When the `result` entry of a `Ready` result is not a dict, the source raises inside the job. That is modelled as the `except` branch (no store write); the log line is not modelled.

## Findings

| source | as written | input that shows it | evidently intended | confidence | as-written member | corrected member |
|---|---|---|---|---|---|---|
| src/handlers/messages.py:167-180 | The regenerate callback passes `generate_command` a stand-in update whose message has no `reply_text`. The first reply (src/handlers/commands.py:100, or :95/:83 when refused or empty) raises, so the request is counted in the window but no job ever starts. | callback data `regenerate:a cat` on fresh handlers | Start a generation of the same prompt, as `/generate a cat` would | not executed | Messages.MessageHandlers.HandleCallbackQuery (shown by Messages.RegenerateStartsNothing) | Messages.MessageHandlers.Regenerate |
| src/database/models.py:87-91 | `to_dict()` of each record (also src/database/models.py:39-43 and :62-66) is `asdict()`, which emits every field, so a record not yet stored is inserted (src/database/service.py:45, :87, :113) with `"_id": None`. The driver keeps that id, so the first new user, task or image of a collection is stored under `_id` null and every later one is refused by the unique `_id` index. | a second new user's first `/generate`: `get_or_create_user` raises | Leave `_id` out of a new record's document so that the driver generates a fresh id | not executed | Database.NewRecordsShareNullId | Database.NewRecordsInsertFresh (with Database.InsertDoc) |
