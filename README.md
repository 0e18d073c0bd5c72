# siha_bot alert scheduler, modelled in Dafny

siha_bot is a Telegram group bot that "screams" (sends a long run of 啊)
on a timer. A chat can start a repeating scream with `/on x` (every x
minutes) and stop it with `/off`. If a group is silent for a while, an
idle watch starts an hourly automatic scream, and any group message ends
that automatic scream. `/enable_auto` and `/disable_auto` switch the idle
watch on or off. At 0:00 the bot drops each known chat's alert and watch
and announces the curfew; at 8:00 it announces the end and arms a watch
for every known chat.

All of this lives in `main.py`. It keeps two module-level globals:

- `GLOBAL_JOBS`: a dictionary per chat with the optional keys `job`,
  `job_manual`, `auto_trigger_job`, `auto_enabled` and `curfew`.
- `KNOWN_CHATS`: the chats seen so far.

The handlers update these globals in place. They arm and remove jobs on
the bot's job queue and send messages.

The model has two layers:

- **Values.** `ChatState.Store` holds the two globals, a job table and the
  list of messages sent so far. Each handler is a function from the state
  before to the state after (`Handlers`, `Curfew`). Its contract states
  the handler's effect on the chat's keys, on the job table and on the
  outbox.
- **The object.** `Bot.Scheduler` is a class whose fields are those four
  parts. Each handler is a method that makes the same updates in the same
  order as `main.py`. The two curfew callbacks loop over `KNOWN_CHATS` in
  whatever order the set yields. Every handler method, and each curfew
  loop body, is proved to compute exactly its handler function and to keep
  the invariant `ChatState.Valid`. The function has the method's name,
  except for three pairs: `GroupMessageHandler` is `Handlers.GroupMessage`,
  `EnableAutoCommand` is `Handlers.EnableAuto` and `DisableAutoCommand` is
  `Handlers.DisableAuto`. The helper methods `Reply`, `Schedule`,
  `ScheduleRemoval`, `DropWatch` and `ArmWatch` are each proved to make
  one step and nothing else. They are specified by that effect alone, and
  the invariant is proved at the end of each handler that uses them.

How the rest of the model is set up:

- Jobs are rows of an append-only table. A job's id is its position. A job
  is marked `removed` once `schedule_removal` is called on it, or once a
  one-shot job has run.
- `Events.Step` and `Events.Run` feed any sequence of commands, messages,
  job firings and curfew edges to the handlers. No event forgets a known
  chat, changes or reschedules a job, or takes back a sent message.
- `Invariants` proves that every reachable state is valid.
- `Findings` shows five places where the code does not do what it
  evidently means to: what its comments say (main.py:104, main.py:155),
  what rule R does elsewhere, or what its own replies announce. Rule R is
  `reset_auto_trigger` (main.py:159-181): in a group whose `auto_enabled`
  is not False, at 8:00 or later, the pending watch is replaced by a fresh
  one.
- `Corrected` gives the intended handlers. It proves that, with them,
  every reachable state has at most one alert and one watch per chat and
  loses track of no job, and that a chat that disabled the automatic
  trigger has no watch.

Some of the code's behaviour departs from what a reader of the bot's
messages would expect: one alert or one watch per chat, a curfew that
silences everything, an alert that `/off` really ends. The model follows
the code. Each of these behaviours has a lemma that shows it:

- After a valid `/on` in a group after 8:00, the chat has both a
  scheduled alert and a scheduled watch (`Scenarios.OnThenOff`), so "an
  alert or a watch, never both" is not an invariant of the code.
- At 8:00 every known chat gets a watch, whatever its `auto_enabled`
  (`Curfew.CurfewEndArmsEveryKnownChat`, `Scenarios.CurfewNight`).
- A watch that fires during curfew still starts the automatic scream
  (`Scenarios.AutoTriggerIgnoresCurfew`).
- `/off` does not delete the `job` key (`Handlers.OffCommand`).
- The watch armed by rule R (`reset_auto_trigger`) waits 10 seconds
  (`Scenarios.OffWhenIdleArmsWatch`), and so does the one armed at 8:00
  (`Curfew.CurfewEndArmsEveryKnownChat`). The watch armed by a group
  message waits 3600 seconds (`Handlers.GroupMessage`).
- A valid `/on` does not remove the alert it replaces
  (`Handlers.OnCommandEffect`).

## Model

| member | source | states |
|---|---|---|
| JobQueue.Cancel | main.py:38-41 | `schedule_removal` marks exactly that job as no longer scheduled, keeping its kind and chat, and leaves every other job as it was; a missing job is ignored, as the swallowed exception does |
| ChatState.InitialValid | main.py:8-9 | the empty GLOBAL_JOBS and KNOWN_CHATS satisfy the invariant |
| Handlers.ResetAutoTrigger | main.py:159-181 | sends nothing; a non-group chat, `auto_enabled` False or an hour before 8 leave GLOBAL_JOBS and the jobs unchanged; otherwise exactly the old watch is removed and a fresh 10-second one-shot becomes `auto_trigger_job`; a group chat becomes known |
| Handlers.HelpCommand | main.py:24-30 | replies with the usage text, adds only group chats to KNOWN_CHATS, then has rule R's effect |
| Handlers.OffCommand | main.py:33-47 | with a `job`: that job alone is removed, `job_manual` is popped, `job` stays, "stopped" is replied and no watch changes; without one: "not alerting" is replied and rule R's effect follows |
| Handlers.OnCommandEffect | main.py:51-80 | a wrong argument count, a non-number or x <= 0 gives one error reply and no other change; otherwise the chat becomes known, a repeating job of x*60 seconds, first run at 0, becomes its manual `job` (the previous job is not removed), the start is confirmed and rule R's effect follows |
| Handlers.AutoTriggerCallback | main.py:83-97 | only a chat without `job` gets a repeating job of 3600 seconds, first after 1, as non-manual `job`, and the notice; in every case the chat ends without `auto_trigger_job`, no other chat changes, and only the fired one-shot stops being scheduled |
| Handlers.GroupMessage | main.py:100-121 | a non-group chat changes nothing; a group chat becomes known, its `job` is removed and deleted with a notice exactly when it has one and `chat_data["job_manual"]` is falsy, its watch is removed, and a fresh 3600-second watch is armed whatever `auto_enabled` or the hour |
| Handlers.EnableAuto | main.py:183-188 | `auto_enabled` becomes True, the chat becomes known and is told; a group chat after 8:00 gets a fresh 10-second watch replacing the old one, otherwise no job changes |
| Handlers.DisableAuto | main.py:190-201 | `auto_enabled` becomes False, the chat becomes known, exactly its pending watch is removed and the key deleted, and it is told |
| Handlers.ScreamCallback | main.py:19-21 | one scream is sent to the job's chat and nothing else changes |
| Curfew.CurfewStart | main.py:123-144 | the walk keeps KNOWN_CHATS, the set of chats in GLOBAL_JOBS and the size of the job table |
| Curfew.CurfewEnd | main.py:146-157 | the walk keeps KNOWN_CHATS and adds exactly one job per visited chat |
| Curfew.CurfewStartChatEffect | main.py:125-144 | one iteration at 0:00: a chat with an entry loses `job` and `auto_trigger_job` (both removed, nothing else) and gets `curfew` True; the notice is sent unless its send fails |
| Curfew.CurfewEndChatEffect | main.py:148-157 | one iteration at 8:00: `curfew` False only where an entry exists, the notice unless its send fails, and a 10-second watch appended and stored, the old watch not removed |
| Curfew.CurfewStartEntries | main.py:125-140 | after the walk each visited chat's entry has no `job`, no `auto_trigger_job` and `curfew` True; other entries are untouched |
| Curfew.CurfewStartJobs | main.py:128-139 | the walk removes exactly the jobs the visited chats held and arms none |
| Curfew.CurfewStartNotices | main.py:141-144 | one start notice per visited chat in visiting order, skipping the chats whose send fails, and the walk goes on |
| Curfew.CurfewEndNotices | main.py:151-154 | one end notice per visited chat in visiting order, skipping failed sends |
| Curfew.CurfewEndJobs | main.py:156-157 | earlier jobs are unchanged (no watch is removed) and the k-th new job is a 10-second watch for the k-th visited chat |
| Curfew.CurfewEndKeys | main.py:149-157 | every visited chat gets an entry (setdefault); unvisited entries are untouched |
| Curfew.CurfewEndEntries | main.py:149-157 | each visited chat's `auto_trigger_job` is the watch armed for it, and `curfew` becomes False only where an entry existed |
| Curfew.CurfewStartSilencesKnownChats | main.py:123-144 | at 0:00 every known chat with an entry ends with no alert, no watch, `curfew` True, and the jobs it held are no longer scheduled |
| Curfew.CurfewEndArmsEveryKnownChat | main.py:146-157 | at 8:00 every known chat, disabled or not, ends with a scheduled 10-second watch of its own |
| Invariants.ResetValid | main.py:159-181 | rule R keeps the invariant |
| Invariants.HelpValid | main.py:24-30 | /help keeps the invariant |
| Invariants.OffValid | main.py:33-47 | /off keeps the invariant |
| Invariants.OnValid | main.py:51-80 | /on keeps the invariant |
| Invariants.AutoTriggerValid | main.py:83-97 | a firing watch keeps the invariant |
| Invariants.ScreamValid | main.py:19-21 | a scream keeps the invariant |
| Invariants.GroupMessageValid | main.py:100-121 | a group message keeps the invariant |
| Invariants.EnableValid | main.py:183-188 | /enable_auto keeps the invariant |
| Invariants.DisableValid | main.py:190-201 | /disable_auto keeps the invariant |
| Invariants.CurfewStartValid | main.py:123-144 | the 0:00 walk keeps the invariant in any visiting order |
| Invariants.CurfewEndValid | main.py:146-157 | the 8:00 walk keeps the invariant when it visits known chats |
| Events.StepEffect | main.py:213-227 | the queue runs only jobs still scheduled, and a curfew walk that does not visit each known chat once does nothing; no event forgets a known chat, changes a job's kind or chat, reschedules a retired job or takes back a sent message |
| Events.RunKeeps | main.py:213-227 | over any run of events, known chats, jobs and sent messages are only added to, and retired jobs stay retired |
| Invariants.StepValid | main.py:213-227 | every registered handler and daily job keeps the invariant |
| Invariants.RunValid | main.py:213-227 | any sequence of events keeps the invariant |
| Invariants.ReachableValid | main.py:8-9 | every state reachable from start-up is valid |
| Bot.Scheduler.constructor | main.py:8-9 | the bot starts with no chat known, no job and nothing sent |
| Bot.Scheduler.Reply | main.py:29 | a reply appends one message to the chat's stream |
| Bot.Scheduler.Schedule | main.py:71-76 | arming a job appends it, scheduled, and returns its id; nothing else changes |
| Bot.Scheduler.ScheduleRemoval | main.py:38-41 | the job table becomes `Cancel` of the old one; nothing else changes |
| Bot.Scheduler.DropWatch | main.py:173-178 | the pending watch, if any, is removed and its key deleted |
| Bot.Scheduler.ArmWatch | main.py:180-181 | a one-shot watch is armed and stored under `auto_trigger_job` |
| Bot.Scheduler.ResetAutoTrigger | main.py:159-181 | the new state is `Handlers.ResetAutoTrigger` of the old one, and the invariant holds |
| Bot.Scheduler.HelpCommand | main.py:24-30 | the new state is `Handlers.HelpCommand` of the old one, and the invariant holds |
| Bot.Scheduler.OffCommand | main.py:33-47 | the new state is `Handlers.OffCommand` of the old one, and the invariant holds |
| Bot.Scheduler.OnCommand | main.py:51-80 | the new state is `Handlers.OnCommand` of the old one, and the invariant holds |
| Bot.Scheduler.AutoTriggerCallback | main.py:83-97 | the new state is `Handlers.AutoTriggerCallback` of the old one, and the invariant holds |
| Bot.Scheduler.GroupMessageHandler | main.py:100-121 | the new state is `Handlers.GroupMessage` of the old one, and the invariant holds |
| Bot.Scheduler.EnableAutoCommand | main.py:183-188 | the new state is `Handlers.EnableAuto` of the old one, and the invariant holds |
| Bot.Scheduler.DisableAutoCommand | main.py:190-201 | the new state is `Handlers.DisableAuto` of the old one, and the invariant holds |
| Bot.Scheduler.ScreamCallback | main.py:19-21 | the new state is `Handlers.ScreamCallback` of the old one, and the invariant holds |
| Bot.Scheduler.CurfewStartChat | main.py:126-144 | one chat's turn at 0:00: the new state is `Curfew.CurfewStartChat` of the old one (alert and watch removed, 'curfew' True, notice if delivered); the invariant holds |
| Bot.Scheduler.CurfewEndChat | main.py:149-157 | one known chat's turn at 8:00: the new state is `Curfew.CurfewEndChat` of the old one ('curfew' False, notice if delivered, a 10-second watch armed); the invariant holds |
| Bot.Scheduler.CurfewStartCallback | main.py:123-144 | the loop visits every known chat exactly once, in the order it returns, and the new state is `Curfew.CurfewStart` over that order; the invariant holds |
| Bot.Scheduler.CurfewEndCallback | main.py:146-157 | the loop visits every known chat exactly once, in the order it returns, and the new state is `Curfew.CurfewEnd` over that order; the invariant holds |
| Scenarios.OnThenOff | main.py:33-80 | `/on 2.5` arms a 150-second repeating job first run at 0 with `job_manual` True beside a 10-second watch; `/off` then removes it and replies "stopped" while `job` stays |
| Scenarios.OffWhenIdleArmsWatch | main.py:45-47 | `/off` with nothing running replies "not alerting" and arms the 10-second watch |
| Scenarios.OnRejects | main.py:54-66 | `/on 0`, `/on -1`, `/on abc` and a bare `/on` only send their error reply |
| Scenarios.AutoTriggerIgnoresCurfew | main.py:83-97 | a watch firing during curfew still starts the hourly scream |
| Scenarios.CurfewNight | main.py:123-157 | after 0:00 and 8:00, each known chat that has an entry has no alert, `curfew` False, its `auto_enabled` and a fresh 10-second watch |
| Findings.ManualAlertEndedByMessage | main.py:105 | with `chat_data` never written, a group message ends a manual alert and says so; the corrected handler keeps it |
| Findings.CurfewEndArmsDisabledChat | main.py:155-157 | at 8:00 a chat with `auto_enabled` False gets a scheduled watch, which breaks the intended invariant |
| Findings.MessageArmsWatchWhenDisabled | main.py:119-121 | a group message arms a watch for a chat with `auto_enabled` False, which breaks the intended invariant |
| Findings.OffLeavesStaleJob | main.py:37-44 | after /off the chat still counts as alerting, a second /off replies "stopped" again, and `job` names a removed job; the corrected /off answers "not alerting" the second time |
| Findings.OnLeaksPreviousAlert | main.py:71-77 | a second /on leaves two scheduled alert jobs for the chat, only one of them reachable; the corrected /on removes the first |
| Corrected.OnCommandFixed | main.py:51-80 | a rejected argument gives exactly /on's error reply; a valid one gives exactly /on run after the chat's running alert is removed (its `job` deleted and its job no longer scheduled), so the new job is the manual `job` |
| Corrected.OffCommandFixed | main.py:33-47 | a chat that is not alerting gets exactly /off; an alerting chat has `job` and `job_manual` both deleted and no other key changed, joins KNOWN_CHATS in a group, has exactly its alert job removed and no job armed, and gets "stopped" |
| Corrected.GroupMessageFixed | main.py:100-121 | a manual alert (by GLOBAL_JOBS' `job_manual`) survives a message and a non-manual one ends with a notice; a disabled chat or an hour before 8 gets no watch, otherwise a fresh 3600-second one |
| Corrected.GroupMessageFixedEffect | main.py:100-121 | in a group, the jobs no longer scheduled after a message are exactly the old watch and, if the alert ends, the alert; the chat's entry changes only in `job` and `auto_trigger_job`, and every other chat's entry stays as it was |
| Corrected.CurfewEndFixed | main.py:146-157 | the corrected 8:00 walk keeps KNOWN_CHATS and sends the end notice to each visited chat, in order, unless the send fails |
| Corrected.CurfewEndFixedArmsEnabledChats | main.py:146-157 | after the corrected 8:00 walk over the known chats, every known chat that did not disable the automatic trigger has a scheduled 10-second watch of its own under `auto_trigger_job` |
| Corrected.CurfewEndChatFixed | main.py:148-157 | a chat with `auto_enabled` False gets only `curfew` False and no job change at 8:00; any other chat gets `curfew` False where it has an entry and a fresh 10-second watch replacing the old one, and no other key or chat changes |
| Corrected.OneAlertPerChat | main.py:71-97 | in an intended state a chat has at most one scheduled alert job |
| Corrected.OneWatchPerChat | main.py:113-121 | in an intended state a chat has at most one scheduled watch |
| Corrected.DisabledChatHasNoWatch | main.py:155-201 | in an intended state no scheduled watch belongs to a chat with `auto_enabled` False |
| Corrected.StepFixedIntended | main.py:213-227 | every corrected handler keeps the intended invariant |
| Corrected.RunFixedIntended | main.py:213-227 | any sequence of events keeps the intended invariant under the corrected handlers |
| Corrected.ReachableFixedIntended | main.py:8-9 | every state the corrected bot reaches from start-up is intended |

## Left out

- Telegram I/O. Replies and messages are appended to an outbox, and the
  texts are an enumeration by meaning. A reply or send outside the curfew
  loops is assumed to succeed. In the curfew loops, the chats whose send
  raises are a parameter (`failed`), and the loop goes on past them.
- Python's `float()`. The `/on` argument arrives already parsed: a real,
  or None where `float()` raises. `nan` and `inf`, which `float()`
  accepts, are not modelled. The interval `x * 60` (main.py:70) is exact
  real arithmetic: float rounding is not modelled, nor the overflow to
  `inf` for `x` above about 3e306.
- An entry point that rebuilds jobs from a saved state. `main.py` has
  none, so the model has none.
- `datetime.now()`. The current hour is a parameter.
- `context.chat_data`. Its `job_manual` entry is a boolean parameter of
  the message handler. Nothing in `main.py` writes it, so in practice it
  is False.
- The job queue's timing. Jobs are abstract records. The environment may
  run any scheduled job at any point, as an event. One-shot jobs are
  marked as no longer scheduled when they run. Repeating jobs stay
  scheduled until removed.
- `run_daily` at 0:00 and 8:00 and the handler registration
  (main.py:213-227). They are modelled only as event kinds of
  `Events.Event`.
- `config.yaml`, `PicklePersistence`, building the `Application` and
  `run_polling` (main.py:11-15, 204-229). These are framework set-up and
  I/O.
- Async interleaving at `await` points. Each handler runs as one atomic
  transition.
- The `print` debugging lines and the swallowed exceptions of
  `schedule_removal`. Removal is total.
- Events.Step: ignores a curfew event whose visiting order is not an
  enumeration of KNOWN_CHATS, and a job firing for a job that is not
  scheduled. Neither can come from the job queue.

## Findings

| source | as written | input that shows it | evidently intended | confidence | as-written member | corrected member |
|---|---|---|---|---|---|---|
| main.py:105 | the manual guard reads `context.chat_data["job_manual"]`, which is never written | `/on 5` in a group, then any message in that group: the manual alert is removed and "auto alert ended" is sent | read `GLOBAL_JOBS[chat]["job_manual"]`, as the comment on line 104 says, so that only an automatic alert ends | high, not executed | Findings.ManualAlertEndedByMessage | Corrected.GroupMessageFixed |
| main.py:155-157 | the 8:00 loop arms a 10-second watch for every known chat | a chat that sent `/disable_auto` gets a watch at 8:00, and ten seconds later the automatic scream starts | skip chats whose `auto_enabled` is False, as the comment on line 155 says | high, not executed | Findings.CurfewEndArmsDisabledChat | Corrected.CurfewEndChatFixed |
| main.py:119-121 | every group message re-arms the one-hour watch | `/disable_auto`, then any message: an hour later the automatic scream starts; a message at 3:00 gives a scream at 4:00 during curfew | re-arm only where rule R would (auto not disabled, hour at least 8) | high, not executed | Findings.MessageArmsWatchWhenDisabled | Corrected.GroupMessageFixed |
| main.py:37-44 | /off removes the job but keeps the `job` key | `/on 5`, `/off`, `/off`: the second /off replies "stopped" again; until the next group message, a firing watch starts no automatic scream, because the chat still has a `job`, and that message then sends a spurious "auto alert ended" notice | delete `job` with `job_manual` | high, not executed | Findings.OffLeavesStaleJob | Corrected.OffCommandFixed |
| main.py:71-77 | /on overwrites `job` without removing the old job | `/on 5`, `/on 10`: both repeating jobs keep screaming, and `/off` can only stop the second | remove the running alert before arming the new one | high, not executed | Findings.OnLeaksPreviousAlert | Corrected.OnCommandFixed |
