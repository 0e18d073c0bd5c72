/**
 * The bot's job queue, made abstract: a table of every job ever armed.
 * A job is never forgotten; `removed` records that `schedule_removal` was
 * called on it or, for a one-shot job, that it has already run.  A job's
 * identity is its position in the table.
 */
module JobQueue {
  import opened Wrappers

  /** Telegram chat identifiers. */
  type ChatId = int
  /** A job's position in the table. */
  type JobId = nat

  /** What a job runs and when, in seconds. */
  datatype Kind =
    | Scream(interval: real, first: real)   // run_repeating(scream_callback, interval, first)
    | AutoTrigger(when: real)               // run_once(auto_trigger_callback, when)

  /** A job and the chat id carried as its data. */
  datatype Job = Job(kind: Kind, chat: ChatId, removed: bool)

  /** `id` names a job that is still scheduled. */
  predicate Live(jobs: seq<Job>, id: JobId)
  {
    id < |jobs| && !jobs[id].removed
  }

  /** Arming a job appends it, live, at the next free position. */
  function Arm(jobs: seq<Job>, kind: Kind, c: ChatId): seq<Job>
  {
    jobs + [Job(kind, c, false)]
  }

  /** `schedule_removal`: total, since the source swallows its exceptions. */
  function Cancel(jobs: seq<Job>, id: JobId): (r: seq<Job>)
    ensures |r| == |jobs|
    ensures id < |jobs| ==> !Live(r, id) && r[id] == jobs[id].(removed := true)
    ensures forall i | 0 <= i < |jobs| && i != id :: r[i] == jobs[i]
  {
    if id < |jobs| then jobs[id := jobs[id].(removed := true)] else jobs
  }

  /** The job ids an optional key holds. */
  function Ids(o: Option<JobId>): set<JobId>
  {
    if o.Some? then {o.value} else {}
  }

  /**
   * `after` keeps every job of `before` in place, marks exactly those in
   * `gone` removed, and may append new jobs.
   */
  ghost predicate RemovesExactly(before: seq<Job>, after: seq<Job>, gone: set<JobId>)
  {
    && |before| <= |after|
    && forall i | 0 <= i < |before| ::
         after[i] == if i in gone then before[i].(removed := true) else before[i]
  }

  /**
   * `after` is `before` with jobs appended and some jobs retired: no job
   * changes its kind or chat, and a retired job is never scheduled again.
   */
  ghost predicate Extends(before: seq<Job>, after: seq<Job>)
  {
    && |before| <= |after|
    && forall i | 0 <= i < |before| ::
         && after[i].kind == before[i].kind && after[i].chat == before[i].chat
         && (before[i].removed ==> after[i].removed)
  }

  lemma RemovesExactlyTrans(a: seq<Job>, b: seq<Job>, c: seq<Job>, g1: set<JobId>, g2: set<JobId>)
    requires RemovesExactly(a, b, g1) && RemovesExactly(b, c, g2)
    ensures RemovesExactly(a, c, g1 + g2)
  {
  }
}
