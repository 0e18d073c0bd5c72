/**
 * The two globals of the bot: GLOBAL_JOBS, a dictionary per chat, and the
 * append-only KNOWN_CHATS set, together with the job table and the messages
 * sent so far.
 */
module ChatState {
  import opened Wrappers
  import opened JobQueue

  /** One chat's dictionary in GLOBAL_JOBS; every key may be absent. */
  datatype Entry = Entry(
    job: Option<JobId>,          // 'job': the repeating scream job
    jobManual: Option<bool>,     // 'job_manual'
    autoTrigger: Option<JobId>,  // 'auto_trigger_job': the pending one-shot idle watch
    autoEnabled: Option<bool>,   // 'auto_enabled' (absent reads as true)
    curfew: Option<bool>)        // 'curfew' (written, never read)

  /** The `{}` that `setdefault(chat_id, {})` inserts. */
  const Empty := Entry(None, None, None, None, None)

  /** The texts the bot sends, by meaning. */
  datatype Notice =
    | HelpText              // usage of /on and /off
    | OnUsage               // /on called without exactly one argument
    | OnNotANumber          // the argument is not a number
    | OnNotPositive         // the interval must be greater than 0
    | OnStarted(minutes: real)
    | OffStopped            // screaming stopped
    | OffNotAlerting        // not screaming at the moment
    | AutoEnabledAck
    | AutoDisabledAck
    | AutoStarted           // no message for 60 minutes: screaming starts
    | EndedByActivity       // new message: the automatic screaming ends
    | CurfewStartNotice
    | CurfewEndNotice
    | ScreamMessage         // the hundredfold scream of scream_callback

  datatype Outgoing = Outgoing(chat: ChatId, notice: Notice)

  datatype Store = Store(
    chats: map<ChatId, Entry>,   // GLOBAL_JOBS
    known: set<ChatId>,          // KNOWN_CHATS
    jobs: seq<Job>,              // the job queue
    outbox: seq<Outgoing>)       // replies and messages sent, in order

  const Initial := Store(map[], {}, [], [])

  /** `GLOBAL_JOBS.get(c, {})`. */
  function Get(chats: map<ChatId, Entry>, c: ChatId): Entry
  {
    if c in chats then chats[c] else Empty
  }

  /** `GLOBAL_JOBS[c].get("auto_enabled", True) is False`, for a chat with an entry. */
  predicate AutoDisabled(chats: map<ChatId, Entry>, c: ChatId)
  {
    c in chats && chats[c].autoEnabled == Some(false)
  }

  /** `c in GLOBAL_JOBS and 'job' in GLOBAL_JOBS[c]`. */
  predicate Alerting(chats: map<ChatId, Entry>, c: ChatId)
  {
    c in chats && chats[c].job.Some?
  }

  /** A reply or a message to chat `c`. */
  function Send(st: Store, c: ChatId, n: Notice): Store
  {
    st.(outbox := st.outbox + [Outgoing(c, n)])
  }

  /**
   * The keys of chat `c` hold jobs of `c` of the right kind, and a pending
   * watch is still scheduled.
   */
  ghost predicate EntryValid(e: Entry, c: ChatId, jobs: seq<Job>)
  {
    && (e.job.Some? ==>
          e.job.value < |jobs| && jobs[e.job.value].kind.Scream? && jobs[e.job.value].chat == c)
    && (e.autoTrigger.Some? ==>
          Live(jobs, e.autoTrigger.value) && jobs[e.autoTrigger.value].kind.AutoTrigger?
          && jobs[e.autoTrigger.value].chat == c)
  }

  /**
   * The invariant every reachable state keeps: GLOBAL_JOBS and the job
   * table only name known chats, and every entry is valid.
   */
  ghost predicate Valid(st: Store)
  {
    && st.chats.Keys <= st.known
    && (forall i | 0 <= i < |st.jobs| :: st.jobs[i].chat in st.known)
    && forall c | c in st.chats :: EntryValid(st.chats[c], c, st.jobs)
  }

  lemma InitialValid()
    ensures Valid(Initial)
  {
  }
}
