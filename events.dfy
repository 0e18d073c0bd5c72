/**
 * Everything that can happen to the bot, as one event stream: the five
 * commands, any group message, a job of the queue running, and the two
 * daily curfew edges.  Each handler runs as one atomic transition.
 */
module Events {
  import opened Wrappers
  import opened JobQueue
  import opened ChatState
  import opened Handlers
  import opened Curfew

  datatype Event =
    | Help(chat: ChatId, isGroup: bool, hour: nat)
    | On(chat: ChatId, isGroup: bool, args: seq<Option<real>>, hour: nat)
    | Off(chat: ChatId, isGroup: bool, hour: nat)
    | EnableAutoCmd(chat: ChatId, isGroup: bool, hour: nat)
    | DisableAutoCmd(chat: ChatId)
    | Message(chat: ChatId, isGroup: bool, chatDataManual: bool, hour: nat)
    | RunJob(id: JobId)
    | CurfewStarts(order: seq<ChatId>, failed: set<ChatId>)
    | CurfewEnds(order: seq<ChatId>, failed: set<ChatId>)

  /**
   * The transition of one event.  The job queue runs only jobs that are
   * still scheduled, and a curfew walk visits each known chat once: a
   * `RunJob` of any other id, or a walk in any other order, changes nothing.
   */
  function Step(st: Store, ev: Event): Store
  {
    match ev
    case Help(c, isGroup, hour) => HelpCommand(st, c, isGroup, hour)
    case On(c, isGroup, args, hour) => OnCommand(st, c, isGroup, args, hour)
    case Off(c, isGroup, hour) => OffCommand(st, c, isGroup, hour)
    case EnableAutoCmd(c, isGroup, hour) => EnableAuto(st, c, isGroup, hour)
    case DisableAutoCmd(c) => DisableAuto(st, c)
    case Message(c, isGroup, chatDataManual, _) => GroupMessage(st, c, isGroup, chatDataManual)
    case RunJob(id) =>
      if !Live(st.jobs, id) then st
      else if st.jobs[id].kind.AutoTrigger? then AutoTriggerCallback(st, id)
      else ScreamCallback(st, id)
    case CurfewStarts(order, failed) =>
      if Enumerates(order, st.known) then CurfewStart(st, order, failed) else st
    case CurfewEnds(order, failed) =>
      if Enumerates(order, st.known) then CurfewEnd(st, order, failed) else st
  }

  /** The state after a sequence of events. */
  function Run(st: Store, evs: seq<Event>): Store
    decreases |evs|
  {
    if evs == [] then st else Run(Step(st, evs[0]), evs[1..])
  }

  /** What no event undoes: known chats, jobs and sent messages. */
  ghost predicate Keeps(before: Store, after: Store)
  {
    && before.known <= after.known
    && Extends(before.jobs, after.jobs)
    && |before.outbox| <= |after.outbox| && after.outbox[..|before.outbox|] == before.outbox
  }

  /**
   * The dispatch of main.py:213-227 and the job queue: a job that is no
   * longer scheduled never runs, a curfew walk that is not a visit of the
   * known chats does nothing, and no event forgets a known chat, changes
   * or reschedules a job, or takes back a message.
   */
  lemma StepEffect(st: Store, ev: Event)
    ensures Keeps(st, Step(st, ev))
    ensures ev.RunJob? && !Live(st.jobs, ev.id) ==> Step(st, ev) == st
    ensures (ev.CurfewStarts? || ev.CurfewEnds?) && !Enumerates(ev.order, st.known) ==> Step(st, ev) == st
  {
    match ev
    case Help(c, isGroup, hour) => HelpKeeps(st, c, isGroup, hour);
    case On(c, isGroup, args, hour) => OnKeeps(st, c, isGroup, args, hour);
    case Off(c, isGroup, hour) => OffKeeps(st, c, isGroup, hour);
    case EnableAutoCmd(c, isGroup, hour) => EnableKeeps(st, c, isGroup, hour);
    case DisableAutoCmd(c) => DisableKeeps(st, c);
    case Message(c, isGroup, chatDataManual, _) => MessageKeeps(st, c, isGroup, chatDataManual);
    case RunJob(id) => RunJobKeeps(st, id);
    case CurfewStarts(order, failed) =>
      if Enumerates(order, st.known) {
        CurfewStartKeeps(st, order, failed);
      }
    case CurfewEnds(order, failed) =>
      if Enumerates(order, st.known) {
        CurfewEndKeeps(st, order, failed);
      }
  }

  lemma HelpKeeps(st: Store, c: ChatId, isGroup: bool, hour: nat)
    ensures Keeps(st, HelpCommand(st, c, isGroup, hour))
  {
  }

  lemma OnKeeps(st: Store, c: ChatId, isGroup: bool, args: seq<Option<real>>, hour: nat)
    ensures Keeps(st, OnCommand(st, c, isGroup, args, hour))
  {
    OnCommandEffect(st, c, isGroup, args, hour);
  }

  lemma OffKeeps(st: Store, c: ChatId, isGroup: bool, hour: nat)
    ensures Keeps(st, OffCommand(st, c, isGroup, hour))
  {
  }

  lemma EnableKeeps(st: Store, c: ChatId, isGroup: bool, hour: nat)
    ensures Keeps(st, EnableAuto(st, c, isGroup, hour))
  {
  }

  lemma DisableKeeps(st: Store, c: ChatId)
    ensures Keeps(st, DisableAuto(st, c))
  {
  }

  lemma MessageKeeps(st: Store, c: ChatId, isGroup: bool, chatDataManual: bool)
    ensures Keeps(st, GroupMessage(st, c, isGroup, chatDataManual))
  {
  }

  lemma RunJobKeeps(st: Store, id: JobId)
    ensures Keeps(st, Step(st, RunJob(id)))
  {
  }

  lemma CurfewStartKeeps(st: Store, order: seq<ChatId>, failed: set<ChatId>)
    ensures Keeps(st, CurfewStart(st, order, failed))
  {
    CurfewStartJobs(st, order, failed);
    CurfewStartNotices(st, order, failed);
  }

  lemma CurfewEndKeeps(st: Store, order: seq<ChatId>, failed: set<ChatId>)
    ensures Keeps(st, CurfewEnd(st, order, failed))
  {
    CurfewEndJobs(st, order, failed);
    CurfewEndNotices(st, order, failed);
  }

  /** Over any run, known chats, jobs and sent messages are only added to. */
  lemma {:induction false} RunKeeps(st: Store, evs: seq<Event>)
    ensures Keeps(st, Run(st, evs))
    decreases |evs|
  {
    if evs != [] {
      StepEffect(st, evs[0]);
      RunKeeps(Step(st, evs[0]), evs[1..]);
    }
  }
}
