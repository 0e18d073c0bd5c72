/**
 * Every handler keeps `Valid`: GLOBAL_JOBS only names chats in
 * KNOWN_CHATS, a chat's 'job' is a scream job of that chat, and its
 * 'auto_trigger_job' is a still-scheduled watch of that chat.
 */
module Invariants {
  import opened Wrappers
  import opened JobQueue
  import opened ChatState
  import opened Handlers
  import opened Curfew
  import opened Events

  /** No chat holds job `i` as its pending watch. */
  ghost predicate NoWatchHolds(chats: map<ChatId, Entry>, i: JobId)
  {
    forall d | d in chats :: chats[d].autoTrigger != Some(i)
  }

  lemma CancelValid(st: Store, i: JobId)
    requires Valid(st) && NoWatchHolds(st.chats, i)
    ensures Valid(st.(jobs := Cancel(st.jobs, i)))
  {
  }

  lemma AppendValid(st: Store, j: Job)
    requires Valid(st) && j.chat in st.known
    ensures Valid(st.(jobs := st.jobs + [j]))
  {
    forall d | d in st.chats
      ensures EntryValid(st.chats[d], d, st.jobs + [j])
    {
    }
  }

  lemma ArmWatchValid(st: Store, c: ChatId, when: real)
    requires Valid(st) && c in st.known
    ensures Valid(ArmWatch(st, c, when))
  {
    AppendValid(st, Job(AutoTrigger(when), c, false));
  }

  lemma ArmAlertValid(st: Store, c: ChatId, interval: real, first: real, manual: bool)
    requires Valid(st) && c in st.known
    ensures Valid(ArmAlert(st, c, interval, first, manual))
  {
    AppendValid(st, Job(Scream(interval, first), c, false));
  }

  lemma DropWatchValid(st: Store, c: ChatId)
    requires Valid(st)
    ensures Valid(DropWatch(st, c))
  {
    if c in st.chats && st.chats[c].autoTrigger.Some? {
      var s := st.(chats := st.chats[c := st.chats[c].(autoTrigger := None)]);
      CancelValid(s, st.chats[c].autoTrigger.value);
    }
  }

  /** Cancelling a chat's scream job leaves every pending watch scheduled. */
  lemma CancelAlertValid(st: Store, c: ChatId)
    requires Valid(st) && Alerting(st.chats, c)
    ensures Valid(st.(jobs := Cancel(st.jobs, st.chats[c].job.value)))
  {
    CancelValid(st, st.chats[c].job.value);
  }

  lemma DropAlertValid(st: Store, c: ChatId)
    requires Valid(st)
    ensures Valid(DropAlert(st, c))
  {
    if Alerting(st.chats, c) {
      CancelAlertValid(st, c);
    }
  }

  lemma ResetValid(st: Store, c: ChatId, isGroup: bool, hour: nat)
    requires Valid(st)
    ensures Valid(ResetAutoTrigger(st, c, isGroup, hour))
  {
    if isGroup {
      var st1 := AddKnown(st, c);
      DropWatchValid(st1, c);
      ArmWatchValid(DropWatch(st1, c), c, 10.0);
    }
  }

  lemma HelpValid(st: Store, c: ChatId, isGroup: bool, hour: nat)
    requires Valid(st)
    ensures Valid(HelpCommand(st, c, isGroup, hour))
  {
    var st1 := if isGroup then AddKnown(st, c) else st;
    ResetValid(Send(st1, c, HelpText), c, isGroup, hour);
  }

  lemma OffValid(st: Store, c: ChatId, isGroup: bool, hour: nat)
    requires Valid(st)
    ensures Valid(OffCommand(st, c, isGroup, hour))
  {
    var st1 := if isGroup then AddKnown(st, c) else st;
    if Alerting(st1.chats, c) {
      CancelAlertValid(st1, c);
    } else {
      ResetValid(Send(st1, c, OffNotAlerting), c, isGroup, hour);
    }
  }

  lemma OnValid(st: Store, c: ChatId, isGroup: bool, args: seq<Option<real>>, hour: nat)
    requires Valid(st)
    ensures Valid(OnCommand(st, c, isGroup, args, hour))
  {
    if ValidInterval(args) {
      var x := args[0].value;
      ArmAlertValid(AddKnown(st, c), c, x * 60.0, 0.0, true);
      var st1 := ArmAlert(AddKnown(st, c), c, x * 60.0, 0.0, true);
      ResetValid(Send(st1, c, OnStarted(x)), c, isGroup, hour);
      assert OnCommand(st, c, isGroup, args, hour) == ResetAutoTrigger(Send(st1, c, OnStarted(x)), c, isGroup, hour);
    }
  }

  lemma AutoTriggerValid(st: Store, id: JobId)
    requires Valid(st) && id < |st.jobs| && st.jobs[id].kind.AutoTrigger?
    ensures Valid(AutoTriggerCallback(st, id))
  {
    var c := st.jobs[id].chat;
    if !Alerting(st.chats, c) {
      ArmAlertValid(st, c, 3600.0, 1.0, false);
    }
  }

  lemma GroupMessageValid(st: Store, c: ChatId, isGroup: bool, chatDataManual: bool)
    requires Valid(st)
    ensures Valid(GroupMessage(st, c, isGroup, chatDataManual))
  {
    if isGroup {
      var st1 := AddKnown(st, c);
      DropAlertValid(st1, c);
      var st2 := if Alerting(st1.chats, c) && !chatDataManual then Send(DropAlert(st1, c), c, EndedByActivity) else st1;
      DropWatchValid(st2, c);
      ArmWatchValid(DropWatch(st2, c), c, 3600.0);
    }
  }

  lemma EnableValid(st: Store, c: ChatId, isGroup: bool, hour: nat)
    requires Valid(st)
    ensures Valid(EnableAuto(st, c, isGroup, hour))
  {
    var st1 := AddKnown(st, c);
    var st2 := st1.(chats := st1.chats[c := Get(st1.chats, c).(autoEnabled := Some(true))]);
    ResetValid(Send(st2, c, AutoEnabledAck), c, isGroup, hour);
  }

  lemma DisableValid(st: Store, c: ChatId)
    requires Valid(st)
    ensures Valid(DisableAuto(st, c))
  {
    var st1 := AddKnown(st, c);
    var st2 := st1.(chats := st1.chats[c := Get(st1.chats, c).(autoEnabled := Some(false))]);
    DropWatchValid(st2, c);
  }

  lemma CurfewStartChatValid(st: Store, c: ChatId, delivered: bool)
    requires Valid(st)
    ensures Valid(CurfewStartChat(st, c, delivered))
  {
    if c in st.chats {
      DropAlertValid(st, c);
      DropWatchValid(DropAlert(st, c), c);
    }
  }

  lemma CurfewEndChatValid(st: Store, c: ChatId, delivered: bool)
    requires Valid(st) && c in st.known
    ensures Valid(CurfewEndChat(st, c, delivered))
  {
    var st1 := if c in st.chats then st.(chats := st.chats[c := st.chats[c].(curfew := Some(false))]) else st;
    var st2 := if delivered then Send(st1, c, CurfewEndNotice) else st1;
    ArmWatchValid(st2, c, 10.0);
  }

  lemma {:induction false} CurfewStartValid(st: Store, order: seq<ChatId>, failed: set<ChatId>)
    requires Valid(st)
    ensures Valid(CurfewStart(st, order, failed))
  {
    if order != [] {
      var n := |order|;
      CurfewStartValid(st, order[..n - 1], failed);
      CurfewStartChatValid(CurfewStart(st, order[..n - 1], failed), order[n - 1], order[n - 1] !in failed);
    }
  }

  /** The curfew end walk keeps `Valid` as long as it visits known chats only. */
  lemma {:induction false} CurfewEndValid(st: Store, order: seq<ChatId>, failed: set<ChatId>)
    requires Valid(st) && forall c | c in order :: c in st.known
    ensures Valid(CurfewEnd(st, order, failed))
  {
    if order != [] {
      var n := |order|;
      assert forall c | c in order[..n - 1] :: c in order;
      CurfewEndValid(st, order[..n - 1], failed);
      CurfewEndChatValid(CurfewEnd(st, order[..n - 1], failed), order[n - 1], order[n - 1] !in failed);
    }
  }

  /** A scream only sends a message, so it keeps `Valid`. */
  lemma ScreamValid(st: Store, id: JobId)
    requires Valid(st) && id < |st.jobs| && st.jobs[id].kind.Scream?
    ensures Valid(ScreamCallback(st, id))
  {
  }

  lemma StepValid(st: Store, ev: Event)
    requires Valid(st)
    ensures Valid(Step(st, ev))
  {
    match ev
    case Help(c, isGroup, hour) => HelpValid(st, c, isGroup, hour);
    case On(c, isGroup, args, hour) => OnValid(st, c, isGroup, args, hour);
    case Off(c, isGroup, hour) => OffValid(st, c, isGroup, hour);
    case EnableAutoCmd(c, isGroup, hour) => EnableValid(st, c, isGroup, hour);
    case DisableAutoCmd(c) => DisableValid(st, c);
    case Message(c, isGroup, chatDataManual, _) => GroupMessageValid(st, c, isGroup, chatDataManual);
    case RunJob(id) =>
      if Live(st.jobs, id) && st.jobs[id].kind.AutoTrigger? {
        AutoTriggerValid(st, id);
      } else if Live(st.jobs, id) {
        ScreamValid(st, id);
      }
    case CurfewStarts(order, failed) =>
      CurfewStartValid(st, order, failed);
    case CurfewEnds(order, failed) =>
      if Enumerates(order, st.known) {
        CurfewEndValid(st, order, failed);
      }
  }

  /** Every state the bot can reach from start-up is valid. */
  lemma {:induction false} RunValid(st: Store, evs: seq<Event>)
    requires Valid(st)
    ensures Valid(Run(st, evs))
    decreases |evs|
  {
    if evs != [] {
      StepValid(st, evs[0]);
      RunValid(Step(st, evs[0]), evs[1..]);
    }
  }

  lemma ReachableValid(evs: seq<Event>)
    ensures Valid(Run(Initial, evs))
  {
    InitialValid();
    RunValid(Initial, evs);
  }
}
