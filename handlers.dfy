/**
 * The per-chat handlers of the bot as transitions on a Store.  Each
 * function does what the corresponding coroutine does, step by step, and
 * its contract states the handler's effect on the chat's entry, on the job
 * table and on the messages sent.
 */
module Handlers {
  import opened Wrappers
  import opened JobQueue
  import opened ChatState

  /** Rule R (reset_auto_trigger) arms a watch: a group chat, auto not disabled, not before 8:00. */
  predicate ResetArms(chats: map<ChatId, Entry>, c: ChatId, isGroup: bool, hour: nat)
  {
    isGroup && !AutoDisabled(chats, c) && hour >= 8
  }

  /**
   * From `st` to `r` the chat's previous watch was removed and a fresh
   * one-shot of `when` seconds became its 'auto_trigger_job'; nothing else
   * in GLOBAL_JOBS or the job table changed.
   */
  ghost predicate WatchRenewed(st: Store, r: Store, c: ChatId, when: real)
  {
    && |r.jobs| == |st.jobs| + 1
    && RemovesExactly(st.jobs, r.jobs, Ids(Get(st.chats, c).autoTrigger))
    && r.jobs[|st.jobs|] == Job(AutoTrigger(when), c, false)
    && r.chats == st.chats[c := Get(st.chats, c).(autoTrigger := Some(|st.jobs|))]
  }

  /** `KNOWN_CHATS.add(c)`. */
  function AddKnown(st: Store, c: ChatId): Store
  {
    st.(known := st.known + {c})
  }

  /** `run_once(auto_trigger_callback, when)` stored as the chat's 'auto_trigger_job'. */
  function ArmWatch(st: Store, c: ChatId, when: real): Store
  {
    st.(jobs := Arm(st.jobs, AutoTrigger(when), c),
        chats := st.chats[c := Get(st.chats, c).(autoTrigger := Some(|st.jobs|))])
  }

  /** If the chat has an 'auto_trigger_job': `schedule_removal` it and delete the key. */
  function DropWatch(st: Store, c: ChatId): Store
  {
    if c in st.chats && st.chats[c].autoTrigger.Some? then
      st.(jobs := Cancel(st.jobs, st.chats[c].autoTrigger.value),
          chats := st.chats[c := st.chats[c].(autoTrigger := None)])
    else st
  }

  /** If the chat has a 'job': `schedule_removal` it and delete the key ('job_manual' stays). */
  function DropAlert(st: Store, c: ChatId): Store
  {
    if Alerting(st.chats, c) then
      st.(jobs := Cancel(st.jobs, st.chats[c].job.value),
          chats := st.chats[c := st.chats[c].(job := None)])
    else st
  }

  /** `run_repeating(scream_callback, interval, first)` stored as 'job', with 'job_manual'. */
  function ArmAlert(st: Store, c: ChatId, interval: real, first: real, manual: bool): Store
  {
    st.(jobs := Arm(st.jobs, Scream(interval, first), c),
        chats := st.chats[c := Get(st.chats, c).(job := Some(|st.jobs|), jobManual := Some(manual))])
  }

  /**
   * reset_auto_trigger (main.py:159-181).  Sends nothing.  A non-group chat,
   * a chat whose 'auto_enabled' is False and an hour before 8 leave
   * GLOBAL_JOBS and the jobs alone; otherwise the pending watch is replaced
   * by a fresh 10-second one.
   */
  function ResetAutoTrigger(st: Store, c: ChatId, isGroup: bool, hour: nat): (r: Store)
    ensures r.outbox == st.outbox
    ensures r.known == if isGroup then st.known + {c} else st.known
    ensures !ResetArms(st.chats, c, isGroup, hour) ==> r.chats == st.chats && r.jobs == st.jobs
    ensures ResetArms(st.chats, c, isGroup, hour) ==> WatchRenewed(st, r, c, 10.0)
  {
    if !isGroup then st
    else
      var st1 := AddKnown(st, c);
      if AutoDisabled(st1.chats, c) || hour < 8 then st1
      else ArmWatch(DropWatch(st1, c), c, 10.0)
  }

  /** help_command (main.py:24-30): reply with the usage, then rule R. */
  function HelpCommand(st: Store, c: ChatId, isGroup: bool, hour: nat): (r: Store)
    ensures r.outbox == st.outbox + [Outgoing(c, HelpText)]
    ensures r.known == if isGroup then st.known + {c} else st.known
    ensures !ResetArms(st.chats, c, isGroup, hour) ==> r.chats == st.chats && r.jobs == st.jobs
    ensures ResetArms(st.chats, c, isGroup, hour) ==> WatchRenewed(st, r, c, 10.0)
  {
    var st1 := if isGroup then AddKnown(st, c) else st;
    ResetAutoTrigger(Send(st1, c, HelpText), c, isGroup, hour)
  }

  /**
   * off_command (main.py:33-47).  With a 'job': its removal is scheduled,
   * 'job_manual' is popped but 'job' stays, "stopped" is replied and rule R
   * does not run.  Without one: "not alerting" is replied and rule R runs.
   */
  function OffCommand(st: Store, c: ChatId, isGroup: bool, hour: nat): (r: Store)
    ensures r.known == if isGroup then st.known + {c} else st.known
    ensures Alerting(st.chats, c) ==>
      && r.chats == st.chats[c := st.chats[c].(jobManual := None)]
      && r.chats[c].job == st.chats[c].job
      && |r.jobs| == |st.jobs| && RemovesExactly(st.jobs, r.jobs, {st.chats[c].job.value})
      && r.outbox == st.outbox + [Outgoing(c, OffStopped)]
    ensures !Alerting(st.chats, c) ==>
      && r.outbox == st.outbox + [Outgoing(c, OffNotAlerting)]
      && (!ResetArms(st.chats, c, isGroup, hour) ==> r.chats == st.chats && r.jobs == st.jobs)
      && (ResetArms(st.chats, c, isGroup, hour) ==> WatchRenewed(st, r, c, 10.0))
  {
    var st1 := if isGroup then AddKnown(st, c) else st;
    if Alerting(st1.chats, c) then
      var e := st1.chats[c];
      Send(st1.(jobs := Cancel(st1.jobs, e.job.value),
                chats := st1.chats[c := e.(jobManual := None)]), c, OffStopped)
    else
      ResetAutoTrigger(Send(st1, c, OffNotAlerting), c, isGroup, hour)
  }

  /** The argument of /on is usable: exactly one, a number, greater than 0. */
  predicate ValidInterval(args: seq<Option<real>>)
  {
    |args| == 1 && args[0].Some? && args[0].value > 0.0
  }

  /** The one error reply /on gives for an unusable argument list. */
  function OnError(args: seq<Option<real>>): Notice
    requires !ValidInterval(args)
  {
    if |args| != 1 then OnUsage
    else if args[0].None? then OnNotANumber
    else OnNotPositive
  }

  /**
   * on_command (main.py:51-80).  `args` holds each argument as Python's
   * float() parses it (None where float() raises).  An unusable argument
   * list gets one error reply and changes nothing else.  Otherwise the chat
   * becomes known, a fresh repeating job of x*60 seconds starting at once
   * becomes its manual 'job' (an earlier 'job' is overwritten, not removed),
   * the start is confirmed and rule R runs.
   */
  function OnCommand(st: Store, c: ChatId, isGroup: bool, args: seq<Option<real>>, hour: nat): Store
  {
    if |args| != 1 then Send(st, c, OnUsage)
    else if args[0].None? then Send(st, c, OnNotANumber)
    else if args[0].value <= 0.0 then Send(st, c, OnNotPositive)
    else
      var x := args[0].value;
      var st1 := ArmAlert(AddKnown(st, c), c, x * 60.0, 0.0, true);
      ResetAutoTrigger(Send(st1, c, OnStarted(x)), c, isGroup, hour)
  }

  /** What on_command does, in terms of the chat's keys, the job table and the replies. */
  lemma OnCommandEffect(st: Store, c: ChatId, isGroup: bool, args: seq<Option<real>>, hour: nat)
    ensures var r := OnCommand(st, c, isGroup, args, hour);
      !ValidInterval(args) ==>
      r.chats == st.chats && r.known == st.known && r.jobs == st.jobs
      && r.outbox == st.outbox + [Outgoing(c, OnError(args))]
    ensures var r := OnCommand(st, c, isGroup, args, hour);
      ValidInterval(args) ==>
      var x := args[0].value;
      var e := Get(st.chats, c);
      var watch := ResetArms(st.chats, c, isGroup, hour);
      && r.known == st.known + {c}
      && r.outbox == st.outbox + [Outgoing(c, OnStarted(x))]
      && |r.jobs| == |st.jobs| + (if watch then 2 else 1)
      && RemovesExactly(st.jobs, r.jobs, if watch then Ids(e.autoTrigger) else {})
      && r.jobs[|st.jobs|].kind == Scream(x * 60.0, 0.0) && r.jobs[|st.jobs|].chat == c
      && (Valid(st) ==> Live(r.jobs, |st.jobs|))
      && (watch ==> r.jobs[|st.jobs| + 1] == Job(AutoTrigger(10.0), c, false))
      && r.chats == st.chats[c := e.(job := Some(|st.jobs|), jobManual := Some(true),
                                     autoTrigger := if watch then Some(|st.jobs| + 1) else e.autoTrigger)]
  {
  }

  /**
   * auto_trigger_callback (main.py:83-97), run by the one-shot job `id`.
   * When the chat has no 'job', an automatic repeating job (every hour,
   * first after one second) becomes its non-manual 'job' and the chat is
   * told; either way the chat ends with no 'auto_trigger_job' key.
   * Neither 'auto_enabled' nor 'curfew' is consulted.  The job queue marks
   * the one-shot that ran as no longer scheduled.
   */
  function AutoTriggerCallback(st: Store, id: JobId): (r: Store)
    requires id < |st.jobs| && st.jobs[id].kind.AutoTrigger?
    ensures var c := st.jobs[id].chat;
      && r.known == st.known
      && r.chats - {c} == st.chats - {c}
      && c in r.chats && r.chats[c].autoTrigger.None?
      && (!Alerting(st.chats, c) ==>
            && |r.jobs| == |st.jobs| + 1
            && r.jobs[|st.jobs|] == Job(Scream(3600.0, 1.0), c, false)
            && r.chats[c] == Get(st.chats, c).(job := Some(|st.jobs|), jobManual := Some(false), autoTrigger := None)
            && r.outbox == st.outbox + [Outgoing(c, AutoStarted)])
      && (Alerting(st.chats, c) ==>
            && |r.jobs| == |st.jobs|
            && r.chats[c] == st.chats[c].(autoTrigger := None)
            && r.outbox == st.outbox)
      && RemovesExactly(st.jobs, r.jobs, {id})
  {
    var c := st.jobs[id].chat;
    var st1 := if !Alerting(st.chats, c) then Send(ArmAlert(st, c, 3600.0, 1.0, false), c, AutoStarted) else st;
    var st2 := if c in st1.chats && st1.chats[c].autoTrigger.Some? then
                 st1.(chats := st1.chats[c := st1.chats[c].(autoTrigger := None)])
               else st1;
    st2.(jobs := st2.jobs[id := st2.jobs[id].(removed := true)])
  }

  /**
   * group_message_handler (main.py:100-121).  `chatDataManual` is the
   * truthiness of `context.chat_data.get("job_manual", False)`, a store this
   * file never writes.  For a group chat: when the chat has a 'job' and
   * that value is falsy, the job is removed, its key deleted and the chat
   * told; the pending watch is removed; a fresh one-hour watch is armed,
   * whatever 'auto_enabled', 'curfew' or the hour.  Other chats are ignored.
   */
  function GroupMessage(st: Store, c: ChatId, isGroup: bool, chatDataManual: bool): (r: Store)
    ensures !isGroup ==> r == st
    ensures isGroup ==>
      var e := Get(st.chats, c);
      var ends := Alerting(st.chats, c) && !chatDataManual;
      && r.known == st.known + {c}
      && |r.jobs| == |st.jobs| + 1
      && RemovesExactly(st.jobs, r.jobs, Ids(e.autoTrigger) + (if ends then Ids(e.job) else {}))
      && r.jobs[|st.jobs|] == Job(AutoTrigger(3600.0), c, false)
      && r.chats == st.chats[c := e.(job := if ends then None else e.job, autoTrigger := Some(|st.jobs|))]
      && r.outbox == st.outbox + (if ends then [Outgoing(c, EndedByActivity)] else [])
  {
    if !isGroup then st
    else
      var st1 := AddKnown(st, c);
      var st2 := if Alerting(st1.chats, c) && !chatDataManual then Send(DropAlert(st1, c), c, EndedByActivity) else st1;
      ArmWatch(DropWatch(st2, c), c, 3600.0)
  }

  /**
   * enable_auto_command (main.py:183-188): 'auto_enabled' becomes True, the
   * chat is told, and rule R runs (so a group chat after 8:00 gets a fresh
   * 10-second watch).
   */
  function EnableAuto(st: Store, c: ChatId, isGroup: bool, hour: nat): (r: Store)
    ensures r.known == st.known + {c}
    ensures r.outbox == st.outbox + [Outgoing(c, AutoEnabledAck)]
    ensures var e := Get(st.chats, c).(autoEnabled := Some(true));
      if isGroup && hour >= 8 then
        && |r.jobs| == |st.jobs| + 1
        && RemovesExactly(st.jobs, r.jobs, Ids(e.autoTrigger))
        && r.jobs[|st.jobs|] == Job(AutoTrigger(10.0), c, false)
        && r.chats == st.chats[c := e.(autoTrigger := Some(|st.jobs|))]
      else r.jobs == st.jobs && r.chats == st.chats[c := e]
  {
    var st1 := AddKnown(st, c);
    var st2 := st1.(chats := st1.chats[c := Get(st1.chats, c).(autoEnabled := Some(true))]);
    ResetAutoTrigger(Send(st2, c, AutoEnabledAck), c, isGroup, hour)
  }

  /**
   * disable_auto_command (main.py:190-201): 'auto_enabled' becomes False,
   * any pending watch is removed and its key popped, and the chat is told.
   */
  function DisableAuto(st: Store, c: ChatId): (r: Store)
    ensures r.known == st.known + {c}
    ensures r.outbox == st.outbox + [Outgoing(c, AutoDisabledAck)]
    ensures |r.jobs| == |st.jobs| && RemovesExactly(st.jobs, r.jobs, Ids(Get(st.chats, c).autoTrigger))
    ensures r.chats == st.chats[c := Get(st.chats, c).(autoEnabled := Some(false), autoTrigger := None)]
  {
    var st1 := AddKnown(st, c);
    var st2 := st1.(chats := st1.chats[c := Get(st1.chats, c).(autoEnabled := Some(false))]);
    Send(DropWatch(st2, c), c, AutoDisabledAck)
  }

  /** scream_callback (main.py:19-21), run by the repeating job `id`: one scream to its chat. */
  function ScreamCallback(st: Store, id: JobId): (r: Store)
    requires id < |st.jobs| && st.jobs[id].kind.Scream?
    ensures r.chats == st.chats && r.known == st.known && r.jobs == st.jobs
    ensures r.outbox == st.outbox + [Outgoing(st.jobs[id].chat, ScreamMessage)]
  {
    Send(st, st.jobs[id].chat, ScreamMessage)
  }
}
