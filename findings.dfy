/**
 * Where main.py does not do what its own comments and replies say:
 * each lemma takes the handler as written and exhibits the input that
 * shows the difference.  `Corrected` holds the intended handlers.
 */
module Findings {
  import opened Wrappers
  import opened JobQueue
  import opened ChatState
  import opened Handlers
  import opened Curfew
  import Corrected

  /**
   * main.py:105 reads 'job_manual' from `context.chat_data`, which nothing
   * writes, instead of GLOBAL_JOBS: a manual alert started with /on is
   * ended by the next group message.
   */
  lemma ManualAlertEndedByMessage(st: Store, c: ChatId, hour: nat)
    requires Valid(st) && Alerting(st.chats, c) && st.chats[c].jobManual == Some(true)
    ensures var r := GroupMessage(st, c, true, false);
      && !Alerting(r.chats, c)
      && !Live(r.jobs, st.chats[c].job.value)
      && r.outbox == st.outbox + [Outgoing(c, EndedByActivity)]
    ensures Get(Corrected.GroupMessageFixed(st, c, true, hour).chats, c).job == st.chats[c].job
  {
  }

  /**
   * main.py:155-157 restores the watch "if the user did not disable it"
   * but never looks: at 8:00 a chat that disabled the automatic trigger
   * gets a scheduled watch, and the state is no longer intended.
   */
  lemma CurfewEndArmsDisabledChat(st: Store, order: seq<ChatId>, failed: set<ChatId>, c: ChatId)
    requires Enumerates(order, st.known) && c in st.known && AutoDisabled(st.chats, c)
    ensures var r := CurfewEnd(st, order, failed);
      && AutoDisabled(r.chats, c)
      && r.chats[c].autoTrigger.Some? && Live(r.jobs, r.chats[c].autoTrigger.value)
      && r.jobs[r.chats[c].autoTrigger.value] == Job(AutoTrigger(10.0), c, false)
      && !Corrected.Intended(r)
  {
    CurfewEndArmsEveryKnownChat(st, order, failed);
    CurfewEndEntries(st, order, failed);
    var r := CurfewEnd(st, order, failed);
    var k :| 0 <= k < |order| && order[k] == c;
    assert r.chats[order[k]].autoEnabled == Some(false);
    assert !Corrected.QuietAt(r.chats, c);
  }

  /**
   * main.py:119-121 re-arms the one-hour watch after every group message,
   * even for a chat that disabled the automatic trigger (and at night),
   * where rule R would not.
   */
  lemma MessageArmsWatchWhenDisabled(st: Store, c: ChatId, chatDataManual: bool)
    requires AutoDisabled(st.chats, c)
    ensures var r := GroupMessage(st, c, true, chatDataManual);
      && AutoDisabled(r.chats, c)
      && r.chats[c].autoTrigger == Some(|st.jobs|)
      && Live(r.jobs, |st.jobs|) && r.jobs[|st.jobs|] == Job(AutoTrigger(3600.0), c, false)
      && !Corrected.Intended(r)
  {
    var r := GroupMessage(st, c, true, chatDataManual);
    assert !Corrected.QuietAt(r.chats, c);
  }

  /**
   * main.py:39-44 schedules the alert's removal but keeps its 'job' key:
   * the chat still counts as alerting, a second /off answers "stopped"
   * again, and the key holds a job that no longer runs.
   */
  lemma OffLeavesStaleJob(st: Store, c: ChatId, isGroup: bool, hour: nat)
    requires Valid(st) && Alerting(st.chats, c)
    ensures var r := OffCommand(st, c, isGroup, hour);
      && Alerting(r.chats, c)
      && !Live(r.jobs, r.chats[c].job.value)
      && OffCommand(r, c, isGroup, hour).outbox == r.outbox + [Outgoing(c, OffStopped)]
      && !Corrected.Intended(r)
    ensures var r := Corrected.OffCommandFixed(st, c, isGroup, hour);
      Corrected.OffCommandFixed(r, c, isGroup, hour).outbox[|r.outbox|] == Outgoing(c, OffNotAlerting)
  {
    var r := OffCommand(st, c, isGroup, hour);
    assert !Live(r.jobs, r.chats[c].job.value);
    var f := Corrected.OffCommandFixed(st, c, isGroup, hour);
    assert !Alerting(f.chats, c);
    assert !Alerting((if isGroup then AddKnown(f, c) else f).chats, c);
  }

  /**
   * main.py:71-77 overwrites 'job' without removing the job it held: after
   * a second /on the chat has two scheduled alert jobs, and only the new
   * one can ever be stopped.
   */
  lemma OnLeaksPreviousAlert(st: Store, c: ChatId, isGroup: bool, x: real, hour: nat)
    requires Corrected.Intended(st) && Alerting(st.chats, c) && x > 0.0
    ensures var r := OnCommand(st, c, isGroup, [Some(x)], hour);
      var prev := st.chats[c].job.value;
      && Live(r.jobs, prev) && r.jobs[prev].kind.Scream? && r.jobs[prev].chat == c
      && Live(r.jobs, |st.jobs|) && r.jobs[|st.jobs|].kind.Scream? && r.jobs[|st.jobs|].chat == c
      && r.chats[c].job == Some(|st.jobs|)
      && !Corrected.Intended(r)
    ensures var r := Corrected.OnCommandFixed(st, c, isGroup, [Some(x)], hour);
      !Live(r.jobs, st.chats[c].job.value)
  {
    var r := OnCommand(st, c, isGroup, [Some(x)], hour);
    OnCommandEffect(st, c, isGroup, [Some(x)], hour);
    var j := st.chats[c].job.value;
    assert ValidInterval([Some(x)]);
    assert Live(r.jobs, j);
    if Corrected.Intended(r) {
      Corrected.OneAlertPerChat(r, j, |st.jobs|);
      assert false;
    }
  }
}
