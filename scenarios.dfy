/**
 * Concrete runs of the handlers as written, including the ones where the
 * code does not do what its messages suggest.
 */
module Scenarios {
  import opened Wrappers
  import opened JobQueue
  import opened ChatState
  import opened Handlers
  import opened Curfew

  /**
   * /on 2.5 in a group after 8:00 arms a repeating job of 150 seconds that
   * fires at once and a 10-second watch beside it; /off then removes the
   * alert and answers "stopped", but 'job' keeps naming it.
   */
  lemma OnThenOff(c: ChatId, hour: nat)
    requires hour >= 8
    ensures var s1 := OnCommand(Initial, c, true, [Some(2.5)], hour);
      && s1.jobs == [Job(Scream(150.0, 0.0), c, false), Job(AutoTrigger(10.0), c, false)]
      && s1.chats == map[c := Empty.(job := Some(0), jobManual := Some(true), autoTrigger := Some(1))]
      && s1.outbox == [Outgoing(c, OnStarted(2.5))]
    ensures var s2 := OffCommand(OnCommand(Initial, c, true, [Some(2.5)], hour), c, true, hour);
      && s2.jobs == [Job(Scream(150.0, 0.0), c, true), Job(AutoTrigger(10.0), c, false)]
      && s2.chats == map[c := Empty.(job := Some(0), autoTrigger := Some(1))]
      && s2.outbox == [Outgoing(c, OnStarted(2.5)), Outgoing(c, OffStopped)]
  {
    var s1 := OnCommand(Initial, c, true, [Some(2.5)], hour);
    assert ValidInterval([Some(2.5)]);
    OnCommandEffect(Initial, c, true, [Some(2.5)], hour);
    assert s1.jobs[0] == Job(Scream(150.0, 0.0), c, false);
  }

  /** /off with nothing running answers "not alerting" and runs rule R. */
  lemma OffWhenIdleArmsWatch(c: ChatId, hour: nat)
    requires hour >= 8
    ensures var s := OffCommand(Initial, c, true, hour);
      && s.outbox == [Outgoing(c, OffNotAlerting)]
      && s.jobs == [Job(AutoTrigger(10.0), c, false)]
      && s.chats == map[c := Empty.(autoTrigger := Some(0))]
  {
  }

  /** /on 0, /on -1, /on abc and a bare /on only get an error reply, whatever the state. */
  lemma OnRejects(st: Store, c: ChatId, isGroup: bool, hour: nat)
    ensures OnCommand(st, c, isGroup, [Some(0.0)], hour) == Send(st, c, OnNotPositive)
    ensures OnCommand(st, c, isGroup, [Some(-1.0)], hour) == Send(st, c, OnNotPositive)
    ensures OnCommand(st, c, isGroup, [None], hour) == Send(st, c, OnNotANumber)
    ensures OnCommand(st, c, isGroup, [], hour) == Send(st, c, OnUsage)
  {
    assert !ValidInterval([Some(0.0)]) && !ValidInterval([Some(-1.0)]) && !ValidInterval([None]);
  }

  /**
   * A watch that fires while the chat is in curfew still starts the
   * automatic alert: the callback never reads 'curfew'.
   */
  lemma AutoTriggerIgnoresCurfew(st: Store, id: JobId)
    requires Valid(st) && Live(st.jobs, id) && st.jobs[id].kind.AutoTrigger?
    requires var c := st.jobs[id].chat; c in st.chats && st.chats[c].curfew == Some(true) && st.chats[c].job.None?
    ensures var c := st.jobs[id].chat; var r := AutoTriggerCallback(st, id);
      && r.chats[c].job == Some(|st.jobs|) && r.chats[c].curfew == Some(true)
      && Live(r.jobs, |st.jobs|) && r.jobs[|st.jobs|] == Job(Scream(3600.0, 1.0), c, false)
      && r.outbox == st.outbox + [Outgoing(c, AutoStarted)]
  {
  }

  /**
   * A night: after the curfew start and end, every known chat with an
   * entry has no alert, 'curfew' False and a fresh 10-second watch, whether
   * or not it disabled the automatic trigger.
   */
  lemma CurfewNight(st: Store, start: seq<ChatId>, end: seq<ChatId>, failed: set<ChatId>, c: ChatId)
    requires Enumerates(start, st.known) && Enumerates(end, st.known)
    requires c in st.known && c in st.chats
    ensures var r := CurfewEnd(CurfewStart(st, start, failed), end, failed);
      && c in r.chats && r.chats[c].job.None? && r.chats[c].curfew == Some(false)
      && r.chats[c].autoEnabled == st.chats[c].autoEnabled
      && r.chats[c].autoTrigger.Some? && Live(r.jobs, r.chats[c].autoTrigger.value)
      && r.jobs[r.chats[c].autoTrigger.value] == Job(AutoTrigger(10.0), c, false)
  {
    var m := CurfewStart(st, start, failed);
    CurfewStartSilencesKnownChats(st, start, failed);
    CurfewStartEntries(st, start, failed);
    CurfewEndArmsEveryKnownChat(m, end, failed);
    CurfewEndEntries(m, end, failed);
    var k :| 0 <= k < |end| && end[k] == c;
    assert CurfewEnd(m, end, failed).chats[end[k]] == m.chats[c].(curfew := Some(false), autoTrigger := Some(|m.jobs| + k));
  }
}
