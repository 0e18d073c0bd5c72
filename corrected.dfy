/**
 * The handlers as the comments in main.py and its other handlers intend them,
 * where the code does otherwise: /on stops the alert it replaces, /off
 * deletes the 'job' key, the message handler reads 'job_manual' from
 * GLOBAL_JOBS and re-arms the watch only where rule R would, and the
 * curfew end skips chats that disabled the automatic trigger.  With these
 * handlers every event keeps `Intended`: each scheduled job is the one its
 * chat holds, so a chat has at most one alert and at most one watch, and a
 * chat that disabled the automatic trigger has no watch.
 */
module Corrected {
  import opened Wrappers
  import opened JobQueue
  import opened ChatState
  import opened Handlers
  import opened Curfew
  import opened Events
  import Invariants

  /** Job `i` is what its chat holds under the key for its kind. */
  ghost predicate Tracked(chats: map<ChatId, Entry>, jobs: seq<Job>, i: nat)
    requires i < |jobs|
  {
    var c := jobs[i].chat;
    c in chats && (if jobs[i].kind.Scream? then chats[c].job else chats[c].autoTrigger) == Some(i)
  }

  /** Every scheduled job is held by its chat: no job is lost track of. */
  ghost predicate NoStrayJobs(st: Store)
  {
    forall i | 0 <= i < |st.jobs| && !st.jobs[i].removed :: Tracked(st.chats, st.jobs, i)
  }

  /** Every 'job' key holds a job that is still scheduled. */
  ghost predicate AlertsLive(st: Store)
  {
    forall c | c in st.chats && st.chats[c].job.Some? :: Live(st.jobs, st.chats[c].job.value)
  }

  /** A chat with 'auto_enabled' False has no 'auto_trigger_job'. */
  ghost predicate QuietAt(chats: map<ChatId, Entry>, c: ChatId)
  {
    AutoDisabled(chats, c) ==> chats[c].autoTrigger.None?
  }

  /** `Intended` except, possibly, `QuietAt` chat `c`: the state in the middle of a handler for `c`. */
  ghost predicate IntendedExcept(st: Store, c: ChatId)
  {
    && Valid(st) && NoStrayJobs(st) && AlertsLive(st)
    && forall d | d in st.chats && d != c :: QuietAt(st.chats, d)
  }

  ghost predicate Intended(st: Store)
  {
    && Valid(st) && NoStrayJobs(st) && AlertsLive(st)
    && forall d | d in st.chats :: QuietAt(st.chats, d)
  }

  /** In an intended state a chat has at most one scheduled alert job. */
  lemma OneAlertPerChat(st: Store, i: nat, j: nat)
    requires Intended(st)
    requires Live(st.jobs, i) && Live(st.jobs, j)
    requires st.jobs[i].kind.Scream? && st.jobs[j].kind.Scream? && st.jobs[i].chat == st.jobs[j].chat
    ensures i == j
  {
    assert Tracked(st.chats, st.jobs, i) && Tracked(st.chats, st.jobs, j);
  }

  /** In an intended state a chat has at most one scheduled watch. */
  lemma OneWatchPerChat(st: Store, i: nat, j: nat)
    requires Intended(st)
    requires Live(st.jobs, i) && Live(st.jobs, j)
    requires st.jobs[i].kind.AutoTrigger? && st.jobs[j].kind.AutoTrigger? && st.jobs[i].chat == st.jobs[j].chat
    ensures i == j
  {
    assert Tracked(st.chats, st.jobs, i) && Tracked(st.chats, st.jobs, j);
  }

  /** In an intended state a chat that disabled the automatic trigger has no scheduled watch. */
  lemma DisabledChatHasNoWatch(st: Store, i: nat)
    requires Intended(st)
    requires Live(st.jobs, i) && st.jobs[i].kind.AutoTrigger?
    ensures !AutoDisabled(st.chats, st.jobs[i].chat)
  {
    assert Tracked(st.chats, st.jobs, i);
    assert QuietAt(st.chats, st.jobs[i].chat);
  }

  lemma InitialIntended()
    ensures Intended(Initial)
  {
  }

  // ---- building blocks ----------------------------------------------------

  lemma AddKnownIntended(st: Store, c: ChatId, d: ChatId)
    requires IntendedExcept(st, d)
    ensures IntendedExcept(AddKnown(st, c), d)
  {
  }

  lemma SendIntended(st: Store, c: ChatId, n: Notice, d: ChatId)
    requires IntendedExcept(st, d)
    ensures IntendedExcept(Send(st, c, n), d)
  {
  }

  /** Changing chat `c`'s flags, not its job keys, keeps the invariant away from `c`. */
  lemma SetFlagsIntended(st: Store, c: ChatId, e: Entry)
    requires IntendedExcept(st, c) && c in st.known
    requires e.job == Get(st.chats, c).job && e.autoTrigger == Get(st.chats, c).autoTrigger
    ensures IntendedExcept(st.(chats := st.chats[c := e]), c)
  {
    var r := st.(chats := st.chats[c := e]);
    forall i | 0 <= i < |r.jobs| && !r.jobs[i].removed
      ensures Tracked(r.chats, r.jobs, i)
    {
      assert Tracked(st.chats, st.jobs, i);
    }
  }

  lemma DropWatchIntended(st: Store, c: ChatId)
    requires IntendedExcept(st, c)
    ensures Intended(DropWatch(st, c))
    ensures Get(DropWatch(st, c).chats, c).autoTrigger.None?
  {
    var r := DropWatch(st, c);
    if c in st.chats && st.chats[c].autoTrigger.Some? {
      forall i | 0 <= i < |r.jobs| && !r.jobs[i].removed
        ensures Tracked(r.chats, r.jobs, i)
      {
        assert Tracked(st.chats, st.jobs, i);
      }
    }
  }

  lemma DropAlertIntended(st: Store, c: ChatId)
    requires IntendedExcept(st, c)
    ensures IntendedExcept(DropAlert(st, c), c)
    ensures Get(DropAlert(st, c).chats, c).job.None?
  {
    var r := DropAlert(st, c);
    if Alerting(st.chats, c) {
      forall i | 0 <= i < |r.jobs| && !r.jobs[i].removed
        ensures Tracked(r.chats, r.jobs, i)
      {
        assert Tracked(st.chats, st.jobs, i);
      }
    }
  }

  lemma ArmWatchIntended(st: Store, c: ChatId, when: real)
    requires IntendedExcept(st, c) && c in st.known && Get(st.chats, c).autoTrigger.None?
    ensures IntendedExcept(ArmWatch(st, c, when), c)
    ensures !AutoDisabled(st.chats, c) ==> Intended(ArmWatch(st, c, when))
  {
    var r := ArmWatch(st, c, when);
    forall i | 0 <= i < |r.jobs| && !r.jobs[i].removed
      ensures Tracked(r.chats, r.jobs, i)
    {
      if i < |st.jobs| {
        assert Tracked(st.chats, st.jobs, i);
      }
    }
  }

  lemma ArmAlertIntended(st: Store, c: ChatId, interval: real, first: real, manual: bool)
    requires IntendedExcept(st, c) && c in st.known && Get(st.chats, c).job.None?
    ensures IntendedExcept(ArmAlert(st, c, interval, first, manual), c)
  {
    var r := ArmAlert(st, c, interval, first, manual);
    forall i | 0 <= i < |r.jobs| && !r.jobs[i].removed
      ensures Tracked(r.chats, r.jobs, i)
    {
      if i < |st.jobs| {
        assert Tracked(st.chats, st.jobs, i);
      }
    }
  }

  lemma ResetIntended(st: Store, c: ChatId, isGroup: bool, hour: nat)
    requires Intended(st)
    ensures Intended(ResetAutoTrigger(st, c, isGroup, hour))
  {
    if isGroup {
      var st1 := AddKnown(st, c);
      AddKnownIntended(st, c, c);
      if !AutoDisabled(st1.chats, c) && hour >= 8 {
        DropWatchIntended(st1, c);
        ArmWatchIntended(DropWatch(st1, c), c, 10.0);
      }
    }
  }

  // ---- the corrected handlers ---------------------------------------------

  /**
   * on_command as intended: a running alert is stopped before the new one
   * is armed.  Everything else is as in `OnCommand`.
   */
  function OnCommandFixed(st: Store, c: ChatId, isGroup: bool, args: seq<Option<real>>, hour: nat): (r: Store)
    ensures !ValidInterval(args) ==> r == OnCommand(st, c, isGroup, args, hour)
    ensures ValidInterval(args) ==> r == OnCommand(DropAlert(st, c), c, isGroup, args, hour)
    ensures ValidInterval(args) ==>
      && c in r.chats && r.chats[c].job == Some(|st.jobs|) && r.chats[c].jobManual == Some(true)
      && |r.jobs| > |st.jobs|
      && r.jobs[|st.jobs|].kind == Scream(args[0].value * 60.0, 0.0) && r.jobs[|st.jobs|].chat == c
      && r.outbox == st.outbox + [Outgoing(c, OnStarted(args[0].value))]
      && (Alerting(st.chats, c) && st.chats[c].job.value < |st.jobs| ==> !Live(r.jobs, st.chats[c].job.value))
  {
    if !ValidInterval(args) then Send(st, c, OnError(args))
    else
      var x := args[0].value;
      var st1 := ArmAlert(DropAlert(AddKnown(st, c), c), c, x * 60.0, 0.0, true);
      ResetAutoTrigger(Send(st1, c, OnStarted(x)), c, isGroup, hour)
  }

  /**
   * off_command as intended: the alert's removal is scheduled and both its
   * 'job' and 'job_manual' keys go, so the chat is no longer alerting.
   */
  function OffCommandFixed(st: Store, c: ChatId, isGroup: bool, hour: nat): (r: Store)
    ensures !Alerting(st.chats, c) ==> r == OffCommand(st, c, isGroup, hour)
    ensures Alerting(st.chats, c) ==>
      && r.chats == st.chats[c := st.chats[c].(job := None, jobManual := None)]
      && r.known == (if isGroup then st.known + {c} else st.known)
      && |r.jobs| == |st.jobs| && RemovesExactly(st.jobs, r.jobs, {st.chats[c].job.value})
      && !Alerting(r.chats, c)
      && !Live(r.jobs, st.chats[c].job.value)
      && r.outbox == st.outbox + [Outgoing(c, OffStopped)]
  {
    var st1 := if isGroup then AddKnown(st, c) else st;
    if Alerting(st1.chats, c) then
      var s := DropAlert(st1, c);
      Send(s.(chats := s.chats[c := s.chats[c].(jobManual := None)]), c, OffStopped)
    else
      ResetAutoTrigger(Send(st1, c, OffNotAlerting), c, isGroup, hour)
  }

  /**
   * group_message_handler as intended: only a non-manual alert (by
   * GLOBAL_JOBS' own 'job_manual') is ended, and the fresh one-hour watch is
   * armed only where rule R would arm one.
   */
  function GroupMessageFixed(st: Store, c: ChatId, isGroup: bool, hour: nat): (r: Store)
    ensures !isGroup ==> r == st
    ensures isGroup ==>
      var e := Get(st.chats, c);
      var ends := Alerting(st.chats, c) && e.jobManual != Some(true);
      && r.known == st.known + {c}
      && (e.jobManual == Some(true) ==> Get(r.chats, c).job == e.job)
      && (ends ==> Get(r.chats, c).job.None? && r.outbox == st.outbox + [Outgoing(c, EndedByActivity)])
      && (!ends ==> Get(r.chats, c).job == e.job && r.outbox == st.outbox)
      && (AutoDisabled(st.chats, c) || hour < 8 ==> Get(r.chats, c).autoTrigger.None? && |r.jobs| == |st.jobs|)
      && (!AutoDisabled(st.chats, c) && hour >= 8 ==>
            |r.jobs| == |st.jobs| + 1 && Get(r.chats, c).autoTrigger == Some(|st.jobs|) && r.jobs[|st.jobs|] == Job(AutoTrigger(3600.0), c, false))
  {
    if !isGroup then st
    else
      var st1 := AddKnown(st, c);
      var st2 := if Alerting(st1.chats, c) && Get(st1.chats, c).jobManual != Some(true)
                 then Send(DropAlert(st1, c), c, EndedByActivity) else st1;
      var st3 := DropWatch(st2, c);
      if AutoDisabled(st3.chats, c) || hour < 8 then st3 else ArmWatch(st3, c, 3600.0)
  }

  /**
   * The rest of the corrected message handler's effect: the ended alert and
   * the dropped watch are exactly the jobs no longer scheduled, and no
   * entry but the chat's own changes.
   */
  lemma GroupMessageFixedEffect(st: Store, c: ChatId, hour: nat)
    ensures var r := GroupMessageFixed(st, c, true, hour);
      var e := Get(st.chats, c);
      var ends := Alerting(st.chats, c) && e.jobManual != Some(true);
      var rearm := !AutoDisabled(st.chats, c) && hour >= 8;
      && RemovesExactly(st.jobs, r.jobs, Ids(e.autoTrigger) + (if ends then Ids(e.job) else {}))
      && r.chats == if c !in st.chats && !rearm then st.chats
                    else st.chats[c := e.(job := if ends then None else e.job,
                                          autoTrigger := if rearm then Some(|st.jobs|) else None)]
  {
    var e := Get(st.chats, c);
    var ends := Alerting(st.chats, c) && e.jobManual != Some(true);
    var st1 := AddKnown(st, c);
    var st2 := if ends then Send(DropAlert(st1, c), c, EndedByActivity) else st1;
    assert RemovesExactly(st.jobs, st2.jobs, if ends then Ids(e.job) else {});
    assert Get(st2.chats, c).autoTrigger == e.autoTrigger;
    var st3 := DropWatch(st2, c);
    assert RemovesExactly(st2.jobs, st3.jobs, Ids(e.autoTrigger));
    RemovesExactlyTrans(st.jobs, st2.jobs, st3.jobs, if ends then Ids(e.job) else {}, Ids(e.autoTrigger));
    assert GroupMessageFixed(st, c, true, hour)
        == if AutoDisabled(st3.chats, c) || hour < 8 then st3 else ArmWatch(st3, c, 3600.0);
  }

  /**
   * One iteration of curfew_end_callback as its comment says: the watch is
   * restored only if the chat did not disable the automatic trigger.
   */
  function CurfewEndChatFixed(st: Store, c: ChatId, delivered: bool): (r: Store)
    ensures r.known == st.known
    ensures r.outbox == st.outbox + (if delivered then [Outgoing(c, CurfewEndNotice)] else [])
    ensures AutoDisabled(st.chats, c) ==> r.jobs == st.jobs && r.chats == st.chats[c := st.chats[c].(curfew := Some(false))]
    ensures !AutoDisabled(st.chats, c) ==>
      && c in r.chats && r.chats[c].autoTrigger == Some(|st.jobs|)
      && |r.jobs| == |st.jobs| + 1 && r.jobs[|st.jobs|] == Job(AutoTrigger(10.0), c, false)
      && RemovesExactly(st.jobs, r.jobs, Ids(Get(st.chats, c).autoTrigger))
      && r.chats == st.chats[c := Get(st.chats, c).(curfew := if c in st.chats then Some(false) else None,
                                                    autoTrigger := Some(|st.jobs|))]
  {
    var st1 := if c in st.chats then st.(chats := st.chats[c := st.chats[c].(curfew := Some(false))]) else st;
    var st2 := if delivered then Send(st1, c, CurfewEndNotice) else st1;
    if AutoDisabled(st2.chats, c) then st2 else ArmWatch(DropWatch(st2, c), c, 10.0)
  }

  /** curfew_end_callback as intended, over the chats of `order`. */
  function CurfewEndFixed(st: Store, order: seq<ChatId>, failed: set<ChatId>): (r: Store)
    ensures r.known == st.known
    ensures r.outbox == st.outbox + Notices(order, failed, CurfewEndNotice)
  {
    if order == [] then st
    else
      var last := order[|order| - 1];
      CurfewEndChatFixed(CurfewEndFixed(st, order[..|order| - 1], failed), last, last !in failed)
  }

  /** One corrected 8:00 iteration over a known chat keeps `Valid`. */
  lemma CurfewEndChatFixedValid(st: Store, c: ChatId, delivered: bool)
    requires Valid(st) && c in st.known
    ensures Valid(CurfewEndChatFixed(st, c, delivered))
  {
    var st1 := if c in st.chats then st.(chats := st.chats[c := st.chats[c].(curfew := Some(false))]) else st;
    var st2 := if delivered then Send(st1, c, CurfewEndNotice) else st1;
    assert Valid(st2);
    if !AutoDisabled(st2.chats, c) {
      Invariants.DropWatchValid(st2, c);
      Invariants.ArmWatchValid(DropWatch(st2, c), c, 10.0);
    }
  }

  lemma {:induction false} CurfewEndFixedValid(st: Store, order: seq<ChatId>, failed: set<ChatId>)
    requires Valid(st) && forall c | c in order :: c in st.known
    ensures Valid(CurfewEndFixed(st, order, failed))
  {
    if order != [] {
      var n := |order|;
      assert forall c | c in order[..n - 1] :: c in order;
      CurfewEndFixedValid(st, order[..n - 1], failed);
      CurfewEndChatFixedValid(CurfewEndFixed(st, order[..n - 1], failed), order[n - 1], order[n - 1] !in failed);
    }
  }

  /** The corrected 8:00 walk never changes whether a chat disabled the automatic trigger. */
  lemma {:induction false} CurfewEndFixedKeepsDisabled(st: Store, order: seq<ChatId>, failed: set<ChatId>, c: ChatId)
    ensures AutoDisabled(CurfewEndFixed(st, order, failed).chats, c) == AutoDisabled(st.chats, c)
  {
    if order != [] {
      var n := |order|;
      CurfewEndFixedKeepsDisabled(st, order[..n - 1], failed, c);
    }
  }

  /**
   * Each visited chat that did not disable the automatic trigger ends the
   * corrected 8:00 walk with a scheduled 10-second watch of its own.
   */
  lemma {:induction false} CurfewEndFixedRestores(st: Store, order: seq<ChatId>, failed: set<ChatId>)
    requires Valid(st) && NoDup(order) && forall c | c in order :: c in st.known
    ensures forall c | c in order && !AutoDisabled(st.chats, c) :: WatchHeld(CurfewEndFixed(st, order, failed), c)
  {
    if order != [] {
      var n := |order|;
      var pre, last := order[..n - 1], order[n - 1];
      assert order == pre + [last];
      assert NoDup(pre) && forall c | c in pre :: c in order;
      CurfewEndFixedRestores(st, pre, failed);
      CurfewEndFixedValid(st, pre, failed);
      var mid := CurfewEndFixed(st, pre, failed);
      CurfewEndFixedKeepsDisabled(st, pre, failed, last);
      var r := CurfewEndChatFixed(mid, last, last !in failed);
      forall c | c in pre && c != last && !AutoDisabled(st.chats, c)
        ensures WatchHeld(r, c)
      {
        CurfewEndFixedKeepsDisabled(st, pre, failed, c);
        WatchSurvives(mid, last, last !in failed, c);
      }
    }
  }

  /** Chat `c` holds a scheduled 10-second watch of its own. */
  ghost predicate WatchHeld(st: Store, c: ChatId)
  {
    && c in st.chats && st.chats[c].autoTrigger.Some?
    && Live(st.jobs, st.chats[c].autoTrigger.value)
    && st.jobs[st.chats[c].autoTrigger.value] == Job(AutoTrigger(10.0), c, false)
  }

  /** A later iteration over another chat leaves a chat's restored watch alone. */
  lemma WatchSurvives(st: Store, last: ChatId, delivered: bool, c: ChatId)
    requires Valid(st) && c != last && WatchHeld(st, c)
    ensures WatchHeld(CurfewEndChatFixed(st, last, delivered), c)
  {
    var j := st.chats[c].autoTrigger.value;
    assert EntryValid(st.chats[c], c, st.jobs);
    if !AutoDisabled(st.chats, last) {
      assert last in st.chats && st.chats[last].autoTrigger.Some? ==> EntryValid(st.chats[last], last, st.jobs);
      assert j !in Ids(Get(st.chats, last).autoTrigger);
    }
  }

  /**
   * The corrected 8:00 walk restores the automatic trigger of every known
   * chat that did not disable it: each ends with a scheduled 10-second
   * watch of its own under 'auto_trigger_job'.
   */
  lemma CurfewEndFixedArmsEnabledChats(st: Store, order: seq<ChatId>, failed: set<ChatId>)
    requires Valid(st) && Enumerates(order, st.known)
    ensures var r := CurfewEndFixed(st, order, failed);
      forall c | c in st.known && !AutoDisabled(st.chats, c) ::
        && c in r.chats && r.chats[c].autoTrigger.Some?
        && Live(r.jobs, r.chats[c].autoTrigger.value)
        && r.jobs[r.chats[c].autoTrigger.value] == Job(AutoTrigger(10.0), c, false)
  {
    CurfewEndFixedRestores(st, order, failed);
  }

  /** `Step` with the corrected handlers. */
  function StepFixed(st: Store, ev: Event): Store
  {
    match ev
    case Help(c, isGroup, hour) => HelpCommand(st, c, isGroup, hour)
    case On(c, isGroup, args, hour) => OnCommandFixed(st, c, isGroup, args, hour)
    case Off(c, isGroup, hour) => OffCommandFixed(st, c, isGroup, hour)
    case EnableAutoCmd(c, isGroup, hour) => EnableAuto(st, c, isGroup, hour)
    case DisableAutoCmd(c) => DisableAuto(st, c)
    case Message(c, isGroup, _, hour) => GroupMessageFixed(st, c, isGroup, hour)
    case RunJob(id) =>
      if !Live(st.jobs, id) then st
      else if st.jobs[id].kind.AutoTrigger? then AutoTriggerCallback(st, id)
      else ScreamCallback(st, id)
    case CurfewStarts(order, failed) =>
      if Enumerates(order, st.known) then CurfewStart(st, order, failed) else st
    case CurfewEnds(order, failed) =>
      if Enumerates(order, st.known) then CurfewEndFixed(st, order, failed) else st
  }

  function RunFixed(st: Store, evs: seq<Event>): Store
    decreases |evs|
  {
    if evs == [] then st else RunFixed(StepFixed(st, evs[0]), evs[1..])
  }

  // ---- every corrected event keeps the invariant --------------------------

  lemma HelpIntended(st: Store, c: ChatId, isGroup: bool, hour: nat)
    requires Intended(st)
    ensures Intended(HelpCommand(st, c, isGroup, hour))
  {
    var st1 := if isGroup then AddKnown(st, c) else st;
    AddKnownIntended(st, c, c);
    SendIntended(st1, c, HelpText, c);
    ResetIntended(Send(st1, c, HelpText), c, isGroup, hour);
  }

  lemma OnFixedIntended(st: Store, c: ChatId, isGroup: bool, args: seq<Option<real>>, hour: nat)
    requires Intended(st)
    ensures Intended(OnCommandFixed(st, c, isGroup, args, hour))
  {
    if ValidInterval(args) {
      var x := args[0].value;
      var st0 := AddKnown(st, c);
      AddKnownIntended(st, c, c);
      DropAlertIntended(st0, c);
      ArmAlertIntended(DropAlert(st0, c), c, x * 60.0, 0.0, true);
      var st1 := ArmAlert(DropAlert(st0, c), c, x * 60.0, 0.0, true);
      SendIntended(st1, c, OnStarted(x), c);
      ResetIntended(Send(st1, c, OnStarted(x)), c, isGroup, hour);
      assert OnCommandFixed(st, c, isGroup, args, hour) == ResetAutoTrigger(Send(st1, c, OnStarted(x)), c, isGroup, hour);
    }
  }

  lemma OffFixedIntended(st: Store, c: ChatId, isGroup: bool, hour: nat)
    requires Intended(st)
    ensures Intended(OffCommandFixed(st, c, isGroup, hour))
  {
    var st1 := if isGroup then AddKnown(st, c) else st;
    AddKnownIntended(st, c, c);
    if Alerting(st1.chats, c) {
      DropAlertIntended(st1, c);
      var s := DropAlert(st1, c);
      SetFlagsIntended(s, c, s.chats[c].(jobManual := None));
    } else {
      SendIntended(st1, c, OffNotAlerting, c);
      ResetIntended(Send(st1, c, OffNotAlerting), c, isGroup, hour);
    }
  }

  lemma EnableIntended(st: Store, c: ChatId, isGroup: bool, hour: nat)
    requires Intended(st)
    ensures Intended(EnableAuto(st, c, isGroup, hour))
  {
    var st1 := AddKnown(st, c);
    AddKnownIntended(st, c, c);
    SetFlagsIntended(st1, c, Get(st1.chats, c).(autoEnabled := Some(true)));
    var st2 := st1.(chats := st1.chats[c := Get(st1.chats, c).(autoEnabled := Some(true))]);
    SendIntended(st2, c, AutoEnabledAck, c);
    ResetIntended(Send(st2, c, AutoEnabledAck), c, isGroup, hour);
  }

  lemma DisableIntended(st: Store, c: ChatId)
    requires Intended(st)
    ensures Intended(DisableAuto(st, c))
  {
    var st1 := AddKnown(st, c);
    AddKnownIntended(st, c, c);
    SetFlagsIntended(st1, c, Get(st1.chats, c).(autoEnabled := Some(false)));
    var st2 := st1.(chats := st1.chats[c := Get(st1.chats, c).(autoEnabled := Some(false))]);
    DropWatchIntended(st2, c);
  }

  lemma GroupMessageFixedIntended(st: Store, c: ChatId, isGroup: bool, hour: nat)
    requires Intended(st)
    ensures Intended(GroupMessageFixed(st, c, isGroup, hour))
  {
    if isGroup {
      var st1 := AddKnown(st, c);
      AddKnownIntended(st, c, c);
      var st2 := if Alerting(st1.chats, c) && Get(st1.chats, c).jobManual != Some(true)
                 then Send(DropAlert(st1, c), c, EndedByActivity) else st1;
      DropAlertIntended(st1, c);
      DropWatchIntended(st2, c);
      var st3 := DropWatch(st2, c);
      if !AutoDisabled(st3.chats, c) && hour >= 8 {
        ArmWatchIntended(st3, c, 3600.0);
      }
    }
  }

  /** auto_trigger_callback of a scheduled watch: in an intended state the watch is the chat's own. */
  lemma AutoTriggerIntended(st: Store, id: JobId)
    requires Intended(st) && Live(st.jobs, id) && st.jobs[id].kind.AutoTrigger?
    ensures Intended(AutoTriggerCallback(st, id))
  {
    var c := st.jobs[id].chat;
    assert Tracked(st.chats, st.jobs, id);
    var st1 := if !Alerting(st.chats, c) then Send(ArmAlert(st, c, 3600.0, 1.0, false), c, AutoStarted) else st;
    if !Alerting(st.chats, c) {
      ArmAlertIntended(st, c, 3600.0, 1.0, false);
      SendIntended(ArmAlert(st, c, 3600.0, 1.0, false), c, AutoStarted, c);
    }
    assert AutoTriggerCallback(st, id) == DropWatch(st1, c);
    DropWatchIntended(st1, c);
  }

  lemma CurfewStartChatIntended(st: Store, c: ChatId, delivered: bool)
    requires Intended(st)
    ensures Intended(CurfewStartChat(st, c, delivered))
  {
    if c in st.chats {
      DropAlertIntended(st, c);
      DropWatchIntended(DropAlert(st, c), c);
      var s := DropWatch(DropAlert(st, c), c);
      SetFlagsIntended(s, c, s.chats[c].(curfew := Some(true)));
      var s1 := s.(chats := s.chats[c := s.chats[c].(curfew := Some(true))]);
      SendIntended(s1, c, CurfewStartNotice, c);
    } else {
      SendIntended(st, c, CurfewStartNotice, c);
    }
  }

  lemma {:induction false} CurfewStartIntended(st: Store, order: seq<ChatId>, failed: set<ChatId>)
    requires Intended(st)
    ensures Intended(CurfewStart(st, order, failed))
  {
    if order != [] {
      var n := |order|;
      CurfewStartIntended(st, order[..n - 1], failed);
      CurfewStartChatIntended(CurfewStart(st, order[..n - 1], failed), order[n - 1], order[n - 1] !in failed);
    }
  }

  lemma CurfewEndChatFixedIntended(st: Store, c: ChatId, delivered: bool)
    requires Intended(st) && c in st.known
    ensures Intended(CurfewEndChatFixed(st, c, delivered))
  {
    var st1 := if c in st.chats then st.(chats := st.chats[c := st.chats[c].(curfew := Some(false))]) else st;
    if c in st.chats {
      SetFlagsIntended(st, c, st.chats[c].(curfew := Some(false)));
    }
    SendIntended(st1, c, CurfewEndNotice, c);
    var st2 := if delivered then Send(st1, c, CurfewEndNotice) else st1;
    if !AutoDisabled(st2.chats, c) {
      DropWatchIntended(st2, c);
      ArmWatchIntended(DropWatch(st2, c), c, 10.0);
    }
  }

  lemma {:induction false} CurfewEndFixedIntended(st: Store, order: seq<ChatId>, failed: set<ChatId>)
    requires Intended(st) && forall c | c in order :: c in st.known
    ensures Intended(CurfewEndFixed(st, order, failed))
  {
    if order != [] {
      var n := |order|;
      assert forall c | c in order[..n - 1] :: c in order;
      CurfewEndFixedIntended(st, order[..n - 1], failed);
      CurfewEndChatFixedIntended(CurfewEndFixed(st, order[..n - 1], failed), order[n - 1], order[n - 1] !in failed);
    }
  }

  lemma StepFixedIntended(st: Store, ev: Event)
    requires Intended(st)
    ensures Intended(StepFixed(st, ev))
  {
    match ev
    case Help(c, isGroup, hour) => HelpIntended(st, c, isGroup, hour);
    case On(c, isGroup, args, hour) => OnFixedIntended(st, c, isGroup, args, hour);
    case Off(c, isGroup, hour) => OffFixedIntended(st, c, isGroup, hour);
    case EnableAutoCmd(c, isGroup, hour) => EnableIntended(st, c, isGroup, hour);
    case DisableAutoCmd(c) => DisableIntended(st, c);
    case Message(c, isGroup, _, hour) => GroupMessageFixedIntended(st, c, isGroup, hour);
    case RunJob(id) =>
      if Live(st.jobs, id) {
        if st.jobs[id].kind.AutoTrigger? {
          AutoTriggerIntended(st, id);
        } else {
          SendIntended(st, st.jobs[id].chat, ScreamMessage, st.jobs[id].chat);
        }
      }
    case CurfewStarts(order, failed) =>
      if Enumerates(order, st.known) {
        CurfewStartIntended(st, order, failed);
      }
    case CurfewEnds(order, failed) =>
      if Enumerates(order, st.known) {
        CurfewEndFixedIntended(st, order, failed);
      }
  }

  /**
   * Every state the corrected bot reaches from start-up is intended: at
   * most one alert and one watch per chat, none forgotten, and no watch for
   * a chat that disabled the automatic trigger.
   */
  lemma {:induction false} RunFixedIntended(st: Store, evs: seq<Event>)
    requires Intended(st)
    ensures Intended(RunFixed(st, evs))
    decreases |evs|
  {
    if evs != [] {
      StepFixedIntended(st, evs[0]);
      RunFixedIntended(StepFixed(st, evs[0]), evs[1..]);
    }
  }

  lemma ReachableFixedIntended(evs: seq<Event>)
    ensures Intended(RunFixed(Initial, evs))
  {
    InitialIntended();
    RunFixedIntended(Initial, evs);
  }
}
