/**
 * The bot itself: the module-level globals GLOBAL_JOBS and KNOWN_CHATS,
 * the job queue and the chats' message streams as fields of one object,
 * and each handler as a method that updates them in the order main.py
 * does.  Every handler method, and each curfew loop body, is proved to
 * compute exactly its handler function on the state before it and to keep
 * the invariant; the function has the method's name except that
 * `GroupMessageHandler`, `EnableAutoCommand` and `DisableAutoCommand`
 * compute `GroupMessage`, `EnableAuto` and `DisableAuto`.  The helpers
 * `Reply`, `Schedule`, `ScheduleRemoval`, `DropWatch` and `ArmWatch` are
 * specified by their one step alone.
 */
module Bot {
  import opened Wrappers
  import opened JobQueue
  import opened ChatState
  import Handlers
  import Curfew
  import Invariants

  /** Some element of a non-empty set: the next chat a `for` over a set yields. */
  method Pick(s: set<ChatId>) returns (c: ChatId)
    requires s != {}
    ensures c in s
  {
    NonEmpty(s);
    c :| c in s;
  }

  /** A set other than `{}` has a member. */
  lemma NonEmpty(s: set<ChatId>)
    requires s != {}
    ensures exists c :: c in s
  {
    // split on whether the set has no member at all: that case is `{}`
    if forall c :: c !in s {
    }
  }

  class Scheduler {
    var globalJobs: map<ChatId, Entry>
    var knownChats: set<ChatId>
    var jobs: seq<Job>
    var outbox: seq<Outgoing>

    /** The object's fields as a value. */
    function State(): Store
      reads this
    {
      Store(globalJobs, knownChats, jobs, outbox)
    }

    ghost predicate Valid()
      reads this
    {
      ChatState.Valid(State())
    }

    /** The bot at start-up: no chat known, no job armed, nothing sent. */
    constructor ()
      ensures State() == Initial
      ensures Valid()
    {
      globalJobs := map[];
      knownChats := {};
      jobs := [];
      outbox := [];
    }

    /** `reply_text` or `send_message` to chat `c`. */
    method Reply(c: ChatId, n: Notice)
      modifies this
      ensures State() == Send(old(State()), c, n)
    {
      outbox := outbox + [Outgoing(c, n)];
    }

    /** `run_repeating` or `run_once`: the new job's id. */
    method Schedule(kind: Kind, c: ChatId) returns (id: JobId)
      modifies this
      ensures id == old(|jobs|)
      ensures jobs == Arm(old(jobs), kind, c)
      ensures globalJobs == old(globalJobs) && knownChats == old(knownChats) && outbox == old(outbox)
    {
      id := |jobs|;
      jobs := jobs + [Job(kind, c, false)];
    }

    /** `job.schedule_removal()`, its exceptions swallowed. */
    method ScheduleRemoval(id: JobId)
      modifies this
      ensures jobs == Cancel(old(jobs), id)
      ensures globalJobs == old(globalJobs) && knownChats == old(knownChats) && outbox == old(outbox)
    {
      if id < |jobs| {
        jobs := jobs[id := jobs[id].(removed := true)];
      }
    }

    /** If chat `c` has an 'auto_trigger_job': remove it and delete the key. */
    method DropWatch(c: ChatId)
      modifies this
      ensures State() == Handlers.DropWatch(old(State()), c)
    {
      if c in globalJobs && globalJobs[c].autoTrigger.Some? {
        ScheduleRemoval(globalJobs[c].autoTrigger.value);
        globalJobs := globalJobs[c := globalJobs[c].(autoTrigger := None)];
      }
    }

    /** Arm a one-shot watch of `when` seconds as chat `c`'s 'auto_trigger_job'. */
    method ArmWatch(c: ChatId, when: real)
      modifies this
      ensures State() == Handlers.ArmWatch(old(State()), c, when)
    {
      var id := Schedule(AutoTrigger(when), c);
      globalJobs := globalJobs[c := Get(globalJobs, c).(autoTrigger := Some(id))];
    }

    /** reset_auto_trigger (main.py:159-181); `hour` is the local hour now. */
    method ResetAutoTrigger(c: ChatId, isGroup: bool, hour: nat)
      requires Valid()
      modifies this
      ensures State() == Handlers.ResetAutoTrigger(old(State()), c, isGroup, hour)
      ensures Valid()
    {
      ghost var st := State();
      if !isGroup {
        return;
      }
      knownChats := knownChats + {c};
      if c in globalJobs && globalJobs[c].autoEnabled == Some(false) {
        return;
      }
      if hour < 8 {
        return;
      }
      DropWatch(c);
      ArmWatch(c, 10.0);
      Invariants.ResetValid(st, c, isGroup, hour);
    }

    /** help_command (main.py:24-30). */
    method HelpCommand(c: ChatId, isGroup: bool, hour: nat)
      requires Valid()
      modifies this
      ensures State() == Handlers.HelpCommand(old(State()), c, isGroup, hour)
      ensures Valid()
    {
      if isGroup {
        knownChats := knownChats + {c};
      }
      Reply(c, HelpText);
      ResetAutoTrigger(c, isGroup, hour);
    }

    /** off_command (main.py:33-47). */
    method OffCommand(c: ChatId, isGroup: bool, hour: nat)
      requires Valid()
      modifies this
      ensures State() == Handlers.OffCommand(old(State()), c, isGroup, hour)
      ensures Valid()
    {
      ghost var st := State();
      if isGroup {
        knownChats := knownChats + {c};
      }
      if c in globalJobs && globalJobs[c].job.Some? {
        ScheduleRemoval(globalJobs[c].job.value);
        if c in globalJobs {
          globalJobs := globalJobs[c := globalJobs[c].(jobManual := None)];
          Reply(c, OffStopped);
        }
        Invariants.OffValid(st, c, isGroup, hour);
      } else {
        Reply(c, OffNotAlerting);
        ResetAutoTrigger(c, isGroup, hour);
      }
    }

    /**
     * on_command (main.py:51-80); `args` holds each argument as float()
     * parses it, None where it raises.
     */
    method OnCommand(c: ChatId, isGroup: bool, args: seq<Option<real>>, hour: nat)
      requires Valid()
      modifies this
      ensures State() == Handlers.OnCommand(old(State()), c, isGroup, args, hour)
      ensures Valid()
    {
      ghost var st := State();
      if |args| != 1 {
        Reply(c, OnUsage);
        return;
      }
      if args[0].None? {
        Reply(c, OnNotANumber);
        return;
      }
      var x := args[0].value;
      if x <= 0.0 {
        Reply(c, OnNotPositive);
        return;
      }
      knownChats := knownChats + {c};
      var id := Schedule(Scream(x * 60.0, 0.0), c);
      globalJobs := globalJobs[c := Get(globalJobs, c).(job := Some(id))];
      globalJobs := globalJobs[c := globalJobs[c].(jobManual := Some(true))];
      ghost var st1 := Handlers.ArmAlert(Handlers.AddKnown(st, c), c, x * 60.0, 0.0, true);
      assert State() == st1;
      Invariants.ArmAlertValid(Handlers.AddKnown(st, c), c, x * 60.0, 0.0, true);
      Reply(c, OnStarted(x));
      ResetAutoTrigger(c, isGroup, hour);
      assert Handlers.OnCommand(st, c, isGroup, args, hour)
          == Handlers.ResetAutoTrigger(Send(st1, c, OnStarted(x)), c, isGroup, hour);
    }

    /**
     * auto_trigger_callback (main.py:83-97), run by the one-shot job `id`;
     * the queue then forgets the job.
     */
    method AutoTriggerCallback(id: JobId)
      requires Valid() && id < |jobs| && jobs[id].kind.AutoTrigger?
      modifies this
      ensures State() == Handlers.AutoTriggerCallback(old(State()), id)
      ensures Valid()
    {
      ghost var st := State();
      var c := jobs[id].chat;
      if c !in globalJobs || globalJobs[c].job.None? {
        var job := Schedule(Scream(3600.0, 1.0), c);
        globalJobs := globalJobs[c := Get(globalJobs, c).(job := Some(job))];
        globalJobs := globalJobs[c := globalJobs[c].(jobManual := Some(false))];
        Reply(c, AutoStarted);
      }
      if c in globalJobs && globalJobs[c].autoTrigger.Some? {
        globalJobs := globalJobs[c := globalJobs[c].(autoTrigger := None)];
      }
      jobs := jobs[id := jobs[id].(removed := true)];
      Invariants.AutoTriggerValid(st, id);
    }

    /**
     * group_message_handler (main.py:100-121); `chatDataManual` is what
     * `context.chat_data.get("job_manual", False)` holds.
     */
    method GroupMessageHandler(c: ChatId, isGroup: bool, chatDataManual: bool)
      requires Valid()
      modifies this
      ensures State() == Handlers.GroupMessage(old(State()), c, isGroup, chatDataManual)
      ensures Valid()
    {
      ghost var st := State();
      if isGroup {
        knownChats := knownChats + {c};
        if c in globalJobs && globalJobs[c].job.Some? && !chatDataManual {
          ScheduleRemoval(globalJobs[c].job.value);
          globalJobs := globalJobs[c := globalJobs[c].(job := None)];
          Reply(c, EndedByActivity);
        }
        DropWatch(c);
        ArmWatch(c, 3600.0);
        Invariants.GroupMessageValid(st, c, isGroup, chatDataManual);
      }
    }

    /** enable_auto_command (main.py:183-188). */
    method EnableAutoCommand(c: ChatId, isGroup: bool, hour: nat)
      requires Valid()
      modifies this
      ensures State() == Handlers.EnableAuto(old(State()), c, isGroup, hour)
      ensures Valid()
    {
      knownChats := knownChats + {c};
      globalJobs := globalJobs[c := Get(globalJobs, c).(autoEnabled := Some(true))];
      Reply(c, AutoEnabledAck);
      ResetAutoTrigger(c, isGroup, hour);
    }

    /** disable_auto_command (main.py:190-201). */
    method DisableAutoCommand(c: ChatId)
      requires Valid()
      modifies this
      ensures State() == Handlers.DisableAuto(old(State()), c)
      ensures Valid()
    {
      ghost var st := State();
      knownChats := knownChats + {c};
      globalJobs := globalJobs[c := Get(globalJobs, c).(autoEnabled := Some(false))];
      DropWatch(c);
      Reply(c, AutoDisabledAck);
      Invariants.DisableValid(st, c);
    }

    /** scream_callback (main.py:19-21), run by the repeating job `id`. */
    method ScreamCallback(id: JobId)
      requires Valid() && id < |jobs| && jobs[id].kind.Scream?
      modifies this
      ensures State() == Handlers.ScreamCallback(old(State()), id)
      ensures Valid()
    {
      ghost var st := State();
      Reply(jobs[id].chat, ScreamMessage);
      Invariants.ScreamValid(st, id);
    }

    /** One iteration of curfew_start_callback (main.py:125-144). */
    method CurfewStartChat(c: ChatId, delivered: bool)
      requires Valid()
      modifies this
      ensures State() == Curfew.CurfewStartChat(old(State()), c, delivered)
      ensures Valid()
    {
      ghost var st := State();
      if c in globalJobs {
        if globalJobs[c].job.Some? {
          ScheduleRemoval(globalJobs[c].job.value);
          globalJobs := globalJobs[c := globalJobs[c].(job := None)];
        }
        assert State() == Handlers.DropAlert(st, c);
        DropWatch(c);
        globalJobs := globalJobs[c := globalJobs[c].(curfew := Some(true))];
      }
      if delivered {
        Reply(c, CurfewStartNotice);
      }
      Invariants.CurfewStartChatValid(st, c, delivered);
    }

    /** One iteration of curfew_end_callback (main.py:148-157). */
    method CurfewEndChat(c: ChatId, delivered: bool)
      requires Valid() && c in knownChats
      modifies this
      ensures State() == Curfew.CurfewEndChat(old(State()), c, delivered)
      ensures Valid()
    {
      ghost var st := State();
      if c in globalJobs {
        globalJobs := globalJobs[c := globalJobs[c].(curfew := Some(false))];
      }
      if delivered {
        Reply(c, CurfewEndNotice);
      }
      ArmWatch(c, 10.0);
      Invariants.CurfewEndChatValid(st, c, delivered);
    }

    /**
     * curfew_start_callback (main.py:123-144).  The loop visits KNOWN_CHATS
     * in whatever order the set yields; `order` is that order.  `failed`
     * holds the chats whose notice raises.
     */
    method CurfewStartCallback(failed: set<ChatId>) returns (ghost order: seq<ChatId>)
      requires Valid()
      modifies this
      ensures Curfew.Enumerates(order, old(knownChats))
      ensures State() == Curfew.CurfewStart(old(State()), order, failed)
      ensures Valid()
    {
      var remaining := knownChats;
      order := [];
      while remaining != {}
        invariant knownChats == old(knownChats) && remaining <= knownChats
        invariant Curfew.NoDup(order)
        invariant forall d | d in order :: d in knownChats && d !in remaining
        invariant forall d | d in knownChats :: d in remaining || d in order
        invariant State() == Curfew.CurfewStart(old(State()), order, failed)
        invariant Valid()
        decreases remaining
      {
        var c := Pick(remaining);
        CurfewStartChat(c, c !in failed);
        assert (order + [c])[..|order|] == order;
        order := order + [c];
        remaining := remaining - {c};
      }
    }

    /**
     * curfew_end_callback (main.py:146-157), over KNOWN_CHATS in the order
     * the set yields, returned as `order`.
     */
    method CurfewEndCallback(failed: set<ChatId>) returns (ghost order: seq<ChatId>)
      requires Valid()
      modifies this
      ensures Curfew.Enumerates(order, old(knownChats))
      ensures State() == Curfew.CurfewEnd(old(State()), order, failed)
      ensures Valid()
    {
      var remaining := knownChats;
      order := [];
      while remaining != {}
        invariant knownChats == old(knownChats) && remaining <= knownChats
        invariant Curfew.NoDup(order)
        invariant forall d | d in order :: d in knownChats && d !in remaining
        invariant forall d | d in knownChats :: d in remaining || d in order
        invariant State() == Curfew.CurfewEnd(old(State()), order, failed)
        invariant Valid()
        decreases remaining
      {
        var c := Pick(remaining);
        CurfewEndChat(c, c !in failed);
        assert (order + [c])[..|order|] == order;
        order := order + [c];
        remaining := remaining - {c};
      }
    }
  }
}
