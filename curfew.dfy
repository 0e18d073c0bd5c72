/**
 * The daily curfew edges (0:00 and 8:00).  Each callback walks
 * KNOWN_CHATS; `order` is the order in which Python happens to iterate the
 * set, and `failed` holds the chats whose notice could not be sent (the
 * exception is printed and the walk goes on).
 */
module Curfew {
  import opened Wrappers
  import opened JobQueue
  import opened ChatState
  import opened Handlers

  /** Each chat appears at most once. */
  predicate NoDup(order: seq<ChatId>)
  {
    forall i, j | 0 <= i < j < |order| :: order[i] != order[j]
  }

  /** `order` visits every chat of `known` exactly once. */
  predicate Enumerates(order: seq<ChatId>, known: set<ChatId>)
  {
    NoDup(order) && (forall c | c in order :: c in known) && (forall c | c in known :: c in order)
  }

  /** The notices a walk over `order` sends: one per chat, except the failed ones. */
  function Notices(order: seq<ChatId>, failed: set<ChatId>, n: Notice): seq<Outgoing>
  {
    if order == [] then []
    else
      var last := order[|order| - 1];
      Notices(order[..|order| - 1], failed, n) + (if last in failed then [] else [Outgoing(last, n)])
  }

  /** The jobs held under 'job' or 'auto_trigger_job' by the chats of `order`. */
  function Held(chats: map<ChatId, Entry>, order: seq<ChatId>): set<JobId>
  {
    if order == [] then {}
    else
      var e := Get(chats, order[|order| - 1]);
      Held(chats, order[..|order| - 1]) + Ids(e.job) + Ids(e.autoTrigger)
  }

  /** One iteration of curfew_start_callback (main.py:125-144). */
  function CurfewStartChat(st: Store, c: ChatId, delivered: bool): Store
  {
    var st1 := if c in st.chats then
                 var s := DropWatch(DropAlert(st, c), c);
                 s.(chats := s.chats[c := s.chats[c].(curfew := Some(true))])
               else st;
    if delivered then Send(st1, c, CurfewStartNotice) else st1
  }

  /** curfew_start_callback (main.py:123-144) over the chats of `order`. */
  function CurfewStart(st: Store, order: seq<ChatId>, failed: set<ChatId>): (r: Store)
    ensures r.known == st.known && r.chats.Keys == st.chats.Keys && |r.jobs| == |st.jobs|
  {
    if order == [] then st
    else
      var last := order[|order| - 1];
      CurfewStartChat(CurfewStart(st, order[..|order| - 1], failed), last, last !in failed)
  }

  /** One iteration of curfew_end_callback (main.py:148-157). */
  function CurfewEndChat(st: Store, c: ChatId, delivered: bool): Store
  {
    var st1 := if c in st.chats then st.(chats := st.chats[c := st.chats[c].(curfew := Some(false))]) else st;
    var st2 := if delivered then Send(st1, c, CurfewEndNotice) else st1;
    ArmWatch(st2, c, 10.0)
  }

  /** curfew_end_callback (main.py:146-157) over the chats of `order`. */
  function CurfewEnd(st: Store, order: seq<ChatId>, failed: set<ChatId>): (r: Store)
    ensures r.known == st.known && |r.jobs| == |st.jobs| + |order|
  {
    if order == [] then st
    else
      var last := order[|order| - 1];
      CurfewEndChat(CurfewEnd(st, order[..|order| - 1], failed), last, last !in failed)
  }

  lemma {:induction false} HeldCovers(chats: map<ChatId, Entry>, order: seq<ChatId>, c: ChatId)
    requires c in order
    ensures Ids(Get(chats, c).job) + Ids(Get(chats, c).autoTrigger) <= Held(chats, order)
  {
    var n := |order|;
    if order[n - 1] != c {
      assert order == order[..n - 1] + [order[n - 1]];
      HeldCovers(chats, order[..n - 1], c);
    }
  }

  lemma CurfewStartChatEffect(st: Store, c: ChatId, delivered: bool)
    ensures var r := CurfewStartChat(st, c, delivered);
      && r.known == st.known
      && r.chats == (if c in st.chats then st.chats[c := st.chats[c].(job := None, autoTrigger := None, curfew := Some(true))]
                     else st.chats)
      && |r.jobs| == |st.jobs|
      && RemovesExactly(st.jobs, r.jobs, Ids(Get(st.chats, c).job) + Ids(Get(st.chats, c).autoTrigger))
      && r.outbox == st.outbox + (if delivered then [Outgoing(c, CurfewStartNotice)] else [])
  {
    if c in st.chats {
      var a := DropAlert(st, c);
      var s := DropWatch(a, c);
      RemovesExactlyTrans(st.jobs, a.jobs, s.jobs, Ids(Get(st.chats, c).job), Ids(Get(a.chats, c).autoTrigger));
    }
  }

  lemma CurfewEndChatEffect(st: Store, c: ChatId, delivered: bool)
    ensures var r := CurfewEndChat(st, c, delivered);
      && r.known == st.known
      && r.chats == st.chats[c := Get(st.chats, c).(curfew := if c in st.chats then Some(false) else None,
                                                      autoTrigger := Some(|st.jobs|))]
      && r.jobs == st.jobs + [Job(AutoTrigger(10.0), c, false)]
      && r.outbox == st.outbox + (if delivered then [Outgoing(c, CurfewEndNotice)] else [])
  {
  }

  /**
   * The curfew start walk: every visited chat that has an entry loses its
   * 'job' and 'auto_trigger_job' keys and gets 'curfew' = True ('job_manual'
   * and 'auto_enabled' stay); the other entries are untouched.
   */
  lemma {:induction false} CurfewStartEntries(st: Store, order: seq<ChatId>, failed: set<ChatId>)
    ensures var r := CurfewStart(st, order, failed);
      forall c | c in st.chats ::
        r.chats[c] == if c in order then st.chats[c].(job := None, autoTrigger := None, curfew := Some(true))
                      else st.chats[c]
  {
    if order != [] {
      var n := |order|;
      var pre, last := order[..n - 1], order[n - 1];
      assert order == pre + [last];
      CurfewStartEntries(st, pre, failed);
      CurfewStartChatEffect(CurfewStart(st, pre, failed), last, last !in failed);
    }
  }

  /**
   * The curfew start walk removes exactly the jobs the visited chats held
   * under 'job' or 'auto_trigger_job', and arms none.
   */
  lemma {:induction false} CurfewStartJobs(st: Store, order: seq<ChatId>, failed: set<ChatId>)
    ensures RemovesExactly(st.jobs, CurfewStart(st, order, failed).jobs, Held(st.chats, order))
  {
    if order != [] {
      var n := |order|;
      var pre, last := order[..n - 1], order[n - 1];
      assert order == pre + [last];
      CurfewStartJobs(st, pre, failed);
      CurfewStartEntries(st, pre, failed);
      var mid := CurfewStart(st, pre, failed);
      CurfewStartChatEffect(mid, last, last !in failed);
      var gone := Ids(Get(mid.chats, last).job) + Ids(Get(mid.chats, last).autoTrigger);
      if last in pre {
        HeldCovers(st.chats, pre, last);
        assert gone == {};
      } else {
        assert Get(mid.chats, last) == Get(st.chats, last);
      }
      RemovesExactlyTrans(st.jobs, mid.jobs, CurfewStart(st, order, failed).jobs, Held(st.chats, pre), gone);
      assert Held(st.chats, pre) + gone == Held(st.chats, order);
    }
  }

  /** The curfew start walk sends one notice to every visited chat whose send does not fail. */
  lemma {:induction false} CurfewStartNotices(st: Store, order: seq<ChatId>, failed: set<ChatId>)
    ensures CurfewStart(st, order, failed).outbox == st.outbox + Notices(order, failed, CurfewStartNotice)
  {
    if order != [] {
      var n := |order|;
      var pre, last := order[..n - 1], order[n - 1];
      CurfewStartNotices(st, pre, failed);
      CurfewStartChatEffect(CurfewStart(st, pre, failed), last, last !in failed);
    }
  }

  /** The curfew end walk sends one notice to every visited chat whose send does not fail. */
  lemma {:induction false} CurfewEndNotices(st: Store, order: seq<ChatId>, failed: set<ChatId>)
    ensures CurfewEnd(st, order, failed).outbox == st.outbox + Notices(order, failed, CurfewEndNotice)
  {
    if order != [] {
      var n := |order|;
      var pre, last := order[..n - 1], order[n - 1];
      CurfewEndNotices(st, pre, failed);
      CurfewEndChatEffect(CurfewEnd(st, pre, failed), last, last !in failed);
    }
  }

  /**
   * The curfew end walk arms one fresh 10-second watch per visited chat, in
   * order, and removes no earlier job: an earlier pending watch stays
   * scheduled.
   */
  lemma {:induction false} CurfewEndJobs(st: Store, order: seq<ChatId>, failed: set<ChatId>)
    ensures CurfewEnd(st, order, failed).jobs[..|st.jobs|] == st.jobs
    ensures forall k | 0 <= k < |order| ::
              CurfewEnd(st, order, failed).jobs[|st.jobs| + k] == Job(AutoTrigger(10.0), order[k], false)
  {
    if order != [] {
      var n := |order|;
      var pre, last := order[..n - 1], order[n - 1];
      CurfewEndJobs(st, pre, failed);
      var mid := CurfewEnd(st, pre, failed);
      var r := CurfewEndChat(mid, last, last !in failed);
      CurfewEndChatEffect(mid, last, last !in failed);
      assert r.jobs == mid.jobs + [Job(AutoTrigger(10.0), last, false)];
      assert r.jobs[..|st.jobs|] == mid.jobs[..|st.jobs|];
      forall k | 0 <= k < n
        ensures r.jobs[|st.jobs| + k] == Job(AutoTrigger(10.0), order[k], false)
      {
        if k < n - 1 {
          assert order[k] == pre[k];
        }
      }
    }
  }

  /**
   * After the curfew end walk every visited chat has an entry (setdefault),
   * and the entries of chats not visited are untouched.
   */
  lemma {:induction false} CurfewEndKeys(st: Store, order: seq<ChatId>, failed: set<ChatId>)
    ensures CurfewEnd(st, order, failed).chats.Keys == st.chats.Keys + (set c | c in order)
    ensures forall c | c in st.chats && c !in order :: CurfewEnd(st, order, failed).chats[c] == st.chats[c]
  {
    if order != [] {
      var n := |order|;
      var pre, last := order[..n - 1], order[n - 1];
      assert order == pre + [last];
      CurfewEndKeys(st, pre, failed);
      CurfewEndChatEffect(CurfewEnd(st, pre, failed), last, last !in failed);
      assert (set c | c in order) == (set c | c in pre) + {last};
    }
  }

  /**
   * The curfew end walk leaves each visited chat's 'auto_trigger_job' on the
   * watch armed for it, whatever its 'auto_enabled', and sets 'curfew' =
   * False only where the chat already had an entry.
   */
  lemma {:induction false} CurfewEndEntries(st: Store, order: seq<ChatId>, failed: set<ChatId>)
    requires NoDup(order)
    ensures forall k | 0 <= k < |order| ::
              && order[k] in CurfewEnd(st, order, failed).chats
              && CurfewEnd(st, order, failed).chats[order[k]] == Get(st.chats, order[k]).(
                curfew := if order[k] in st.chats then Some(false) else None,
                autoTrigger := Some(|st.jobs| + k))
  {
    if order != [] {
      var n := |order|;
      var pre, last := order[..n - 1], order[n - 1];
      CurfewEndEntries(st, pre, failed);
      var mid := CurfewEnd(st, pre, failed);
      var r := CurfewEnd(st, order, failed);
      CurfewEndChatEffect(mid, last, last !in failed);
      assert last !in pre by {
        forall i | 0 <= i < n - 1 ensures pre[i] != last {
          assert pre[i] == order[i];
        }
      }
      assert Get(mid.chats, last) == Get(st.chats, last) && (last in mid.chats <==> last in st.chats) by {
        CurfewEndKeys(st, pre, failed);
      }
      assert r.chats[order[n - 1]] == Get(st.chats, order[n - 1]).(
              curfew := if order[n - 1] in st.chats then Some(false) else None,
              autoTrigger := Some(|st.jobs| + (n - 1)));
      forall k | 0 <= k < n - 1
        ensures order[k] in r.chats
        ensures r.chats[order[k]] == Get(st.chats, order[k]).(
              curfew := if order[k] in st.chats then Some(false) else None,
              autoTrigger := Some(|st.jobs| + k))
      {
        assert order[k] == pre[k] && order[k] != last;
        assert r.chats[order[k]] == mid.chats[pre[k]];
      }
    }
  }

  /**
   * At 0:00 every known chat that has an entry is left with no alert and no
   * pending watch and is marked in curfew, and in a valid state every job
   * such a chat held is no longer scheduled.
   */
  lemma CurfewStartSilencesKnownChats(st: Store, order: seq<ChatId>, failed: set<ChatId>)
    requires Enumerates(order, st.known)
    ensures var r := CurfewStart(st, order, failed);
      forall c | c in st.known && c in st.chats ::
        && c in r.chats
        && r.chats[c].job.None? && r.chats[c].autoTrigger.None? && r.chats[c].curfew == Some(true)
        && (Valid(st) && st.chats[c].job.Some? ==> !Live(r.jobs, st.chats[c].job.value))
        && (Valid(st) && st.chats[c].autoTrigger.Some? ==> !Live(r.jobs, st.chats[c].autoTrigger.value))
  {
    CurfewStartEntries(st, order, failed);
    CurfewStartJobs(st, order, failed);
    forall c | c in st.known && c in st.chats
      ensures c in order
      ensures Ids(st.chats[c].job) + Ids(st.chats[c].autoTrigger) <= Held(st.chats, order)
    {
      HeldCovers(st.chats, order, c);
    }
  }

  /**
   * At 8:00 every known chat, whether or not it disabled the automatic
   * trigger, ends with a scheduled 10-second watch of its own.
   */
  lemma CurfewEndArmsEveryKnownChat(st: Store, order: seq<ChatId>, failed: set<ChatId>)
    requires Enumerates(order, st.known)
    ensures var r := CurfewEnd(st, order, failed);
      forall c | c in st.known ::
        && c in r.chats && r.chats[c].autoTrigger.Some?
        && Live(r.jobs, r.chats[c].autoTrigger.value)
        && r.jobs[r.chats[c].autoTrigger.value] == Job(AutoTrigger(10.0), c, false)
  {
    CurfewEndJobs(st, order, failed);
    CurfewEndKeys(st, order, failed);
    CurfewEndEntries(st, order, failed);
    var r := CurfewEnd(st, order, failed);
    forall c | c in st.known
      ensures c in r.chats && r.chats[c].autoTrigger.Some?
      ensures Live(r.jobs, r.chats[c].autoTrigger.value)
      ensures r.jobs[r.chats[c].autoTrigger.value] == Job(AutoTrigger(10.0), c, false)
    {
      var k :| 0 <= k < |order| && order[k] == c;
      assert r.chats[order[k]].autoTrigger == Some(|st.jobs| + k);
    }
  }
}
