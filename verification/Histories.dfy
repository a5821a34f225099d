/** Properties over whole histories: logs only grow, finished runs are frozen, keys are idempotent. */
module Histories {
  import opened Common
  import opened Lifecycle
  import opened Eviction
  import opened Scheduler
  import opened Ownership
  import opened SchedulerInvariant
  import opened Guarantees

  // ---------------------------------------------------------------------
  // Logs only grow
  // ---------------------------------------------------------------------

  predicate Extends(a: Run, b: Run) {
    SameIdentity(a, b) && a.transitions <= b.transitions
  }

  /** No run object is lost or rewritten, and ids are given out once. */
  ghost predicate Grown(s: State, r: State) {
    && |s.recs| <= |r.recs|
    && (forall id :: 0 <= id < |s.recs| ==> Extends(s.recs[id], r.recs[id]))
    && (forall id :: id in r.runs ==> id in s.runs || id >= |s.recs|)
  }

  lemma GrownTransitive(s: State, m: State, r: State)
    requires Grown(s, m) && Grown(m, r)
    ensures Grown(s, r)
  {
    forall id | 0 <= id < |s.recs| ensures Extends(s.recs[id], r.recs[id]) {
      assert Extends(s.recs[id], m.recs[id]) && Extends(m.recs[id], r.recs[id]);
    }
  }

  lemma AdmittedGrows(s: State, q: Request, now: real)
    requires WellFormed(s)
    ensures Grown(s, Admitted(s, q, now))
  {
  }

  lemma AdmitUnlessFullGrows(s: State, q: Request, now: real)
    requires WellFormed(s)
    ensures Grown(s, AdmitUnlessFull(s, q, now).0)
  {
    hide Admitted, SameSetup;
    AdmittedGrows(s, q, now);
  }

  lemma LookedGrows(s: State, q: Request, now: real)
    requires WellFormed(s)
    ensures Grown(s, Looked(s, q, now).0)
  {
    hide AdmitUnlessFull, SameSetup;
    AdmitUnlessFullGrows(s, q, now);
    if q.key.Some? {
      var t := s.(index := s.index - {q.key.value});
      AdmitUnlessFullGrows(t, q, now);
      GrownTransitive(s, t, AdmitUnlessFull(t, q, now).0);
    }
  }

  lemma SubmittedGrows(s: State, q: Request, now: real)
    requires WellFormed(s)
    ensures Grown(s, Submitted(s, q, now).0)
  {
    hide Victims, KeysOf, SameSetup, Looked;
    var c := CleanedUp(StartWorkers(s), 1, now);
    assert Grown(s, StartWorkers(s)) && Grown(s, c);
    LookedGrows(c, q, now);
    GrownTransitive(s, c, Looked(c, q, now).0);
  }

  lemma RequeuedGrows(s: State, id: RunId, now: real)
    requires WellFormed(s) && id < |s.recs|
    ensures Grown(s, RequeuedRun(s, id, now))
  {
    hide SameSetup, Bumped;
    var r := RequeuedRun(s, id, now);
    assert Extends(s.recs[id], r.recs[id]);
  }

  lemma RetriedGrows(s: State, id: RunId, now: real)
    requires WellFormed(s)
    ensures Grown(s, Retried(s, id, now).0)
  {
    hide SameSetup, SameRegistry, Bumped, RequeuedRun;
    if id in s.runs {
      RequeuedGrows(s, id, now);
    }
  }

  lemma CancelledRunGrows(s: State, id: RunId, now: real)
    requires WellFormed(s) && id < |s.recs|
    ensures Grown(s, CancelledRun(s, id, now))
  {
  }

  lemma CancelAnswerGrows(s: State, id: RunId, now: real)
    requires WellFormed(s)
    ensures Grown(s, CancelAnswer(s, id, now).0)
  {
    hide CancelledRun, SameSetup;
    if id in s.runs && !Terminal(s.recs[id].state) {
      var a := CancelRequested(s, id);
      assert Grown(s, a);
      CancelledRunGrows(a, id, now);
      GrownTransitive(s, a, CancelledRun(a, id, now));
    }
  }

  lemma {:induction false} CancelledBelowGrows(s: State, n: nat, now: real)
    requires WellFormed(s) && n <= |s.recs|
    ensures Grown(s, CancelledBelow(s, n, now))
  {
    hide CancelledRun, SameSetup, Grown;
    if n == 0 {
      GrownReflexive(s);
    } else {
      CancelledBelowGrows(s, n - 1, now);
      var c := CancelledBelow(s, n - 1, now);
      CancelledRunGrows(c, n - 1, now);
      GrownTransitive(s, c, CancelledRun(c, n - 1, now));
    }
  }

  lemma ClosedGrows(s: State, now: real)
    requires WellFormed(s)
    ensures Grown(s, Closed(s, now))
  {
    hide CancelledBelow, SameSetup;
    CancelledBelowGrows(s.(closed := true), |s.recs|, now);
  }

  lemma SettledGrows(s: State, id: RunId, outcome: Outcome, now: real)
    requires WellFormed(s) && id < |s.recs|
    ensures Grown(s, Settled(s, id, outcome, now))
  {
    hide Bumped, SameSetup, WellFormed;
  }

  lemma FinalizedGrows(s: State, w: nat)
    requires WellFormed(s) && HasRun(s, w)
    ensures Grown(s, Finalized(s, w))
  {
    hide SameSetup, TaskOver;
    TaskOverKeepsRuns(s, w);
  }

  lemma TaskOverKeepsRuns(s: State, w: nat)
    requires WellFormed(s) && HasRun(s, w)
    ensures Finalized(s, w).recs == s.recs && Finalized(s, w).runs == s.runs
    ensures Finalized(s, w).queue == s.queue && Finalized(s, w).index == s.index
    ensures Finalized(s, w).byRun == s.byRun
  {
  }

  lemma EndedGrows(s: State, w: nat, outcome: Outcome, now: real)
    requires WellFormed(s) && HasRun(s, w)
    ensures Grown(s, Ended(s, w, outcome, now))
  {
    hide Settled, Finalized, SameSetup, WellFormed, Grown;
    var m := Settled(s, s.slots[w].run, outcome, now);
    SettledGrows(s, s.slots[w].run, outcome, now);
    FinalizedGrows(m, w);
    GrownTransitive(s, m, Finalized(m, w));
  }

  lemma EnteredGrows(s: State, w: nat, now: real)
    requires WellFormed(s) && HasRun(s, w)
    ensures Grown(s, Entered(s, w, now))
  {
    hide Ended, Finalized, SameSetup, Moved, SameRegistry;
    FinalizedGrows(s, w);
    MovedGrows(s, s.slots[w].run, Running, now);
    EndedGrows(s, w, ILLEGAL, now);
  }

  lemma BegunGrows(s: State, w: nat, now: real)
    requires WellFormed(s) && HasRun(s, w) && s.slots[w].exec.Pending?
    ensures Grown(s, Begun(s, w, now))
  {
    hide Entered, SameSetup;
    if !s.slots[w].exec.cancelled {
      EnteredGrows(s.(active := s.active + 1), w, now);
    }
  }

  lemma CallBegunGrows(s: State, w: nat, now: real)
    requires WellFormed(s) && HasRun(s, w) && s.slots[w].exec.Active? && s.slots[w].exec.budget > 0
    ensures Grown(s, CallBegun(s, w, now))
  {
    hide Ended, SameSetup, Bumped;
    EndedGrows(s, w, ILLEGAL, now);
  }

  lemma CallEndedGrows(s: State, w: nat, ok: bool, now: real)
    requires WellFormed(s) && HasRun(s, w) && s.slots[w].exec.Active?
    ensures Grown(s, CallEnded(s, w, ok, now))
  {
    hide SameSetup, SameRegistry, Bumped, WithStep, BackToRunning, WellFormed;
    var id := s.slots[w].run;
    var m := WithStep(s, id, ok);
    CallReturnGrows(s, id, ok, now);
    GrownTransitive(s, m, BackToRunning(m, id, now));
  }

  lemma CallReturnGrows(s: State, id: RunId, ok: bool, now: real)
    requires WellFormed(s) && id < |s.recs|
    ensures Grown(s, WithStep(s, id, ok))
    ensures Grown(WithStep(s, id, ok), BackToRunning(WithStep(s, id, ok), id, now))
  {
    hide SameSetup, Bumped, WithStep;
    WithStepGrows(s, id, ok);
    MovedGrows(WithStep(s, id, ok), id, Running, now);
  }

  lemma WithStepGrows(s: State, id: RunId, ok: bool)
    requires WellFormed(s) && id < |s.recs|
    ensures Grown(s, WithStep(s, id, ok))
  {
  }

  lemma MovedGrows(s: State, id: RunId, target: RunState, now: real)
    requires WellFormed(s) && id < |s.recs|
    ensures Grown(s, Moved(s, id, target, now))
  {
  }

  lemma NextGrows(s: State, step: Step)
    requires WellFormed(s) && Enabled(s, step)
    ensures Grown(s, Next(s, step))
  {
    hide Submitted, Retried, CancelAnswer, Closed, Begun, CallBegun, CallEnded, Ended, SameSetup, SameRegistry,
         Extends;
    match step
    case Submit(q, now) => SubmittedGrows(s, q, now);
    case Retry(id, now) => RetriedGrows(s, id, now);
    case Cancel(id, now) => CancelAnswerGrows(s, id, now);
    case Close(now) => ClosedGrows(s, now);
    case Dequeue(w) => GrownReflexive(s);
    case Begin(w, now) => BegunGrows(s, w, now);
    case CallBegin(w, now) => CallBegunGrows(s, w, now);
    case CallEnd(w, ok, now) => CallEndedGrows(s, w, ok, now);
    case End(w, outcome, now) => EndedGrows(s, w, outcome, now);
    case Resume(w) => GrownReflexive(s);
  }

  lemma {:induction false} AfterGrows(s: State, steps: seq<Step>)
    requires WellFormed(s) && Possible(s, steps)
    ensures Grown(s, After(s, steps))
    decreases |steps|
  {
    hide Next, Grown;
    if steps == [] {
      GrownReflexive(s);
    } else {
      var m := Next(s, steps[0]);
      NextGrows(s, steps[0]);
      AfterGrows(m, steps[1..]);
      GrownTransitive(s, m, After(m, steps[1..]));
    }
  }

  lemma GrownReflexive(s: State)
    ensures Grown(s, s)
  {
  }

  /**
   Once a run has succeeded or was cancelled, its state and its log never change again,
   whatever late steps its old task, the workers or the callers still take.
   */
  lemma FinishedForGood(s: State, steps: seq<Step>, id: RunId)
    requires Inv(s) && WellFormed(s) && Possible(s, steps)
    requires id < |s.recs| && (s.recs[id].state == Succeeded || s.recs[id].state == Cancelled)
    ensures id < |After(s, steps).recs|
    ensures After(s, steps).recs[id].state == s.recs[id].state
    ensures After(s, steps).recs[id].transitions == s.recs[id].transitions
  {
    hide Inv, After, Possible;
    var r := After(s, steps);
    AfterGrows(s, steps);
    AfterKeepsInv(s, steps);
    assert Extends(s.recs[id], r.recs[id]);
    WellRecordedOf(s, id);
    WellRecordedOf(r, id);
    var log, longer := s.recs[id].transitions, r.recs[id].transitions;
    assert longer[..|log|] == log;
    FinalStatesEndTheLog(longer, |log|);
  }

  // ---------------------------------------------------------------------
  // Idempotency keys
  // ---------------------------------------------------------------------

  /** A key keeps its entry as long as the entry's run is registered. */
  ghost predicate EntryKept(s: State, r: State, key: string) {
    key in s.index && s.index[key].run in r.runs ==> key in r.index && r.index[key] == s.index[key]
  }

  lemma EvictKeepsEntry(s: State, gone: set<RunId>, key: string)
    requires WellFormed(s) && KeysInverse(s.recs, s.runs, s.index, s.byRun)
    ensures EntryKept(s, Evict(s, gone), key)
  {
    if key in s.index && s.index[key].run !in gone {
      forall id | id in gone && id in s.byRun ensures s.byRun[id] != key {
        assert id in s.byRun && s.byRun[id] == key <==> key in s.index && s.index[key].run == id;
      }
    }
  }

  lemma AdmitKeepsEntry(s: State, q: Request, now: real, key: string)
    requires WellFormed(s) && (key in s.index ==> q.key != Some(key))
    ensures var r := AdmitUnlessFull(s, q, now).0;
      key in s.index ==> key in r.index && r.index[key] == s.index[key]
  {
    hide Bumped, Applied, IdsKnown, SameSetup;
  }

  lemma LookedKeepsEntry(s: State, q: Request, now: real, key: string)
    requires Inv(s) && WellFormed(s)
    ensures EntryKept(s, Looked(s, q, now).0, key)
  {
    hide Inv, AdmitUnlessFull, SameSetup;
    if q.key.Some? && q.key.value in s.index {
      EntryIsRegistered(s, q.key.value);
    } else {
      AdmitKeepsEntry(s, q, now, key);
    }
  }

  lemma SubmittedKeepsEntry(s: State, q: Request, now: real, key: string)
    requires Inv(s) && WellFormed(s)
    ensures EntryKept(s, Submitted(s, q, now).0, key)
  {
    hide Inv, Victims, SameSetup, Looked, Evict;
    var t := StartWorkers(s);
    var c := CleanedUp(t, 1, now);
    StartKeepsInv(s);
    CleanUpKeepsInv(t, 1, now);
    KeysOfInv(t);
    EvictKeepsEntry(t, Victims(t.recs, t.runs, now - t.config.retention, 1, t.config.maxRunRecords), key);
    LookedKeepsEntry(c, q, now, key);
    LookedGrows(c, q, now);
    var r := Looked(c, q, now).0;
    if key in s.index && s.index[key].run in r.runs {
      EntryIsRegistered(s, key);
      EvictKeepsRecs(t, 1, now);
      assert s.index[key].run in c.runs;
    }
  }

  lemma KeysOfInv(s: State)
    requires Inv(s)
    ensures KeysInverse(s.recs, s.runs, s.index, s.byRun)
  {
  }

  lemma EvictKeepsRecs(s: State, reserve: nat, now: real)
    requires WellFormed(s)
    ensures CleanedUp(s, reserve, now).recs == s.recs
    ensures CleanedUp(s, reserve, now).queue == s.queue
    ensures CleanedUp(s, reserve, now).runs <= s.runs
  {
    hide Victims;
  }

  /** While the run of a key stays registered, the key means that run. */
  lemma {:induction false} AfterKeepsEntry(s: State, steps: seq<Step>, key: string)
    requires Inv(s) && WellFormed(s) && Possible(s, steps)
    requires key in s.index && s.index[key].run in After(s, steps).runs
    ensures key in After(s, steps).index && After(s, steps).index[key] == s.index[key]
    decreases |steps|
  {
    hide Inv, Next;
    if steps != [] {
      var m := Next(s, steps[0]);
      EntryIsRegistered(s, key);
      NextKeepsInv(s, steps[0]);
      NextGrows(s, steps[0]);
      AfterGrows(m, steps[1..]);
      if steps[0].Submit? {
        SubmittedStep(s, steps[0]);
        SubmittedKeepsEntry(s, steps[0].request, steps[0].now, key);
      } else {
        assert m.index == s.index;
      }
      AfterKeepsEntry(m, steps[1..], key);
    }
  }

  lemma SubmittedStep(s: State, step: Step)
    requires WellFormed(s) && step.Submit?
    ensures Next(s, step) == Submitted(s, step.request, step.now).0
  {
  }

  /** What a submission that names a run leaves in the index. */
  lemma SubmitBindsKey(s: State, q: Request, now: real, id: RunId)
    requires Inv(s) && WellFormed(s) && q.key.Some?
    requires Submitted(s, q, now).1 == Accepted(id) || Submitted(s, q, now).1 == Replayed(id)
    ensures var r := Submitted(s, q, now).0;
      q.key.value in r.index && r.index[q.key.value] == Entry(id, q.input, q.kind, q.session)
  {
    hide Inv, CleanedUp, SameSetup;
  }

  /** A submission decides by the index it finds after eviction. */
  lemma SubmitReply(s: State, q: Request, now: real)
    requires Inv(s) && WellFormed(s) && q.key.Some?
    requires q.input != "" && !s.closed && !BadRequestKey(q.key)
    ensures var r := Submitted(s, q, now);
      q.key.value in s.index && s.index[q.key.value].run in r.0.runs ==>
        && r.1 == (if SameRequest(q, s.index[q.key.value]) then Replayed(s.index[q.key.value].run) else Conflict)
        && r.0.recs == s.recs && r.0.queue == s.queue
  {
    hide Inv, Looked, CleanedUp, SameSetup;
    var t := StartWorkers(s);
    var c := CleanedUp(t, 1, now);
    StartKeepsInv(s);
    CleanUpKeepsInv(t, 1, now);
    EvictKeepsRecs(t, 1, now);
    LookedGrows(c, q, now);
    if q.key.value in s.index && s.index[q.key.value].run in Submitted(s, q, now).0.runs {
      EntryIsRegistered(s, q.key.value);
      CleanedUpKeepsEntry(t, now, q.key.value);
      LookedHit(c, q, now);
    }
  }

  lemma CleanedUpKeepsEntry(s: State, now: real, key: string)
    requires Inv(s) && WellFormed(s)
    ensures EntryKept(s, CleanedUp(s, 1, now), key)
  {
    hide Victims, Evict, Inv;
    KeysOfInv(s);
    EvictKeepsEntry(s, Victims(s.recs, s.runs, now - s.config.retention, 1, s.config.maxRunRecords), key);
  }

  lemma LookedHit(s: State, q: Request, now: real)
    requires WellFormed(s) && q.key.Some?
    requires q.key.value in s.index && s.index[q.key.value].run in s.runs
    ensures Looked(s, q, now).1
            == if SameRequest(q, s.index[q.key.value]) then Replayed(s.index[q.key.value].run) else Conflict
    ensures Looked(s, q, now).0.recs == s.recs && Looked(s, q, now).0.queue == s.queue
  {
  }

  /**
   Idempotency over whole histories: after a submission with a key named run `id`, and any
   steps at all, a second submission with that key finds `id` for the same request and a
   conflict for another, and creates nothing, as long as `id` has not been evicted.
   */
  lemma IdempotentSubmit(s: State, q: Request, now: real, id: RunId, steps: seq<Step>, q2: Request, now2: real)
    requires Inv(s) && WellFormed(s)
    requires q.key.Some? && q2.key == q.key && !BadRequestKey(q2.key) && q2.input != ""
    requires Submitted(s, q, now).1 == Accepted(id) || Submitted(s, q, now).1 == Replayed(id)
    requires Possible(Submitted(s, q, now).0, steps)
    requires var m := After(Submitted(s, q, now).0, steps);
      !m.closed && id in Submitted(m, q2, now2).0.runs
    ensures var m := After(Submitted(s, q, now).0, steps);
      var r := Submitted(m, q2, now2);
      && r.1 == (if q2.input == q.input && q2.kind == q.kind && q2.session == q.session
                 then Replayed(id) else Conflict)
      && r.0.recs == m.recs && r.0.queue == m.queue
  {
    hide Inv, Submitted, Possible, After;
    var f := Submitted(s, q, now).0;
    SubmitKeepsInv(s, q, now);
    SubmitBindsKey(s, q, now, id);
    var m := After(f, steps);
    AfterKeepsInv(f, steps);
    SubmittedGrows(m, q2, now2);
    EntryIsRegistered(f, q.key.value);
    AfterGrows(f, steps);
    assert id in m.runs;
    AfterKeepsEntry(f, steps, q.key.value);
    SubmitReply(m, q2, now2);
  }

  /** A rejected submission adds nothing: no run, no queue entry, no key. */
  lemma RejectionAddsNothing(s: State, q: Request, now: real)
    requires Inv(s) && WellFormed(s)
    requires !Submitted(s, q, now).1.Accepted?
    ensures var r := Submitted(s, q, now).0;
      && r.recs == s.recs && r.queue == s.queue && r.runs <= s.runs
      && (forall key :: key in r.index ==> key in s.index && r.index[key] == s.index[key])
  {
    hide Inv, Looked, CleanedUp, SameSetup;
    var t := StartWorkers(s);
    var c := CleanedUp(t, 1, now);
    EvictKeepsRecs(t, 1, now);
    CleanedUpIndex(t, now);
    LookedMiss(c, q, now);
  }

  lemma CleanedUpIndex(s: State, now: real)
    requires WellFormed(s)
    ensures forall key :: key in CleanedUp(s, 1, now).index ==>
      key in s.index && CleanedUp(s, 1, now).index[key] == s.index[key]
  {
    hide Victims;
  }

  lemma AdmitUnlessFullMiss(s: State, q: Request, now: real)
    requires WellFormed(s)
    ensures var r := AdmitUnlessFull(s, q, now);
      r.1.Accepted? || r.0 == s.(requests := r.0.requests)
  {
    hide Admitted;
  }

  lemma StillWellFormedIndex(s: State, index: map<string, Entry>)
    requires WellFormed(s)
    ensures WellFormed(s.(index := index))
  {
  }

  lemma LookedMiss(s: State, q: Request, now: real)
    requires WellFormed(s)
    ensures var r := Looked(s, q, now);
      r.1.Accepted? ||
      (&& r.0.recs == s.recs && r.0.queue == s.queue && r.0.runs == s.runs
       && (r.0.index == s.index || (q.key.Some? && r.0.index == s.index - {q.key.value})))
  {
    hide AdmitUnlessFull, WellFormed, SameSetup;
    StillWellFormedIndex(s, s.index - (if q.key.Some? then {q.key.value} else {}));
    AdmitUnlessFullMiss(s, q, now);
    if q.key.Some? {
      AdmitUnlessFullMiss(s.(index := s.index - {q.key.value}), q, now);
    }
  }
}
