/** What a pass of the timer amounts to if nothing comes in between, and calls in
    sequence as parts of a run. */
module Passes {
  import opened Basics
  import opened Shares
  import opened Rounds
  import opened Store
  import opened Handlers
  import opened Refinement
  import opened Invariant
  import opened System

  // ------------------------------------------------------------------ steps in sequence

  /** The steps can be taken one after the other, and end in `s'`. */
  ghost predicate Leads(env: Env, s: Sys, steps: seq<Step>, s': Sys)
    decreases |steps|
  {
    if steps == [] then s' == s else
      var n := |steps| - 1;
      exists mid :: Leads(env, s, steps[..n], mid) && Enabled(mid, steps[n]) && s' == Apply(env, mid, steps[n])
  }

  lemma LeadsNowhere(env: Env, s: Sys)
    ensures Leads(env, s, [], s)
  {
  }

  lemma LeadsOn(env: Env, s: Sys, steps: seq<Step>, s': Sys, step: Step)
    requires Leads(env, s, steps, s') && Enabled(s', step)
    ensures Leads(env, s, steps + [step], Apply(env, s', step))
  {
    hide Apply, Enabled;
    assert (steps + [step])[..|steps|] == steps;
  }

  lemma StepTaken(env: Env, s: Sys, steps: seq<Step>, s': Sys, step: Step)
    requires ValidEnv(env) && Inv(env, s') && Leads(env, s, steps, s') && Enabled(s', step)
    ensures Leads(env, s, steps + [step], Apply(env, s', step)) && Inv(env, Apply(env, s', step))
  {
    hide ReplyTo, Inv, Apply, Enabled, Leads;
    LeadsOn(env, s, steps, s', step);
    StepKeeps(env, s', step);
  }

  lemma {:induction false} LeadsJoin(env: Env, s: Sys, first: seq<Step>, mid: Sys, second: seq<Step>, s': Sys)
    requires Leads(env, s, first, mid) && Leads(env, mid, second, s')
    ensures Leads(env, s, first + second, s')
    decreases |second|
  {
    hide Apply, Enabled;
    if second == [] {
      assert first + second == first;
    } else {
      var n := |second| - 1;
      var between :|
        Leads(env, mid, second[..n], between) && Enabled(between, second[n]) && s' == Apply(env, between, second[n]);
      LeadsJoin(env, s, first, mid, second[..n], between);
      LeadsOn(env, s, first + second[..n], between, second[n]);
      assert first + second[..n] + [second[n]] == first + second;
    }
  }

  /** Such a sequence prolongs a run, so that whatever holds of all runs holds at its end. */
  lemma {:induction false} LeadsProlongs(env: Env, b: seq<Sys>, steps: seq<Step>, more: seq<Step>, s': Sys)
    returns (c: seq<Sys>)
    requires Behaviour(env, b, steps) && Leads(env, b[|steps|], more, s')
    ensures Behaviour(env, c, steps + more) && b <= c && c[|c| - 1] == s'
    decreases |more|
  {
    hide Apply, Enabled, Empty;
    if more == [] {
      c := b;
      assert steps + more == steps;
    } else {
      var n := |more| - 1;
      var mid :| Leads(env, b[|steps|], more[..n], mid) && Enabled(mid, more[n]) && s' == Apply(env, mid, more[n]);
      var d := LeadsProlongs(env, b, steps, more[..n], mid);
      c := d + [s'];
      assert steps + more == steps + more[..n] + [more[n]];
    }
  }

  // -------------------------------------------------------------------- the query's loop

  lemma OneMoreTime(m: map<nat, nat>, ids: seq<nat>, k: nat, now: nat)
    requires k < |ids|
    ensures var noted, tid := WithTimes(m, ids[..k], now), ids[k];
            && (tid in noted && tid !in m ==> noted[tid] == now)
            && (tid in m ==> tid in noted && noted[tid] == m[tid])
            && WithTimes(m, ids[..k + 1], now) == noted[tid := if tid in noted then noted[tid] else now]
  {
    assert ids[..k + 1] == ids[..k] + [ids[k]];
  }

  lemma OneMoreStale(s: Sys, clock: nat, ids: seq<nat>, k: nat)
    requires k < |ids|
    ensures StaleOf(s, clock, ids[..k + 1])
            == StaleOf(s, clock, ids[..k]) + if Stale(s, clock, ids[k]) then [ids[k]] else []
  {
    hide Stale;
    assert ids[..k + 1][..k] == ids[..k];
  }

  lemma PickOne(s: Sys, clock: nat, ids: seq<nat>, k: nat)
    requires k < |ids| && clock <= s.now
    ensures var tid, noted := ids[k], WithTimes(s.lastUpdates, ids[..k], s.now);
            var last := if tid in noted then noted[tid] else s.now;
            && WithTimes(s.lastUpdates, ids[..k + 1], s.now) == noted[tid := last]
            && StaleOf(s, clock, ids[..k + 1]) == StaleOf(s, clock, ids[..k]) + if clock - last > 30 then [tid] else []
  {
    hide StaleOf, WithTimes;
    OneMoreTime(s.lastUpdates, ids, k, s.now);
    OneMoreStale(s, clock, ids, k);
  }

  lemma PassBegins(env: Env, s: Sys, clock: nat, ids: seq<nat>)
    requires Enabled(s, Query(clock, ids))
    ensures var s' := Apply(env, s, Query(clock, ids));
            && s' == s.(lastUpdates := s'.lastUpdates, timer := s'.timer)
            && s'.timer == Pass(clock, StaleOf(s, clock, ids))
  {
    hide StaleOf, WithTimes, QueryAnswer;
  }

  /** The tasks of a pass are different candidates. */
  lemma PassCandidate(s: Sys, clock: nat, ids: seq<nat>, k: nat)
    requires Enabled(s, Query(clock, ids)) && k < |StaleOf(s, clock, ids)|
    ensures var stale := StaleOf(s, clock, ids);
            stale[k] !in stale[..k] && stale[k] in s.rows && RestartCandidate(s.rows[stale[k]])
  {
    hide StaleOf, RestartCandidate;
    StaleDistinct(s, clock, ids);
    assert StaleOf(s, clock, ids)[k] in StaleOf(s, clock, ids);
  }

  // ------------------------------------------------------------------ one task of a pass

  /** The next attempt is on record: it begins with round 1, or, for a PDF task, has
      already failed. */
  predicate AttemptBegun(row: TaskRow, row': TaskRow) {
    || row' == row.(attempts := row.attempts + 1, round := 1)
    || (&& row.kind.PdfTask? && row'.result.Some? && row'.result.value.Failure?
        && row' == row.(attempts := row.attempts + 1, result := row'.result))
  }

  /** A candidate in the cache is running, and its restart goes through. */
  lemma RestartBegins(env: Env, groups: Groups, slot: Slot, helper: Helper)
    requires ValidEnv(env) && TaskInv(env, groups, slot.row, slot.task) && RestartCandidate(slot.row)
    ensures slot.task.RunningPhase? && RestartTask(slot, helper).1 == Done
    ensures AttemptBegun(slot.row, RestartTask(slot, helper).0.row)
  {
    hide TaskInv, RestartCandidate, Restart, RunOk, Tracked;
    CandidateIsTracked(env, groups, slot.row, slot.task);
    CandidateIsOk(env, groups, slot.row, slot.task);
    RestartOk(env, slot.task.run, helper);
    RestartFails(slot.task.run, helper);
  }

  lemma CandidateIsOk(env: Env, groups: Groups, row: TaskRow, task: Task)
    requires TaskInv(env, groups, row, task) && Tracked(row) && task.RunningPhase?
    ensures RunOk(env, task.run) && row.kind == task.run.info.kind
  {
    hide Tracked, Listing, RowBase, RunOk, ActiveMatches, AcceptedRow, ContextOf, RoundMatches, Startable,
         CountsWithin;
  }

  lemma RestartFails(run: Run, helper: Helper)
    ensures Rounds.Restart(run, helper).1.Failed? ==> run.info.kind.PdfTask?
  {
    hide Started;
  }

  lemma QuietRestart(env: Env, s: Sys, helper: Helper)
    requires ValidEnv(env) && Inv(env, s) && s.timer.todo != [] && s.timer.todo[0] in s.cache && s.timer.todo[0] in s.rows
    requires RestartCandidate(s.rows[s.timer.todo[0]])
    ensures Enabled(s, RestartNext(helper))
    ensures var tid, s' := s.timer.todo[0], Apply(env, s, RestartNext(helper));
            && ReplyTo(env, s, RestartNext(helper)) == Done
            && s'.timer == s.timer.(todo := s.timer.todo[1..]) && s'.now == s.now && s'.hydrations == s.hydrations
            && s'.lastUpdates == s.lastUpdates[tid := s.now] && s'.groups == s.groups
            && tid in s'.rows && s'.rows == s.rows[tid := s'.rows[tid]] && AttemptBegun(s.rows[tid], s'.rows[tid])
  {
    hide Inv, TaskInv, RowInv, RestartTask, AttemptBegun, RestartCandidate;
    InvParts(env, s, s.timer.todo[0]);
    RestartBegins(env, s.groups, SlotOf(s, s.timer.todo[0]), helper);
  }

  // ------------------------------------------------------------------ filling the cache

  /** A hydration after `k` of its reads, all of the same rows. */
  function ReadUpTo(tid: nat, row: TaskRow, groups: Groups, ps: seq<Participant>, k: nat): Hydration {
    if k == 0 then Hydration(tid, None, None, None, None, None)
    else ReadMore(ReadUpTo(tid, row, groups, ps, k - 1), row, groups, ps)
  }

  lemma FiveReads(tid: nat, row: TaskRow, groups: Groups, ps: seq<Participant>)
    ensures var h := ReadUpTo(tid, row, groups, ps, 5);
            && Complete(h) && h.tid == tid && Snapshot(h) == row
            && h.listing == Some(ps) && h.groups == Some(groups)
  {
    var none := ReadUpTo(tid, row, groups, ps, 0);
    var h1, h2, h3, h4 := ReadUpTo(tid, row, groups, ps, 1), ReadUpTo(tid, row, groups, ps, 2),
                          ReadUpTo(tid, row, groups, ps, 3), ReadUpTo(tid, row, groups, ps, 4);
    assert h1 == ReadMore(none, row, groups, ps) && h2 == ReadMore(h1, row, groups, ps);
    assert h3 == ReadMore(h2, row, groups, ps) && h4 == ReadMore(h3, row, groups, ps);
  }

  lemma {:induction false} OneMoreRead(tid: nat, row: TaskRow, groups: Groups, ps: seq<Participant>, k: nat)
    ensures ReadUpTo(tid, row, groups, ps, k).tid == tid
    ensures ReadUpTo(tid, row, groups, ps, k + 1) == ReadMore(ReadUpTo(tid, row, groups, ps, k), row, groups, ps)
  {
    if k > 0 { OneMoreRead(tid, row, groups, ps, k - 1); }
  }

  lemma AskShape(env: Env, s: Sys, h: nat, tid: nat, row: TaskRow, ps: seq<Participant>)
    requires h !in s.hydrations && tid in s.rows && tid !in s.cache
    ensures Enabled(s, Ask(h, tid))
    ensures Apply(env, s, Ask(h, tid)) == s.(hydrations := s.hydrations[h := ReadUpTo(tid, row, s.groups, ps, 0)])
  {
  }

  lemma ReadShape(env: Env, s: Sys, h: nat, tid: nat, ps: seq<Participant>, k: nat)
    requires tid in s.rows && Listing(s.rows[tid].participants, ps)
    requires h in s.hydrations && s.hydrations[h] == ReadUpTo(tid, s.rows[tid], s.groups, ps, k)
    ensures Enabled(s, Read(h, ps))
    ensures Apply(env, s, Read(h, ps))
            == s.(hydrations := s.hydrations[h := ReadUpTo(tid, s.rows[tid], s.groups, ps, k + 1)])
  {
    hide ReadUpTo, ReadMore, Listing;
    OneMoreRead(tid, s.rows[tid], s.groups, ps, k);
  }

  lemma InstallShape(env: Env, s: Sys, h: nat, tid: nat, ps: seq<Participant>)
    requires tid in s.rows && tid !in s.cache
    requires h in s.hydrations && s.hydrations[h] == ReadUpTo(tid, s.rows[tid], s.groups, ps, 5)
    ensures Enabled(s, Install(h))
    ensures var s', task := Apply(env, s, Install(h)), Rebuild(s.groups, s.rows[tid], ps);
            && s' == s.(hydrations := s.hydrations - {h}, cache := s'.cache)
            && s'.cache == if task.Some? then s.cache[tid := task.value] else s.cache
  {
    hide ReadUpTo, Rebuild, Complete, Snapshot;
    FiveReads(tid, s.rows[tid], s.groups, ps);
  }

  /** A restart candidate can always be rebuilt. */
  lemma CandidateIsRebuilt(env: Env, s: Sys, tid: nat, ps: seq<Participant>)
    requires ValidEnv(env) && Inv(env, s) && tid in s.rows && RestartCandidate(s.rows[tid])
    requires Listing(s.rows[tid].participants, ps)
    ensures Rebuild(s.groups, s.rows[tid], ps).Some?
  {
    hide Inv, Listing, Rebuild, RestartCandidate, Tracked, CountsWithin, UnstartedRow, Matches, TaskInv;
    InvParts(env, s, tid);
    if !Tracked(s.rows[tid]) {
      UnstartedIsNoCandidate(s.groups, s.rows[tid]);
      assert false;
    } else {
      RebuildKeeps(env, s.groups, s.rows[tid], ps);
    }
  }
}
