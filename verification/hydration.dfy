/** Filling the cache while requests go on: no torn and no outdated entry. */
module HydrationRuns {
  import opened Shares
  import opened Rounds
  import opened Store
  import opened Handlers
  import opened Refinement
  import opened Preservation
  import opened Invariant
  import opened System
  import opened Runs

  /** Filling the cache changes no row, no group and no entry already there. */
  lemma HydrationReplacesNothing(env: Env, s: Sys, step: Step)
    requires Enabled(s, step) && (step.Ask? || step.Read? || step.Install?)
    ensures var s' := Apply(env, s, step);
            && s'.rows == s.rows && s'.groups == s.groups && s'.lastUpdates == s.lastUpdates
            && forall tid | tid in s.cache :: tid in s'.cache && s'.cache[tid] == s.cache[tid]
  {
    hide Decide, UpdateTask, Acknowledge, RestartTask, Rebuild, NewGroupTask, NewThresholdTask, Draws, Applies,
         Counted, Listing, GroupListing, ReadMore, Snapshot, Put, StaleOf, WithTimes, QueryAnswer, Complete,
         RestartedNext;
  }

  /** One step of a run during which a hydration goes on. */
  lemma HydrationGoesOn(env: Env, s: Sys, step: Step, h: nat)
    requires Enabled(s, step) && h in Apply(env, s, step).hydrations
    ensures !step.Reboot?
    ensures h in s.hydrations ==> Apply(env, s, step).hydrations[h].tid == s.hydrations[h].tid
    ensures h !in s.hydrations ==> step.Ask? && step.h == h && Apply(env, s, step).hydrations[h].tid == step.tid
  {
    hide Put, Decide, UpdateTask, Acknowledge, RestartTask, Rebuild, NewGroupTask, NewThresholdTask, Draws, Applies,
         Counted, Listing, GroupListing, StaleOf, WithTimes, QueryAnswer, Snapshot, Complete, Columns, Touched;
  }

  /** The states from the asking to the installing of hydration `h`. */
  ghost predicate Underway(b: seq<Sys>, k: nat, n: nat, h: nat) {
    k < n < |b| && forall m | k < m <= n :: h in b[m].hydrations
  }

  lemma AskIsNew(s: Sys, step: Step)
    requires Enabled(s, step) && step.Ask?
    ensures step.h !in s.hydrations && step.tid in s.rows && step.tid !in s.cache
  {
  }

  lemma {:induction false} SameTarget(env: Env, b: seq<Sys>, steps: seq<Step>, k: nat, n: nat, h: nat)
    requires Behaviour(env, b, steps) && Underway(b, k, n, h) && k < |steps| && steps[k].Ask? && steps[k].h == h
    ensures b[n].hydrations[h].tid == steps[k].tid
    decreases n
  {
    hide Behaviour, Apply, Enabled;
    StepAt(env, b, steps, n);
    StepAt(env, b, steps, k + 1);
    AskIsNew(b[k], steps[k]);
    if n > k + 1 {
      assert Underway(b, k, n - 1, h);
      SameTarget(env, b, steps, k, n - 1, h);
    }
    assert h in b[n].hydrations;
    HydrationGoesOn(env, b[n - 1], steps[n - 1], h);
  }

  /** A task still uncached at the end was uncached all the time, and its rows did
      not change. */
  lemma {:induction false} UncachedIsUntouched(env: Env, b: seq<Sys>, steps: seq<Step>, m: nat, n: nat, h: nat, tid: nat)
    requires ValidEnv(env) && Behaviour(env, b, steps) && m <= n < |b| && (forall j | m < j <= n :: h in b[j].hydrations)
    requires tid in b[m].rows && tid !in b[n].cache
    ensures tid in b[n].rows && tid !in b[m].cache && b[n].rows[tid] == b[m].rows[tid]
    decreases n - m
  {
    hide *;
    if m < n {
      RunsKeepInv(env, b, steps, m);
      StepAt(env, b, steps, m + 1);
      assert b[m].cache.Keys <= b[m].rows.Keys by { CacheHasRows(env, b[m]); }
      assert h in b[m + 1].hydrations;
      HydrationGoesOn(env, b[m], steps[m], h);
      if Touches(b[m], steps[m], tid) {
        TouchedStep(env, b[m], steps[m], tid);
        EntriesStay(env, b[m], steps[m], tid);
        UncachedIsUntouched(env, b, steps, m + 1, n, h, tid);
        assert false;
      }
      Untouched(env, b[m], steps[m], tid);
      AloneParts(b[m], steps[m], b[m + 1], tid);
      UncachedIsUntouched(env, b, steps, m + 1, n, h, tid);
    }
  }

  /** Only a restart of the server empties a cache entry. */
  lemma EntriesStay(env: Env, s: Sys, step: Step, tid: nat)
    requires Enabled(s, step) && tid in s.cache && s.cache.Keys <= s.rows.Keys && !step.Reboot?
    ensures tid in Apply(env, s, step).cache && tid in Apply(env, s, step).rows
  {
    hide *;
    if Touches(s, step, tid) {
      TouchedStep(env, s, step, tid);
    } else {
      Untouched(env, s, step, tid);
      AloneParts(s, step, Apply(env, s, step), tid);
    }
  }

  lemma SuccessIsFinished(env: Env, groups: Groups, row: TaskRow, task: Task)
    requires Matches(env, groups, row, task)
    ensures row.result.Some? && row.result.value.Success? && row.kind.GroupTask? ==> row.result.value.data in groups
  {
    hide Listing, RowBase, SameVotes, RunOk, ActiveMatches, AcceptedRow, Startable, ContextOf, StoredAcks, GroupOf;
  }

  /** Groups added later do not change what is rebuilt. */
  lemma RebuildExtends(env: Env, groups: Groups, groups': Groups, row: TaskRow, ps: seq<Participant>)
    requires RowInv(env, groups, row) && Extends(groups, groups')
    ensures Rebuild(groups', row, ps) == Rebuild(groups, row, ps)
  {
    hide RebuildOpen, RebuildFailed, RowKeys, Tracked, VotingMatches, RunningMatches, GroupOk, StoredAcks, StoredVotes,
         Listing, CountsWithin, Sound, Launched, RowTotal, AcceptedRow, People;
    if Tracked(row) {
      var task :| Matches(env, groups, row, task);
      SuccessIsFinished(env, groups, row, task);
    }
  }

  /** A hydration that finds its place vacant installs exactly what the database
      says now: the task was left alone from before the first read on. */
  lemma InstallIsExact(env: Env, b: seq<Sys>, steps: seq<Step>, k: nat, n: nat, h: nat, tid: nat)
    requires ValidEnv(env) && Behaviour(env, b, steps) && Underway(b, k, n, h) && n < |steps|
    requires steps[k] == Ask(h, tid) && steps[n] == Install(h) && tid !in b[n].cache
    ensures tid in b[n].rows
    ensures forall m | k <= m <= n :: tid in b[m].rows && tid !in b[m].cache && b[m].rows[tid] == b[n].rows[tid]
    ensures exists ps :: && Listing(b[n].rows[tid].participants, ps)
                         && var task := Rebuild(b[n].groups, b[n].rows[tid], ps);
                            b[n + 1].cache == if task.Some? then b[n].cache[tid := task.value] else b[n].cache
  {
    hide ReplyTo, Inv, Behaviour, Apply, Enabled, Listing, Rebuild;
    BeginsEmpty(env, b, steps);
    StepAt(env, b, steps, k + 1);
    StepAt(env, b, steps, n + 1);
    AskIsNew(b[k], steps[k]);
    SameTarget(env, b, steps, k, n, h);
    UncachedIsUntouched(env, b, steps, k, n, h, tid);
    forall m | k <= m <= n ensures tid in b[m].rows && tid !in b[m].cache && b[m].rows[tid] == b[n].rows[tid] {
      RowsStay(env, b, steps, k, m, tid);
      UncachedIsUntouched(env, b, steps, m, n, h, tid);
    }
    RunsKeepInv(env, b, steps, n);
    InstalledIsCurrent(env, b[n], h, tid);
  }

  lemma InstalledIsCurrent(env: Env, s: Sys, h: nat, tid: nat)
    requires Inv(env, s) && Enabled(s, Install(h)) && h in s.hydrations && s.hydrations[h].tid == tid && tid !in s.cache
    ensures tid in s.rows
    ensures exists ps :: && Listing(s.rows[tid].participants, ps)
                         && var task := Rebuild(s.groups, s.rows[tid], ps);
                            Apply(env, s, Install(h)).cache
                            == if task.Some? then s.cache[tid := task.value] else s.cache
  {
    hide Inv, Listing, Rebuild, RowInv, HydrationOk;
    var hydration := s.hydrations[h];
    HydrationsOk(env, s, h);
    CompleteParts(env, s, hydration);
    SnapshotIsCurrent(env, s, hydration);
    RebuildExtends(env, hydration.groups.value, s.groups, s.rows[tid], hydration.listing.value);
  }

  /** Tasks are never deleted. */
  lemma {:induction false} RowsStay(env: Env, b: seq<Sys>, steps: seq<Step>, i: nat, j: nat, tid: nat)
    requires ValidEnv(env) && Behaviour(env, b, steps) && i <= j < |b| && tid in b[i].rows
    ensures tid in b[j].rows
    decreases j
  {
    hide *;
    if i < j {
      RowsStay(env, b, steps, i, j - 1, tid);
      StepAt(env, b, steps, j);
      RunsKeepInv(env, b, steps, j - 1);
      CacheHasRows(env, b[j - 1]);
      RowStays(env, b[j - 1], steps[j - 1], tid);
    }
  }

  lemma RowStays(env: Env, s: Sys, step: Step, tid: nat)
    requires Enabled(s, step) && tid in s.rows && s.cache.Keys <= s.rows.Keys
    ensures tid in Apply(env, s, step).rows
  {
    hide *;
    if Touches(s, step, tid) {
      TouchedStep(env, s, step, tid);
    } else {
      Untouched(env, s, step, tid);
      AloneParts(s, step, Apply(env, s, step), tid);
    }
  }
}
