/** The whole server: database, task cache, last-update map, hydrations under way, the
    timer's pass, and a clock.  A request handler is one step, since it holds the write
    guard of its task.  Filling the cache takes several steps, one for each database
    read; a pass of the timer takes one for its query and one for each task it goes on to
    restart, and other requests may come in between. */
module System {
  import opened Basics
  import opened Shares
  import opened Voting
  import opened Communication
  import opened Rounds
  import opened Store
  import opened Handlers
  import opened Refinement
  import opened Preservation
  import opened Invariant

  /** A cache entry being rebuilt: what has been read so far, each part as it was
      when it was read. */
  datatype Hydration = Hydration(
    tid: nat, columns: Option<TaskRow>, listing: Option<seq<Participant>>, groups: Option<Groups>,
    votes: Option<map<Bytes, ParticipantRow>>, active: Option<map<Bytes, nat>>)

  /** A pass of the timer: the time it reckons with, and the tasks still to restart. */
  datatype Pass = Pass(clock: nat, todo: seq<nat>)

  datatype Sys = Sys(
    devices: map<Bytes, Device>, rows: map<nat, TaskRow>, groups: Groups,
    cache: map<nat, Task>, lastUpdates: map<nat, nat>, hydrations: map<nat, Hydration>, timer: Pass, now: nat)

  datatype Step =
    | Register(newcomer: Device)
    | RequestGroup(tid: nat, name: string, requested: seq<Bytes>, listing: seq<Participant>, threshold: nat,
                   protocol: ProtocolType, keyType: KeyType)
    | RequestTask(tid: nat, gid: Bytes, decrypt: bool, name: string, data: Bytes, listing: seq<Participant>)
    | CastVote(tid: nat, device: Bytes, accept: bool, activations: map<Bytes, nat>, chosen: seq<Device>, helper: Helper)
    | Submit(tid: nat, device: Bytes, msgs: seq<ClientMessage>, attempt: nat, order: seq<nat>, helper: Helper)
    | Confirm(tid: nat, device: Bytes)
    | Query(clock: nat, ids: seq<nat>)
    | RestartNext(helper: Helper)
    | Ask(h: nat, tid: nat)
    | Read(h: nat, listing: seq<Participant>)
    | Install(h: nat)
    | Reboot
    | Wait(seconds: nat)

  // ----------------------------------------------------------------- the steps

  /** The known devices among the requested ones, each with as many shares as it
      was named times. */
  ghost predicate Counted(requested: seq<Bytes>, devices: map<Bytes, Device>, ps: seq<Participant>) {
    && DistinctIds(ps)
    && IdSet(ps) == (set id | id in requested && id in devices)
    && forall p | p in ps :: p.device.id in devices && p.device == devices[p.device.id]
                             && p.shares == multiset(requested)[p.device.id]
  }

  function SlotOf(s: Sys, tid: nat): Slot
    requires tid in s.rows && tid in s.cache
  {
    Slot(s.rows[tid], s.cache[tid])
  }

  /** `ids` is what the restart query returns, in any order. */
  ghost predicate QueryAnswer(s: Sys, ids: seq<nat>) {
    && (forall tid :: tid in ids <==> tid in s.rows && RestartCandidate(s.rows[tid]))
    && Distinct(ids)
  }

  predicate Distinct(ids: seq<nat>) {
    forall i, j | 0 <= i < j < |ids| :: ids[i] != ids[j]
  }

  /** More than 30 seconds lie between the last update on record and the given time. */
  predicate Stale(s: Sys, clock: nat, tid: nat) {
    tid in s.lastUpdates && clock - s.lastUpdates[tid] > 30
  }

  function StaleOf(s: Sys, clock: nat, ids: seq<nat>): (r: seq<nat>)
    ensures forall tid :: tid in r <==> tid in ids && Stale(s, clock, tid)
  {
    if ids == [] then [] else
      var n := |ids| - 1;
      assert ids == ids[..n] + [ids[n]];
      StaleOf(s, clock, ids[..n]) + if Stale(s, clock, ids[n]) then [ids[n]] else []
  }

  /** Candidates without a last update on record get one now. */
  function WithTimes(m: map<nat, nat>, ids: seq<nat>, now: nat): map<nat, nat> {
    m + map tid | tid in ids && tid !in m :: now
  }

  ghost predicate Enabled(s: Sys, step: Step) {
    match step
    case Register(newcomer) => newcomer.id !in s.devices
    case RequestGroup(tid, _, requested, ps, _, _, _) => tid !in s.rows && Counted(requested, s.devices, ps)
    case RequestTask(tid, gid, _, _, _, ps) => tid !in s.rows && (gid in s.groups ==> GroupListing(s.groups[gid], ps))
    case CastVote(tid, device, accept, activations, chosen, _) =>
      tid in s.rows && tid in s.cache && Draws(SlotOf(s, tid), device, accept, activations, s.now, chosen)
    case Submit(tid, device, msgs, _, order, _) =>
      tid in s.rows && tid in s.cache && Applies(s.cache[tid], device, msgs, order)
    case Confirm(tid, _) => tid in s.rows && tid in s.cache
    case Query(clock, ids) => s.timer.todo == [] && clock <= s.now && QueryAnswer(s, ids)
    case RestartNext(_) => s.timer.todo != [] && s.timer.todo[0] in s.rows && s.timer.todo[0] in s.cache
    case Ask(h, tid) => h !in s.hydrations && tid in s.rows && tid !in s.cache
    case Read(h, ps) => h in s.hydrations && s.hydrations[h].tid in s.rows
                        && Listing(s.rows[s.hydrations[h].tid].participants, ps)
    case Install(h) => h in s.hydrations && Complete(s.hydrations[h])
    case Reboot => true
    case Wait(_) => true
  }

  predicate Complete(h: Hydration) {
    h.columns.Some? && h.listing.Some? && h.groups.Some? && h.votes.Some? && h.active.Some?
  }

  /** The task table's own columns. */
  function Columns(row: TaskRow): TaskRow {
    row.(participants := map[], active := map[])
  }

  /** The next of the five reads. */
  function ReadMore(h: Hydration, row: TaskRow, groups: Groups, ps: seq<Participant>): Hydration {
    if h.columns.None? then h.(columns := Some(Columns(row)))
    else if h.listing.None? then h.(listing := Some(ps))
    else if h.groups.None? then h.(groups := Some(groups))
    else if h.votes.None? then h.(votes := Some(row.participants))
    else h.(active := Some(row.active))
  }

  /** The row put together from the reads. */
  function Snapshot(h: Hydration): TaskRow
    requires Complete(h)
  {
    h.columns.value.(participants := h.votes.value, active := h.active.value)
  }

  function Touched(s: Sys, tid: nat, found: bool): map<nat, nat> {
    if found then s.lastUpdates[tid := s.now] else s.lastUpdates
  }

  /** One task, and with it the groups and the last updates, put in place; all else stays. */
  ghost function Put(s: Sys, tid: nat, slot: Slot, groups: Groups, lastUpdates: map<nat, nat>): (r: Sys)
    ensures r.groups == groups && r.lastUpdates == lastUpdates
    ensures r.devices == s.devices && r.hydrations == s.hydrations && r.timer == s.timer && r.now == s.now
  {
    s.(rows := s.rows[tid := slot.row], cache := s.cache[tid := slot.task], groups := groups, lastUpdates := lastUpdates)
  }

  /** A rebuilt task is only put where no entry is; if rebuilding errs, nowhere. */
  ghost function Installed(s: Sys, h: nat): Sys
    requires h in s.hydrations && Complete(s.hydrations[h])
  {
    var hydration := s.hydrations[h];
    var task := Rebuild(hydration.groups.value, Snapshot(hydration), hydration.listing.value);
    var s' := s.(hydrations := s.hydrations - {h});
    if task.None? || hydration.tid in s.cache then s' else s'.(cache := s.cache[hydration.tid := task.value])
  }

  /** The first task to restart; one found not running ends the pass. */
  ghost function RestartedNext(s: Sys, helper: Helper): Sys
    requires s.timer.todo != [] && s.timer.todo[0] in s.rows && s.timer.todo[0] in s.cache
  {
    var tid := s.timer.todo[0];
    if !s.cache[tid].RunningPhase? then s.(timer := s.timer.(todo := []))
    else
      Put(s.(timer := s.timer.(todo := s.timer.todo[1..])), tid, RestartTask(SlotOf(s, tid), helper).0, s.groups,
          s.lastUpdates[tid := s.now])
  }

  ghost function Apply(env: Env, s: Sys, step: Step): Sys
    requires Enabled(s, step)
  {
    match step
    case Register(newcomer) => s.(devices := s.devices[newcomer.id := newcomer])
    case RequestGroup(tid, name, _, ps, threshold, protocol, keyType) =>
      var slot := NewGroupTask(name, ps, threshold, protocol, keyType);
      if slot.None? then s else Put(s, tid, slot.value, s.groups, s.lastUpdates)
    case RequestTask(tid, gid, decrypt, name, data, ps) =>
      var slot := if gid in s.groups then NewThresholdTask(gid, s.groups[gid], decrypt, name, data, ps) else None;
      if slot.None? then s else Put(s, tid, slot.value, s.groups, s.lastUpdates)
    case CastVote(tid, device, accept, _, chosen, helper) =>
      Put(s, tid, Decide(SlotOf(s, tid), device, accept, chosen, helper).0, s.groups,
          Touched(s, tid, s.cache[tid].VotingPhase?))
    case Submit(tid, device, msgs, attempt, order, helper) =>
      var (slot, groups, _) := UpdateTask(env, s.groups, SlotOf(s, tid), device, msgs, attempt, order, helper);
      Put(s, tid, slot, groups, Touched(s, tid, s.cache[tid].RunningPhase?))
    case Confirm(tid, device) => Put(s, tid, Acknowledge(SlotOf(s, tid), device).0, s.groups, s.lastUpdates)
    case Query(clock, ids) =>
      s.(lastUpdates := WithTimes(s.lastUpdates, ids, s.now), timer := Pass(clock, StaleOf(s, clock, ids)))
    case RestartNext(helper) => RestartedNext(s, helper)
    case Ask(h, tid) => s.(hydrations := s.hydrations[h := Hydration(tid, None, None, None, None, None)])
    case Read(h, ps) =>
      var hydration := s.hydrations[h];
      s.(hydrations := s.hydrations[h := ReadMore(hydration, s.rows[hydration.tid], s.groups, ps)])
    case Install(h) => Installed(s, h)
    case Reboot => s.(cache := map[], lastUpdates := map[], hydrations := map[], timer := Pass(0, []))
    case Wait(seconds) => s.(now := s.now + seconds)
  }

  /** How the step's request is answered. */
  ghost function ReplyTo(env: Env, s: Sys, step: Step): Reply
    requires Enabled(s, step)
  {
    match step
    case RequestGroup(_, name, _, ps, threshold, protocol, keyType) =>
      if NewGroupTask(name, ps, threshold, protocol, keyType).Some? then Done else Rejected
    case RequestTask(_, gid, decrypt, name, data, ps) =>
      if gid in s.groups && NewThresholdTask(gid, s.groups[gid], decrypt, name, data, ps).Some? then Done else Rejected
    case CastVote(tid, device, accept, _, chosen, helper) => Decide(SlotOf(s, tid), device, accept, chosen, helper).1
    case Submit(tid, device, msgs, attempt, order, helper) =>
      UpdateTask(env, s.groups, SlotOf(s, tid), device, msgs, attempt, order, helper).2
    case Confirm(tid, device) => Acknowledge(SlotOf(s, tid), device).1
    case RestartNext(helper) =>
      var tid := s.timer.todo[0];
      if s.cache[tid].RunningPhase? then RestartTask(SlotOf(s, tid), helper).1 else Rejected
    case Install(h) =>
      var hydration := s.hydrations[h];
      var groups, row, ps := hydration.groups.value, Snapshot(hydration), hydration.listing.value;
      if RebuildPanics(groups, row, ps) then Crashed else if Rebuild(groups, row, ps).Some? then Done else Rejected
    case _ => Done
  }

  // ------------------------------------------------------------------ the runs

  ghost predicate Empty(s: Sys) {
    s == Sys(map[], map[], map[], map[], map[], map[], Pass(0, []), s.now)
  }

  /** A run of the server from an empty database: `b[i]` is the state before
      `steps[i]`. */
  ghost predicate Behaviour(env: Env, b: seq<Sys>, steps: seq<Step>) {
    && |b| == |steps| + 1 && Empty(b[0])
    && forall i | 0 <= i < |steps| :: Enabled(b[i], steps[i]) && b[i + 1] == Apply(env, b[i], steps[i])
  }

  lemma BeginsEmpty(env: Env, b: seq<Sys>, steps: seq<Step>)
    requires Behaviour(env, b, steps)
    ensures |b| == |steps| + 1 && Empty(b[0]) && b[0].rows == map[] && b[0].cache == map[]
  {
    hide Apply, Enabled;
  }

  lemma StepAt(env: Env, b: seq<Sys>, steps: seq<Step>, n: nat)
    requires Behaviour(env, b, steps) && 0 < n < |b|
    ensures n - 1 < |steps| && Enabled(b[n - 1], steps[n - 1]) && b[n] == Apply(env, b[n - 1], steps[n - 1])
  {
    hide Apply, Enabled;
    assert b[n - 1 + 1] == Apply(env, b[n - 1], steps[n - 1]);
  }

  // ------------------------------------------------------------- the invariant

  /** While the task stays uncached, all that has been read of it is current. */
  ghost predicate Current(env: Env, s: Sys, h: Hydration)
    requires h.tid in s.rows
  {
    var row := s.rows[h.tid];
    && (h.columns.Some? ==> h.columns.value == Columns(row))
    && (h.listing.Some? ==> Listing(row.participants, h.listing.value))
    && (h.groups.Some? ==> Extends(h.groups.value, s.groups) && RowInv(env, h.groups.value, row))
    && (h.votes.Some? ==> h.votes.value == row.participants)
    && (h.active.Some? ==> h.active.value == row.active)
  }

  /** Whatever has been read can be put together: no count exceeds the shares listed. */
  ghost predicate Readable(row: TaskRow, h: Hydration) {
    && (h.listing.Some? ==> Listing(row.participants, h.listing.value))
    && (h.active.Some? ==> CountsWithin(row.(active := h.active.value)))
  }

  ghost predicate HydrationOk(env: Env, s: Sys, h: Hydration) {
    h.tid in s.rows && Readable(s.rows[h.tid], h) && (h.tid !in s.cache ==> Current(env, s, h))
  }

  /** The tasks of a pass were candidates when the query was made. */
  ghost predicate PassOk(s: Sys) {
    && Distinct(s.timer.todo) && s.timer.clock <= s.now
    && forall tid | tid in s.timer.todo :: tid in s.rows && Began(s.rows[tid])
  }

  ghost predicate Inv(env: Env, s: Sys) {
    && s.cache.Keys <= s.rows.Keys
    && (forall tid | tid in s.rows :: RowInv(env, s.groups, s.rows[tid]))
    && (forall tid | tid in s.cache :: TaskInv(env, s.groups, s.rows[tid], s.cache[tid]))
    && (forall id | id in s.groups :: GroupOk(s.groups[id]))
    && (forall h | h in s.hydrations :: HydrationOk(env, s, s.hydrations[h]))
    && (forall id | id in s.devices :: s.devices[id].id == id)
    && PassOk(s)
  }

  lemma InvParts(env: Env, s: Sys, tid: nat)
    requires Inv(env, s)
    ensures tid in s.rows ==> RowInv(env, s.groups, s.rows[tid])
    ensures tid in s.cache ==> tid in s.rows && TaskInv(env, s.groups, s.rows[tid], s.cache[tid])
  {
    hide RowInv, TaskInv, HydrationOk, GroupOk, PassOk;
  }

  lemma CacheHasRows(env: Env, s: Sys)
    requires Inv(env, s)
    ensures s.cache.Keys <= s.rows.Keys && PassOk(s)
  {
    hide RowInv, TaskInv, HydrationOk, GroupOk, PassOk;
  }

  lemma HydrationsOk(env: Env, s: Sys, h: nat)
    requires Inv(env, s) && h in s.hydrations
    ensures HydrationOk(env, s, s.hydrations[h])
  {
    hide RowInv, TaskInv, HydrationOk, GroupOk, PassOk;
  }

  lemma GroupsOk(env: Env, s: Sys, gid: Bytes)
    requires Inv(env, s) && gid in s.groups
    ensures GroupOk(s.groups[gid])
  {
    hide RowInv, TaskInv, HydrationOk, GroupOk, PassOk;
  }

  /** What no request takes back: who takes part, and that the task has begun. */
  ghost predicate Persists(row: TaskRow, row': TaskRow) {
    People(row'.participants) == People(row.participants) && (Began(row) ==> Began(row'))
  }

  lemma StandingPersists(row: TaskRow, row': TaskRow)
    requires SameStanding(row, row')
    ensures Persists(row, row')
  {
  }

  lemma ReadableStays(row: TaskRow, row': TaskRow, h: Hydration)
    requires Readable(row, h) && People(row'.participants) == People(row.participants)
    ensures Readable(row', h)
  {
    if h.listing.Some? { ListingByPeople(row.participants, row'.participants, h.listing.value); }
    hide Listing;
    if h.active.Some? {
      forall id | id in h.active.value
        ensures id in row'.participants && row'.participants[id].shares == row.participants[id].shares
      {
        assert id in People(row.participants);
        assert People(row'.participants)[id] == People(row.participants)[id];
      }
    }
  }

  /** Changing one cached task, and adding usable groups, keeps the invariant. */
  lemma PutKeeps(env: Env, s: Sys, tid: nat, slot: Slot, groups: Groups, lastUpdates: map<nat, nat>)
    requires Inv(env, s) && (tid in s.cache || tid !in s.rows) && TaskInv(env, groups, slot.row, slot.task)
    requires tid in s.rows ==> Persists(s.rows[tid], slot.row)
    requires Extends(s.groups, groups) && forall id | id in groups && id !in s.groups :: GroupOk(groups[id])
    ensures Inv(env, Put(s, tid, slot, groups, lastUpdates))
  {
    hide TaskInv, RowInv, GroupOk, Listing, Readable, Began, People, Columns, Distinct;
    var s' := Put(s, tid, slot, groups, lastUpdates);
    TaskInvRow(env, groups, slot.row, slot.task);
    forall t | t in s'.rows ensures RowInv(env, groups, s'.rows[t]) {
      if t != tid { RowInvExtends(env, s.groups, groups, s.rows[t]); }
    }
    forall t | t in s'.cache ensures TaskInv(env, groups, s'.rows[t], s'.cache[t]) {
      if t != tid { TaskInvExtends(env, s.groups, groups, s.rows[t], s.cache[t]); }
    }
    forall h | h in s'.hydrations ensures HydrationOk(env, s', s'.hydrations[h]) {
      PutKeepsHydration(env, s, tid, slot, groups, lastUpdates, h);
    }
  }

  lemma PutKeepsHydration(env: Env, s: Sys, tid: nat, slot: Slot, groups: Groups, lastUpdates: map<nat, nat>, h: nat)
    requires h in s.hydrations && HydrationOk(env, s, s.hydrations[h]) && (tid in s.cache || tid !in s.rows)
    requires (tid in s.rows ==> Persists(s.rows[tid], slot.row)) && Extends(s.groups, groups)
    ensures HydrationOk(env, Put(s, tid, slot, groups, lastUpdates), s.hydrations[h])
  {
    hide RowInv, Listing, Readable, Began, People, Columns, Extends;
    var hydration := s.hydrations[h];
    if hydration.tid == tid {
      ReadableStays(s.rows[tid], slot.row, hydration);
    } else if hydration.groups.Some? && hydration.tid !in s.cache {
      ExtendsFurther(hydration.groups.value, s.groups, groups);
    }
  }

  lemma ExtendsFurther(a: Groups, b: Groups, c: Groups)
    requires Extends(a, b) && Extends(b, c)
    ensures Extends(a, c)
  {
  }

  lemma NewTaskInv(env: Env, groups: Groups, slot: Slot)
    requires Matches(env, groups, slot.row, slot.task) && slot.task.VotingPhase? && slot.row.active == map[]
    ensures TaskInv(env, groups, slot.row, slot.task)
  {
    hide Matches, Unstarted, Sound, Launched;
    if !Sound(slot.row) {
      NewIsUnstarted(env, groups, slot);
    }
  }

  lemma RequestGroupKeeps(env: Env, s: Sys, tid: nat, name: string, requested: seq<Bytes>, ps: seq<Participant>,
                          threshold: nat, protocol: ProtocolType, keyType: KeyType)
    requires Inv(env, s) && tid !in s.rows && Counted(requested, s.devices, ps)
    requires NewGroupTask(name, ps, threshold, protocol, keyType).Some?
    ensures Inv(env, Put(s, tid, NewGroupTask(name, ps, threshold, protocol, keyType).value, s.groups, s.lastUpdates))
  {
    hide Inv, TaskInv, Matches, NameValid;
    CountedOnce(requested, s.devices, ps);
    var slot := NewGroupTask(name, ps, threshold, protocol, keyType).value;
    NewGroupTaskMatches(env, s.groups, name, ps, threshold, protocol, keyType);
    NewTaskInv(env, s.groups, slot);
    PutKeeps(env, s, tid, slot, s.groups, s.lastUpdates);
  }

  lemma CountedOnce(requested: seq<Bytes>, devices: map<Bytes, Device>, ps: seq<Participant>)
    requires Counted(requested, devices, ps)
    ensures DistinctIds(ps) && forall p | p in ps :: p.shares >= 1
  {
    forall p | p in ps ensures p.shares >= 1 {
      assert p.device.id in IdSet(ps);
    }
  }

  lemma RequestTaskKeeps(env: Env, s: Sys, tid: nat, gid: Bytes, decrypt: bool, name: string, data: Bytes,
                         ps: seq<Participant>)
    requires Inv(env, s) && tid !in s.rows && gid in s.groups && GroupListing(s.groups[gid], ps)
    requires NewThresholdTask(gid, s.groups[gid], decrypt, name, data, ps).Some?
    ensures var slot := NewThresholdTask(gid, s.groups[gid], decrypt, name, data, ps).value;
            Inv(env, Put(s, tid, slot, s.groups, s.lastUpdates))
  {
    hide Inv, TaskInv, Matches, GroupOk, GroupListing, NameValid;
    GroupsOk(env, s, gid);
    var slot := NewThresholdTask(gid, s.groups[gid], decrypt, name, data, ps).value;
    NewThresholdTaskMatches(env, s.groups, gid, decrypt, name, data, ps);
    NewTaskInv(env, s.groups, slot);
    PutKeeps(env, s, tid, slot, s.groups, s.lastUpdates);
  }

  lemma {:induction false} StaleDistinct(s: Sys, clock: nat, ids: seq<nat>)
    requires Distinct(ids)
    ensures Distinct(StaleOf(s, clock, ids))
  {
    if ids != [] {
      var n := |ids| - 1;
      StaleDistinct(s, clock, ids[..n]);
      var r := StaleOf(s, clock, ids[..n]);
      assert ids[n] !in r;
      assert Distinct(r + [ids[n]]);
    }
  }

  /** Times and the timer's list do not matter to anything else. */
  lemma PassKeeps(env: Env, s: Sys, lastUpdates: map<nat, nat>, timer: Pass)
    requires Inv(env, s) && PassOk(s.(timer := timer))
    ensures Inv(env, s.(lastUpdates := lastUpdates, timer := timer))
  {
    hide TaskInv, RowInv, GroupOk, Listing, Columns, Extends, Readable, Began, Distinct;
    var s' := s.(lastUpdates := lastUpdates, timer := timer);
    forall h | h in s'.hydrations ensures HydrationOk(env, s', s'.hydrations[h]) {
      assert HydrationOk(env, s, s.hydrations[h]);
    }
  }

  lemma CandidatesBegan(s: Sys)
    ensures forall tid | tid in s.rows && RestartCandidate(s.rows[tid]) :: Began(s.rows[tid])
  {
    hide Began;
  }

  lemma QueryKeeps(env: Env, s: Sys, step: Step)
    requires Inv(env, s) && Enabled(s, step) && step.Query?
    ensures Inv(env, Apply(env, s, step)) && ReplyTo(env, s, step) != Impossible
  {
    hide Inv, StaleOf, WithTimes, Distinct, Stale, Began;
    var todo := StaleOf(s, step.clock, step.ids);
    StaleDistinct(s, step.clock, step.ids);
    CandidatesBegan(s);
    PassKeeps(env, s, WithTimes(s.lastUpdates, step.ids, s.now), Pass(step.clock, todo));
  }

  lemma RestDistinct(ids: seq<nat>)
    requires Distinct(ids) && ids != []
    ensures Distinct(ids[1..]) && ids[0] !in ids[1..]
  {
  }

  /** A restart in a pass: a task found running is a candidate still. */
  lemma RestartNextKeeps(env: Env, s: Sys, step: Step)
    requires ValidEnv(env) && Inv(env, s) && Enabled(s, step) && step.RestartNext?
    ensures Inv(env, Apply(env, s, step)) && ReplyTo(env, s, step) != Impossible
  {
    hide Inv, TaskInv, RowInv, RestartTask, Distinct, Began;
    var todo, tid := s.timer.todo, s.timer.todo[0];
    CacheHasRows(env, s);
    InvParts(env, s, tid);
    RestDistinct(todo);
    var rest := s.timer.(todo := if s.cache[tid].RunningPhase? then todo[1..] else []);
    assert Distinct(rest.todo) by { if !s.cache[tid].RunningPhase? { NoneDistinct(); } }
    PassKeeps(env, s, s.lastUpdates, rest);
    if s.cache[tid].RunningPhase? {
      RunningIsOpen(env, s.groups, s.rows[tid], s.cache[tid]);
      RestartKeeps(env, s.groups, SlotOf(s, tid), step.helper);
      StandingPersists(s.rows[tid], RestartTask(SlotOf(s, tid), step.helper).0.row);
      PutKeeps(env, s.(timer := rest), tid, RestartTask(SlotOf(s, tid), step.helper).0, s.groups,
               s.lastUpdates[tid := s.now]);
    }
  }

  lemma NoneDistinct()
    ensures Distinct([])
  {
  }

  lemma RunningIsOpen(env: Env, groups: Groups, row: TaskRow, task: Task)
    requires TaskInv(env, groups, row, task) && task.RunningPhase?
    ensures row.result.None?
  {
    hide Tracked, Listing, RowBase, RunOk, ActiveMatches, AcceptedRow, ContextOf, Startable, DeviceClosed,
         CountsWithin, UnstartedRow, Waking;
  }

  lemma ReadIsCurrent(env: Env, s: Sys, h: Hydration, ps: seq<Participant>)
    requires HydrationOk(env, s, h) && Listing(s.rows[h.tid].participants, ps) && RowInv(env, s.groups, s.rows[h.tid])
    ensures HydrationOk(env, s, ReadMore(h, s.rows[h.tid], s.groups, ps))
  {
    hide RowInv, Listing, CountsWithin, Columns, Extends;
    var row := s.rows[h.tid];
    assert CountsWithin(row) by { RowCounts(env, s.groups, row); }
    assert row.(active := row.active) == row;
    ExtendsItself(s.groups);
  }

  lemma RowCounts(env: Env, groups: Groups, row: TaskRow)
    requires RowInv(env, groups, row)
    ensures CountsWithin(row)
  {
    hide CountsWithin, Tracked, UnstartedRow, Matches;
  }

  lemma ExtendsItself(groups: Groups)
    ensures Extends(groups, groups)
  {
  }

  lemma HydrationKeeps(env: Env, s: Sys, h: nat, hydration: Hydration)
    requires Inv(env, s) && HydrationOk(env, s, hydration)
    ensures Inv(env, s.(hydrations := s.hydrations[h := hydration]))
  {
    hide TaskInv, RowInv, GroupOk, Listing, Columns, Extends;
    var s' := s.(hydrations := s.hydrations[h := hydration]);
    forall k | k in s'.hydrations ensures HydrationOk(env, s', s'.hydrations[k]) {
      assert k != h ==> HydrationOk(env, s, s.hydrations[k]);
    }
  }

  /** A complete hydration of an uncached task holds exactly its current rows. */
  lemma SnapshotIsCurrent(env: Env, s: Sys, h: Hydration)
    requires HydrationOk(env, s, h) && h.tid !in s.cache && Complete(h)
    ensures Snapshot(h) == s.rows[h.tid] && Listing(s.rows[h.tid].participants, h.listing.value)
    ensures Extends(h.groups.value, s.groups) && RowInv(env, h.groups.value, s.rows[h.tid])
  {
    hide RowInv, Listing, Extends;
  }

  lemma DropKeeps(env: Env, s: Sys, h: nat)
    requires Inv(env, s)
    ensures Inv(env, s.(hydrations := s.hydrations - {h}))
  {
    hide TaskInv, RowInv, GroupOk, Listing, Columns, Extends;
    var s' := s.(hydrations := s.hydrations - {h});
    forall k | k in s'.hydrations ensures HydrationOk(env, s', s'.hydrations[k]) {
      assert HydrationOk(env, s, s.hydrations[k]);
    }
  }

  lemma FillKeeps(env: Env, s: Sys, tid: nat, task: Task)
    requires Inv(env, s) && tid in s.rows && TaskInv(env, s.groups, s.rows[tid], task)
    ensures Inv(env, s.(cache := s.cache[tid := task]))
  {
    hide TaskInv, RowInv, GroupOk, Listing, Columns, Extends;
    var s' := s.(cache := s.cache[tid := task]);
    forall k | k in s'.hydrations ensures HydrationOk(env, s', s'.hydrations[k]) {
      assert HydrationOk(env, s, s.hydrations[k]);
    }
  }

  lemma InstallKeeps(env: Env, s: Sys, h: nat)
    requires ValidEnv(env) && Inv(env, s) && h in s.hydrations && Complete(s.hydrations[h])
    ensures Inv(env, Installed(s, h))
  {
    hide Inv, TaskInv, RowInv, Listing, Rebuild, Extends, HydrationOk, Complete, Snapshot;
    var hydration := s.hydrations[h];
    HydrationsOk(env, s, h);
    DropKeeps(env, s, h);
    var tid := hydration.tid;
    var s' := Installed(s, h);
    if tid !in s.cache && tid in s'.cache {
      CompleteParts(env, s, hydration);
      SnapshotIsCurrent(env, s, hydration);
      RebuildKeeps(env, hydration.groups.value, s.rows[tid], hydration.listing.value);
      TaskInvExtends(env, hydration.groups.value, s.groups, s.rows[tid], s'.cache[tid]);
      FillKeeps(env, s.(hydrations := s.hydrations - {h}), tid, s'.cache[tid]);
    }
  }

  lemma CompleteParts(env: Env, s: Sys, h: Hydration)
    requires Complete(h) && HydrationOk(env, s, h)
    ensures h.groups.Some? && h.listing.Some? && h.tid in s.rows
  {
  }

  /** Every step keeps the invariant. */
  lemma StepKeeps(env: Env, s: Sys, step: Step)
    requires ValidEnv(env) && Inv(env, s) && Enabled(s, step)
    ensures Inv(env, Apply(env, s, step)) && ReplyTo(env, s, step) != Impossible
  {
    hide *;
    match step
    case RequestGroup(_, _, _, _, _, _, _) => GroupRequestKeeps(env, s, step);
    case RequestTask(_, _, _, _, _, _) => TaskRequestKeeps(env, s, step);
    case CastVote(_, _, _, _, _, _) => CastVoteKeeps(env, s, step);
    case Submit(_, _, _, _, _, _) => SubmitKeeps(env, s, step);
    case Confirm(_, _) => ConfirmKeeps(env, s, step);
    case Query(_, _) => QueryKeeps(env, s, step);
    case RestartNext(_) => RestartNextKeeps(env, s, step);
    case Read(_, _) => ReadKeeps(env, s, step);
    case Install(_) => InstallStepKeeps(env, s, step);
    case _ => SimpleKeeps(env, s, step);
  }

  lemma GroupRequestKeeps(env: Env, s: Sys, step: Step)
    requires Inv(env, s) && Enabled(s, step) && step.RequestGroup?
    ensures Inv(env, Apply(env, s, step)) && ReplyTo(env, s, step) != Impossible
  {
    hide Inv, NewGroupTask, Counted;
    if NewGroupTask(step.name, step.listing, step.threshold, step.protocol, step.keyType).Some? {
      RequestGroupKeeps(env, s, step.tid, step.name, step.requested, step.listing, step.threshold, step.protocol,
                        step.keyType);
    }
  }

  lemma TaskRequestKeeps(env: Env, s: Sys, step: Step)
    requires Inv(env, s) && Enabled(s, step) && step.RequestTask?
    ensures Inv(env, Apply(env, s, step)) && ReplyTo(env, s, step) != Impossible
  {
    hide Inv, NewThresholdTask, GroupListing;
    if step.gid in s.groups
       && NewThresholdTask(step.gid, s.groups[step.gid], step.decrypt, step.name, step.data, step.listing).Some? {
      RequestTaskKeeps(env, s, step.tid, step.gid, step.decrypt, step.name, step.data, step.listing);
    }
  }

  lemma ReadKeeps(env: Env, s: Sys, step: Step)
    requires Inv(env, s) && Enabled(s, step) && step.Read?
    ensures Inv(env, Apply(env, s, step)) && ReplyTo(env, s, step) != Impossible
  {
    hide Inv, HydrationOk, RowInv, ReadMore, Listing;
    var hydration := s.hydrations[step.h];
    HydrationsOk(env, s, step.h);
    InvParts(env, s, hydration.tid);
    ReadIsCurrent(env, s, hydration, step.listing);
    HydrationKeeps(env, s, step.h, ReadMore(hydration, s.rows[hydration.tid], s.groups, step.listing));
  }

  lemma InstallStepKeeps(env: Env, s: Sys, step: Step)
    requires ValidEnv(env) && Inv(env, s) && Enabled(s, step) && step.Install?
    ensures Inv(env, Apply(env, s, step)) && ReplyTo(env, s, step) != Impossible
  {
    hide Inv, Installed, Complete;
    InstallKeeps(env, s, step.h);
  }

  lemma DecideKeepsPeople(slot: Slot, id: Bytes, accept: bool, chosen: seq<Device>, helper: Helper)
    ensures People(Decide(slot, id, accept, chosen, helper).0.row.participants) == People(slot.row.participants)
  {
    hide Decided, Accepts, Rejects, CreateRun, Initialize, Tally, ActiveMap, TotalShares, IdSet, StoreDecision, People;
    StoreDecisionKeeps(slot.row, id, accept);
  }

  lemma DecidePersists(env: Env, groups: Groups, slot: Slot, id: Bytes, accept: bool, chosen: seq<Device>, helper: Helper)
    requires TaskInv(env, groups, slot.row, slot.task)
    ensures Persists(slot.row, Decide(slot, id, accept, chosen, helper).0.row)
  {
    hide Settle, IdSet, People, TaskInv, StoreDecision, WithVote;
    DecideKeepsPeople(slot, id, accept, chosen, helper);
    if slot.task.VotingPhase? {
      VotingNotBegun(env, groups, slot.row, slot.task);
    }
  }

  lemma VotingNotBegun(env: Env, groups: Groups, row: TaskRow, task: Task)
    requires TaskInv(env, groups, row, task) && task.VotingPhase?
    ensures !Began(row) && row.attempts == 0 && row.result.None?
  {
    hide Tracked, Listing, RowBase, Cast, SameVotes, ContextOf, CountsWithin, Accepts, Rejects, AcceptedRow, Sound;
  }

  lemma CastVoteKeeps(env: Env, s: Sys, step: Step)
    requires ValidEnv(env) && Inv(env, s) && Enabled(s, step) && step.CastVote?
    ensures Inv(env, Apply(env, s, step)) && ReplyTo(env, s, step) != Impossible
  {
    hide Inv, TaskInv, RowInv, Decide, Draws, Persists;
    InvParts(env, s, step.tid);
    var slot := SlotOf(s, step.tid);
    DecideKeeps(env, s.groups, slot, step.device, step.accept, step.activations, s.now, step.chosen, step.helper);
    DecidePersists(env, s.groups, slot, step.device, step.accept, step.chosen, step.helper);
    PutKeeps(env, s, step.tid, Decide(slot, step.device, step.accept, step.chosen, step.helper).0, s.groups,
             Touched(s, step.tid, s.cache[step.tid].VotingPhase?));
  }

  lemma SubmitKeeps(env: Env, s: Sys, step: Step)
    requires ValidEnv(env) && Inv(env, s) && Enabled(s, step) && step.Submit?
    ensures Inv(env, Apply(env, s, step)) && ReplyTo(env, s, step) != Impossible
  {
    hide Inv, TaskInv, RowInv, UpdateTask, Applies, GroupOk, SameStanding, Persists;
    InvParts(env, s, step.tid);
    UpdateKeeps(env, s.groups, SlotOf(s, step.tid), step.device, step.msgs, step.attempt, step.order, step.helper);
    var (slot, groups, _) := UpdateTask(env, s.groups, SlotOf(s, step.tid), step.device, step.msgs, step.attempt,
                                        step.order, step.helper);
    StandingPersists(s.rows[step.tid], slot.row);
    PutKeeps(env, s, step.tid, slot, groups, Touched(s, step.tid, s.cache[step.tid].RunningPhase?));
  }

  lemma AckPersists(slot: Slot, id: Bytes)
    ensures Persists(slot.row, Acknowledge(slot, id).0.row)
  {
    hide StoreAck, People;
    StoreAckKeeps(slot.row, id);
  }

  lemma ConfirmKeeps(env: Env, s: Sys, step: Step)
    requires Inv(env, s) && Enabled(s, step) && step.Confirm?
    ensures Inv(env, Apply(env, s, step)) && ReplyTo(env, s, step) != Impossible
  {
    hide Inv, TaskInv, RowInv, Acknowledge, Persists;
    InvParts(env, s, step.tid);
    AcknowledgeKeeps(env, s.groups, SlotOf(s, step.tid), step.device);
    AckPersists(SlotOf(s, step.tid), step.device);
    PutKeeps(env, s, step.tid, Acknowledge(SlotOf(s, step.tid), step.device).0, s.groups, s.lastUpdates);
  }

  lemma SimpleKeeps(env: Env, s: Sys, step: Step)
    requires Inv(env, s) && Enabled(s, step) && (step.Register? || step.Ask? || step.Reboot? || step.Wait?)
    ensures Inv(env, Apply(env, s, step)) && ReplyTo(env, s, step) != Impossible
  {
    hide Inv, HydrationOk;
    match step
    case Register(newcomer) =>
      DevicesById(env, s);
      DevicesKeep(env, s, s.devices[newcomer.id := newcomer], s.now);
    case Ask(h, tid) =>
      AskedIsOk(env, s, tid);
      HydrationKeeps(env, s, h, Hydration(tid, None, None, None, None, None));
    case Reboot => EmptiedKeeps(env, s);
    case Wait(seconds) =>
      DevicesById(env, s);
      DevicesKeep(env, s, s.devices, s.now + seconds);
  }

  lemma DevicesById(env: Env, s: Sys)
    requires Inv(env, s)
    ensures forall id | id in s.devices :: s.devices[id].id == id
  {
    hide RowInv, TaskInv, HydrationOk, GroupOk, PassOk;
  }

  lemma AskedIsOk(env: Env, s: Sys, tid: nat)
    requires tid in s.rows
    ensures HydrationOk(env, s, Hydration(tid, None, None, None, None, None))
  {
  }

  lemma DevicesKeep(env: Env, s: Sys, devices: map<Bytes, Device>, now: nat)
    requires Inv(env, s) && s.now <= now && forall id | id in devices :: devices[id].id == id
    ensures Inv(env, s.(devices := devices, now := now))
  {
    hide TaskInv, RowInv, GroupOk, Listing, Columns, Extends, Readable, Began, Distinct;
    var s' := s.(devices := devices, now := now);
    forall h | h in s'.hydrations ensures HydrationOk(env, s', s'.hydrations[h]) {
      assert HydrationOk(env, s, s.hydrations[h]);
    }
  }

  lemma EmptiedKeeps(env: Env, s: Sys)
    requires Inv(env, s)
    ensures Inv(env, s.(cache := map[], lastUpdates := map[], hydrations := map[], timer := Pass(0, [])))
  {
    hide TaskInv, RowInv, GroupOk, HydrationOk, Began;
  }

  /** The invariant holds in every state of every run, and no arm marked
      unreachable is ever reached. */
  lemma {:induction false} RunsKeepInv(env: Env, b: seq<Sys>, steps: seq<Step>, n: nat)
    requires ValidEnv(env) && Behaviour(env, b, steps) && n < |b|
    ensures Inv(env, b[n])
    ensures n < |steps| ==> Enabled(b[n], steps[n]) && ReplyTo(env, b[n], steps[n]) != Impossible
  {
    hide *;
    BeginsEmpty(env, b, steps);
    if n == 0 {
      EmptyInv(env, b[0]);
    } else {
      RunsKeepInv(env, b, steps, n - 1);
      StepAt(env, b, steps, n);
      StepKeeps(env, b[n - 1], steps[n - 1]);
    }
    if n < |steps| {
      StepAt(env, b, steps, n + 1);
      StepKeeps(env, b[n], steps[n]);
    }
  }

  lemma EmptyInv(env: Env, s: Sys)
    requires Empty(s)
    ensures Inv(env, s)
  {
  }
}
