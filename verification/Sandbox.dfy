/**
  Container tracking and destruction of one Docker sandbox
  (internal/sandbox/docker.go). Audit writes, git pointer repair and the
  commands themselves only matter through whether they succeed. What each
  operation answers is told by the calls it made and the answers it got.
*/
module Sandbox {
  import opened Wrappers
  import opened Daemon

  /** Tracked containers: 0 stands for an id not learned yet. */
  type Tracking = map<nat, nat>

  /** Whatever may still land or still exists is tracked; an id not learned is marked uncertain. */
  ghost predicate Tracked(w: World, containers: Tracking, uncertain: set<nat>) {
    && (forall n :: n in w.inflight ==> n in containers && containers[n] == 0)
    && (forall id :: id in w.live && w.live[id].owned ==>
          w.live[id].name in containers && (containers[w.live[id].name] == 0 || containers[w.live[id].name] == id))
    && (forall n :: n in containers && containers[n] == 0 ==> n in uncertain)
    && (forall n :: n in containers ==> containers[n] < w.nextId)
  }

  lemma TrackedStays(w: World, v: World, containers: Tracking, uncertain: set<nat>)
    requires Tracked(w, containers, uncertain) && Evolves(w, v)
    ensures Tracked(v, containers, uncertain) && Sound(v)
  {
  }

  lemma EvolvesReflexive(w: World)
    requires Sound(w)
    ensures Evolves(w, w)
  {
  }

  /** A stranger under a name settles that name's create as failed. */
  lemma StrangerIsGone(w: World, v: World, id: nat)
    requires Sound(w) && Evolves(w, v) && id in w.live && !w.live[id].owned
    ensures Gone(v, w.live[id].name)
  {
  }

  lemma UnlistedIsGone(w: World, name: nat, containers: Tracking, uncertain: set<nat>)
    requires Tracked(w, containers, uncertain) && name in containers
    requires containers[name] != 0 && containers[name] !in w.live
    ensures Gone(w, name)
  {
  }

  lemma Uncertainty(w: World, name: nat, containers: Tracking, uncertain: set<nat>)
    requires Tracked(w, containers, uncertain) && name in containers
    ensures containers[name] == 0 ==> name in uncertain
    ensures containers[name] < w.nextId
  {
  }

  lemma TrackedCreate(w: World, at: World, v: World, name: nat, containers: Tracking, uncertain: set<nat>)
    requires Tracked(w, containers, uncertain) && name !in containers && w.nextId > 0
    requires Evolves(w.(inflight := w.inflight + {name}), at) && Evolves(at, v)
    ensures Tracked(at, containers[name := 0], uncertain + {name})
    ensures Tracked(v, containers[name := 0], uncertain + {name})
  {
    var sent := w.(inflight := w.inflight + {name});
    TrackedStays(sent, at, containers[name := 0], uncertain + {name});
    TrackedStays(at, v, containers[name := 0], uncertain + {name});
  }

  /** An owned container under a tracked name is the one that name stands for. */
  lemma TrackedSettles(w: World, v: World, id: nat, containers: Tracking, uncertain: set<nat>)
    requires Sound(w) && Tracked(w, containers, uncertain) && Evolves(w, v)
    requires id in w.live && w.live[id].owned
    ensures
      var name := w.live[id].name;
      name in containers && Tracked(v, containers[name := id], uncertain - {name})
  {
    TrackedStays(w, v, containers, uncertain);
  }

  lemma TrackedForgets(w: World, name: nat, containers: Tracking, uncertain: set<nat>)
    requires Tracked(w, containers, uncertain) && Gone(w, name)
    ensures Tracked(w, containers - {name}, uncertain - {name})
  {
  }

  /** With nothing tracked, nothing is left. */
  lemma UntrackedMeansNone(w: World, containers: Tracking, uncertain: set<nat>)
    requires Tracked(w, containers, uncertain) && containers == map[]
    ensures NoneRemains(w)
  {
  }

  /** Once nothing is tracked, no container of this sandbox appears later either. */
  lemma DestroyedForGood(w: World, v: World, containers: Tracking, uncertain: set<nat>)
    requires Tracked(w, containers, uncertain) && containers == map[] && Evolves(w, v)
    ensures NoneRemains(v) && Tracked(v, containers, uncertain)
  {
    UntrackedMeansNone(w, containers, uncertain);
    NoneStays(w, v);
    TrackedStays(w, v, containers, uncertain);
  }

  /** The id names no container of this sandbox. */
  ghost predicate NotOurs(w: World, id: nat) {
    id in w.live ==> !w.live[id].owned
  }

  datatype Cleanup = Clean | OutcomeUnknown | NotOwned | DaemonFailed

  datatype Executed = Denied | CreateFailed | CommandRan(started: bool, cleanup: Cleanup)

  const REINSPECT_ATTEMPTS := 5

  // ----- reading calls -----

  function Joined(segments: seq<seq<Call>>): seq<Call> {
    if segments == [] then [] else Joined(segments[..|segments| - 1]) + segments[|segments| - 1]
  }

  lemma JoinedSnoc(segments: seq<seq<Call>>, segment: seq<Call>)
    ensures Joined(segments + [segment]) == Joined(segments) + segment
  {
    assert (segments + [segment])[..|segments|] == segments;
  }

  /** Removing by id: absent is removed, a stranger is left, an owned container is removed if the daemon says so. */
  ghost predicate OwnedRemoval(calls: seq<Call>, id: nat, r: Cleanup) {
    && calls != [] && calls[0].InspectIdCall? && calls[0].id == id
    && match calls[0].answer
       case InspectError => |calls| == 1 && r == DaemonFailed
       case Absent => |calls| == 1 && r == Clean
       case Found(_, ours) =>
         if !ours then |calls| == 1 && r == NotOwned
         else |calls| == 2 && calls[1].RemoveCall? && calls[1].id == id && r == (if calls[1].ok then Clean else DaemonFailed)
  }

  /** Removing by name: absence settles nothing, a stranger settles the create as failed, an owned container is removed by its id. */
  ghost predicate NameRemoval(calls: seq<Call>, name: nat, r: Cleanup) {
    && calls != [] && calls[0].InspectNameCall? && calls[0].name == name
    && match calls[0].answer
       case InspectError => |calls| == 1 && r == DaemonFailed
       case Absent => |calls| == 1 && r == OutcomeUnknown
       case Found(id, ours) => if !ours then |calls| == 1 && r == NotOwned else OwnedRemoval(calls[1..], id, r)
  }

  function IdOf(containers: Tracking, name: nat): Option<nat> {
    if name in containers then Some(containers[name]) else None
  }

  ghost predicate TrackedRemoval(calls: seq<Call>, tracked: Option<nat>, name: nat, r: Cleanup) {
    if tracked.None? then calls == [] && r == Clean
    else if tracked.value == 0 then NameRemoval(calls, name, r)
    else OwnedRemoval(calls, tracked.value, r)
  }

  /** The last call settled its container: removed, gone, or never this sandbox's. */
  ghost predicate Settled(calls: seq<Call>) {
    && calls != []
    && match calls[|calls| - 1]
       case RemoveCall(_, ok) => ok
       case InspectIdCall(_, answer) => answer.Absent?
       case InspectNameCall(_, answer) => answer.Found? && !answer.owned
       case _ => false
  }

  ghost predicate Killing(calls: seq<Call>, tracked: Option<nat>, ok: bool) {
    if tracked.None? || tracked.value == 0 then calls == [] && ok
    else
      && calls != [] && calls[0].InspectIdCall? && calls[0].id == tracked.value
      && match calls[0].answer
         case InspectError => |calls| == 1 && !ok
         case Absent => |calls| == 1 && ok
         case Found(_, ours) =>
           if !ours then |calls| == 1 && !ok
           else |calls| == 2 && calls[1].KillCall? && calls[1].id == tracked.value && ok == calls[1].ok
  }

  /** After a failed create: up to five looks; only five absences leave it unknown. */
  ghost predicate LookingAgain(calls: seq<Call>, name: nat, looks: nat, r: Cleanup) {
    if looks == 0 then calls == [] && r == OutcomeUnknown
    else
      && calls != [] && calls[0].InspectNameCall? && calls[0].name == name
      && match calls[0].answer
         case InspectError => |calls| == 1 && r == DaemonFailed
         case Absent => LookingAgain(calls[1..], name, looks - 1, r)
         case Found(id, ours) => if !ours then |calls| == 1 && r == NotOwned else OwnedRemoval(calls[1..], id, r)
  }

  /** Starting checks ownership first; `n` calls, and whether the command was started and ran well. */
  ghost predicate Starting(calls: seq<Call>, id: nat, started: bool, ran: bool) {
    && calls != [] && calls[0].InspectIdCall? && calls[0].id == id
    && (started <==> calls[0].answer.Found? && calls[0].answer.owned)
    && if started then |calls| == 2 && calls[1].StartCall? && calls[1].id == id && ran == calls[1].ok
       else |calls| == 1 && !ran
  }

  /** A command in its own container: created, started, killed if interrupted, removed. */
  ghost predicate Executing(calls: seq<Call>, name: nat, interrupted: bool, r: Executed) {
    && calls != [] && calls[0].CreateCall? && calls[0].name == name
    && match calls[0].created
       case None => r == CreateFailed && exists c :: LookingAgain(calls[1..], name, REINSPECT_ATTEMPTS, c)
       case Some(id) => r.CommandRan? && exists i, j, ran, killed :: RanBy(calls[1..], id, i, j, ran, killed, interrupted, r)
  }

  /** Started, killed, removed: the calls up to `i`, up to `j` and from there on. */
  ghost predicate RanBy(calls: seq<Call>, id: nat, i: nat, j: nat, ran: bool, killed: bool, interrupted: bool, r: Executed)
    requires r.CommandRan?
  {
    && i <= j <= |calls|
    && Starting(calls[..i], id, r.started, ran)
    && (if interrupted then Killing(calls[i..j], Some(id), killed) else i == j)
    && OwnedRemoval(calls[j..], id, r.cleanup)
  }

  /** The cleanup container: created, run well and removed, or the cleanup failed. */
  ghost predicate Cleaning(calls: seq<Call>, name: nat, ok: bool) {
    && calls != [] && calls[0].CreateCall? && calls[0].name == name
    && match calls[0].created
       case None => !ok && exists c :: LookingAgain(calls[1..], name, REINSPECT_ATTEMPTS, c)
       case Some(id) => exists i, started, ran, r :: CleanedBy(calls, id, i, started, ran, r, ok)
  }

  ghost predicate CleanedBy(calls: seq<Call>, id: nat, i: nat, started: bool, ran: bool, r: Cleanup, ok: bool) {
    && 1 <= i <= |calls| && Starting(calls[1..i], id, started, ran)
    && OwnedRemoval(calls[i..], id, r) && ok == (ran && r == Clean)
  }

  /** One listed row: left alone if it is not ours, removed otherwise. */
  ghost predicate RowRemoval(calls: seq<Call>, row: (nat, nat), good: bool) {
    && calls != [] && calls[0].InspectIdCall? && calls[0].id == row.0
    && match calls[0].answer
       case InspectError => |calls| == 1 && !good
       case Absent => |calls| == 1 && good
       case Found(_, ours) =>
         if !ours then |calls| == 1 && good
         else exists r :: OwnedRemoval(calls[1..], row.0, r) && good == (r == Clean)
  }

  /** The scan by owner label. */
  datatype Scan = Scan(rows: Option<seq<(nat, nat)>>, segments: seq<seq<Call>>, good: seq<bool>)

  ghost predicate Scanning(calls: seq<Call>, scan: Scan, ok: bool) {
    && calls == [ListCall(scan.rows)] + Joined(scan.segments)
    && (scan.rows.None? ==> scan.segments == [] && !ok)
    && (scan.rows.Some? ==> Scanned(scan, ok) && |scan.segments| == |scan.rows.value|)
  }

  /** The rows scanned so far. */
  ghost predicate Scanned(scan: Scan, ok: bool) {
    && scan.rows.Some? && |scan.segments| == |scan.good| <= |scan.rows.value|
    && (forall i :: 0 <= i < |scan.segments| ==> RowRemoval(scan.segments[i], scan.rows.value[i], scan.good[i]))
    && AllGood(scan.good, ok)
  }

  /** The scan forgot a container it removed, under its name and under its id, and nothing else. */
  ghost predicate ScannedOff(scan: Scan, before: Tracking, after: Tracking)
    requires scan.rows.Some? && |scan.segments| <= |scan.rows.value|
  {
    forall n :: IdOf(after, n) ==
                if exists i :: 0 <= i < |scan.segments| && Forgets(scan.segments[i], scan.rows.value[i], n, IdOf(before, n))
                then None else IdOf(before, n)
  }

  ghost predicate RowForgotten(before: Tracking, after: Tracking, calls: seq<Call>, row: (nat, nat)) {
    forall n :: IdOf(after, n) == if Forgets(calls, row, n, IdOf(before, n)) then None else IdOf(before, n)
  }

  ghost predicate Forgets(calls: seq<Call>, row: (nat, nat), name: nat, id: Option<nat>) {
    |calls| > 1 && Settled(calls) && (name == row.1 || id == Some(row.0))
  }

  ghost predicate Cleansed(w: World, rows: seq<(nat, nat)>, done: nat)
    requires done <= |rows|
  {
    forall i :: 0 <= i < done ==> NotOurs(w, rows[i].0)
  }

  /** A sweep over the tracked names, in some order, each once. */
  datatype Sweep = Sweep(order: seq<nat>, segments: seq<seq<Call>>, good: seq<bool>)

  ghost predicate Swept(calls: seq<Call>, tracked: Option<nat>, name: nat, patient: bool, good: bool) {
    exists k, killed, r :: SweptBy(calls, tracked, name, patient, good, k, killed, r)
  }

  ghost predicate SweptBy(calls: seq<Call>, tracked: Option<nat>, name: nat, patient: bool, good: bool, k: nat, killed: bool, r: Cleanup) {
    && k <= |calls|
    && (if patient then Killing(calls[..k], tracked, killed) else k == 0 && killed)
    && TrackedRemoval(calls[k..], tracked, name, r)
    && good == (killed && (r == Clean || (patient && r == OutcomeUnknown)))
  }

  /** Each tracked name was either swept, once, or is still to come. */
  ghost predicate EachOnce(order: seq<nat>, containers: Tracking, rest: set<nat>) {
    && (forall n :: n in containers <==> n in rest || n in order)
    && (forall n :: n in rest ==> n !in order)
    && (forall i, j :: 0 <= i < j < |order| ==> order[i] != order[j])
  }

  ghost predicate EachSwept(sweep: Sweep, containers: Tracking, patient: bool)
    requires |sweep.order| == |sweep.segments| == |sweep.good|
  {
    forall i :: 0 <= i < |sweep.order| ==>
      Swept(sweep.segments[i], IdOf(containers, sweep.order[i]), sweep.order[i], patient, sweep.good[i])
  }

  ghost predicate AllGood(good: seq<bool>, ok: bool) {
    ok <==> forall i :: 0 <= i < |good| ==> good[i]
  }

  /** Every name but the rest was swept once, and the sweep is successful exactly if each was. */
  ghost predicate Sweeping(sweep: Sweep, containers: Tracking, rest: set<nat>, patient: bool, ok: bool) {
    && |sweep.order| == |sweep.segments| == |sweep.good|
    && EachOnce(sweep.order, containers, rest) && EachSwept(sweep, containers, patient) && AllGood(sweep.good, ok)
  }

  /** What a sweep leaves tracked, besides the rest: the names whose containers it did not settle. */
  ghost predicate LeftBy(sweep: Sweep, rest: set<nat>, left: set<nat>)
    requires |sweep.order| == |sweep.segments|
  {
    && rest <= left
    && (forall n :: n in left ==> n in rest || n in sweep.order)
    && (forall i :: 0 <= i < |sweep.order| ==> (sweep.order[i] in left <==> !Settled(sweep.segments[i])))
  }

  /** What the host was asked besides the daemon, and how it answered. */
  datatype HostCall = Restored(ok: bool) | Rehidden(ok: bool) | WorktreeRemoved(ok: bool) | AuditedDestroyed(ok: bool) | AuditedFailure(ok: bool)

  /** Removing the worktree: the git pointer is restored around it, success is audited, failure hides the pointer again. */
  ghost predicate Removing(host: seq<HostCall>, sanitized: bool, ok: bool, destroyed: bool, audited: bool) {
    var k := if sanitized then 1 else 0;
    && |host| >= k + 2 && (sanitized ==> host[0].Restored?) && host[k].WorktreeRemoved? && destroyed == host[k].ok
    && if destroyed then
         |host| == k + 2 && host[k + 1].AuditedDestroyed? && audited == host[k + 1].ok && ok == ((sanitized ==> host[0].ok) && audited)
       else
         |host| == 2 * k + 2 && (sanitized ==> host[k + 1].Rehidden?) && host[2 * k + 1].AuditedFailure? && !audited && !ok
  }

  /** Everything one destruction did up to the worktree. */
  datatype Teardown = Teardown(first: Sweep, firstOk: bool, middle: Tracking, scanned: seq<Call>, scan: Scan, scanOk: bool,
                               before: Tracking, second: Sweep, secondOk: bool, left: Tracking,
                               cleanup: seq<Call>, cleaned: bool)

  ghost predicate Cleared(t: Teardown) {
    t.firstOk && t.scanOk && t.secondOk && t.left == map[]
  }

  class DockerSandbox {
    const daemon: DockerDaemon
    var counter: nat
    var containers: Tracking
    var uncertain: set<nat>
    var provisioningFailed: bool
    /** The worktree's git pointer is hidden. */
    var sanitized: bool
    var destroying: bool
    var destroyed: bool
    var destroyAudited: bool
    /** The provider still holds this sandbox's owner token and pending entry. */
    var owned: bool
    /** Commands ever started by Execute. */
    var commands: nat
    var host: seq<HostCall>

    ghost predicate Valid()
      reads this, daemon
    {
      && Sound(daemon.world)
      && Tracked(daemon.world, containers, uncertain)
      && (forall n :: n in containers ==> n <= counter)
      && (destroyed ==> destroying && containers == map[])
      && (destroyAudited ==> destroyed)
      && (!owned ==> destroyAudited)
    }

    constructor (daemon: DockerDaemon, provisioningFailed: bool, sanitized: bool)
      requires Sound(daemon.world) && NoneRemains(daemon.world)
      ensures Valid() && this.daemon == daemon && owned && !destroying && !destroyed && containers == map[] && commands == 0
      ensures this.provisioningFailed == provisioningFailed && this.sanitized == sanitized && host == []
    {
      this.daemon := daemon;
      this.provisioningFailed, this.sanitized := provisioningFailed, sanitized;
      counter, containers, uncertain := 0, map[], {};
      destroying, destroyed, destroyAudited, owned, commands, host := false, false, false, true, 0, [];
    }

    /** removeOwnedContainer. */
    method RemoveOwnedContainer(id: nat) returns (r: Cleanup, ghost calls: seq<Call>)
      requires Sound(daemon.world) && id < daemon.world.nextId
      modifies daemon
      ensures Evolves(old(daemon.world), daemon.world)
      ensures r == Clean ==> id !in daemon.world.live
      ensures daemon.calls == old(daemon.calls) + calls && OwnedRemoval(calls, id, r)
    {
      hide Evolves, Sound;
      ghost var before := daemon.world;
      var found, at := daemon.InspectId(id);
      calls := [InspectIdCall(id, found)];
      EvolvesTransitive(before, at, daemon.world);
      NextIdGrows(before, at);
      NextIdGrows(at, daemon.world);
      match found
      case InspectError => r := DaemonFailed;
      case Absent =>
        StillAbsent(at, daemon.world, id);
        r := Clean;
      case Found(_, ours) =>
        if !ours {
          return NotOwned, calls;
        }
        ghost var seen := daemon.world;
        var ok := daemon.Remove(id);
        calls := calls + [RemoveCall(id, ok)];
        EvolvesTransitive(before, seen, daemon.world);
        r := if ok then Clean else DaemonFailed;
    }

    /** Learns the id of a name whose create was not confirmed. */
    method SettleName(name: nat) returns (r: Cleanup, answer: Inspection)
      requires Valid() && !destroyed && name in containers && containers[name] == 0
      modifies this`containers, this`uncertain, daemon
      ensures Valid() && Evolves(old(daemon.world), daemon.world)
      ensures daemon.calls == old(daemon.calls) + [InspectNameCall(name, answer)]
      ensures r == (match answer
                    case InspectError => DaemonFailed
                    case Absent => OutcomeUnknown
                    case Found(_, ours) => if ours then Clean else NotOwned)
      ensures containers == (match r
                             case Clean => old(containers)[name := answer.id]
                             case NotOwned => old(containers) - {name}
                             case _ => old(containers))
      ensures r == Clean ==> answer.id != 0
    {
      hide Tracked, Evolves, Gone;
      ghost var before := daemon.world;
      var found, at := daemon.InspectName(name);
      answer := found;
      EvolvesTransitive(before, at, daemon.world);
      TrackedStays(before, at, containers, uncertain);
      TrackedStays(at, daemon.world, containers, uncertain);
      match found
      case InspectError => r := DaemonFailed;
      case Absent => r := OutcomeUnknown;
      case Found(id, ours) =>
        if !ours {
          StrangerIsGone(at, daemon.world, id);
          TrackedForgets(daemon.world, name, containers, uncertain);
          containers, uncertain := containers - {name}, uncertain - {name};
          r := NotOwned;
        } else {
          TrackedSettles(at, daemon.world, id, containers, uncertain);
          containers, uncertain := containers[name := id], uncertain - {name};
          r := Clean;
        }
    }

    /**
      removeTrackedContainer. The source would believe the absence of a name it is certain
      of; no name without an id is certain.
    */
    method RemoveTrackedContainer(name: nat) returns (r: Cleanup, ghost calls: seq<Call>)
      requires Valid() && !destroyed
      modifies this`containers, this`uncertain, daemon
      ensures Valid() && Evolves(old(daemon.world), daemon.world)
      ensures daemon.calls == old(daemon.calls) + calls && TrackedRemoval(calls, IdOf(old(containers), name), name, r)
      ensures name in containers <==> name in old(containers) && !Settled(calls)
      ensures r == Clean ==> name !in containers
      ensures forall n :: n != name ==> IdOf(containers, n) == IdOf(old(containers), n)
      ensures r == OutcomeUnknown ==> containers == old(containers) && IdOf(containers, name) == Some(0)
    {
      hide Tracked, Evolves, Gone, Sound, OwnedRemoval;
      ghost var before := daemon.world;
      EvolvesReflexive(before);
      calls := [];
      if name !in containers {
        return Clean, [];
      }
      if containers[name] == 0 {
        Uncertainty(before, name, containers, uncertain);
        var answer;
        r, answer := SettleName(name);
        calls := [InspectNameCall(name, answer)];
        if r != Clean {
          return;
        }
      }
      ghost var settled := daemon.world;
      Uncertainty(settled, name, containers, uncertain);
      ghost var more;
      r, more := RemoveOwnedContainer(containers[name]);
      RemovalShape(more, containers[name], r);
      SettledTail(calls, more);
      calls := calls + more;
      assert calls == more || calls[1..] == more;
      TrackedStays(settled, daemon.world, containers, uncertain);
      EvolvesTransitive(before, settled, daemon.world);
      if r == Clean {
        UnlistedIsGone(daemon.world, name, containers, uncertain);
        TrackedForgets(daemon.world, name, containers, uncertain);
        containers, uncertain := containers - {name}, uncertain - {name};
      }
    }

    method KillTrackedContainer(name: nat) returns (ok: bool, ghost calls: seq<Call>)
      requires Valid()
      modifies daemon
      ensures Valid() && Evolves(old(daemon.world), daemon.world)
      ensures daemon.calls == old(daemon.calls) + calls && Killing(calls, IdOf(containers, name), ok)
    {
      hide Tracked, Evolves, Sound;
      ghost var before := daemon.world;
      EvolvesReflexive(before);
      if name !in containers || containers[name] == 0 {
        return true, [];
      }
      var found, at := daemon.InspectId(containers[name]);
      calls := [InspectIdCall(containers[name], found)];
      EvolvesTransitive(before, at, daemon.world);
      TrackedStays(before, daemon.world, containers, uncertain);
      ok := found.Absent?;
      if found.Found? && found.owned {
        ghost var seen := daemon.world;
        ok := daemon.Kill(containers[name]);
        calls := calls + [KillCall(containers[name], ok)];
        EvolvesTransitive(before, seen, daemon.world);
        TrackedStays(before, daemon.world, containers, uncertain);
      }
    }

    /** startOwnedContainer: ownership is checked before the container is started. */
    method StartOwnedContainer(id: nat) returns (started: bool, ran: bool, ghost calls: seq<Call>)
      requires Valid()
      modifies daemon
      ensures Valid() && Evolves(old(daemon.world), daemon.world)
      ensures daemon.calls == old(daemon.calls) + calls && Starting(calls, id, started, ran)
    {
      hide Tracked, Evolves, Sound;
      ghost var before := daemon.world;
      var found, at := daemon.InspectId(id);
      calls := [InspectIdCall(id, found)];
      EvolvesTransitive(before, at, daemon.world);
      TrackedStays(before, daemon.world, containers, uncertain);
      started := found.Found? && found.owned;
      ran := false;
      if started {
        ghost var seen := daemon.world;
        ran := daemon.Start(id);
        calls := calls + [StartCall(id, ran)];
        EvolvesTransitive(before, seen, daemon.world);
        TrackedStays(before, daemon.world, containers, uncertain);
      }
    }

    /** Creates a container under a fresh tracked name; failing leaves the name uncertain. */
    method CreateTracked() returns (name: nat, id: Option<nat>)
      requires Valid() && !destroyed
      modifies this`counter, this`containers, this`uncertain, daemon
      ensures Valid()
      ensures daemon.calls == old(daemon.calls) + [CreateCall(name, id)]
      ensures name == old(counter) + 1 == counter && name !in old(containers)
      ensures containers == old(containers)[name := if id.Some? then id.value else 0]
      ensures id.Some? ==> id.value != 0 && IdOf(containers, name) == id
      ensures forall n :: n != name ==> IdOf(containers, n) == IdOf(old(containers), n)
    {
      hide Tracked, Evolves;
      counter := counter + 1;
      name := counter;
      ghost var before := daemon.world;
      ghost var tracking, unsure := containers, uncertain;
      containers := containers[name := 0];
      ghost var at;
      id, at := daemon.Create(name);
      TrackedCreate(before, at, daemon.world, name, tracking, unsure);
      if id.None? {
        uncertain := uncertain + {name};
        return;
      }
      TrackedSettles(at, daemon.world, id.value, containers, uncertain + {name});
      containers, uncertain := containers[name := id.value], uncertain - {name};
      assert uncertain == unsure + {name} - {name};
    }

    /** Absence is never believed: after the last look the name stays tracked. */
    method CleanupFailedCreate(name: nat) returns (r: Cleanup, ghost calls: seq<Call>)
      requires Valid() && !destroyed && name in containers && containers[name] == 0
      modifies this`containers, this`uncertain, daemon
      ensures Valid()
      ensures daemon.calls == old(daemon.calls) + calls && LookingAgain(calls, name, REINSPECT_ATTEMPTS, r)
      ensures r == Clean ==> name !in containers
      ensures r == OutcomeUnknown ==> containers == old(containers)
      ensures forall n :: n != name ==> IdOf(containers, n) == IdOf(old(containers), n)
    {
      hide Tracked, Evolves, Gone, Sound, OwnedRemoval, Settled;
      calls := [];
      for attempt := 0 to REINSPECT_ATTEMPTS
        invariant Valid() && containers == old(containers) && !destroyed
        invariant daemon.calls == old(daemon.calls) + calls && |calls| == attempt
        invariant forall i :: 0 <= i < |calls| ==> calls[i] == InspectNameCall(name, Absent)
      {
        var settled, answer := SettleName(name);
        ghost var looks := calls;
        calls := calls + [InspectNameCall(name, answer)];
        if answer.Absent? {
          continue;
        }
        r := settled;
        if answer.Found? && answer.owned {
          ghost var more;
          r, more := RemoveTrackedContainer(name);
          RemovalShape(more, answer.id, r);
          calls := calls + more;
          assert calls[attempt + 1..] == more;
        }
        LooksEnd(calls, name, attempt, REINSPECT_ATTEMPTS, r);
        return;
      }
      r := OutcomeUnknown;
      LooksExhausted(calls, name, r);
    }

    /** A command runs in its own container, which stays tracked until it is gone; none runs once destruction starts. */
    method Execute(allowed: bool, interrupted: bool) returns (r: Executed, ghost calls: seq<Call>)
      requires Valid()
      modifies this, daemon
      ensures Valid()
      ensures destroying == old(destroying) && destroyed == old(destroyed) && provisioningFailed == old(provisioningFailed)
      ensures destroyAudited == old(destroyAudited) && owned == old(owned) && host == old(host) && sanitized == old(sanitized)
      ensures r == Denied <==> old(destroying) || old(destroyed) || old(provisioningFailed) || !allowed
      ensures daemon.calls == old(daemon.calls) + calls
      ensures r == Denied ==> calls == [] && counter == old(counter) && containers == old(containers) && daemon.world == old(daemon.world)
      ensures r != Denied ==> counter == old(counter) + 1 && Executing(calls, counter, interrupted, r)
      ensures commands == old(commands) + (if r.CommandRan? && r.started then 1 else 0)
      ensures forall n :: n != counter ==> IdOf(containers, n) == IdOf(old(containers), n)
      ensures r.CommandRan? && r.cleanup == Clean ==> containers == old(containers)
    {
      hide Tracked, Evolves, Sound, OwnedRemoval, LookingAgain, RanBy, Executing, IdOf;
      calls := [];
      if destroyed || destroying || provisioningFailed || !allowed {
        return Denied, [];
      }
      var name, id := CreateTracked();
      calls := [CreateCall(name, id)];
      if id.None? {
        ghost var looks;
        var cleanup;
        cleanup, looks := CleanupFailedCreate(name);
        calls := calls + looks;
        ExecutingFailed(calls, looks, name, interrupted, cleanup);
        return CreateFailed, calls;
      }
      ghost var running, i, j, ran, killed;
      r, running, i, j, ran, killed := RunContainer(name, id.value, interrupted);
      calls := calls + running;
      ExecutingRan(calls, running, name, id.value, i, j, ran, killed, interrupted, r);
      if r.cleanup == Clean {
        ForgottenAgain(old(containers), containers, name, id.value);
      }
    }

    /** Runs the command of a container just created; an interrupted one is killed, and either is removed. */
    method RunContainer(name: nat, id: nat, interrupted: bool)
      returns (r: Executed, ghost calls: seq<Call>, ghost i: nat, ghost j: nat, ghost ran: bool, ghost killed: bool)
      requires Valid() && !destroyed && IdOf(containers, name) == Some(id) && id != 0
      modifies this`containers, this`uncertain, this`commands, daemon
      ensures Valid() && daemon.calls == old(daemon.calls) + calls
      ensures r.CommandRan? && RanBy(calls, id, i, j, ran, killed, interrupted, r)
      ensures commands == old(commands) + (if r.started then 1 else 0)
      ensures r.cleanup == Clean ==> name !in containers
      ensures forall n :: n != name ==> IdOf(containers, n) == IdOf(old(containers), n)
    {
      hide Tracked, Evolves, Sound, OwnedRemoval, Starting, Killing, Settled;
      ghost var starting, killing, removing;
      var started, well, dead;
      started, well, starting := StartOwnedContainer(id);
      if started {
        commands := commands + 1;
      }
      dead, killing := true, [];
      if interrupted {
        dead, killing := KillTrackedContainer(name);
      }
      var cleanup;
      cleanup, removing := RemoveTrackedContainer(name);
      r := CommandRan(started, cleanup);
      ran, killed := well, dead;
      calls, i, j := starting + killing + removing, |starting|, |starting| + |killing|;
      assert calls[..i] == starting && calls[i..j] == killing && calls[j..] == removing;
    }

    /** The cleanup helper runs in its own container. */
    method CleanupWorkspace() returns (ok: bool, ghost calls: seq<Call>)
      requires Valid() && !destroyed && containers == map[]
      modifies this`counter, this`containers, this`uncertain, daemon
      ensures Valid() && counter == old(counter) + 1
      ensures daemon.calls == old(daemon.calls) + calls && Cleaning(calls, counter, ok)
      ensures ok ==> containers == map[]
    {
      hide Tracked, Evolves, Sound, OwnedRemoval, LookingAgain, Starting, Cleaning, IdOf;
      var name, id := CreateTracked();
      calls := [CreateCall(name, id)];
      if id.None? {
        ghost var looks;
        var cleanup;
        cleanup, looks := CleanupFailedCreate(name);
        calls := calls + looks;
        CleaningFailed(calls, looks, name, cleanup);
        return false, calls;
      }
      ghost var starting, removing;
      var started, ran, removed;
      started, ran, starting := StartOwnedContainer(id.value);
      removed, removing := RemoveTrackedContainer(name);
      ok := ran && removed == Clean;
      if removed == Clean {
        ForgottenAgain(map[], containers, name, id.value);
      }
      calls := calls + starting + removing;
      CleaningRan(calls, starting, removing, name, id.value, started, ran, removed, ok);
    }

    /** Forgets a container the scan removed, under its name and its id. */
    method Untrack(id: nat, name: nat)
      requires Valid() && !destroyed && 0 < id && id !in daemon.world.live && Gone(daemon.world, name)
      modifies this`containers, this`uncertain
      ensures Valid()
      ensures forall n :: IdOf(containers, n) == if n == name || IdOf(old(containers), n) == Some(id) then None else IdOf(old(containers), n)
    {
      hide Tracked, Gone, Sound;
      var rest := containers.Keys;
      while rest != {}
        invariant rest <= old(containers).Keys
        invariant Valid() && !destroyed
        invariant forall n :: n in rest ==> IdOf(containers, n) == IdOf(old(containers), n)
        invariant forall n :: n !in rest ==>
                    IdOf(containers, n) == if n == name || IdOf(old(containers), n) == Some(id) then None else IdOf(old(containers), n)
      {
        var tracked :| tracked in rest;
        rest := rest - {tracked};
        if tracked == name || containers[tracked] == id {
          if tracked != name {
            UnlistedIsGone(daemon.world, tracked, containers, uncertain);
          }
          TrackedForgets(daemon.world, tracked, containers, uncertain);
          containers, uncertain := containers - {tracked}, uncertain - {tracked};
        }
      }
    }

    /** One row of the scan: removed if it is ours, and then forgotten. */
    method RemoveRow(row: (nat, nat)) returns (good: bool, ghost calls: seq<Call>)
      requires Valid() && !destroyed && row.0 < daemon.world.nextId
      requires row.0 in daemon.world.live ==> daemon.world.live[row.0].name == row.1
      modifies this`containers, this`uncertain, daemon
      ensures Valid() && Evolves(old(daemon.world), daemon.world) && containers.Keys <= old(containers).Keys
      ensures daemon.calls == old(daemon.calls) + calls && RowRemoval(calls, row, good)
      ensures good ==> NotOurs(daemon.world, row.0)
      ensures RowForgotten(old(containers), containers, calls, row)
    {
      hide Tracked, Gone, OwnedRemoval, Settled;
      ghost var start := daemon.world;
      var found, at := daemon.InspectId(row.0);
      calls := [InspectIdCall(row.0, found)];
      EvolvesTransitive(start, at, daemon.world);
      TrackedStays(start, at, containers, uncertain);
      TrackedStays(start, daemon.world, containers, uncertain);
      good := !found.InspectError?;
      if found.Found? && found.owned {
        ghost var seen := daemon.world;
        ghost var more;
        var removed;
        removed, more := RemoveOwnedContainer(row.0);
        RemovalShape(more, row.0, removed);
        SettledTail(calls, more);
        calls := calls + more;
        assert calls[1..] == more;
        TrackedStays(seen, daemon.world, containers, uncertain);
        EvolvesTransitive(at, seen, daemon.world);
        EvolvesTransitive(start, seen, daemon.world);
        good := removed == Clean;
        if good {
          LeftIsGone(at, daemon.world, row.0);
          Untrack(row.0, row.1);
          assert forall n :: n in containers ==> IdOf(containers, n) == Some(containers[n]);
        }
      }
    }

    /** The next row of the scan. */
    method ScanRow(ghost before: Tracking, ghost scan: Scan, rows: seq<(nat, nat)>, index: nat, ok: bool) returns (still: bool, ghost next: Scan)
      requires Valid() && !destroyed && Listed(daemon.world, rows)
      requires scan.rows == Some(rows) && |scan.segments| == index < |rows| && Scanned(scan, ok) && ScannedOff(scan, before, containers)
      requires ok ==> Cleansed(daemon.world, rows, index)
      modifies this`containers, this`uncertain, daemon
      ensures Valid() && containers.Keys <= old(containers).Keys && Listed(daemon.world, rows)
      ensures next.rows == Some(rows) && |next.segments| == index + 1 && Scanned(next, still) && ScannedOff(next, before, containers)
      ensures still ==> Cleansed(daemon.world, rows, index + 1)
      ensures daemon.calls == old(daemon.calls) + next.segments[index] && Joined(next.segments) == Joined(scan.segments) + next.segments[index]
    {
      hide Tracked, Evolves, Gone, Sound, RowRemoval, Listed, Cleansed, ScannedOff, RowForgotten, Forgets, IdOf, NotOurs;
      ghost var start, tracking := daemon.world, containers;
      ListedRow(start, rows, index);
      ghost var segment;
      var good;
      good, segment := RemoveRow(rows[index]);
      ListedStays(start, daemon.world, rows);
      if ok {
        CleansedStays(start, daemon.world, rows, index);
      }
      if ok && good {
        CleansedSnoc(daemon.world, rows, index);
      }
      ScannedSnoc(scan, ok, segment, good);
      ScannedOffSnoc(scan, before, tracking, containers, segment, good);
      next := scan.(segments := scan.segments + [segment], good := scan.good + [good]);
      still := ok && good;
    }

    /** The scan by owner label never forgets a container that is left; if it succeeds, none it listed is left. */
    method RemoveProviderOwnedContainers() returns (ok: bool, ghost calls: seq<Call>, ghost scan: Scan)
      requires Valid() && !destroyed
      modifies this`containers, this`uncertain, daemon
      ensures Valid() && containers.Keys <= old(containers).Keys
      ensures daemon.calls == old(daemon.calls) + calls && Scanning(calls, scan, ok)
      ensures if scan.rows.None? then containers == old(containers) else ScannedOff(scan, old(containers), containers)
      ensures ok ==> forall row :: row in scan.rows.value ==> NotOurs(daemon.world, row.0)
    {
      hide Tracked, Evolves, Gone, Sound, RowRemoval, Listed, Cleansed, Scanned, ScannedOff, RowForgotten, Forgets, IdOf, NotOurs;
      ghost var before := daemon.world;
      var rows := daemon.List();
      TrackedStays(before, daemon.world, containers, uncertain);
      scan := Scan(rows, [], []);
      if rows.None? {
        return false, [ListCall(rows)], scan;
      }
      ok := true;
      ScanBegins(daemon.world, scan, containers);
      ghost var start := daemon.calls;
      assert start == start + Joined(scan.segments);
      for index := 0 to |rows.value|
        invariant Valid() && !destroyed && containers.Keys <= old(containers).Keys
        invariant Listed(daemon.world, rows.value)
        invariant scan.rows == rows && Scanned(scan, ok) && |scan.segments| == index
        invariant ScannedOff(scan, old(containers), containers)
        invariant daemon.calls == start + Joined(scan.segments)
        invariant ok ==> Cleansed(daemon.world, rows.value, index)
      {
        ok, scan := ScanRow(old(containers), scan, rows.value, index, ok);
      }
      calls := [ListCall(rows)] + Joined(scan.segments);
      ScanEnds(daemon.world, calls, scan, ok);
    }

    /** The worktree is only ever removed when no container of this sandbox remains or can land. */
    method RemoveWorktree() returns (ok: bool)
      requires NoneRemains(daemon.world)
      modifies this`host
      ensures host == old(host) + [WorktreeRemoved(ok)]
    {
      ok := *;
      host := host + [WorktreeRemoved(ok)];
    }

    /** Restores the hidden git pointer before the removal. */
    method RestorePointer() returns (ok: bool)
      modifies this`host
      ensures host == old(host) + [Restored(ok)]
    {
      ok := *;
      host := host + [Restored(ok)];
    }

    method HidePointer()
      modifies this`host
      ensures |host| == |old(host)| + 1 && old(host) < host && host[|old(host)|].Rehidden?
    {
      var ok: bool := *;
      host := host + [Rehidden(ok)];
    }

    method RecordDestroy() returns (ok: bool)
      requires Valid() && destroyed
      modifies this`destroyAudited, this`host
      ensures Valid() && destroyAudited == (old(destroyAudited) || ok) && host == old(host) + [AuditedDestroyed(ok)]
    {
      ok := *;
      host := host + [AuditedDestroyed(ok)];
      if ok {
        destroyAudited := true;
      }
    }

    method RecordDestroyFailed()
      modifies this`host
      ensures |host| == |old(host)| + 1 && old(host) < host && host[|old(host)|].AuditedFailure?
    {
      var ok: bool := *;
      host := host + [AuditedFailure(ok)];
    }

    method ForgetProviderOwnership()
      requires Valid() && destroyed && destroyAudited
      modifies this`owned
      ensures Valid() && !owned
    {
      owned := false;
    }

    /** One name of a sweep. */
    method SweepName(name: nat, patient: bool) returns (good: bool, ghost calls: seq<Call>)
      requires Valid() && !destroyed
      modifies this`containers, this`uncertain, daemon
      ensures Valid() && daemon.calls == old(daemon.calls) + calls
      ensures Swept(calls, IdOf(old(containers), name), name, patient, good)
      ensures forall n :: n != name ==> IdOf(containers, n) == IdOf(old(containers), n)
      ensures good ==> name !in containers || (patient && containers[name] == 0)
      ensures containers.Keys <= old(containers).Keys
      ensures name in old(containers) ==> (name in containers <==> !Settled(calls))
    {
      hide Tracked, Evolves, Sound, Killing;
      var killed := true;
      ghost var killing := [];
      if patient {
        killed, killing := KillTrackedContainer(name);
      }
      ghost var removing;
      var removed;
      removed, removing := RemoveTrackedContainer(name);
      calls := killing + removing;
      assert calls[..|killing|] == killing && calls[|killing|..] == removing;
      good := killed && (removed == Clean || (patient && removed == OutcomeUnknown));
      assert SweptBy(calls, IdOf(old(containers), name), name, patient, good, |killing|, killed, removed);
      assert forall n :: n in containers && n != name ==> IdOf(containers, n) == Some(containers[n]);
    }

    /** Sweeps every tracked name; if all settled, only names without an id are left, and none to an impatient sweep. */
    method RemoveAll(patient: bool) returns (ok: bool, ghost sweep: Sweep)
      requires Valid() && !destroyed
      modifies this`containers, this`uncertain, daemon
      ensures Valid() && containers.Keys <= old(containers).Keys
      ensures daemon.calls == old(daemon.calls) + Joined(sweep.segments) && Sweeping(sweep, old(containers), {}, patient, ok)
      ensures LeftBy(sweep, {}, containers.Keys)
      ensures ok ==> forall n :: n in containers ==> patient && containers[n] == 0
    {
      hide Tracked, Evolves, Sound, Swept, Sweeping, SameOn, OnlyUnsettled, IdOf, Settled, LeftBy;
      ok := true;
      sweep := Sweep([], [], []);
      var rest := containers.Keys;
      SweepBegins(containers, patient);
      while rest != {}
        invariant rest <= old(containers).Keys
        invariant Valid() && !destroyed && containers.Keys <= old(containers).Keys
        invariant SameOn(containers, old(containers), rest)
        invariant Sweeping(sweep, old(containers), rest, patient, ok)
        invariant daemon.calls == old(daemon.calls) + Joined(sweep.segments)
        invariant |sweep.order| == |sweep.segments| && LeftBy(sweep, rest, containers.Keys)
        invariant ok ==> OnlyUnsettled(containers, rest, patient)
      {
        var name :| name in rest;
        ghost var before := containers;
        SameAt(before, old(containers), rest, name);
        ghost var segment;
        var good;
        good, segment := SweepName(name, patient);
        SweepSnoc(sweep, old(containers), rest, patient, ok, name, segment, good);
        LeftHas(sweep, rest, before.Keys, name);
        LeftSnoc(sweep, before, containers, rest, old(containers), patient, ok, name, segment, good);
        SweepLeaves(old(containers), before, containers, rest, patient, ok, name, good);
        rest := rest - {name};
        sweep := Sweep(sweep.order + [name], sweep.segments + [segment], sweep.good + [good]);
        ok := ok && good;
      }
      assert rest == {};
      SweepEnds(containers, patient, ok);
    }

    /** Sweep, scan and sweep again, and then the cleanup container of a provisioned sandbox. */
    method ClearContainers() returns (cleared: bool, ghost t: Teardown)
      requires Valid() && !destroyed
      modifies this`containers, this`uncertain, this`counter, daemon
      ensures Valid() && TornDown(t, old(containers), old(counter), counter, old(daemon.calls), daemon.calls)
      ensures cleared == (Cleared(t) && (provisioningFailed || t.cleaned))
      ensures if !Cleared(t) then containers == t.left else cleared ==> containers == map[]
    {
      hide Tracked, Evolves, Sound, Sweeping, Scanning, Cleaning, LeftBy, ScannedOff;
      ghost var calls := daemon.calls;
      ghost var first, scanned, scan, second;
      var firstOk, scanOk, secondOk;
      firstOk, first := RemoveAll(true);
      ghost var middle := containers;
      scanOk, scanned, scan := RemoveProviderOwnedContainers();
      ghost var before := containers;
      secondOk, second := RemoveAll(false);
      t := Teardown(first, firstOk, middle, scanned, scan, scanOk, before, second, secondOk, containers, [], false);
      assert daemon.calls == calls + Joined(first.segments) + scanned + Joined(second.segments) + [];
      if !firstOk || !scanOk || !secondOk || containers != map[] {
        return false, t;
      }
      if provisioningFailed {
        return true, t;
      }
      ghost var cleanup;
      var cleaned;
      cleaned, cleanup := CleanupWorkspace();
      t := t.(cleanup := cleanup, cleaned := cleaned);
      cleared := cleaned;
    }

    /** The calls of a destruction up to the worktree: two sweeps around a scan, and a cleanup container only once all is clear. */
    ghost predicate TornDown(t: Teardown, tracked: Tracking, number: nat, later: nat, before: seq<Call>, after: seq<Call>)
      reads this`provisioningFailed
    {
      && after == before + Joined(t.first.segments) + t.scanned + Joined(t.second.segments) + t.cleanup
      && Sweeping(t.first, tracked, {}, true, t.firstOk)
      && Scanning(t.scanned, t.scan, t.scanOk)
      && LeftBy(t.first, {}, t.middle.Keys)
      && (if t.scan.rows.None? then t.before == t.middle else ScannedOff(t.scan, t.middle, t.before))
      && Sweeping(t.second, t.before, {}, false, t.secondOk)
      && LeftBy(t.second, {}, t.left.Keys)
      && (if Cleared(t) && !provisioningFailed then later == number + 1 && Cleaning(t.cleanup, later, t.cleaned)
          else later == number && t.cleanup == [])
    }

    /** Removes the worktree, with the git pointer restored around it, and audits. */
    method RemoveAndAudit() returns (ok: bool)
      requires Valid() && !destroyed && destroying && containers == map[] && owned
      modifies this`host, this`destroyed, this`destroyAudited, this`owned
      ensures Valid() && old(host) <= host && owned == !destroyAudited
      ensures Removing(host[|old(host)|..], sanitized, ok, destroyed, destroyAudited)
    {
      hide Tracked, Sound;
      ghost var before := |host|;
      UntrackedMeansNone(daemon.world, containers, uncertain);
      var restored := true;
      if sanitized {
        restored := RestorePointer();
      }
      var removed := RemoveWorktree();
      if !removed {
        if sanitized {
          HidePointer();
        }
        RecordDestroyFailed();
        return false;
      }
      destroyed := true;
      var audited := RecordDestroy();
      if audited {
        ForgetProviderOwnership();
      }
      ok := restored && audited;
    }

    /**
      Destruction is one-way and retryable. A destroyed sandbox only completes its audit; otherwise
      containers are cleared, a provisioned workspace is cleaned in its own container, and only then
      the worktree is removed and audited. The answer is fixed by the answers of daemon and host.
    */
    method Destroy() returns (ok: bool, ghost t: Teardown)
      requires Valid()
      modifies this, daemon
      ensures Valid() && old(host) <= host
      ensures destroying && commands == old(commands) && provisioningFailed == old(provisioningFailed) && sanitized == old(sanitized)
      ensures old(destroyed) ==> destroyed && daemon.calls == old(daemon.calls) && counter == old(counter)
      ensures old(destroyed && destroyAudited) ==> ok && host == old(host)
      ensures old(destroyed && !destroyAudited) ==>
                host == old(host) + [AuditedDestroyed(ok)] && destroyAudited == ok
      ensures !old(destroyed) ==> TornDown(t, old(containers), old(counter), counter, old(daemon.calls), daemon.calls)
      ensures !old(destroyed) && !Cleared(t) ==> containers == t.left
      ensures !old(destroyed) && !(Cleared(t) && (provisioningFailed || t.cleaned)) ==>
                !ok && !destroyed && |host| == |old(host)| + 1 && host[|old(host)|].AuditedFailure?
      ensures !old(destroyed) && Cleared(t) && (provisioningFailed || t.cleaned) ==>
                Removing(host[|old(host)|..], sanitized, ok, destroyed, destroyAudited)
      ensures ok ==> destroyed && destroyAudited && !owned
      ensures destroyed ==> NoneRemains(daemon.world)
      ensures !destroyed ==> owned
    {
      hide Tracked, Evolves, Sound, TornDown, Cleared;
      t := Teardown(Sweep([], [], []), false, containers, [], Scan(None, [], []), false, containers, Sweep([], [], []), false, containers, [], false);
      if destroyed {
        UntrackedMeansNone(daemon.world, containers, uncertain);
        if destroyAudited {
          ForgetProviderOwnership();
          ok := true;
          return;
        }
        ok := RecordDestroy();
        if ok {
          ForgetProviderOwnership();
        }
        return;
      }
      destroying := true;
      var cleared;
      cleared, t := ClearContainers();
      if !cleared {
        RecordDestroyFailed();
        return false, t;
      }
      UntrackedMeansNone(daemon.world, containers, uncertain);
      ok := RemoveAndAudit();
    }
  }

  // ----- helpers of the readings -----

  /** A name tracked and dropped again leaves the tracking as it was. */
  lemma ForgottenAgain(before: Tracking, after: Tracking, name: nat, id: nat)
    requires name !in before && name !in after
    requires forall n :: n != name ==> IdOf(after, n) == IdOf(before[name := id], n)
    ensures after == before
  {
    forall n: nat
      ensures IdOf(after, n) == IdOf(before, n)
    {
    }
    assert forall n :: n in after ==> IdOf(after, n) == Some(after[n]);
    assert forall n :: n in before ==> IdOf(before, n) == Some(before[n]);
  }

  lemma ListedStays(w: World, v: World, rows: seq<(nat, nat)>)
    requires Listed(w, rows) && Evolves(w, v)
    ensures Listed(v, rows)
  {
  }

  lemma CleansedStays(w: World, v: World, rows: seq<(nat, nat)>, done: nat)
    requires Listed(w, rows) && Evolves(w, v) && done <= |rows| && Cleansed(w, rows, done)
    ensures Cleansed(v, rows, done)
  {
    assert forall i :: 0 <= i < done ==> rows[i] in rows;
  }

  lemma ListedRow(w: World, rows: seq<(nat, nat)>, index: nat)
    requires Listed(w, rows) && index < |rows|
    ensures
      var row := rows[index];
      row.0 < w.nextId && (row.0 in w.live ==> w.live[row.0].name == row.1)
  {
    assert rows[index] in rows;
  }

  lemma CleansedSnoc(w: World, rows: seq<(nat, nat)>, index: nat)
    requires index < |rows| && Cleansed(w, rows, index) && NotOurs(w, rows[index].0)
    ensures Cleansed(w, rows, index + 1)
  {
  }

  lemma ScanBegins(w: World, scan: Scan, containers: Tracking)
    requires scan.rows.Some? && scan.segments == [] && scan.good == []
    ensures Scanned(scan, true) && Joined(scan.segments) == [] && Cleansed(w, scan.rows.value, 0)
    ensures ScannedOff(scan, containers, containers)
  {
  }

  lemma ScannedOffSnoc(scan: Scan, before: Tracking, tracking: Tracking, after: Tracking, segment: seq<Call>, good: bool)
    requires scan.rows.Some? && |scan.segments| < |scan.rows.value| && ScannedOff(scan, before, tracking)
    requires RowForgotten(tracking, after, segment, scan.rows.value[|scan.segments|])
    ensures ScannedOff(scan.(segments := scan.segments + [segment], good := scan.good + [good]), before, after)
  {
    hide Settled, IdOf;
    var k, longer, rows := |scan.segments|, scan.segments + [segment], scan.rows.value;
    forall n: nat
      ensures IdOf(after, n) ==
              if exists i :: 0 <= i < |longer| && Forgets(longer[i], rows[i], n, IdOf(before, n)) then None else IdOf(before, n)
    {
      if i :| 0 <= i < k && Forgets(scan.segments[i], rows[i], n, IdOf(before, n)) {
        assert longer[i] == scan.segments[i];
        assert IdOf(tracking, n) == None;
      } else {
        assert IdOf(tracking, n) == IdOf(before, n);
        assert forall i :: 0 <= i < k ==> longer[i] == scan.segments[i];
        assert longer[k] == segment;
      }
    }
  }

  lemma ScanEnds(w: World, calls: seq<Call>, scan: Scan, ok: bool)
    requires Scanned(scan, ok) && |scan.segments| == |scan.rows.value| && calls == [ListCall(scan.rows)] + Joined(scan.segments)
    requires ok ==> Cleansed(w, scan.rows.value, |scan.rows.value|)
    ensures Scanning(calls, scan, ok)
    ensures ok ==> forall row :: row in scan.rows.value ==> NotOurs(w, row.0)
  {
    hide RowRemoval, NotOurs;
  }

  lemma ScannedSnoc(scan: Scan, ok: bool, segment: seq<Call>, good: bool)
    requires Scanned(scan, ok) && |scan.segments| < |scan.rows.value|
    requires RowRemoval(segment, scan.rows.value[|scan.segments|], good)
    ensures Scanned(scan.(segments := scan.segments + [segment], good := scan.good + [good]), ok && good)
    ensures Joined(scan.segments + [segment]) == Joined(scan.segments) + segment
  {
    hide RowRemoval, AllGood;
    JoinedSnoc(scan.segments, segment);
    GoodSnoc(scan.good, ok, good);
  }

  ghost predicate SameOn(containers: Tracking, before: Tracking, names: set<nat>) {
    forall n :: n in names ==> IdOf(containers, n) == IdOf(before, n)
  }

  lemma SameAt(containers: Tracking, before: Tracking, names: set<nat>, name: nat)
    requires SameOn(containers, before, names) && name in names
    ensures IdOf(containers, name) == IdOf(before, name)
  {
  }

  /** Names already swept are left only if their create is unsettled and the sweep is patient. */
  ghost predicate OnlyUnsettled(containers: Tracking, rest: set<nat>, patient: bool) {
    forall n :: n in containers && n !in rest ==> patient && containers[n] == 0
  }

  lemma SweepLeaves(initial: Tracking, before: Tracking, after: Tracking, rest: set<nat>, patient: bool, ok: bool, name: nat, good: bool)
    requires SameOn(before, initial, rest) && name in rest && after.Keys <= before.Keys
    requires forall n :: n != name ==> IdOf(after, n) == IdOf(before, n)
    requires ok ==> OnlyUnsettled(before, rest, patient)
    requires good ==> name !in after || (patient && after[name] == 0)
    ensures SameOn(after, initial, rest - {name})
    ensures ok && good ==> OnlyUnsettled(after, rest - {name}, patient)
  {
    assert forall n :: n in after && n != name ==> IdOf(after, n) == Some(after[n]) == IdOf(before, n);
  }

  lemma SweepBegins(containers: Tracking, patient: bool)
    ensures SameOn(containers, containers, containers.Keys) && OnlyUnsettled(containers, containers.Keys, patient)
    ensures Joined([]) == [] && LeftBy(Sweep([], [], []), containers.Keys, containers.Keys)
    ensures Sweeping(Sweep([], [], []), containers, containers.Keys, patient, true)
  {
  }

  lemma SweepEnds(left: Tracking, patient: bool, ok: bool)
    requires ok ==> OnlyUnsettled(left, {}, patient)
    ensures ok ==> forall n :: n in left ==> patient && left[n] == 0
  {
  }

  lemma SweepSnoc(sweep: Sweep, containers: Tracking, rest: set<nat>, patient: bool, ok: bool, name: nat, segment: seq<Call>, good: bool)
    requires Sweeping(sweep, containers, rest, patient, ok) && name in rest
    requires Swept(segment, IdOf(containers, name), name, patient, good)
    ensures Sweeping(Sweep(sweep.order + [name], sweep.segments + [segment], sweep.good + [good]), containers, rest - {name}, patient, ok && good)
    ensures Joined(sweep.segments + [segment]) == Joined(sweep.segments) + segment
  {
    hide Swept, EachOnce, EachSwept, AllGood;
    JoinedSnoc(sweep.segments, segment);
    OrderSnoc(sweep.order, containers, rest, name);
    GoodSnoc(sweep.good, ok, good);
    SweptSnoc(sweep, containers, patient, name, segment, good);
  }

  lemma LeftHas(sweep: Sweep, rest: set<nat>, left: set<nat>, name: nat)
    requires |sweep.order| == |sweep.segments| && LeftBy(sweep, rest, left) && name in rest
    ensures name in left
  {
  }

  lemma LeftSnoc(sweep: Sweep, before: Tracking, after: Tracking, rest: set<nat>, initial: Tracking, patient: bool, ok: bool,
                 name: nat, segment: seq<Call>, good: bool)
    requires Sweeping(sweep, initial, rest, patient, ok) && LeftBy(sweep, rest, before.Keys) && name in rest
    requires forall n :: n != name ==> IdOf(after, n) == IdOf(before, n)
    requires name in after <==> !Settled(segment)
    ensures LeftBy(Sweep(sweep.order + [name], sweep.segments + [segment], sweep.good + [good]), rest - {name}, after.Keys)
  {
    hide Settled, EachSwept, AllGood;
    var order, segments := sweep.order + [name], sweep.segments + [segment];
    assert forall n :: n in after && n != name ==> IdOf(after, n) == Some(after[n]) == IdOf(before, n);
    assert forall n :: n in before && n != name ==> IdOf(before, n) == Some(before[n]) == IdOf(after, n);
    assert forall i :: 0 <= i < |sweep.order| ==> sweep.order[i] in sweep.order;
    assert forall i :: 0 <= i < |sweep.order| ==> order[i] == sweep.order[i] && segments[i] == sweep.segments[i];
    assert order[|sweep.order|] == name && segments[|sweep.order|] == segment;
  }

  lemma SweptSnoc(sweep: Sweep, containers: Tracking, patient: bool, name: nat, segment: seq<Call>, good: bool)
    requires |sweep.order| == |sweep.segments| == |sweep.good| && EachSwept(sweep, containers, patient)
    requires Swept(segment, IdOf(containers, name), name, patient, good)
    ensures EachSwept(Sweep(sweep.order + [name], sweep.segments + [segment], sweep.good + [good]), containers, patient)
  {
    hide Swept, IdOf;
  }

  lemma OrderSnoc(order: seq<nat>, containers: Tracking, rest: set<nat>, name: nat)
    requires EachOnce(order, containers, rest) && name in rest
    ensures EachOnce(order + [name], containers, rest - {name})
  {
    assert forall i :: 0 <= i < |order| ==> order[i] in order;
  }

  lemma GoodSnoc(goods: seq<bool>, ok: bool, good: bool)
    requires AllGood(goods, ok)
    ensures AllGood(goods + [good], ok && good)
  {
    assert (goods + [good])[|goods|] == good;
    assert forall i :: 0 <= i < |goods| ==> (goods + [good])[i] == goods[i];
  }

  lemma StillAbsent(w: World, v: World, id: nat)
    requires Evolves(w, v) && id < w.nextId && id !in w.live
    ensures id !in v.live
  {
  }

  lemma NextIdGrows(w: World, v: World)
    requires Evolves(w, v)
    ensures w.nextId <= v.nextId && Sound(v)
  {
  }

  lemma RemovalShape(calls: seq<Call>, id: nat, r: Cleanup)
    requires OwnedRemoval(calls, id, r)
    ensures 1 <= |calls| <= 2 && r != OutcomeUnknown && (r == NotOwned ==> |calls| == 1)
    ensures r == Clean <==> Settled(calls)
  {
  }

  lemma SettledTail(first: seq<Call>, calls: seq<Call>)
    requires calls != []
    ensures Settled(first + calls) <==> Settled(calls)
  {
  }

  lemma {:induction false} LooksExhausted(calls: seq<Call>, name: nat, r: Cleanup)
    requires r == OutcomeUnknown && forall i :: 0 <= i < |calls| ==> calls[i] == InspectNameCall(name, Absent)
    ensures LookingAgain(calls, name, |calls|, r)
  {
    if calls != [] {
      LooksExhausted(calls[1..], name, r);
    }
  }

  lemma {:induction false} LooksEnd(calls: seq<Call>, name: nat, n: nat, looks: nat, r: Cleanup)
    requires n < |calls| && n < looks
    requires forall i :: 0 <= i < n ==> calls[i] == InspectNameCall(name, Absent)
    requires calls[n].InspectNameCall? && calls[n].name == name
    requires
      match calls[n].answer
      case InspectError => |calls| == n + 1 && r == DaemonFailed
      case Absent => false
      case Found(id, ours) => if !ours then |calls| == n + 1 && r == NotOwned else OwnedRemoval(calls[n + 1..], id, r)
    ensures LookingAgain(calls, name, looks, r)
    decreases n
  {
    hide OwnedRemoval;
    if n > 0 {
      assert calls[1..][n..] == calls[n + 1..];
      assert calls[1..][n - 1 + 1..] == calls[n + 1..];
      LooksEnd(calls[1..], name, n - 1, looks - 1, r);
    }
  }

  lemma ExecutingFailed(calls: seq<Call>, looks: seq<Call>, name: nat, interrupted: bool, c: Cleanup)
    requires calls == [CreateCall(name, None)] + looks && LookingAgain(looks, name, REINSPECT_ATTEMPTS, c)
    ensures Executing(calls, name, interrupted, CreateFailed)
  {
    hide LookingAgain;
    assert calls[1..] == looks;
  }

  lemma ExecutingRan(calls: seq<Call>, running: seq<Call>, name: nat, id: nat,
                     i: nat, j: nat, ran: bool, killed: bool, interrupted: bool, r: Executed)
    requires calls == [CreateCall(name, Some(id))] + running && r.CommandRan? && RanBy(running, id, i, j, ran, killed, interrupted, r)
    ensures Executing(calls, name, interrupted, r)
  {
    hide RanBy;
    assert calls[1..] == running;
  }

  /** A cleanup that succeeded created its container, ran it well, and saw it gone or removed. */
  lemma CleanupRan(calls: seq<Call>, name: nat)
    requires Cleaning(calls, name, true)
    ensures exists id :: calls[0] == CreateCall(name, Some(id)) && StartCall(id, true) in calls && Settled(calls)
  {
    var id := calls[0].created.value;
    var i: nat, started: bool, ran: bool, r: Cleanup :| CleanedBy(calls, id, i, started, ran, r, true);
    assert calls[1..i][1] == StartCall(id, true);
    RemovalShape(calls[i..], id, r);
    assert calls == calls[..i] + calls[i..];
    SettledTail(calls[..i], calls[i..]);
  }

  lemma CleaningFailed(calls: seq<Call>, looks: seq<Call>, name: nat, c: Cleanup)
    requires calls == [CreateCall(name, None)] + looks && LookingAgain(looks, name, REINSPECT_ATTEMPTS, c)
    ensures Cleaning(calls, name, false)
  {
    hide LookingAgain;
    assert calls[1..] == looks;
  }

  lemma CleaningRan(calls: seq<Call>, starting: seq<Call>, removing: seq<Call>, name: nat, id: nat,
                    started: bool, ran: bool, removed: Cleanup, ok: bool)
    requires calls == [CreateCall(name, Some(id))] + starting + removing
    requires Starting(starting, id, started, ran) && OwnedRemoval(removing, id, removed) && ok == (ran && removed == Clean)
    ensures Cleaning(calls, name, ok)
  {
    hide Starting, OwnedRemoval;
    var i := 1 + |starting|;
    assert calls[1..i] == starting && calls[i..] == removing;
    assert CleanedBy(calls, id, i, started, ran, removed, ok);
  }
}
