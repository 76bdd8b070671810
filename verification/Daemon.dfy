/**
  A Docker daemon that may fail or delay any call. A create whose client gave up
  may land later; a name held by someone else settles that create as failed.
*/
module Daemon {
  import opened Wrappers

  /** A container: its name (a sequence number) and whether it carries this sandbox's labels. */
  datatype Box = Box(name: nat, owned: bool)

  /** Containers by id (0 is no id), and the names of creates that may still land. */
  datatype World = World(live: map<nat, Box>, inflight: set<nat>, nextId: nat)

  ghost predicate Sound(w: World) {
    && w.nextId > 0
    && (forall id :: id in w.live ==> 0 < id < w.nextId && w.live[id].name !in w.inflight)
    && (forall i, j :: i in w.live && j in w.live && w.live[i].name == w.live[j].name ==> i == j)
  }

  /** What the daemon may do by itself: land or drop creates, lose containers, take strangers in. */
  ghost predicate Evolves(w: World, v: World) {
    && v.nextId >= w.nextId
    && v.inflight <= w.inflight
    && (forall id :: id in v.live ==>
          if id < w.nextId then id in w.live && w.live[id] == v.live[id]
          else v.live[id].owned ==> v.live[id].name in w.inflight)
    && Sound(v)
  }

  lemma EvolvesTransitive(w: World, v: World, u: World)
    requires Evolves(w, v) && Evolves(v, u)
    ensures Evolves(w, u)
  {
  }

  /** No container of this sandbox has the name, now or ever again. */
  ghost predicate Gone(w: World, name: nat) {
    name !in w.inflight && forall id :: id in w.live && w.live[id].owned ==> w.live[id].name != name
  }

  ghost predicate NoneRemains(w: World) {
    w.inflight == {} && forall id :: id in w.live ==> !w.live[id].owned
  }

  lemma NoneStays(w: World, v: World)
    requires NoneRemains(w) && Evolves(w, v)
    ensures NoneRemains(v)
  {
  }

  /** Once a landed container has left, its name is gone: a name is created once. */
  lemma LeftIsGone(w: World, v: World, id: nat)
    requires Sound(w) && Evolves(w, v) && id in w.live && w.live[id].owned && id !in v.live
    ensures Gone(v, w.live[id].name)
  {
  }

  /** Ids the daemon gave out, under the names they have. */
  ghost predicate Listed(w: World, rows: seq<(nat, nat)>) {
    forall row :: row in rows ==> row.0 < w.nextId && (row.0 in w.live ==> w.live[row.0].name == row.1)
  }

  datatype Inspection = InspectError | Absent | Found(id: nat, owned: bool)

  /** A call of the client and the answer it got. */
  datatype Call =
    | CreateCall(name: nat, created: Option<nat>)
    | InspectNameCall(name: nat, answer: Inspection)
    | InspectIdCall(id: nat, answer: Inspection)
    | StartCall(id: nat, ok: bool)
    | KillCall(id: nat, ok: bool)
    | RemoveCall(id: nat, ok: bool)
    | ListCall(rows: Option<seq<(nat, nat)>>)

  class DockerDaemon {
    var world: World
    /** Every call so far, with its answer. */
    var calls: seq<Call>

    constructor ()
      ensures Sound(world) && NoneRemains(world) && calls == []
    {
      world, calls := World(map[], {}, 1), [];
    }

    /** Any number of steps of the daemon's own. */
    method Evolve()
      requires Sound(world)
      modifies this`world
      ensures Evolves(old(world), world)
    {
      var steps: nat := *;
      while steps > 0
        invariant Evolves(old(world), world)
      {
        ghost var before := world;
        if {
          case true =>
            var name: nat := *;
            Land(name);
          case true =>
            var name: nat := *;
            world := world.(inflight := world.inflight - {name});
          case true =>
            var id: nat := *;
            world := world.(live := world.live - {id});
          case true =>
            var name: nat := *;
            Stranger(name);
        }
        EvolvesTransitive(old(world), before, world);
        steps := steps - 1;
      }
    }

    method Land(name: nat)
      requires Sound(world)
      modifies this`world
      ensures Evolves(old(world), world)
      ensures name in old(world).inflight ==>
                world.nextId - 1 in world.live && world.live[world.nextId - 1] == Box(name, true)
    {
      if name in world.inflight {
        world := World(world.live[world.nextId := Box(name, true)], world.inflight - {name}, world.nextId + 1);
      }
    }

    method Stranger(name: nat)
      requires Sound(world)
      modifies this`world
      ensures Evolves(old(world), world)
    {
      if forall id :: id in world.live ==> world.live[id].name != name {
        world := World(world.live[world.nextId := Box(name, false)], world.inflight - {name}, world.nextId + 1);
      }
    }

    /** docker create, and the client's own inspection of the result. Failing tells nothing. */
    method Create(name: nat) returns (r: Option<nat>, ghost at: World)
      requires Sound(world)
      modifies this
      ensures calls == old(calls) + [CreateCall(name, r)]
      ensures Evolves(old(world).(inflight := old(world).inflight + {name}), at) && Evolves(at, world)
      ensures r.Some? ==> r.value in at.live && at.live[r.value] == Box(name, true)
    {
      Evolve();
      r := None;
      if forall id :: id in world.live ==> world.live[id].name != name {
        world := world.(inflight := world.inflight + {name});
        if {
          case true => world := world.(inflight := world.inflight - {name});
          case true =>
          case true => r := Landed(name);
        }
      }
      at := world;
      Evolve();
      calls := calls + [CreateCall(name, r)];
    }

    /** The create lands at once; its client may still fail to learn so. */
    method Landed(name: nat) returns (r: Option<nat>)
      requires Sound(world) && name in world.inflight
      modifies this`world
      ensures Evolves(old(world), world)
      ensures r.Some? ==> r.value in world.live && world.live[r.value] == Box(name, true)
    {
      Land(name);
      var told: bool := *;
      r := if told then Some(world.nextId - 1) else None;
    }

    method InspectName(name: nat) returns (r: Inspection, ghost at: World)
      requires Sound(world)
      modifies this
      ensures calls == old(calls) + [InspectNameCall(name, r)]
      ensures Evolves(old(world), at) && Evolves(at, world)
      ensures r.Absent? ==> forall id :: id in at.live ==> at.live[id].name != name
      ensures r.Found? ==> r.id in at.live && at.live[r.id] == Box(name, r.owned)
    {
      Evolve();
      at := world;
      if * {
        r := InspectError;
      } else if id :| id in world.live && world.live[id].name == name {
        r := Found(id, world.live[id].owned);
      } else {
        r := Absent;
      }
      Evolve();
      calls := calls + [InspectNameCall(name, r)];
    }

    method InspectId(id: nat) returns (r: Inspection, ghost at: World)
      requires Sound(world)
      modifies this
      ensures calls == old(calls) + [InspectIdCall(id, r)]
      ensures Evolves(old(world), at) && Evolves(at, world)
      ensures r.Absent? ==> id !in at.live
      ensures r.Found? ==> r.id == id && id in at.live && at.live[id].owned == r.owned
    {
      Evolve();
      at := world;
      if * {
        r := InspectError;
      } else if id in world.live {
        r := Found(id, world.live[id].owned);
      } else {
        r := Absent;
      }
      Evolve();
      calls := calls + [InspectIdCall(id, r)];
    }

    /** docker start: the container's command ran, well or not. */
    method Start(id: nat) returns (ok: bool)
      requires Sound(world)
      modifies this
      ensures calls == old(calls) + [StartCall(id, ok)]
      ensures Evolves(old(world), world)
    {
      Evolve();
      ok := *;
      calls := calls + [StartCall(id, ok)];
    }

    method Kill(id: nat) returns (ok: bool)
      requires Sound(world)
      modifies this
      ensures calls == old(calls) + [KillCall(id, ok)]
      ensures Evolves(old(world), world)
    {
      Evolve();
      ok := *;
      calls := calls + [KillCall(id, ok)];
    }

    /** docker rm -f. Success means gone; failure tells nothing. */
    method Remove(id: nat) returns (ok: bool)
      requires Sound(world)
      modifies this
      ensures calls == old(calls) + [RemoveCall(id, ok)]
      ensures Evolves(old(world), world)
      ensures ok && id < old(world).nextId ==> id !in world.live
    {
      ghost var before := world;
      Evolve();
      ghost var middle := world;
      ok := *;
      if ok {
        world := world.(live := world.live - {id});
      }
      ghost var removed := world;
      EvolvesTransitive(before, middle, removed);
      Evolve();
      EvolvesTransitive(before, removed, world);
      calls := calls + [RemoveCall(id, ok)];
    }

    /** docker ps -a by owner label: fails, or lists some containers with their names. */
    method List() returns (r: Option<seq<(nat, nat)>>)
      requires Sound(world)
      modifies this
      ensures calls == old(calls) + [ListCall(r)]
      ensures Evolves(old(world), world)
      ensures r.Some? ==> Listed(world, r.value)
    {
      ghost var before := world;
      Evolve();
      ghost var middle := world;
      r := None;
      if * {
        var rows: seq<(nat, nat)> := [];
        var rest := world.live.Keys;
        while rest != {}
          invariant rest <= world.live.Keys && world == middle
          invariant forall row :: row in rows ==> row.0 in world.live && world.live[row.0].name == row.1
        {
          var id :| id in rest;
          rest := rest - {id};
          if * {
            rows := rows + [(id, world.live[id].name)];
          }
        }
        r := Some(rows);
      }
      Evolve();
      EvolvesTransitive(before, middle, world);
      calls := calls + [ListCall(r)];
    }
  }
}
