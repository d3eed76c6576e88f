/** Which containers, volumes and network a measurement owns, while any command may fail. */
module Ledger {
  import opened Prelude
  import opened Text
  import opened Address
  import opened Rotation

  // ---------------------------------------------------------------- lists of names

  /** list.remove: the first occurrence goes. */
  function Dropped(s: seq<string>, x: string): seq<string> {
    if s == [] then [] else if s[0] == x then s[1..] else [s[0]] + Dropped(s[1..], x)
  }

  function HelperPrefix(prefix: string, id: string): string { prefix + "-" + id + "-helper-" }

  /** The containers of a case: its server and its helpers. */
  predicate Mine(prefix: string, id: string, server: Option<string>, name: string) {
    server == Some(name) || HelperPrefix(prefix, id) <= name
  }

  function Others(s: seq<string>, prefix: string, id: string, server: Option<string>): seq<string> {
    if s == [] then []
    else (if Mine(prefix, id, server, s[0]) then [] else [s[0]]) + Others(s[1..], prefix, id, server)
  }

  lemma {:induction false} DroppedAt(a: seq<string>, x: string, b: seq<string>)
    requires x !in a
    ensures Dropped(a + [x] + b, x) == a + b
  {
    if a == [] {
      assert (a + [x] + b)[1..] == b;
    } else {
      assert (a + [x] + b)[1..] == a[1..] + [x] + b;
      DroppedAt(a[1..], x, b);
    }
  }

  lemma {:induction false} DroppedMembers(s: seq<string>, x: string)
    requires Distinct(s)
    ensures Distinct(Dropped(s, x)) && forall y :: y in Dropped(s, x) <==> y in s && y != x
  {
    if s != [] {
      assert s == [s[0]] + s[1..];
      DistinctTail(s[0], s[1..]);
      DroppedMembers(s[1..], x);
      if s[0] != x { DistinctCons(s[0], Dropped(s[1..], x)); }
    }
  }

  lemma {:induction false} OthersDropped(s: seq<string>, x: string, prefix: string, id: string, server: Option<string>)
    requires Mine(prefix, id, server, x)
    ensures Others(Dropped(s, x), prefix, id, server) == Others(s, prefix, id, server)
  {
    if s != [] && s[0] != x {
      OthersDropped(s[1..], x, prefix, id, server);
      assert ([s[0]] + Dropped(s[1..], x))[1..] == Dropped(s[1..], x);
    }
  }

  lemma {:induction false} OthersAll(s: seq<string>, prefix: string, id: string, server: Option<string>)
    requires forall k :: 0 <= k < |s| ==> !Mine(prefix, id, server, s[k])
    ensures Others(s, prefix, id, server) == s
  {
    if s != [] { OthersAll(s[1..], prefix, id, server); }
  }

  // ---------------------------------------------------------------- the commands

  /** The commands for the container engine, each written to a list before it is run. */
  datatype Command =
    | CreateContainer(name: string) | Inspect(name: string) | Halt(name: string) | Logs(name: string) | DeleteContainer(name: string)
    | CreateVolume(name: string) | FillVolume(name: string) | DeleteVolume(name: string)
    | NewNetwork(name: string) | DeleteNetwork(name: string)

  /** Collecting logs may fail; after any other failure the measurement does not go on. */
  predicate Checked(c: Command) { !c.Logs? }

  /** Newest first; the logs of a dependency are collected before it goes. */
  function ContainerCommands(names: seq<string>, services: set<string>): seq<Command> {
    if names == [] then []
    else
      var x := names[|names| - 1];
      (if x in services then [Logs(x)] else []) + [DeleteContainer(x)] + ContainerCommands(names[..|names| - 1], services)
  }

  function VolumeCommands(names: seq<string>): seq<Command> {
    if names == [] then [] else [DeleteVolume(names[|names| - 1])] + VolumeCommands(names[..|names| - 1])
  }

  /** The commands for the helpers of a case, oldest first. */
  function HelperCommands(names: seq<string>, helper: string): seq<Command> {
    if names == [] then []
    else
      var x := names[|names| - 1];
      HelperCommands(names[..|names| - 1], helper) + (if helper <= x then [Logs(x), DeleteContainer(x)] else [])
  }

  function ServerCommands(containers: seq<string>, server: Option<string>, running: bool): seq<Command> {
    if server.None? || server.value !in containers then []
    else [Inspect(server.value)] + (if running then [Halt(server.value)] else []) + [Logs(server.value), DeleteContainer(server.value)]
  }

  /** What is left of the containers once the server is gone. */
  function WithoutServer(containers: seq<string>, server: Option<string>): seq<string> {
    if server.Some? then Dropped(containers, server.value) else containers
  }

  function CaseCommands(containers: seq<string>, helper: string, server: Option<string>, running: bool): seq<Command> {
    ServerCommands(containers, server, running) + HelperCommands(WithoutServer(containers, server), helper)
  }

  /** The server of a case, its helpers, its volume. */
  function FinishCommands(containers: seq<string>, helper: string, server: Option<string>, running: bool,
                          volumes: seq<string>, volume: Option<string>): seq<Command>
  {
    CaseCommands(containers, helper, server, running) + EndCommands(volumes, volume)
  }

  function EndCommands(volumes: seq<string>, volume: Option<string>): seq<Command> {
    if volume.Some? && volume.value in volumes then [DeleteVolume(volume.value)] else []
  }

  /** The last command failed although it should not have, or none since the given number did. */
  ghost predicate Stopped(commands: seq<Command>, ok: bool, from: nat, works: nat -> bool) {
    && from <= |commands|
    && (!ok ==> from < |commands| && Checked(commands[|commands| - 1]) && !works(|commands|))
    && (ok ==> forall n :: from <= n < |commands| && Checked(commands[n]) ==> works(n + 1))
  }

  lemma NotYetStopped(commands: seq<Command>, works: nat -> bool)
    ensures Stopped(commands, true, |commands|, works)
  {}

  lemma StoppedNext(commands: seq<Command>, from: nat, c: Command, works: nat -> bool)
    requires Stopped(commands, true, from, works)
    ensures Stopped(commands + [c], !Checked(c) || works(|commands| + 1), from, works)
  {}

  lemma StoppedThen(commands: seq<Command>, later: seq<Command>, ok: bool, from: nat, works: nat -> bool)
    requires Stopped(commands, true, from, works) && commands <= later && Stopped(later, ok, |commands|, works)
    ensures Stopped(later, ok, from, works)
  {}

  /** Since the given number, the removals were of these containers or volumes, and those that failed left these. */
  ghost predicate Traced(commands: seq<Command>, volumes: bool, from: nat, gone: seq<string>, left: seq<string>, works: nat -> bool) {
    && from <= |commands|
    && forall n :: from <= n < |commands| && Removes(commands[n], volumes) ==>
         commands[n].name in gone && (commands[n].name in left <==> !works(n + 1))
  }

  predicate Removes(c: Command, volumes: bool) { if volumes then c.DeleteVolume? else c.DeleteContainer? }

  lemma TracedNext(commands: seq<Command>, volumes: bool, from: nat, gone: seq<string>, left: seq<string>, works: nat -> bool, c: Command)
    requires Traced(commands, volumes, from, gone, left, works) && Removes(c, volumes) && c.name !in gone && c.name !in left
    ensures Traced(commands + [c], volumes, from, [c.name] + gone, if works(|commands| + 1) then left else [c.name] + left, works)
  {
    var later := commands + [c];
    forall n | from <= n < |later| && Removes(later[n], volumes)
      ensures later[n].name in [c.name] + gone
      ensures later[n].name in (if works(|commands| + 1) then left else [c.name] + left) <==> !works(n + 1)
    {
      if n < |commands| { assert later[n] == commands[n]; }
    }
  }

  // ---------------------------------------------------------------- the ledger

  class Ledger {
    const prefix: string
    const services: set<string>
    var containers: seq<string>
    var volumes: seq<string>
    var network: Option<string>
    var sequence: nat
    var commands: seq<Command>
    // what the container engine holds of ours
    var liveContainers: set<string>
    var liveVolumes: set<string>
    var liveNetworks: set<string>

    /** The lists hold exactly what was created and not yet removed, and every command is numbered. */
    ghost predicate Exact()
      reads this
    {
      && Distinct(containers) && (forall x :: x in containers <==> x in liveContainers)
      && Distinct(volumes) && (forall x :: x in volumes <==> x in liveVolumes)
      && (forall x :: x in liveNetworks ==> network == Some(x))
      && sequence == |commands|
    }

    constructor (name: string, dependencies: set<string>)
      ensures Exact() && containers == [] && volumes == [] && network.None? && prefix == name && services == dependencies
      ensures liveContainers == {} && liveVolumes == {} && liveNetworks == {} && commands == []
    {
      prefix, services := name, dependencies;
      containers, volumes, network, sequence, commands := [], [], None, 0, [];
      liveContainers, liveVolumes, liveNetworks := {}, {}, {};
    }

    /** One command: it is numbered and listed, and it may fail. */
    method Run(c: Command, works: nat -> bool) returns (ok: bool)
      modifies this`sequence, this`commands
      ensures sequence == old(sequence) + 1 && commands == old(commands) + [c] && ok == works(sequence)
    {
      sequence := sequence + 1;
      commands := commands + [c];
      ok := works(sequence);
    }

    /** A container is created and recorded exactly when the command works and its name is free. */
    method Create(suffix: string, works: nat -> bool) returns (name: string, ok: bool)
      requires Exact()
      modifies this`containers, this`sequence, this`commands, this`liveContainers
      ensures Exact() && name == prefix + "-" + suffix && commands == old(commands) + [CreateContainer(name)]
      ensures ok <==> works(|commands|) && name !in old(containers)
      ensures containers == if ok then old(containers) + [name] else old(containers)
    {
      name := prefix + "-" + suffix;
      ok := Run(CreateContainer(name), works);
      ok := ok && name !in liveContainers;
      if !ok { return; }
      liveContainers := liveContainers + {name};
      containers := containers + [name];
    }

    /** A container goes, from the engine and from the list, exactly when the command works. */
    method Remove(name: string, works: nat -> bool) returns (ok: bool)
      requires Exact() && name in containers
      modifies this`containers, this`sequence, this`commands, this`liveContainers
      ensures Exact() && commands == old(commands) + [DeleteContainer(name)] && (ok <==> works(|commands|))
      ensures containers == if ok then Dropped(old(containers), name) else old(containers)
    {
      ok := Run(DeleteContainer(name), works);
      if !ok { return; }
      DroppedMembers(containers, name);
      liveContainers := liveContainers - {name};
      containers := Dropped(containers, name);
    }

    /** The volume is recorded before it is filled, so it stays recorded when filling it fails. */
    method Volume(suffix: string, works: nat -> bool) returns (name: string, ok: bool)
      requires Exact()
      modifies this`volumes, this`sequence, this`commands, this`liveVolumes
      ensures Exact() && name == prefix + "-" + suffix
      ensures var created := works(|old(commands)| + 1) && name !in old(volumes);
              && volumes == (if created then old(volumes) + [name] else old(volumes))
              && commands == old(commands) + [CreateVolume(name)] + (if created then [FillVolume(name)] else [])
              && (ok <==> created && works(|commands|))
    {
      name := prefix + "-" + suffix;
      ok := Run(CreateVolume(name), works);
      ok := ok && name !in liveVolumes;
      if !ok { return; }
      liveVolumes := liveVolumes + {name};
      volumes := volumes + [name];
      ok := Run(FillVolume(name), works);
    }

    method RemoveVolume(name: string, works: nat -> bool) returns (ok: bool)
      requires Exact() && name in volumes
      modifies this`volumes, this`sequence, this`commands, this`liveVolumes
      ensures Exact() && commands == old(commands) + [DeleteVolume(name)] && (ok <==> works(|commands|))
      ensures volumes == if ok then Dropped(old(volumes), name) else old(volumes)
    {
      ok := Run(DeleteVolume(name), works);
      if !ok { return; }
      DroppedMembers(volumes, name);
      liveVolumes := liveVolumes - {name};
      volumes := Dropped(volumes, name);
    }

    /** The name is recorded first: it stays recorded when the command fails. */
    method CreateNetwork(works: nat -> bool) returns (ok: bool)
      requires Exact() && network.None?
      modifies this`network, this`sequence, this`commands, this`liveNetworks
      ensures Exact() && network == Some(prefix + "-net") && commands == old(commands) + [NewNetwork(network.value)]
      ensures (ok <==> works(|commands|)) && (ok <==> network.value in liveNetworks)
    {
      network := Some(prefix + "-net");
      ok := Run(NewNetwork(network.value), works);
      if ok { liveNetworks := liveNetworks + {network.value}; }
    }

    /**
     * Ends a case. Whatever fails, nothing of another case or of a dependency is touched; the commands are run up to the
     * first failure, and when nothing fails, everything of this case is gone.
     */
    method FinishCase(id: string, server: Option<string>, volume: Option<string>, running: bool, works: nat -> bool)
        returns (ok: bool)
      requires Exact()
      modifies this`containers, this`volumes, this`sequence, this`commands, this`liveContainers, this`liveVolumes
      ensures Exact() && Stopped(commands, ok, |old(commands)|, works)
      ensures var all := old(commands) + FinishCommands(old(containers), HelperPrefix(prefix, id), server, running, old(volumes), volume);
              commands <= all && (ok ==> commands == all)
      ensures Others(containers, prefix, id, server) == Others(old(containers), prefix, id, server)
      ensures ok ==> containers == Others(old(containers), prefix, id, server)
      ensures volumes == if ok && volume.Some? && volume.value in old(volumes) then Dropped(old(volumes), volume.value) else old(volumes)
    {
      hide Stopped, Others, Dropped, CaseCommands, HelperPrefix;
      ok := RemoveCase(id, server, running, works);
      if !ok { return; }
      if volume.Some? && volume.value in volumes {
        ghost var before := commands;
        ok := RemoveVolume(volume.value, works);
        StoppedNext(before, |old(commands)|, DeleteVolume(volume.value), works);
      }
    }

    method RemoveCase(id: string, server: Option<string>, running: bool, works: nat -> bool) returns (ok: bool)
      requires Exact()
      modifies this`containers, this`sequence, this`commands, this`liveContainers
      ensures Exact() && Stopped(commands, ok, |old(commands)|, works)
      ensures var all := old(commands) + CaseCommands(old(containers), HelperPrefix(prefix, id), server, running);
              commands <= all && (ok ==> commands == all)
      ensures Others(containers, prefix, id, server) == Others(old(containers), prefix, id, server)
      ensures ok ==> containers == Others(old(containers), prefix, id, server)
    {
      hide Stopped, Others, HelperCommands, ServerCommands, Dropped;
      ok := RemoveServer(id, server, running, works);
      if !ok { return; }
      ghost var before := commands;
      ok := RemoveHelpers(id, server, works);
      StoppedThen(before, commands, ok, |old(commands)|, works);
    }

    method RemoveServer(id: string, server: Option<string>, running: bool, works: nat -> bool) returns (ok: bool)
      requires Exact()
      modifies this`containers, this`sequence, this`commands, this`liveContainers
      ensures Exact() && Stopped(commands, ok, |old(commands)|, works)
      ensures var all := old(commands) + ServerCommands(old(containers), server, running);
              commands <= all && (ok ==> commands == all)
      ensures Others(containers, prefix, id, server) == Others(old(containers), prefix, id, server)
      ensures ok ==> containers == WithoutServer(old(containers), server)
      ensures ok && server.Some? ==> server.value !in containers
    {
      hide Stopped, Others, Dropped;
      if server.None? || server.value !in containers {
        if server.Some? { DroppedNone(containers, server.value); }
        NotYetStopped(commands, works);
        return true;
      }
      ok := LookAtServer(server.value, running, works);
      if !ok { return; }
      ghost var before := commands;
      DroppedMembers(containers, server.value);
      OthersDropped(containers, server.value, prefix, id, server);
      ok := Remove(server.value, works);
      StoppedNext(before, |old(commands)|, DeleteContainer(server.value), works);
    }

    method LookAtServer(name: string, running: bool, works: nat -> bool) returns (ok: bool)
      requires Exact()
      modifies this`sequence, this`commands
      ensures Exact() && Stopped(commands, ok, |old(commands)|, works)
      ensures var all := old(commands) + [Inspect(name)] + (if running then [Halt(name)] else []) + [Logs(name)];
              commands <= all && (ok ==> commands == all)
    {
      hide Stopped;
      NotYetStopped(commands, works);
      StoppedNext(commands, |commands|, Inspect(name), works);
      ok := Run(Inspect(name), works);
      if !ok { return; }
      if running {
        StoppedNext(commands, |old(commands)|, Halt(name), works);
        ok := Run(Halt(name), works);
        if !ok { return; }
      }
      StoppedNext(commands, |old(commands)|, Logs(name), works);
      var _ := Run(Logs(name), works);
    }

    method RemoveHelpers(id: string, server: Option<string>, works: nat -> bool) returns (ok: bool)
      requires Exact() && (server.Some? ==> server.value !in containers)
      modifies this`containers, this`sequence, this`commands, this`liveContainers
      ensures Exact() && Stopped(commands, ok, |old(commands)|, works)
      ensures var all := old(commands) + HelperCommands(old(containers), HelperPrefix(prefix, id));
              old(commands) <= commands <= all && (ok ==> commands == all)
      ensures Others(containers, prefix, id, server) == Others(old(containers), prefix, id, server)
      ensures ok ==> containers == Others(old(containers), prefix, id, server)
    {
      hide Stopped, Others, Dropped, HelperCommands, HelperPrefix;
      var names, helper := containers, HelperPrefix(prefix, id);
      var i := 0;
      ok := true;
      NotYetStopped(commands, works);
      CommandsBegin(names, helper);
      while i < |names|
        invariant 0 <= i <= |names| && Exact() && Stopped(commands, true, |old(commands)|, works)
        invariant commands == old(commands) + HelperCommands(names[..i], helper)
        invariant forall x :: x in containers ==> x in names
        invariant Others(containers, prefix, id, server) == Others(names, prefix, id, server)
        invariant forall k :: 0 <= k < i ==> !(helper <= names[k]) || names[k] !in containers
        invariant forall k :: i <= k < |names| ==> names[k] in containers
      {
        CommandsNext(names, i, helper);
        if helper <= names[i] {
          ghost var before := commands;
          DroppedMembers(containers, names[i]);
          assert Mine(prefix, id, server, names[i]);
          OthersDropped(containers, names[i], prefix, id, server);
          ok := RemoveHelper(names[i], |old(commands)|, works);
          if !ok {
            CommandsUpTo(names, i + 1, helper);
            return;
          }
        }
        i := i + 1;
      }
      assert names[..i] == names;
      forall k | 0 <= k < |containers| ensures !Mine(prefix, id, server, containers[k]) {
        assert containers[k] in containers;
      }
      OthersAll(containers, prefix, id, server);
    }

    method RemoveHelper(name: string, ghost from: nat, works: nat -> bool) returns (ok: bool)
      requires Exact() && name in containers && Stopped(commands, true, from, works)
      modifies this`containers, this`sequence, this`commands, this`liveContainers
      ensures Exact() && commands == old(commands) + [Logs(name), DeleteContainer(name)] && Stopped(commands, ok, from, works)
      ensures containers == if ok then Dropped(old(containers), name) else old(containers)
    {
      hide Stopped, Dropped;
      StoppedNext(commands, from, Logs(name), works);
      var _ := Run(Logs(name), works);
      StoppedNext(commands, from, DeleteContainer(name), works);
      ok := Remove(name, works);
    }

    /**
     * Everything is tried, newest first, one command for each entry. What stays is exactly what its command failed for,
     * and there is one error for each of these.
     */
    method Cleanup(works: nat -> bool) returns (errors: nat)
      requires Exact()
      modifies this`containers, this`volumes, this`network, this`sequence, this`commands, this`liveContainers, this`liveVolumes,
               this`liveNetworks
      ensures Exact()
      ensures commands == old(commands) + ContainerCommands(old(containers), services) + VolumeCommands(old(volumes))
                          + (if old(network).Some? then [DeleteNetwork(old(network).value)] else [])
      ensures forall n :: |old(commands)| <= n < |commands| && commands[n].DeleteContainer? ==>
                (commands[n].name in containers <==> !works(n + 1))
      ensures forall n :: |old(commands)| <= n < |commands| && commands[n].DeleteVolume? ==>
                (commands[n].name in volumes <==> !works(n + 1))
      ensures network == if old(network.Some? && network.value in liveNetworks) && works(|commands|) then None else old(network)
      ensures errors == |containers| + |volumes| + (if network.Some? then 1 else 0)
      ensures errors == 0 ==> liveContainers == {} && liveVolumes == {} && liveNetworks == {}
      ensures (forall n: nat :: works(n)) && old(network.Some? ==> network.value in liveNetworks) ==> errors == 0
      // a network whose creation failed is still recorded, and is reported although there is nothing left
      ensures old(network.Some? && network.value !in liveNetworks) ==> errors >= 1
    {
      var left := RemoveContainers(works);
      var kept := RemoveVolumes(works);
      errors := left + kept;
      if network.Some? {
        var ok := Run(DeleteNetwork(network.value), works);
        if ok && network.value in liveNetworks {
          liveNetworks := liveNetworks - {network.value};
          network := None;
        } else {
          errors := errors + 1;
        }
      }
      NoVolumes(old(containers), services);
      NoContainers(old(volumes));
      assert containers == [] ==> forall x :: x in liveContainers ==> x in containers;
      assert volumes == [] ==> forall x :: x in liveVolumes ==> x in volumes;
    }

    method RemoveContainers(works: nat -> bool) returns (errors: nat)
      requires Exact()
      modifies this`containers, this`sequence, this`commands, this`liveContainers
      ensures Exact() && errors == |containers| && commands == old(commands) + ContainerCommands(old(containers), services)
      ensures Traced(commands, false, |old(commands)|, old(containers), containers, works)
      ensures (forall n: nat :: works(n)) ==> errors == 0
    {
      hide Halfway, Traced, Dropped, ContainerCommands;
      errors := 0;
      var names := containers;
      var i := |names|;
      ghost var left: seq<string> := [];
      HalfwayBegins(false, names, services, commands, works);
      while i > 0
        invariant 0 <= i <= |names| && Exact()
        invariant Halfway(false, names, services, i, containers, left, errors, commands, old(commands), works)
      {
        HalfwayNext(false, names, services, i, containers, left, errors, commands, old(commands), works);
        i := i - 1;
        var ok := TryContainer(names[i], works);
        if !ok {
          errors := errors + 1;
          left := [names[i]] + left;
        }
      }
      HalfwayEnds(false, names, services, containers, left, errors, commands, old(commands), works);
    }

    method TryContainer(x: string, works: nat -> bool) returns (ok: bool)
      requires Exact() && x in containers
      modifies this`containers, this`sequence, this`commands, this`liveContainers
      ensures Exact() && commands == old(commands) + Removal(false, x, services) && (ok <==> works(|commands|))
      ensures containers == if ok then Dropped(old(containers), x) else old(containers)
    {
      hide Dropped;
      if x in services { var _ := Run(Logs(x), works); }
      ok := Remove(x, works);
    }

    method RemoveVolumes(works: nat -> bool) returns (errors: nat)
      requires Exact()
      modifies this`volumes, this`sequence, this`commands, this`liveVolumes
      ensures Exact() && errors == |volumes| && commands == old(commands) + VolumeCommands(old(volumes))
      ensures Traced(commands, true, |old(commands)|, old(volumes), volumes, works)
      ensures (forall n: nat :: works(n)) ==> errors == 0
    {
      hide Halfway, Traced, Dropped, VolumeCommands;
      errors := 0;
      var names := volumes;
      var i := |names|;
      ghost var left: seq<string> := [];
      HalfwayBegins(true, names, services, commands, works);
      while i > 0
        invariant 0 <= i <= |names| && Exact()
        invariant Halfway(true, names, services, i, volumes, left, errors, commands, old(commands), works)
      {
        HalfwayNext(true, names, services, i, volumes, left, errors, commands, old(commands), works);
        i := i - 1;
        var ok := RemoveVolume(names[i], works);
        if !ok {
          errors := errors + 1;
          left := [names[i]] + left;
        }
      }
      HalfwayEnds(true, names, services, volumes, left, errors, commands, old(commands), works);
    }
  }

  /** One step back through the names: the next one is there once, before what is left. */
  lemma Next(names: seq<string>, now: seq<string>, i: nat, left: seq<string>)
    requires i < |names| && Distinct(names) && Distinct(now) && now == names[..i + 1] + left
    requires forall x :: x in left ==> x in names[i + 1..]
    ensures names[i] in now && names[i] !in names[i + 1..] && names[i] !in left
    ensures Dropped(now, names[i]) == names[..i] + left && now == names[..i] + ([names[i]] + left)
  {
    hide Dropped;
    var x := names[i];
    assert names[..i + 1] == names[..i] + [x];
    assert now == names[..i] + [x] + left;
    assert now[i] == x;
    Before(names, i);
    DroppedAt(names[..i], x, left);
  }

  lemma TracedNone(commands: seq<Command>, volumes: bool, works: nat -> bool)
    ensures Traced(commands, volumes, |commands|, [], [], works)
  {}

  // ---------------------------------------------------------------- the loops of the cleanup

  function Removal(volumes: bool, x: string, services: set<string>): seq<Command> {
    if volumes then [DeleteVolume(x)] else (if x in services then [Logs(x)] else []) + [DeleteContainer(x)]
  }

  function Removals(volumes: bool, names: seq<string>, services: set<string>): seq<Command> {
    if volumes then VolumeCommands(names) else ContainerCommands(names, services)
  }

  /** The names from i on have been tried, some of which are left; one error for each of them. */
  ghost predicate Halfway(volumes: bool, names: seq<string>, services: set<string>, i: nat, now: seq<string>, left: seq<string>,
                          errors: nat, commands: seq<Command>, start: seq<Command>, works: nat -> bool)
  {
    && i <= |names| && now == names[..i] + left && |left| == errors && (forall x :: x in left ==> x in names[i..])
    && commands + Removals(volumes, names[..i], services) == start + Removals(volumes, names, services)
    && Traced(commands, volumes, |start|, names[i..], left, works)
    && ((forall n: nat :: works(n)) ==> errors == 0)
  }

  lemma HalfwayBegins(volumes: bool, names: seq<string>, services: set<string>, start: seq<Command>, works: nat -> bool)
    ensures Halfway(volumes, names, services, |names|, names, [], 0, start, start, works)
  {
    hide ContainerCommands, VolumeCommands;
    assert names[..|names|] == names && names[|names|..] == [];
    TracedNone(start, volumes, works);
  }

  lemma RemovalNext(volumes: bool, names: seq<string>, services: set<string>, i: nat)
    requires i < |names|
    ensures Removals(volumes, names[..i + 1], services) == Removal(volumes, names[i], services) + Removals(volumes, names[..i], services)
  {
    assert names[..i + 1][..i] == names[..i];
  }

  lemma RemovalTraced(commands: seq<Command>, volumes: bool, from: nat, gone: seq<string>, left: seq<string>, works: nat -> bool,
                      x: string, services: set<string>)
    requires Traced(commands, volumes, from, gone, left, works) && x !in gone && x !in left
    ensures var later := commands + Removal(volumes, x, services);
            Traced(later, volumes, from, [x] + gone, if works(|later|) then left else [x] + left, works)
  {
    if !volumes && x in services {
      var logged := commands + [Logs(x)];
      assert Traced(logged, volumes, from, gone, left, works);
      hide Traced;
      TracedNext(logged, volumes, from, gone, left, works, DeleteContainer(x));
      assert logged + [DeleteContainer(x)] == commands + Removal(volumes, x, services);
    } else {
      hide Traced;
      TracedNext(commands, volumes, from, gone, left, works, if volumes then DeleteVolume(x) else DeleteContainer(x));
    }
  }

  lemma HalfwayNext(volumes: bool, names: seq<string>, services: set<string>, i: nat, now: seq<string>, left: seq<string>,
                    errors: nat, commands: seq<Command>, start: seq<Command>, works: nat -> bool)
    requires 0 < i <= |names| && Distinct(names) && Distinct(now)
    requires Halfway(volumes, names, services, i, now, left, errors, commands, start, works)
    ensures var x := names[i - 1];
            var later := commands + Removal(volumes, x, services);
            && x in now
            && (works(|later|) ==> Halfway(volumes, names, services, i - 1, Dropped(now, x), left, errors, later, start, works))
            && (!works(|later|) ==> Halfway(volumes, names, services, i - 1, now, [x] + left, errors + 1, later, start, works))
  {
    hide ContainerCommands, VolumeCommands, Traced, Dropped, Removal, Removals;
    var x := names[i - 1];
    var later := commands + Removal(volumes, x, services);
    Next(names, now, i - 1, left);
    RemovalNext(volumes, names, services, i - 1);
    assert later + Removals(volumes, names[..i - 1], services) == commands + Removals(volumes, names[..i], services);
    assert names[i - 1..] == [x] + names[i..];
    RemovalTraced(commands, volumes, |start|, names[i..], left, works, x, services);
  }

  lemma HalfwayEnds(volumes: bool, names: seq<string>, services: set<string>, now: seq<string>, left: seq<string>,
                    errors: nat, commands: seq<Command>, start: seq<Command>, works: nat -> bool)
    requires Halfway(volumes, names, services, 0, now, left, errors, commands, start, works)
    ensures now == left && errors == |now| && commands == start + Removals(volumes, names, services)
    ensures Traced(commands, volumes, |start|, names, now, works) && ((forall n: nat :: works(n)) ==> errors == 0)
  {
    assert names[..0] == [] && names[0..] == names;
    assert Removals(volumes, [], services) == [];
  }

  lemma CommandsBegin(names: seq<string>, helper: string)
    ensures HelperCommands(names[..0], helper) == []
  {}

  lemma CommandsNext(names: seq<string>, i: nat, helper: string)
    requires i < |names|
    ensures HelperCommands(names[..i + 1], helper) ==
            HelperCommands(names[..i], helper) + (if helper <= names[i] then [Logs(names[i]), DeleteContainer(names[i])] else [])
  {
    assert names[..i + 1][..i] == names[..i];
  }

  lemma {:induction false} CommandsUpTo(names: seq<string>, i: nat, helper: string)
    requires i <= |names|
    ensures HelperCommands(names[..i], helper) <= HelperCommands(names, helper)
    decreases |names| - i
  {
    if i < |names| {
      CommandsNext(names, i, helper);
      CommandsUpTo(names, i + 1, helper);
    } else {
      assert names[..i] == names;
    }
  }

  lemma {:induction false} DroppedNone(s: seq<string>, x: string)
    requires x !in s
    ensures Dropped(s, x) == s
  {
    if s != [] { DroppedNone(s[1..], x); }
  }

  lemma {:induction false} NoVolumes(names: seq<string>, services: set<string>)
    ensures forall n :: 0 <= n < |ContainerCommands(names, services)| ==> !ContainerCommands(names, services)[n].DeleteVolume?
  {
    if names != [] { NoVolumes(names[..|names| - 1], services); }
  }

  lemma {:induction false} NoContainers(names: seq<string>)
    ensures forall n :: 0 <= n < |VolumeCommands(names)| ==> !VolumeCommands(names)[n].DeleteContainer?
  {
    if names != [] { NoContainers(names[..|names| - 1]); }
  }

  lemma Before(s: seq<string>, i: nat)
    requires Distinct(s) && i < |s|
    ensures s[i] !in s[..i]
  {}

  // ---------------------------------------------------------------- namespaces of the cases

  /** No dash is followed by an h. */
  predicate Calm(s: string) { forall i :: 0 <= i < |s| - 1 && s[i] == '-' ==> s[i + 1] != 'h' }

  lemma CalmJoin(a: string, b: string)
    requires '-' !in a && Calm(b) && (b != "" ==> b[0] != 'h')
    ensures Calm(a + "-" + b)
  {
    var s := a + "-" + b;
    forall k | 0 <= k < |a| ensures s[k] != '-' { assert a[k] in a; }
    forall i | |a| <= i < |s| - 1 && s[i] == '-' ensures s[i + 1] != 'h' {
      if i > |a| { assert s[i + 1] == b[i - |a|] && s[i] == b[i - |a| - 1]; }
    }
  }

  lemma CalmPlain(s: string)
    requires '-' !in s
    ensures Calm(s)
  {
    forall i | 0 <= i < |s| ensures s[i] != '-' { assert s[i] in s; }
  }

  predicate GoodBackend(c: Case) { c.CurveCase? ==> '-' !in c.backend && (c.backend != "" ==> c.backend[0] != 'h') }

  lemma IdIsCalm(c: Case)
    requires GoodBackend(c)
    ensures Calm(Id(c))
  {
    DigitsHaveNoDash(c.trial);
    var tail := "r" + Decimal(c.trial);
    CalmPlain(tail);
    if c.PathCase? {
      DigitsHaveNoDash(c.path);
      DecimalDigits(c.path);
      var rest := Decimal(c.path) + "-" + tail;
      CalmJoin(Decimal(c.path), tail);
      assert rest[0] == Decimal(c.path)[0];
      CalmJoin("path", rest);
      assert Id(c) == "path" + "-" + rest;
    } else {
      DigitsHaveNoDash(c.n);
      var n := "n" + Padded(Decimal(c.n), 3);
      CalmJoin(n, tail);
      var rest := n + "-" + tail;
      CalmJoin(c.backend, rest);
      var more := c.backend + "-" + rest;
      assert more[0] == if c.backend == "" then '-' else c.backend[0];
      CalmJoin("curve", more);
      assert Id(c) == "curve" + "-" + more;
    }
  }

  /** One name with "-helper-" after it begins another with a numbered helper only if the names are the same. */
  lemma HelperOf(a: string, b: string, d: string)
    requires Calm(b) && '-' !in d && a + "-helper-" <= b + "-helper-" + d
    ensures a == b
  {
    var x, y := a + "-helper-", b + "-helper-" + d;
    assert y == b + "-helper" + ['-'] + d;
    LastIn(b + "-helper", d, '-');
    assert x[|a| + 7] == '-' && y[|a| + 7] == '-';
    forall m | |b| + 7 < m < |y| ensures y[m] != '-' { assert y[m] == d[m - |b| - 8]; }
    assert |a| <= |b|;
    assert x[|a|] == '-' && x[|a| + 1] == 'h';
    assert y[|b|] == '-' && forall m :: 0 <= m < |b| ==> y[m] == b[m];
    assert |a| == |b|;
    assert a == x[..|a|] && b == y[..|b|];
  }

  lemma HelperNotIn(a: string, b: string)
    requires Calm(b)
    ensures !(a + "-helper-" <= b)
  {
    var x := a + "-helper-";
    assert x[|a|] == '-' && x[|a| + 1] == 'h';
  }

  lemma StripPrefix(p: string, x: string, y: string)
    requires p + x <= p + y
    ensures x <= y
  {
    assert (p + x)[|p|..] == x && (p + y)[|p|..] == y;
    forall i | 0 <= i < |x| ensures x[i] == y[i] { assert (p + x)[|p| + i] == (p + y)[|p| + i]; }
  }

  /** What FinishCase counts as one case's is never another case's server or helper, nor a dependency. */
  lemma NamespacesApart(prefix: string, c: Case, d: Case, number: nat, alias: string)
    requires c != d && GoodBackend(d) && '-' !in alias
    ensures !(HelperPrefix(prefix, Id(c)) <= prefix + "-" + Id(d))
    ensures !(HelperPrefix(prefix, Id(c)) <= prefix + "-" + (Id(d) + "-helper-" + Decimal(number)))
    ensures !(HelperPrefix(prefix, Id(c)) <= prefix + "-" + alias)
    ensures prefix + "-" + Id(c) != prefix + "-" + Id(d)
  {
    IdIsCalm(d);
    CalmPlain(alias);
    DigitsHaveNoDash(number);
    NamesStayDistinct(c, d);
    hide Id;
    var p, x := prefix + "-", Id(c) + "-helper-";
    assert HelperPrefix(prefix, Id(c)) == p + x;
    if p + x <= p + Id(d) { StripPrefix(p, x, Id(d)); HelperNotIn(Id(c), Id(d)); }
    if p + x <= p + alias { StripPrefix(p, x, alias); HelperNotIn(Id(c), alias); }
    if p + x <= p + (Id(d) + "-helper-" + Decimal(number)) {
      StripPrefix(p, x, Id(d) + "-helper-" + Decimal(number));
      HelperOf(Id(c), Id(d), Decimal(number));
    }
    assert Id(c) == (p + Id(c))[|p|..] && Id(d) == (p + Id(d))[|p|..];
  }
}
