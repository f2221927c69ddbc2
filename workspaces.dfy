/** The workspace controller of server/src/index.ts: port allocation
    (`getPorts`), the create/start/stop/restart/remove handlers and the two
    queries, over a workspace table held as a map from row id to row.
    The container runtime (dockerode) and `get-port` are collaborators the
    model does not see: what they return is passed in, and every call made
    to the runtime is appended to a log so that its order can be stated. */
module Workspaces {
  import opened Common
  import opened Entities
  import Decimal
  import Identity

  const CodeServerBinary := "/tools/code-server-4.102.2-linux-amd64/bin/code-server"
  const CodeServerContainerPort := "8080/tcp"
  const SshContainerPort := "22/tcp"

  // ---------------------------------------------------------------------
  // Container specification sent to the runtime on create
  // ---------------------------------------------------------------------

  datatype PortBinding = PortBinding(hostPort: string)

  datatype DeviceRequest = DeviceRequest(driver: string, count: int, capabilities: seq<seq<string>>)

  /** The options object passed to `docker.createContainer`. */
  datatype ContainerSpec = ContainerSpec(
    image: string,
    name: string,
    tty: bool,
    openStdin: bool,
    cmd: seq<string>,
    env: seq<string>,
    entrypoint: string,
    attachStdout: bool,
    attachStderr: bool,
    binds: seq<string>,
    portBindings: map<string, seq<PortBinding>>,
    deviceRequests: seq<DeviceRequest>,
    privileged: bool,
    exposedPorts: set<string>)

  /** The command line that replaces the image's entrypoint. */
  const CodeServerCmd := [CodeServerBinary, "--auth", "none", "--bind-addr", "0.0.0.0:8080", "--disable-telemetry"]

  /** `--gpus all`: the NVIDIA driver, every device (-1), the gpu capability. */
  const AllGpus := DeviceRequest("nvidia", -1, [["gpu"]])

  /** The spec the create handler builds. `toolsDir` is `path.resolve('./tools')`,
      which depends on the server's working directory. Only the IDE port is
      published; the SSH port is exposed but bound to no host port. */
  function CreateSpec(image: string, name: string, codeServerPort: nat, toolsDir: string): ContainerSpec
  {
    ContainerSpec(
      image, name, true, true, CodeServerCmd,
      ["CS_BASE_URL=/vscode/" + name],
      "", true, true,
      [toolsDir + ":/tools"],
      map[CodeServerContainerPort := [PortBinding(Decimal.NatToString(codeServerPort))]],
      [AllGpus], true,
      {CodeServerContainerPort, SshContainerPort})
  }

  /** The spec with the SSH port published as well: host `sshPort` to 22/tcp. */
  function PublishingSpec(image: string, name: string, sshPort: nat, codeServerPort: nat, toolsDir: string): (spec: ContainerSpec)
  {
    var s := CreateSpec(image, name, codeServerPort, toolsDir);
    s.(portBindings := s.portBindings[SshContainerPort := [PortBinding(Decimal.NatToString(sshPort))]])
  }

  /** The host port the runtime publishes for a container port, read back
      from the spec's `PortBindings`; `None` when there is no single binding. */
  function PublishedHostPort(spec: ContainerSpec, containerPort: string): Option<nat>
  {
    if containerPort in spec.portBindings && |spec.portBindings[containerPort]| == 1
    then Decimal.ParseNat(spec.portBindings[containerPort][0].hostPort)
    else None
  }

  /** What the create handler asks of the runtime: host `codeServerPort` is
      published as 8080/tcp, the IDE's base path is `/vscode/{name}`, the
      tools directory is mounted at `/tools`, and code-server listens on
      0.0.0.0:8080 without authentication. */
  lemma CreateSpecShape(image: string, name: string, codeServerPort: nat, toolsDir: string)
    ensures var spec := CreateSpec(image, name, codeServerPort, toolsDir);
      && PublishedHostPort(spec, CodeServerContainerPort) == Some(codeServerPort)
      && spec.image == image && spec.name == name
      && "CS_BASE_URL=/vscode/" + name in spec.env
      && spec.binds == [toolsDir + ":/tools"]
      && spec.cmd[0] == CodeServerBinary
      && spec.cmd[1..3] == ["--auth", "none"]
      && spec.cmd[3..5] == ["--bind-addr", "0.0.0.0:8080"]
  {
    Decimal.ParseNatToString(codeServerPort);
  }

  /** The SSH port chosen by `getPorts` never reaches the runtime: 22/tcp is
      exposed but has no host binding, whatever the ports are. */
  lemma SshPortNotPublished(image: string, name: string, codeServerPort: nat, toolsDir: string)
    ensures var spec := CreateSpec(image, name, codeServerPort, toolsDir);
      && SshContainerPort in spec.exposedPorts
      && PublishedHostPort(spec, SshContainerPort) == None
      && spec.portBindings.Keys == {CodeServerContainerPort}
  {
  }

  /** With the corrected spec both allocated ports are published. */
  lemma PublishingSpecPublishesBoth(image: string, name: string, sshPort: nat, codeServerPort: nat, toolsDir: string)
    ensures var spec := PublishingSpec(image, name, sshPort, codeServerPort, toolsDir);
      && PublishedHostPort(spec, SshContainerPort) == Some(sshPort)
      && PublishedHostPort(spec, CodeServerContainerPort) == Some(codeServerPort)
  {
    Decimal.ParseNatToString(sshPort);
    Decimal.ParseNatToString(codeServerPort);
  }

  // ---------------------------------------------------------------------
  // Port allocation
  // ---------------------------------------------------------------------

  /** Ports recorded by stored rows (index.ts, the mapping of `usedPorts`). */
  function UsedSshPorts(rows: map<int, Workspace>): set<nat>
  {
    set k | k in rows :: rows[k].sshPort
  }

  function UsedCodeServerPorts(rows: map<int, Workspace>): set<nat>
  {
    set k | k in rows :: rows[k].codeServerPort
  }

  /** The first candidate not in `used`. `candidates` are the successive
      answers of `get-port`; when they run out the scan is exhausted. */
  function FirstUnused(used: set<nat>, candidates: seq<nat>): Option<nat>
  {
    if candidates == [] then None
    else if candidates[0] !in used then Some(candidates[0])
    else FirstUnused(used, candidates[1..])
  }

  /** `FirstUnused` returns the earliest candidate outside `used`, every
      candidate before it being in `used`; it is exhausted exactly when every
      candidate is in `used`. */
  lemma {:induction false} FirstUnusedIsEarliestFree(used: set<nat>, candidates: seq<nat>)
    ensures match FirstUnused(used, candidates)
      case Some(p) =>
        p !in used &&
        exists i :: 0 <= i < |candidates| && candidates[i] == p &&
          forall j :: 0 <= j < i ==> candidates[j] in used
      case None => forall j :: 0 <= j < |candidates| ==> candidates[j] in used
  {
    if candidates != [] && candidates[0] in used {
      FirstUnusedIsEarliestFree(used, candidates[1..]);
      match FirstUnused(used, candidates[1..])
      case Some(p) =>
        var i :| 0 <= i < |candidates[1..]| && candidates[1..][i] == p &&
          forall j :: 0 <= j < i ==> candidates[1..][j] in used;
        assert candidates[i + 1] == p;
        assert forall j :: 0 <= j < i + 1 ==> candidates[j] in used by {
          forall j | 0 <= j < i + 1 ensures candidates[j] in used {
            if j > 0 { assert candidates[j] == candidates[1..][j - 1]; }
          }
        }
      case None =>
        assert forall j :: 1 <= j < |candidates| ==> candidates[j] == candidates[1..][j - 1];
    } else if candidates != [] {
      assert candidates[0] !in used;
    }
  }

  datatype PortPair = PortPair(sshPort: nat, codeServerPort: nat)

  /** What `getPorts` settles on against the stored rows: an SSH port and an
      IDE port, each chosen by its own independent scan. */
  function AllocatePorts(rows: map<int, Workspace>, sshCandidates: seq<nat>, codeCandidates: seq<nat>): Option<PortPair>
  {
    match (FirstUnused(UsedSshPorts(rows), sshCandidates), FirstUnused(UsedCodeServerPorts(rows), codeCandidates))
    case (Some(s), Some(c)) => Some(PortPair(s, c))
    case _ => None
  }

  /** An allocated SSH port is not any row's SSH port and an allocated IDE
      port is not any row's IDE port. The two checks are independent. */
  lemma AllocatedPortsAreUnused(rows: map<int, Workspace>, sshCandidates: seq<nat>, codeCandidates: seq<nat>)
    ensures match AllocatePorts(rows, sshCandidates, codeCandidates)
      case Some(pp) =>
        (forall k :: k in rows ==> rows[k].sshPort != pp.sshPort) &&
        (forall k :: k in rows ==> rows[k].codeServerPort != pp.codeServerPort) &&
        pp.sshPort in sshCandidates && pp.codeServerPort in codeCandidates
      case None => true
  {
    FirstUnusedIsEarliestFree(UsedSshPorts(rows), sshCandidates);
    FirstUnusedIsEarliestFree(UsedCodeServerPorts(rows), codeCandidates);
    match AllocatePorts(rows, sshCandidates, codeCandidates)
    case Some(pp) =>
      forall k | k in rows
        ensures rows[k].sshPort != pp.sshPort && rows[k].codeServerPort != pp.codeServerPort
      {
        assert rows[k].sshPort in UsedSshPorts(rows);
        assert rows[k].codeServerPort in UsedCodeServerPorts(rows);
      }
    case None =>
  }

  /** The cross-kind case is allowed: an SSH port may equal some row's IDE port. */
  lemma CrossKindCollisionAllowed()
    ensures var rows := map[1 := Workspace(1, "a", 22000, 8080, "c1", "running", None)];
      AllocatePorts(rows, [8080], [8081]) == Some(PortPair(8080, 8081))
  {
  }

  /** No two rows share an SSH port and no two rows share an IDE port. */
  ghost predicate PortsDistinct(rows: map<int, Workspace>)
  {
    forall a, b :: a in rows && b in rows && a != b ==>
      rows[a].sshPort != rows[b].sshPort && rows[a].codeServerPort != rows[b].codeServerPort
  }

  /** Adding a row whose ports come from `AllocatePorts` keeps ports distinct. */
  lemma AllocatedRowKeepsPortsDistinct(rows: map<int, Workspace>, id: int, w: Workspace,
                                       sshCandidates: seq<nat>, codeCandidates: seq<nat>)
    requires PortsDistinct(rows) && id !in rows
    requires AllocatePorts(rows, sshCandidates, codeCandidates) == Some(PortPair(w.sshPort, w.codeServerPort))
    ensures PortsDistinct(rows[id := w])
  {
    AllocatedPortsAreUnused(rows, sshCandidates, codeCandidates);
  }

  // ---------------------------------------------------------------------
  // Queries
  // ---------------------------------------------------------------------

  /** The rows `GET /workspaces` returns for user `uid`. */
  function OwnedBy(rows: map<int, Workspace>, uid: int): set<Workspace>
  {
    set k | k in rows && rows[k].owner == Some(uid) :: rows[k]
  }

  /** Rows are stored under their own id. */
  ghost predicate KeyedById(rows: map<int, Workspace>)
  {
    forall k :: k in rows ==> rows[k].id == k
  }

  /** A workspace is listed for a user exactly when its row is stored and
      that user owns it. */
  lemma OwnedByMembership(rows: map<int, Workspace>, uid: int, w: Workspace)
    requires KeyedById(rows)
    ensures w in OwnedBy(rows, uid) <==> w.id in rows && rows[w.id] == w && w.owner == Some(uid)
  {
  }

  /** After a row is deleted, no user's list shows it. */
  lemma RemovedRowNotListed(rows: map<int, Workspace>, id: int, uid: int)
    requires KeyedById(rows)
    ensures forall w :: w in OwnedBy(rows - {id}, uid) ==> w.id != id
  {
  }

  /** A row without an owner is never listed, for any user. */
  lemma UnownedRowNeverListed(rows: map<int, Workspace>, w: Workspace, uid: int)
    requires KeyedById(rows) && w.owner == None
    ensures w !in OwnedBy(rows[w.id := w], uid)
  {
  }

  /** A row owned by `uid` is listed for `uid`. */
  lemma OwnedRowListed(rows: map<int, Workspace>, w: Workspace)
    requires w.owner.Some?
    ensures w in OwnedBy(rows[w.id := w], w.owner.value)
  {
    var r := rows[w.id := w];
    assert r[w.id] == w;
  }

  // ---------------------------------------------------------------------
  // The controller
  // ---------------------------------------------------------------------

  /** A call made to the container runtime. */
  datatype RuntimeCall =
    | CreateContainer(spec: ContainerSpec)
    | InspectContainer(id: string)
    | StartContainer(id: string)
    | StopContainer(id: string)
    | RestartContainer(id: string)
    | RemoveContainer(id: string)

  /** How a handler ends: `{ done: true }`; 404 `{ error: 'Workspace not
      found' }`; port scan exhausted (the source would loop for ever); or a
      rejected promise carrying the runtime's message (the handlers have no
      try/catch of their own). */
  datatype Reply = Done | NotFound | PortExhausted | Rejected(message: string)

  /** What `GET /workspaces` ends with. */
  datatype ListReply = Listed(workspaces: set<Workspace>) | ListRefused(message: string)

  class Controller {
    /** The workspace table, by generated id. */
    var rows: map<int, Workspace>
    /** The next id the table will generate. */
    var nextId: int
    /** Every call made to the container runtime, in order. */
    var runtimeCalls: seq<RuntimeCall>

    ghost predicate Valid()
      reads this
    {
      && KeyedById(rows)
      && (forall k :: k in rows ==> k < nextId)
      && PortsDistinct(rows)
    }

    constructor ()
      ensures Valid()
      ensures rows == map[] && nextId == 1 && runtimeCalls == []
    {
      rows := map[];
      nextId := 1;
      runtimeCalls := [];
    }

    /** `getPorts`: two loops over the answers of `get-port`, each taking the
        first port no stored row uses for that purpose. The source asks for
        22000 (SSH) and 8080 (IDE) each time; `get-port` answers that port
        when the host has it free and some other free port otherwise, so the
        answers are passed in as the candidate sequences. */
    method GetPorts(sshCandidates: seq<nat>, codeCandidates: seq<nat>) returns (ports: Option<PortPair>)
      ensures ports == AllocatePorts(rows, sshCandidates, codeCandidates)
      ensures ports.Some? ==>
        ports.value.sshPort !in UsedSshPorts(rows) &&
        ports.value.codeServerPort !in UsedCodeServerPorts(rows)
    {
      var usedSsh := UsedSshPorts(rows);
      var usedCode := UsedCodeServerPorts(rows);
      FirstUnusedIsEarliestFree(usedSsh, sshCandidates);
      FirstUnusedIsEarliestFree(usedCode, codeCandidates);

      var i := 0;
      while i < |sshCandidates| && sshCandidates[i] in usedSsh
        invariant 0 <= i <= |sshCandidates|
        invariant FirstUnused(usedSsh, sshCandidates[i..]) == FirstUnused(usedSsh, sshCandidates)
      {
        assert sshCandidates[i..][1..] == sshCandidates[i + 1..];
        i := i + 1;
      }
      if i == |sshCandidates| {
        return None;
      }
      var sshPort := sshCandidates[i];

      var j := 0;
      while j < |codeCandidates| && codeCandidates[j] in usedCode
        invariant 0 <= j <= |codeCandidates|
        invariant FirstUnused(usedCode, codeCandidates[j..]) == FirstUnused(usedCode, codeCandidates)
      {
        assert codeCandidates[j..][1..] == codeCandidates[j + 1..];
        j := j + 1;
      }
      if j == |codeCandidates| {
        return None;
      }
      ports := Some(PortPair(sshPort, codeCandidates[j]));
    }

    /** `POST /workspaces`: allocate ports, create the container, inspect it
        and save one row carrying the name, the container id, the two ports
        and the inspected status. No owner is recorded. A failed save (for
        instance a body without `name`, refused by the NOT NULL column)
        leaves the created container without a row. */
    method Create(image: string, name: string, toolsDir: string,
                  sshCandidates: seq<nat>, codeCandidates: seq<nat>,
                  created: Call<string>, inspected: Call<string>, saved: Call<()>) returns (reply: Reply)
      requires Valid()
      modifies this
      ensures Valid()
      ensures match AllocatePorts(old(rows), sshCandidates, codeCandidates)
        case None =>
          reply == PortExhausted && rows == old(rows) && runtimeCalls == old(runtimeCalls)
        case Some(pp) =>
          var spec := CreateSpec(image, name, pp.codeServerPort, toolsDir);
          match created
          case Threw(m) =>
            reply == Rejected(m) && rows == old(rows) &&
            runtimeCalls == old(runtimeCalls) + [CreateContainer(spec)]
          case Returned(cid) =>
            runtimeCalls == old(runtimeCalls) + [CreateContainer(spec), InspectContainer(cid)] &&
            match inspected
            case Threw(m) => reply == Rejected(m) && rows == old(rows)
            case Returned(status) =>
              match saved
              case Threw(m) => reply == Rejected(m) && rows == old(rows)
              case Returned(_) =>
                reply == Done && old(nextId) !in old(rows) &&
                rows == old(rows)[old(nextId) := Workspace(old(nextId), name, pp.sshPort, pp.codeServerPort, cid, status, None)]
      ensures nextId == if reply == Done then old(nextId) + 1 else old(nextId)
    {
      var ports := GetPorts(sshCandidates, codeCandidates);
      if ports.None? {
        return PortExhausted;
      }
      var pp := ports.value;
      var spec := CreateSpec(image, name, pp.codeServerPort, toolsDir);
      runtimeCalls := runtimeCalls + [CreateContainer(spec)];
      if created.Threw? {
        return Rejected(created.message);
      }
      var cid := created.value;
      runtimeCalls := runtimeCalls + [InspectContainer(cid)];
      if inspected.Threw? {
        return Rejected(inspected.message);
      }
      if saved.Threw? {
        return Rejected(saved.message);
      }
      var w := Workspace(nextId, name, pp.sshPort, pp.codeServerPort, cid, inspected.value, None);
      AllocatedRowKeepsPortsDistinct(rows, nextId, w, sshCandidates, codeCandidates);
      rows := rows[nextId := w];
      nextId := nextId + 1;
      reply := Done;
    }

    /** The create handler as evidently intended: the row records its owner
        and the container publishes the SSH port as well. */
    method CreateOwned(owner: int, image: string, name: string, toolsDir: string,
                       sshCandidates: seq<nat>, codeCandidates: seq<nat>,
                       created: Call<string>, inspected: Call<string>, saved: Call<()>) returns (reply: Reply)
      requires Valid()
      modifies this
      ensures Valid()
      ensures match AllocatePorts(old(rows), sshCandidates, codeCandidates)
        case None =>
          reply == PortExhausted && rows == old(rows) && runtimeCalls == old(runtimeCalls)
        case Some(pp) =>
          var spec := PublishingSpec(image, name, pp.sshPort, pp.codeServerPort, toolsDir);
          match created
          case Threw(m) =>
            reply == Rejected(m) && rows == old(rows) &&
            runtimeCalls == old(runtimeCalls) + [CreateContainer(spec)]
          case Returned(cid) =>
            runtimeCalls == old(runtimeCalls) + [CreateContainer(spec), InspectContainer(cid)] &&
            match inspected
            case Threw(m) => reply == Rejected(m) && rows == old(rows)
            case Returned(status) =>
              match saved
              case Threw(m) => reply == Rejected(m) && rows == old(rows)
              case Returned(_) =>
                reply == Done && old(nextId) !in old(rows) &&
                rows == old(rows)[old(nextId) := Workspace(old(nextId), name, pp.sshPort, pp.codeServerPort, cid, status, Some(owner))]
      ensures nextId == if reply == Done then old(nextId) + 1 else old(nextId)
    {
      var ports := GetPorts(sshCandidates, codeCandidates);
      if ports.None? {
        return PortExhausted;
      }
      var pp := ports.value;
      var spec := PublishingSpec(image, name, pp.sshPort, pp.codeServerPort, toolsDir);
      runtimeCalls := runtimeCalls + [CreateContainer(spec)];
      if created.Threw? {
        return Rejected(created.message);
      }
      var cid := created.value;
      runtimeCalls := runtimeCalls + [InspectContainer(cid)];
      if inspected.Threw? {
        return Rejected(inspected.message);
      }
      if saved.Threw? {
        return Rejected(saved.message);
      }
      var w := Workspace(nextId, name, pp.sshPort, pp.codeServerPort, cid, inspected.value, Some(owner));
      AllocatedRowKeepsPortsDistinct(rows, nextId, w, sshCandidates, codeCandidates);
      rows := rows[nextId := w];
      nextId := nextId + 1;
      reply := Done;
    }

    /** `POST /workspaces/:id/start`: unknown id answers 404 with no runtime
        call; otherwise start, inspect, and set the row's status to the
        inspected state, nothing else. */
    method Start(id: int, started: Call<()>, inspected: Call<string>) returns (reply: Reply)
      requires Valid()
      modifies this`rows, this`runtimeCalls
      ensures Valid()
      ensures id !in old(rows) ==>
        reply == NotFound && rows == old(rows) && runtimeCalls == old(runtimeCalls)
      ensures id in old(rows) ==>
        var cid := old(rows)[id].containerId;
        match started
        case Threw(m) =>
          reply == Rejected(m) && rows == old(rows) &&
          runtimeCalls == old(runtimeCalls) + [StartContainer(cid)]
        case Returned(_) =>
          runtimeCalls == old(runtimeCalls) + [StartContainer(cid), InspectContainer(cid)] &&
          match inspected
          case Threw(m) => reply == Rejected(m) && rows == old(rows)
          case Returned(status) =>
            reply == Done && rows == old(rows)[id := old(rows)[id].(status := status)]
    {
      if id !in rows {
        return NotFound;
      }
      var cid := rows[id].containerId;
      runtimeCalls := runtimeCalls + [StartContainer(cid)];
      if started.Threw? {
        return Rejected(started.message);
      }
      reply := RefreshStatus(id, inspected);
    }

    /** `POST /workspaces/:id/stop`: as `Start`, with the runtime's stop. */
    method Stop(id: int, stopped: Call<()>, inspected: Call<string>) returns (reply: Reply)
      requires Valid()
      modifies this`rows, this`runtimeCalls
      ensures Valid()
      ensures id !in old(rows) ==>
        reply == NotFound && rows == old(rows) && runtimeCalls == old(runtimeCalls)
      ensures id in old(rows) ==>
        var cid := old(rows)[id].containerId;
        match stopped
        case Threw(m) =>
          reply == Rejected(m) && rows == old(rows) &&
          runtimeCalls == old(runtimeCalls) + [StopContainer(cid)]
        case Returned(_) =>
          runtimeCalls == old(runtimeCalls) + [StopContainer(cid), InspectContainer(cid)] &&
          match inspected
          case Threw(m) => reply == Rejected(m) && rows == old(rows)
          case Returned(status) =>
            reply == Done && rows == old(rows)[id := old(rows)[id].(status := status)]
    {
      if id !in rows {
        return NotFound;
      }
      var cid := rows[id].containerId;
      runtimeCalls := runtimeCalls + [StopContainer(cid)];
      if stopped.Threw? {
        return Rejected(stopped.message);
      }
      reply := RefreshStatus(id, inspected);
    }

    /** Inspect the row's container and store the reported state. */
    method RefreshStatus(id: int, inspected: Call<string>) returns (reply: Reply)
      requires Valid() && id in rows
      modifies this`rows, this`runtimeCalls
      ensures Valid()
      ensures runtimeCalls == old(runtimeCalls) + [InspectContainer(old(rows)[id].containerId)]
      ensures match inspected
        case Threw(m) => reply == Rejected(m) && rows == old(rows)
        case Returned(status) =>
          reply == Done && rows == old(rows)[id := old(rows)[id].(status := status)]
    {
      var cid := rows[id].containerId;
      runtimeCalls := runtimeCalls + [InspectContainer(cid)];
      if inspected.Threw? {
        return Rejected(inspected.message);
      }
      var w := rows[id].(status := inspected.value);
      rows := rows[id := w];
      reply := Done;
    }

    /** `POST /workspaces/:id/restart`: unknown id answers 404 with no
        runtime call; otherwise only the runtime's restart is called and the
        row, status included, is left as it was. */
    method Restart(id: int, restarted: Call<()>) returns (reply: Reply)
      requires Valid()
      modifies this`runtimeCalls
      ensures Valid() && rows == old(rows)
      ensures id !in rows ==> reply == NotFound && runtimeCalls == old(runtimeCalls)
      ensures id in rows ==>
        runtimeCalls == old(runtimeCalls) + [RestartContainer(rows[id].containerId)] &&
        reply == (if restarted.Threw? then Rejected(restarted.message) else Done)
    {
      if id !in rows {
        return NotFound;
      }
      runtimeCalls := runtimeCalls + [RestartContainer(rows[id].containerId)];
      reply := if restarted.Threw? then Rejected(restarted.message) else Done;
    }

    /** Restart as evidently intended: the status is re-inspected and stored,
        as start and stop do. */
    method RestartRefreshed(id: int, restarted: Call<()>, inspected: Call<string>) returns (reply: Reply)
      requires Valid()
      modifies this`rows, this`runtimeCalls
      ensures Valid()
      ensures id !in old(rows) ==>
        reply == NotFound && rows == old(rows) && runtimeCalls == old(runtimeCalls)
      ensures id in old(rows) ==>
        var cid := old(rows)[id].containerId;
        match restarted
        case Threw(m) =>
          reply == Rejected(m) && rows == old(rows) &&
          runtimeCalls == old(runtimeCalls) + [RestartContainer(cid)]
        case Returned(_) =>
          runtimeCalls == old(runtimeCalls) + [RestartContainer(cid), InspectContainer(cid)] &&
          match inspected
          case Threw(m) => reply == Rejected(m) && rows == old(rows)
          case Returned(status) =>
            reply == Done && rows == old(rows)[id := old(rows)[id].(status := status)]
    {
      if id !in rows {
        return NotFound;
      }
      var cid := rows[id].containerId;
      runtimeCalls := runtimeCalls + [RestartContainer(cid)];
      if restarted.Threw? {
        return Rejected(restarted.message);
      }
      reply := RefreshStatus(id, inspected);
    }

    /** `POST /workspaces/:id/remove`: unknown id answers 404 with no runtime
        call; otherwise the container is removed and then exactly that row
        is deleted. If the runtime's remove throws, the row stays. */
    method Remove(id: int, removed: Call<()>) returns (reply: Reply)
      requires Valid()
      modifies this`rows, this`runtimeCalls
      ensures Valid()
      ensures id !in old(rows) ==>
        reply == NotFound && rows == old(rows) && runtimeCalls == old(runtimeCalls)
      ensures id in old(rows) ==>
        runtimeCalls == old(runtimeCalls) + [RemoveContainer(old(rows)[id].containerId)] &&
        match removed
        case Threw(m) => reply == Rejected(m) && rows == old(rows)
        case Returned(_) => reply == Done && rows == old(rows) - {id}
    {
      if id !in rows {
        return NotFound;
      }
      runtimeCalls := runtimeCalls + [RemoveContainer(rows[id].containerId)];
      if removed.Threw? {
        return Rejected(removed.message);
      }
      rows := rows - {id};
      reply := Done;
    }

    /** `GET /workspaces/:id`: the row whose `containerId` (not numeric id)
        is the parameter, or `null` when there is none. Which row is
        returned when several match is up to the database. */
    method FindByContainerId(containerId: string) returns (found: Option<Workspace>)
      requires Valid()
      ensures found.Some? ==>
        found.value.id in rows && rows[found.value.id] == found.value &&
        found.value.containerId == containerId
      ensures found.None? <==> forall k :: k in rows ==> rows[k].containerId != containerId
    {
      if k :| k in rows && rows[k].containerId == containerId {
        found := Some(rows[k]);
      } else {
        found := None;
      }
    }

    /** `GET /workspaces`: `needLogin` first; then the rows owned by the
        request's user. */
    method List(req: Identity.Request, res: Identity.Response) returns (reply: ListReply)
      modifies res
      ensures req.user.None? ==>
        reply == ListRefused(Identity.UnauthorizedMessage) && res.status == Identity.UnauthorizedStatus
      ensures req.user.Some? ==>
        reply == Listed(OwnedBy(rows, req.user.value.id)) && res.status == old(res.status)
    {
      var flow := Identity.NeedLogin(req, res);
      if flow.Thrown? {
        return ListRefused(flow.message);
      }
      reply := Listed(OwnedBy(rows, req.user.value.id));
    }
  }

  /** A workspace created through the handler is never listed for anyone:
      the row is saved without an owner, while the list filters by owner. */
  method CreatedWorkspaceIsNeverListed(uid: int, name: string) returns (listed: ListReply)
    ensures listed == Listed({})
  {
    var c := new Controller();
    var reply := c.Create("busybox:latest", name, "/srv/tools", [22000], [8080],
                          Returned("c0ffee"), Returned("created"), Returned(()));
    assert UsedSshPorts(map[]) == {} && UsedCodeServerPorts(map[]) == {};
    assert reply == Done;
    var req := new Identity.Request(Some("Bearer t"), None);
    req.user := Some(User(uid, "alice", None, 1, 0));
    var res := new Identity.Response();
    listed := c.List(req, res);
    assert forall k :: k in c.rows ==> c.rows[k].owner == None;
    assert OwnedBy(c.rows, uid) == {};
  }

  /** With the owner recorded, the creator sees the new workspace. */
  method OwnedCreationIsListed(uid: int, name: string) returns (listed: ListReply)
    ensures listed.Listed? && |listed.workspaces| == 1
  {
    var c := new Controller();
    var reply := c.CreateOwned(uid, "busybox:latest", name, "/srv/tools", [22000], [8080],
                               Returned("c0ffee"), Returned("created"), Returned(()));
    assert UsedSshPorts(map[]) == {} && UsedCodeServerPorts(map[]) == {};
    assert reply == Done;
    var req := new Identity.Request(Some("Bearer t"), None);
    req.user := Some(User(uid, "alice", None, 1, 0));
    var res := new Identity.Response();
    listed := c.List(req, res);
    var w := c.rows[1];
    assert c.rows == map[1 := w];
    assert OwnedBy(c.rows, uid) == {w};
  }

  /** Restart leaves a stale status: a workspace stored as "exited" whose
      container the runtime reports "running" after the restart still reads
      "exited". */
  method RestartLeavesStatusStale() returns (stored: string)
    ensures stored == "exited"
  {
    var c := new Controller();
    var reply := c.Create("busybox:latest", "dev1", "/srv/tools", [22000], [8080],
                          Returned("c0ffee"), Returned("exited"), Returned(()));
    assert UsedSshPorts(map[]) == {} && UsedCodeServerPorts(map[]) == {};
    assert reply == Done && 1 in c.rows;
    reply := c.Restart(1, Returned(()));
    stored := c.rows[1].status;
  }

  /** The corrected restart records what the runtime reports. */
  method RefreshedRestartRecordsStatus() returns (stored: string)
    ensures stored == "running"
  {
    var c := new Controller();
    var reply := c.Create("busybox:latest", "dev1", "/srv/tools", [22000], [8080],
                          Returned("c0ffee"), Returned("exited"), Returned(()));
    assert UsedSshPorts(map[]) == {} && UsedCodeServerPorts(map[]) == {};
    assert reply == Done && 1 in c.rows;
    reply := c.RestartRefreshed(1, Returned(()), Returned("running"));
    stored := c.rows[1].status;
  }
}
