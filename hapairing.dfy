/**
 * High availability between two NetScaler VPX appliances, as
 * nitroConfigureHA, nitroDeleteHA and the ha_secondary branch of
 * resourceSoftLayerLbVpxUpdate drive it over the Nitro REST API.
 *
 * The appliances' remote side is abstract: each appliance, found by its
 * management IP address, has a root password, HA nodes by id, RPC nodes by
 * IP address and a file-sync flag. A call is accepted when no fault is
 * injected at its position in the call trace, the address is known and the
 * call authenticates with the appliance's current root password.
 */
module HaPairing {
  import opened Outcomes
  import opened Text

  /** The Nitro system user the pairing updates, "root". */
  datatype SystemUser = Root
  /** The file selection of the HA file sync, "all". */
  datatype FileSelection = All
  /** The argument of the HA file sync, "action=sync". */
  datatype HafilesArgs = ActionSync

  const RootUser := Root
  /** The HA node id both appliances register for their peer. */
  const PeerNodeId := 2
  /** The same id as the name the node is deleted by. */
  const PeerNodeName := "2"
  const SyncAllFiles := [All]
  const SyncAction := ActionSync
  const AuthFailed := "Invalid username or password"
  const NotValidId := "Not a valid ID, must be an integer: "
  const ConfigureFailed := "Error configuraing HA for netscaler: "

  /** What the account service knows about a controller: its management address and root password. */
  datatype Credentials = Credentials(managementIp: string, password: string)

  /** The Nitro requests the pairing uses. */
  datatype Request =
    | UpdateSystemuser(username: SystemUser, password: string)
    | AddHanode(id: int, peerAddress: string)
    | UpdateNsrpcnode(ipAddress: string, password: string)
    | AddHafiles(files: seq<FileSelection>, args: HafilesArgs)
    | DeleteHanode(name: string)

  /** One issued call: the appliance it went to, the password it authenticated with, the request. */
  datatype Call = Call(endpoint: string, auth: string, request: Request)

  /** The remote state of one appliance. */
  datatype Appliance = Appliance(rootPassword: string, haNodes: map<int, string>, rpcNodes: map<string, string>, synced: bool)

  /** The appliances, the calls issued so far and how the last operation ended. */
  datatype Run = Run(apps: map<string, Appliance>, trace: seq<Call>, outcome: Outcome)

  function PrimaryUnavailable(id: int): string {
    "Error getting primary netscaler information ID: " + Itoa(id)
  }

  function SecondaryUnavailable(id: int): string {
    "Error getting secondary netscaler information ID: " + Itoa(id)
  }

  function NoAppliance(endpoint: string): string {
    "no appliance at " + endpoint
  }

  /** The HA nodes without the one whose id `name` spells in decimal. */
  function WithoutNode(nodes: map<int, string>, name: string): (r: map<int, string>)
    ensures forall k :: k in r <==> k in nodes && Atoi(name) != Some(k)
    ensures forall k :: k in r ==> r[k] == nodes[k]
  {
    match Atoi(name)
    case Some(id) => nodes - {id}
    case None => nodes
  }

  /**
   * What an accepted request does to the appliance it was sent to. The
   * appliance keeps only the root account, the only one the pairing updates,
   * and a file sync of all files marks it synced.
   */
  function Apply(a: Appliance, request: Request): Appliance {
    match request
    case UpdateSystemuser(Root, password) => a.(rootPassword := password)
    case AddHanode(id, peerAddress) => a.(haNodes := a.haNodes[id := peerAddress])
    case UpdateNsrpcnode(ipAddress, password) => a.(rpcNodes := a.rpcNodes[ipAddress := password])
    case AddHafiles(files, _) => if All in files then a.(synced := true) else a
    case DeleteHanode(name) => a.(haNodes := WithoutNode(a.haNodes, name))
  }

  /**
   * The remote side of one call made at position `pos` of the trace: a fault
   * injected there, an unknown address or a wrong password reject it with no
   * effect; otherwise the request is applied.
   */
  function Deliver(apps: map<string, Appliance>, failures: map<nat, string>, pos: nat, call: Call)
    : (r: (map<string, Appliance>, Outcome))
    ensures r.0.Keys == apps.Keys
    ensures r.1.Fail? ==> r.0 == apps
    ensures r.1.Pass? <==>
      pos !in failures && call.endpoint in apps && apps[call.endpoint].rootPassword == call.auth
    ensures r.1.Pass? ==> r.0 == apps[call.endpoint := Apply(apps[call.endpoint], call.request)]
  {
    if pos in failures then (apps, Fail(failures[pos]))
    else if call.endpoint !in apps then (apps, Fail(NoAppliance(call.endpoint)))
    else if apps[call.endpoint].rootPassword != call.auth then (apps, Fail(AuthFailed))
    else (apps[call.endpoint := Apply(apps[call.endpoint], call.request)], Pass)
  }

  /** Issuing `calls` in order after `trace`, stopping at the first rejected one. */
  function RunFrom(apps: map<string, Appliance>, trace: seq<Call>, failures: map<nat, string>, calls: seq<Call>)
    : (r: Run)
    ensures r.apps.Keys == apps.Keys
    decreases |calls|
  {
    if calls == [] then Run(apps, trace, Pass)
    else
      var (next, outcome) := Deliver(apps, failures, |trace|, calls[0]);
      if outcome.Fail? then Run(apps, trace + [calls[0]], outcome)
      else RunFrom(next, trace + [calls[0]], failures, calls[1..])
  }

  /** What a run issues is a prefix of its calls. */
  lemma {:induction false} RunIssuesPrefix(apps: map<string, Appliance>, trace: seq<Call>, failures: map<nat, string>,
                                           calls: seq<Call>)
    ensures var r := RunFrom(apps, trace, failures, calls);
      && |trace| <= |r.trace| <= |trace| + |calls|
      && r.trace == trace + calls[..|r.trace| - |trace|]
    decreases |calls|
  {
    if calls != [] {
      var (next, outcome) := Deliver(apps, failures, |trace|, calls[0]);
      if outcome.Fail? {
        assert calls[..1] == [calls[0]];
      } else {
        RunIssuesPrefix(next, trace + [calls[0]], failures, calls[1..]);
        var rest := RunFrom(next, trace + [calls[0]], failures, calls[1..]);
        assert trace + [calls[0]] + calls[1..][..|rest.trace| - |trace| - 1] == trace + calls[..|rest.trace| - |trace|];
      }
    }
  }

  /**
   * A run that passes has issued every call; one that fails has issued at
   * least the failing call, so a run that stops short has failed.
   */
  lemma {:induction false} RunLength(apps: map<string, Appliance>, trace: seq<Call>, failures: map<nat, string>,
                                     calls: seq<Call>)
    ensures var r := RunFrom(apps, trace, failures, calls);
      && (r.outcome.Pass? ==> |r.trace| == |trace| + |calls|)
      && (r.outcome.Fail? ==> |r.trace| > |trace|)
    decreases |calls|
  {
    if calls != [] {
      var (next, outcome) := Deliver(apps, failures, |trace|, calls[0]);
      if outcome.Pass? {
        RunLength(next, trace + [calls[0]], failures, calls[1..]);
      }
    }
  }

  /** The calls nitroConfigureHA issues, in order, once both sessions exist. */
  function EstablishPlan(primary: Credentials, secondary: Credentials): seq<Call> {
    var p, s, pw := primary.managementIp, secondary.managementIp, primary.password;
    [ Call(s, secondary.password, UpdateSystemuser(RootUser, pw)),
      Call(p, pw, AddHanode(PeerNodeId, s)),
      Call(s, pw, AddHanode(PeerNodeId, p)),
      Call(p, pw, UpdateNsrpcnode(p, pw)),
      Call(p, pw, UpdateNsrpcnode(s, pw)),
      Call(s, pw, UpdateNsrpcnode(p, pw)),
      Call(s, pw, UpdateNsrpcnode(s, pw)),
      Call(p, pw, AddHafiles(SyncAllFiles, SyncAction)) ]
  }

  /** The calls nitroDeleteHA issues, in order, once both sessions exist. */
  function TeardownPlan(primary: Credentials, secondary: Credentials): seq<Call> {
    var p, s, pw := primary.managementIp, secondary.managementIp, primary.password;
    [ Call(s, pw, DeleteHanode(PeerNodeName)),
      Call(p, pw, DeleteHanode(PeerNodeName)),
      Call(s, pw, UpdateSystemuser(RootUser, secondary.password)) ]
  }

  /** nitroConfigureHA on the given state: both sessions are built before any call is made. */
  function Establish(directory: map<int, Credentials>, apps: map<string, Appliance>, trace: seq<Call>,
                     failures: map<nat, string>, primaryId: int, secondaryId: int): Run {
    if primaryId !in directory then Run(apps, trace, Fail(PrimaryUnavailable(primaryId)))
    else if secondaryId !in directory then Run(apps, trace, Fail(SecondaryUnavailable(secondaryId)))
    else RunFrom(apps, trace, failures, EstablishPlan(directory[primaryId], directory[secondaryId]))
  }

  /** nitroDeleteHA on the given state. */
  function Teardown(directory: map<int, Credentials>, apps: map<string, Appliance>, trace: seq<Call>,
                    failures: map<nat, string>, primaryId: int, secondaryId: int): Run {
    if primaryId !in directory then Run(apps, trace, Fail(PrimaryUnavailable(primaryId)))
    else if secondaryId !in directory then Run(apps, trace, Fail(SecondaryUnavailable(secondaryId)))
    else RunFrom(apps, trace, failures, TeardownPlan(directory[primaryId], directory[secondaryId]))
  }

  /** One step of a run: the call at index `k` is delivered, then the run goes on or stops. */
  lemma SentAt(apps: map<string, Appliance>, trace: seq<Call>, failures: map<nat, string>, calls: seq<Call>, k: nat,
               next: map<string, Appliance>, outcome: Outcome)
    requires k < |calls| && (next, outcome) == Deliver(apps, failures, |trace|, calls[k])
    ensures RunFrom(apps, trace, failures, calls[k..]) ==
      if outcome.Fail? then Run(next, trace + [calls[k]], outcome)
      else RunFrom(next, trace + [calls[k]], failures, calls[k + 1..])
  {
    assert calls[k..][0] == calls[k] && calls[k..][1..] == calls[k + 1..];
  }

  /** The SoftLayer account (controllers by id) and the appliances behind it. */
  class Cloud {
    const directory: map<int, Credentials>
    /** Trace positions at which the call made there fails, with the error it fails with. */
    const failures: map<nat, string>
    var appliances: map<string, Appliance>
    var trace: seq<Call>

    constructor (directory: map<int, Credentials>, failures: map<nat, string>, appliances: map<string, Appliance>)
      ensures this.directory == directory && this.failures == failures
      ensures this.appliances == appliances && trace == []
    {
      this.directory := directory;
      this.failures := failures;
      this.appliances := appliances;
      trace := [];
    }

    /** One Nitro call arriving at an appliance. */
    method Receive(call: Call) returns (err: Outcome)
      modifies this
      ensures (appliances, err) == Deliver(old(appliances), failures, |old(trace)|, call)
      ensures trace == old(trace) + [call]
    {
      var delivered := Deliver(appliances, failures, |trace|, call);
      appliances := delivered.0;
      trace := trace + [call];
      err := delivered.1;
    }
  }

  /** A Nitro session: the appliance's address and the password it authenticates with. */
  class NitroClient {
    const IpAddress: string
    var Password: string

    constructor (ipAddress: string, password: string)
      ensures IpAddress == ipAddress && Password == password
    {
      IpAddress := ipAddress;
      Password := password;
    }

    /** Update, Add or Delete on this session: the request goes out with the session's current password. */
    method Send(cloud: Cloud, request: Request) returns (err: Outcome)
      modifies cloud
      ensures (cloud.appliances, err) ==
        Deliver(old(cloud.appliances), cloud.failures, |old(cloud.trace)|, Call(IpAddress, Password, request))
      ensures cloud.trace == old(cloud.trace) + [Call(IpAddress, Password, request)]
    {
      err := cloud.Receive(Call(IpAddress, Password, request));
    }
  }

  /** getNitroClient: a root session on the controller's management address, `null` when it cannot be found. */
  method GetNitroClient(cloud: Cloud, nadcId: int) returns (client: NitroClient?)
    ensures (client != null) == (nadcId in cloud.directory)
    ensures client != null ==>
      (fresh(client) &&
       client.IpAddress == cloud.directory[nadcId].managementIp && client.Password == cloud.directory[nadcId].password)
  {
    if nadcId !in cloud.directory {
      return null;
    }
    var nadc := cloud.directory[nadcId];
    client := new NitroClient(nadc.managementIp, nadc.password);
  }

  /**
   * One call of a plan, made on a session: the run of the rest of the plan
   * either stops at it or carries on from the next call.
   */
  method SendNext(client: NitroClient, cloud: Cloud, request: Request, ghost plan: seq<Call>, ghost k: nat,
                  ghost run: Run)
    returns (err: Outcome)
    requires k < |plan| && plan[k] == Call(client.IpAddress, client.Password, request)
    requires run == RunFrom(cloud.appliances, cloud.trace, cloud.failures, plan[k..])
    modifies cloud
    ensures err.Fail? ==> run == Run(cloud.appliances, cloud.trace, err)
    ensures err.Pass? ==> run == RunFrom(cloud.appliances, cloud.trace, cloud.failures, plan[k + 1..])
  {
    err := client.Send(cloud, request);
    SentAt(old(cloud.appliances), old(cloud.trace), cloud.failures, plan, k, cloud.appliances, err);
  }

  /**
   * Step 1 of nitroConfigureHA: the secondary's root password becomes the
   * primary's, and the secondary's session switches to it.
   */
  method HandOverPassword(nClient1: NitroClient, nClient2: NitroClient, cloud: Cloud,
                          ghost plan: seq<Call>, ghost run: Run)
    returns (err: Outcome)
    requires 0 < |plan|
    requires plan[0] == Call(nClient2.IpAddress, nClient2.Password, UpdateSystemuser(RootUser, nClient1.Password))
    requires run == RunFrom(cloud.appliances, cloud.trace, cloud.failures, plan[0..])
    modifies cloud, nClient2
    ensures nClient1.Password == old(nClient1.Password)
    ensures err.Fail? ==> run == Run(cloud.appliances, cloud.trace, err)
    ensures err.Pass? ==> nClient2.Password == nClient1.Password
    ensures err.Fail? ==> nClient2.Password == old(nClient2.Password)
    ensures err.Pass? ==> run == RunFrom(cloud.appliances, cloud.trace, cloud.failures, plan[1..])
  {
    var systemuserReq2 := UpdateSystemuser(RootUser, nClient1.Password);
    err := SendNext(nClient2, cloud, systemuserReq2, plan, 0, run);
    if err.Fail? {
      return;
    }
    nClient2.Password := nClient1.Password;
  }

  /** Steps 2 and 3 of nitroConfigureHA: each appliance registers the other as HA node 2. */
  method RegisterHaNodes(nClient1: NitroClient, nClient2: NitroClient, cloud: Cloud,
                         ghost plan: seq<Call>, ghost k: nat, ghost run: Run)
    returns (err: Outcome)
    requires k + 1 < |plan|
    requires plan[k] == Call(nClient1.IpAddress, nClient1.Password, AddHanode(PeerNodeId, nClient2.IpAddress))
    requires plan[k + 1] == Call(nClient2.IpAddress, nClient2.Password, AddHanode(PeerNodeId, nClient1.IpAddress))
    requires run == RunFrom(cloud.appliances, cloud.trace, cloud.failures, plan[k..])
    modifies cloud
    ensures err.Fail? ==> run == Run(cloud.appliances, cloud.trace, err)
    ensures err.Pass? ==> run == RunFrom(cloud.appliances, cloud.trace, cloud.failures, plan[k + 2..])
  {
    var hanodeReq1 := AddHanode(PeerNodeId, nClient2.IpAddress);
    err := SendNext(nClient1, cloud, hanodeReq1, plan, k, run);
    if err.Fail? {
      return;
    }
    var hanodeReq2 := AddHanode(PeerNodeId, nClient1.IpAddress);
    err := SendNext(nClient2, cloud, hanodeReq2, plan, k + 1, run);
  }

  /**
   * Steps 4 and 5 of nitroConfigureHA, on `client`: one RPC node request
   * for the primary's address with the primary's password, then the same
   * request re-aimed at the secondary's address.
   */
  method RegisterRpcNodes(client: NitroClient, nClient1: NitroClient, nClient2: NitroClient, cloud: Cloud,
                          ghost plan: seq<Call>, ghost k: nat, ghost run: Run)
    returns (err: Outcome)
    requires k + 1 < |plan|
    requires plan[k] == Call(client.IpAddress, client.Password, UpdateNsrpcnode(nClient1.IpAddress, nClient1.Password))
    requires plan[k + 1] == Call(client.IpAddress, client.Password, UpdateNsrpcnode(nClient2.IpAddress, nClient1.Password))
    requires run == RunFrom(cloud.appliances, cloud.trace, cloud.failures, plan[k..])
    modifies cloud
    ensures err.Fail? ==> run == Run(cloud.appliances, cloud.trace, err)
    ensures err.Pass? ==> run == RunFrom(cloud.appliances, cloud.trace, cloud.failures, plan[k + 2..])
  {
    var nsrpcnode := UpdateNsrpcnode(nClient1.IpAddress, nClient1.Password);
    err := SendNext(client, cloud, nsrpcnode, plan, k, run);
    if err.Fail? {
      return;
    }
    nsrpcnode := nsrpcnode.(ipAddress := nClient2.IpAddress);
    err := SendNext(client, cloud, nsrpcnode, plan, k + 1, run);
  }

  /** Step 6 of nitroConfigureHA, the last call of the plan: the primary pushes all its files. */
  method SyncFiles(nClient1: NitroClient, cloud: Cloud, ghost plan: seq<Call>, ghost run: Run)
    returns (err: Outcome)
    requires |plan| == 8 && plan[7] == Call(nClient1.IpAddress, nClient1.Password, AddHafiles(SyncAllFiles, SyncAction))
    requires run == RunFrom(cloud.appliances, cloud.trace, cloud.failures, plan[7..])
    modifies cloud
    ensures run == Run(cloud.appliances, cloud.trace, err)
  {
    var hafiles := AddHafiles(SyncAllFiles, SyncAction);
    err := SendNext(nClient1, cloud, hafiles, plan, 7, run);
    if err.Fail? {
      return;
    }
    assert plan[8..] == [];
    return Pass;
  }

  /** nitroConfigureHA. */
  method ConfigureHa(cloud: Cloud, primaryId: int, secondaryId: int) returns (err: Outcome)
    modifies cloud
    ensures Run(cloud.appliances, cloud.trace, err) ==
      Establish(cloud.directory, old(cloud.appliances), old(cloud.trace), cloud.failures, primaryId, secondaryId)
  {
    var nClient1 := GetNitroClient(cloud, primaryId);
    if nClient1 == null {
      return Fail(PrimaryUnavailable(primaryId));
    }
    var nClient2 := GetNitroClient(cloud, secondaryId);
    if nClient2 == null {
      return Fail(SecondaryUnavailable(secondaryId));
    }
    ghost var plan := EstablishPlan(cloud.directory[primaryId], cloud.directory[secondaryId]);
    assert plan[0..] == plan;
    ghost var run := RunFrom(cloud.appliances, cloud.trace, cloud.failures, plan);

    // 1. the secondary takes the primary's password
    err := HandOverPassword(nClient1, nClient2, cloud, plan, run);
    if err.Fail? {
      return;
    }

    // 2. to 5. HA nodes, then RPC nodes on the primary and on the secondary
    err := RegisterHaNodes(nClient1, nClient2, cloud, plan, 1, run);
    if err.Fail? {
      return;
    }
    err := RegisterRpcNodes(nClient1, nClient1, nClient2, cloud, plan, 3, run);
    if err.Fail? {
      return;
    }
    err := RegisterRpcNodes(nClient2, nClient1, nClient2, cloud, plan, 5, run);
    if err.Fail? {
      return;
    }

    // 6. file sync from the primary
    err := SyncFiles(nClient1, cloud, plan, run);
  }

  /** nitroDeleteHA. */
  method DeleteHa(cloud: Cloud, primaryId: int, secondaryId: int) returns (err: Outcome)
    modifies cloud
    ensures Run(cloud.appliances, cloud.trace, err) ==
      Teardown(cloud.directory, old(cloud.appliances), old(cloud.trace), cloud.failures, primaryId, secondaryId)
  {
    var nClient1 := GetNitroClient(cloud, primaryId);
    if nClient1 == null {
      return Fail(PrimaryUnavailable(primaryId));
    }
    var nClient2 := GetNitroClient(cloud, secondaryId);
    if nClient2 == null {
      return Fail(SecondaryUnavailable(secondaryId));
    }
    ghost var plan := TeardownPlan(cloud.directory[primaryId], cloud.directory[secondaryId]);
    assert plan[0..] == plan;
    ghost var run := RunFrom(cloud.appliances, cloud.trace, cloud.failures, plan);

    var passwordOrg := nClient2.Password;
    nClient2.Password := nClient1.Password;

    // 1. and 2. node 2 goes, on the secondary first
    err := SendNext(nClient2, cloud, DeleteHanode(PeerNodeName), plan, 0, run);
    if err.Fail? {
      return;
    }
    err := SendNext(nClient1, cloud, DeleteHanode(PeerNodeName), plan, 1, run);
    if err.Fail? {
      return;
    }

    // 3. the secondary gets its own password back
    var systemuserReq2 := UpdateSystemuser(RootUser, passwordOrg);
    err := SendNext(nClient2, cloud, systemuserReq2, plan, 2, run);
    if err.Fail? {
      return;
    }
    assert plan[3..] == [];
    return Pass;
  }

  /** Both sessions are built before any call: if either controller is unknown, nothing is sent. */
  lemma SessionsBeforeCalls(directory: map<int, Credentials>, apps: map<string, Appliance>, trace: seq<Call>,
                            failures: map<nat, string>, primaryId: int, secondaryId: int)
    ensures primaryId !in directory ==>
      Establish(directory, apps, trace, failures, primaryId, secondaryId) == Run(apps, trace, Fail(PrimaryUnavailable(primaryId))) &&
      Teardown(directory, apps, trace, failures, primaryId, secondaryId) == Run(apps, trace, Fail(PrimaryUnavailable(primaryId)))
    ensures primaryId in directory && secondaryId !in directory ==>
      Establish(directory, apps, trace, failures, primaryId, secondaryId) == Run(apps, trace, Fail(SecondaryUnavailable(secondaryId))) &&
      Teardown(directory, apps, trace, failures, primaryId, secondaryId) == Run(apps, trace, Fail(SecondaryUnavailable(secondaryId)))
    ensures primaryId in directory && secondaryId in directory ==>
      var r := Establish(directory, apps, trace, failures, primaryId, secondaryId);
      var plan := EstablishPlan(directory[primaryId], directory[secondaryId]);
      && |trace| < |r.trace| <= |trace| + |plan|
      && r.trace == trace + plan[..|r.trace| - |trace|]
      && (r.outcome.Pass? ==> r.trace == trace + plan)
      && (|r.trace| < |trace| + |plan| ==> r.outcome.Fail?)
  {
    if primaryId in directory && secondaryId in directory {
      var plan := EstablishPlan(directory[primaryId], directory[secondaryId]);
      RunIssuesPrefix(apps, trace, failures, plan);
      RunLength(apps, trace, failures, plan);
      assert plan[..|plan|] == plan;
    }
  }

  /**
   * Credential propagation in the establish order: only the first call
   * authenticates with the secondary's own password, and it hands the
   * primary's password over; every later call, on either appliance, uses the
   * primary's password, both RPC-node requests carry it, and no call changes
   * a root password other than the first.
   */
  lemma EstablishCredentials(primary: Credentials, secondary: Credentials)
    ensures var plan := EstablishPlan(primary, secondary);
      && |plan| == 8
      && plan[0] == Call(secondary.managementIp, secondary.password, UpdateSystemuser(RootUser, primary.password))
      && (forall i :: 1 <= i < |plan| ==> plan[i].auth == primary.password)
      && (forall i :: 0 <= i < |plan| && plan[i].request.UpdateNsrpcnode? ==> plan[i].request.password == primary.password)
      && (forall i :: 0 <= i < |plan| && plan[i].request.UpdateSystemuser? ==> i == 0)
  {
  }

  /** A run changes no root password on `e` if none of its calls is a systemuser update sent to `e`. */
  lemma {:induction false} RunKeepsPassword(apps: map<string, Appliance>, trace: seq<Call>, failures: map<nat, string>,
                                            calls: seq<Call>, e: string)
    requires e in apps
    requires forall i :: 0 <= i < |calls| && calls[i].endpoint == e ==> !calls[i].request.UpdateSystemuser?
    ensures RunFrom(apps, trace, failures, calls).apps[e].rootPassword == apps[e].rootPassword
    decreases |calls|
  {
    if calls != [] {
      var (next, outcome) := Deliver(apps, failures, |trace|, calls[0]);
      if outcome.Pass? {
        assert next[e].rootPassword == apps[e].rootPassword;
        RunKeepsPassword(next, trace + [calls[0]], failures, calls[1..], e);
      }
    }
  }

  /** Whatever fails, neither establishing nor tearing down changes the primary's root password. */
  lemma PrimaryPasswordKept(directory: map<int, Credentials>, apps: map<string, Appliance>, trace: seq<Call>,
                            failures: map<nat, string>, primaryId: int, secondaryId: int)
    requires primaryId in directory && secondaryId in directory
    requires directory[primaryId].managementIp != directory[secondaryId].managementIp
    requires directory[primaryId].managementIp in apps
    ensures var e := directory[primaryId].managementIp;
      && Establish(directory, apps, trace, failures, primaryId, secondaryId).apps[e].rootPassword == apps[e].rootPassword
      && Teardown(directory, apps, trace, failures, primaryId, secondaryId).apps[e].rootPassword == apps[e].rootPassword
  {
    var e := directory[primaryId].managementIp;
    RunKeepsPassword(apps, trace, failures, EstablishPlan(directory[primaryId], directory[secondaryId]), e);
    RunKeepsPassword(apps, trace, failures, TeardownPlan(directory[primaryId], directory[secondaryId]), e);
  }

  /**
   * The first injected fault stops a run that would otherwise succeed: the
   * calls up to and including the faulted one are issued, nothing after it,
   * its error is returned, and what the calls before it did stays done.
   */
  lemma {:induction false} FirstFaultStops(apps: map<string, Appliance>, trace: seq<Call>, failures: map<nat, string>,
                                           calls: seq<Call>, k: nat)
    requires RunFrom(apps, trace, map[], calls).outcome.Pass?
    requires k < |calls| && |trace| + k in failures
    requires forall j :: |trace| <= j < |trace| + k ==> j !in failures
    ensures RunFrom(apps, trace, failures, calls) ==
      Run(RunFrom(apps, trace, map[], calls[..k]).apps, trace + calls[..k + 1], Fail(failures[|trace| + k]))
    decreases k
  {
    if k > 0 {
      var (next, outcome) := Deliver(apps, map[], |trace|, calls[0]);
      assert Deliver(apps, failures, |trace|, calls[0]) == (next, outcome);
      PrefixAfterFirst(trace, calls, k);
      FirstFaultStops(next, trace + [calls[0]], failures, calls[1..], k - 1);
    }
  }

  lemma PrefixAfterFirst(trace: seq<Call>, calls: seq<Call>, k: nat)
    requires 0 < k < |calls|
    ensures calls[..k][0] == calls[0] && calls[..k][1..] == calls[1..][..k - 1]
    ensures trace + [calls[0]] + calls[1..][..k] == trace + calls[..k + 1]
  {
  }

  lemma TraceGrows(trace: seq<Call>, calls: seq<Call>, k: nat)
    requires k < |calls|
    ensures trace + calls[..k] + [calls[k]] == trace + calls[..k + 1]
  {
    assert calls[..k + 1] == calls[..k] + [calls[k]];
  }

  /** The appliance an accepted call sequence leaves behind after a successful establish. */
  function Paired(a: Appliance, nodePeer: string, primaryIp: string, secondaryIp: string,
                  password: string, synced: bool): Appliance {
    a.(haNodes := a.haNodes[PeerNodeId := nodePeer],
       rpcNodes := a.rpcNodes[primaryIp := password][secondaryIp := password],
       synced := synced)
  }

  /**
   * One accepted call to `p` in a run between two appliances `p` and `s`,
   * the others untouched, with `P` and `S` their current states.
   */
  lemma PrimaryStep(apps: map<string, Appliance>, p: string, P: Appliance, s: string, S: Appliance, P2: Appliance,
                    trace: seq<Call>, failures: map<nat, string>, calls: seq<Call>, k: nat)
    requires p != s && p in apps && s in apps && k < |calls| && |trace| + k !in failures
    requires calls[k].endpoint == p && P.rootPassword == calls[k].auth && P2 == Apply(P, calls[k].request)
    ensures RunFrom(apps[p := P][s := S], trace + calls[..k], failures, calls[k..]) ==
      RunFrom(apps[p := P2][s := S], trace + calls[..k + 1], failures, calls[k + 1..])
  {
    TraceGrows(trace, calls, k);
    var a := apps[p := P][s := S];
    var d := Deliver(a, failures, |trace + calls[..k]|, calls[k]);
    assert d.0 == apps[p := P2][s := S];
    SentAt(a, trace + calls[..k], failures, calls, k, d.0, d.1);
  }

  /** One accepted call to `s`, likewise. */
  lemma SecondaryStep(apps: map<string, Appliance>, p: string, P: Appliance, s: string, S: Appliance, S2: Appliance,
                      trace: seq<Call>, failures: map<nat, string>, calls: seq<Call>, k: nat)
    requires p != s && p in apps && s in apps && k < |calls| && |trace| + k !in failures
    requires calls[k].endpoint == s && S.rootPassword == calls[k].auth && S2 == Apply(S, calls[k].request)
    ensures RunFrom(apps[p := P][s := S], trace + calls[..k], failures, calls[k..]) ==
      RunFrom(apps[p := P][s := S2], trace + calls[..k + 1], failures, calls[k + 1..])
  {
    TraceGrows(trace, calls, k);
    var a := apps[p := P][s := S];
    var d := Deliver(a, failures, |trace + calls[..k]|, calls[k]);
    assert d.0 == apps[p := P][s := S2];
    SentAt(a, trace + calls[..k], failures, calls, k, d.0, d.1);
  }

  /** The shape of the establish order, for any eight calls. */
  predicate EstablishShape(plan: seq<Call>, p: string, s: string, pw: string, spw: string) {
    && |plan| == 8
    && plan[0] == Call(s, spw, UpdateSystemuser(RootUser, pw))
    && plan[1] == Call(p, pw, AddHanode(PeerNodeId, s))
    && plan[2] == Call(s, pw, AddHanode(PeerNodeId, p))
    && plan[3] == Call(p, pw, UpdateNsrpcnode(p, pw))
    && plan[4] == Call(p, pw, UpdateNsrpcnode(s, pw))
    && plan[5] == Call(s, pw, UpdateNsrpcnode(p, pw))
    && plan[6] == Call(s, pw, UpdateNsrpcnode(s, pw))
    && plan[7] == Call(p, pw, AddHafiles(SyncAllFiles, SyncAction))
  }

  /** Establish call 0, accepted: the secondary takes the primary's root password. */
  lemma EstablishCall0(apps: map<string, Appliance>, trace: seq<Call>, failures: map<nat, string>,
                       plan: seq<Call>, p: string, s: string, pw: string, spw: string, P: Appliance, S: Appliance)
    requires p != s && p in apps && s in apps
    requires S.rootPassword == spw
    requires |trace| !in failures
    requires EstablishShape(plan, p, s, pw, spw)
    ensures RunFrom(apps[p := P][s := S], trace, failures, plan) ==
      RunFrom(apps[p := P][s := S.(rootPassword := pw)], trace + plan[..1], failures, plan[1..])
  {
    assert trace + plan[..0] == trace && plan[0..] == plan;
    SecondaryStep(apps, p, P, s, S, S.(rootPassword := pw), trace, failures, plan, 0);
  }

  /** Establish call 1, accepted: the primary registers the secondary as node 2. */
  lemma EstablishCall1(apps: map<string, Appliance>, trace: seq<Call>, failures: map<nat, string>,
                       plan: seq<Call>, p: string, s: string, pw: string, spw: string, P: Appliance, S: Appliance)
    requires p != s && p in apps && s in apps
    requires P.rootPassword == pw
    requires |trace| + 1 !in failures
    requires EstablishShape(plan, p, s, pw, spw)
    ensures RunFrom(apps[p := P][s := S], trace + plan[..1], failures, plan[1..]) ==
      RunFrom(apps[p := P.(haNodes := P.haNodes[PeerNodeId := s])][s := S], trace + plan[..2], failures, plan[2..])
  {
    PrimaryStep(apps, p, P, s, S, P.(haNodes := P.haNodes[PeerNodeId := s]), trace, failures, plan, 1);
  }

  /** Establish calls 2 and 3, accepted: node 2 on the secondary, then the primary's own RPC node. */
  lemma EstablishCalls23(apps: map<string, Appliance>, trace: seq<Call>, failures: map<nat, string>,
                         plan: seq<Call>, p: string, s: string, pw: string, spw: string, P: Appliance, S: Appliance)
    requires p != s && p in apps && s in apps
    requires S.rootPassword == pw && P.rootPassword == pw
    requires |trace| + 2 !in failures && |trace| + 3 !in failures
    requires EstablishShape(plan, p, s, pw, spw)
    ensures RunFrom(apps[p := P][s := S], trace + plan[..2], failures, plan[2..]) ==
      RunFrom(apps[p := P.(rpcNodes := P.rpcNodes[p := pw])][s := S.(haNodes := S.haNodes[PeerNodeId := p])],
              trace + plan[..4], failures, plan[4..])
  {
    var S3 := S.(haNodes := S.haNodes[PeerNodeId := p]);
    assert Apply(S, plan[2].request) == S3;
    assert Apply(P, plan[3].request) == P.(rpcNodes := P.rpcNodes[p := pw]);
    SecondaryStep(apps, p, P, s, S, S3, trace, failures, plan, 2);
    PrimaryStep(apps, p, P, s, S3, P.(rpcNodes := P.rpcNodes[p := pw]), trace, failures, plan, 3);
  }

  /** Establish calls 4 and 5, accepted: the secondary's RPC node on the primary, the primary's on the secondary. */
  lemma EstablishCalls45(apps: map<string, Appliance>, trace: seq<Call>, failures: map<nat, string>,
                         plan: seq<Call>, p: string, s: string, pw: string, spw: string, P: Appliance, S: Appliance)
    requires p != s && p in apps && s in apps
    requires P.rootPassword == pw && S.rootPassword == pw
    requires |trace| + 4 !in failures && |trace| + 5 !in failures
    requires EstablishShape(plan, p, s, pw, spw)
    ensures RunFrom(apps[p := P][s := S], trace + plan[..4], failures, plan[4..]) ==
      RunFrom(apps[p := P.(rpcNodes := P.rpcNodes[s := pw])][s := S.(rpcNodes := S.rpcNodes[p := pw])],
              trace + plan[..6], failures, plan[6..])
  {
    var P5 := P.(rpcNodes := P.rpcNodes[s := pw]);
    assert Apply(P, plan[4].request) == P5;
    assert Apply(S, plan[5].request) == S.(rpcNodes := S.rpcNodes[p := pw]);
    PrimaryStep(apps, p, P, s, S, P5, trace, failures, plan, 4);
    SecondaryStep(apps, p, P5, s, S, S.(rpcNodes := S.rpcNodes[p := pw]), trace, failures, plan, 5);
  }

  /** Establish calls 6 and 7, accepted: the secondary's own RPC node, then the file sync; the run ends there. */
  lemma EstablishCalls67(apps: map<string, Appliance>, trace: seq<Call>, failures: map<nat, string>,
                         plan: seq<Call>, p: string, s: string, pw: string, spw: string, P: Appliance, S: Appliance)
    requires p != s && p in apps && s in apps
    requires P.rootPassword == pw && S.rootPassword == pw
    requires |trace| + 6 !in failures && |trace| + 7 !in failures
    requires EstablishShape(plan, p, s, pw, spw)
    ensures RunFrom(apps[p := P][s := S], trace + plan[..6], failures, plan[6..]) ==
      Run(apps[p := P.(synced := true)][s := S.(rpcNodes := S.rpcNodes[s := pw])], trace + plan, Pass)
  {
    var S7 := S.(rpcNodes := S.rpcNodes[s := pw]);
    assert Apply(S, plan[6].request) == S7;
    assert Apply(P, plan[7].request) == P.(synced := true);
    SecondaryStep(apps, p, P, s, S, S7, trace, failures, plan, 6);
    PrimaryStep(apps, p, P, s, S7, P.(synced := true), trace, failures, plan, 7);
    assert plan[8..] == [] && plan[..8] == plan;
  }

  /** The first four establish calls, accepted: password hand-over, HA nodes, the primary's own RPC node. */
  lemma FirstFourAccepted(apps: map<string, Appliance>, trace: seq<Call>, failures: map<nat, string>,
                          plan: seq<Call>, p: string, s: string, pw: string, spw: string, P: Appliance, S: Appliance)
    requires p != s && p in apps && s in apps
    requires P.rootPassword == pw && S.rootPassword == spw
    requires forall j :: |trace| <= j < |trace| + 4 ==> j !in failures
    requires EstablishShape(plan, p, s, pw, spw)
    ensures RunFrom(apps[p := P][s := S], trace, failures, plan) ==
      RunFrom(apps[p := P.(haNodes := P.haNodes[PeerNodeId := s], rpcNodes := P.rpcNodes[p := pw])]
                  [s := S.(rootPassword := pw, haNodes := S.haNodes[PeerNodeId := p])],
              trace + plan[..4], failures, plan[4..])
  {
    assert |trace| + 0 !in failures && |trace| + 1 !in failures;
    assert |trace| + 2 !in failures && |trace| + 3 !in failures;
    EstablishCall0(apps, trace, failures, plan, p, s, pw, spw, P, S);
    EstablishCall1(apps, trace, failures, plan, p, s, pw, spw, P, S.(rootPassword := pw));
    EstablishCalls23(apps, trace, failures, plan, p, s, pw, spw,
                     P.(haNodes := P.haNodes[PeerNodeId := s]), S.(rootPassword := pw));
  }

  /** The last four establish calls, accepted: the remaining RPC nodes, then the file sync. */
  lemma LastFourAccepted(apps: map<string, Appliance>, trace: seq<Call>, failures: map<nat, string>,
                         plan: seq<Call>, p: string, s: string, pw: string, spw: string, P: Appliance, S: Appliance)
    requires p != s && p in apps && s in apps
    requires P.rootPassword == pw && S.rootPassword == pw
    requires forall j :: |trace| + 4 <= j < |trace| + 8 ==> j !in failures
    requires EstablishShape(plan, p, s, pw, spw)
    ensures RunFrom(apps[p := P][s := S], trace + plan[..4], failures, plan[4..]) ==
      Run(apps[p := P.(rpcNodes := P.rpcNodes[s := pw], synced := true)]
              [s := S.(rpcNodes := S.rpcNodes[p := pw][s := pw])],
          trace + plan, Pass)
  {
    assert |trace| + 4 !in failures && |trace| + 5 !in failures;
    assert |trace| + 6 !in failures && |trace| + 7 !in failures;
    EstablishCalls45(apps, trace, failures, plan, p, s, pw, spw, P, S);
    EstablishCalls67(apps, trace, failures, plan, p, s, pw, spw,
                     P.(rpcNodes := P.rpcNodes[s := pw]), S.(rpcNodes := S.rpcNodes[p := pw]));
  }

  /** The run of any eight accepted calls that look like the establish order. */
  lemma EightAccepted(apps: map<string, Appliance>, trace: seq<Call>, failures: map<nat, string>,
                      plan: seq<Call>, p: string, s: string, pw: string, spw: string)
    requires p != s && p in apps && s in apps
    requires apps[p].rootPassword == pw && apps[s].rootPassword == spw
    requires forall j :: |trace| <= j < |trace| + 8 ==> j !in failures
    requires EstablishShape(plan, p, s, pw, spw)
    ensures RunFrom(apps, trace, failures, plan) ==
      Run(apps[p := Paired(apps[p], s, p, s, pw, true)]
              [s := Paired(apps[s].(rootPassword := pw), p, p, s, pw, apps[s].synced)],
          trace + plan, Pass)
  {
    assert apps == apps[p := apps[p]][s := apps[s]];
    FirstFourAccepted(apps, trace, failures, plan, p, s, pw, spw, apps[p], apps[s]);
    var P := apps[p].(haNodes := apps[p].haNodes[PeerNodeId := s], rpcNodes := apps[p].rpcNodes[p := pw]);
    var S := apps[s].(rootPassword := pw, haNodes := apps[s].haNodes[PeerNodeId := p]);
    LastFourAccepted(apps, trace, failures, plan, p, s, pw, spw, P, S);
  }

  /**
   * Establishing without faults, on appliances whose root passwords are the
   * directory's: every call is issued and accepted; the secondary ends with
   * the primary's root password, each has the other as HA node 2 and both
   * addresses as RPC nodes with the primary's password, the primary's files
   * are synced, and no other appliance is touched.
   */
  lemma EstablishFaultFree(primary: Credentials, secondary: Credentials, apps: map<string, Appliance>,
                           trace: seq<Call>, failures: map<nat, string>)
    requires primary.managementIp != secondary.managementIp
    requires primary.managementIp in apps && secondary.managementIp in apps
    requires apps[primary.managementIp].rootPassword == primary.password
    requires apps[secondary.managementIp].rootPassword == secondary.password
    requires forall j :: |trace| <= j < |trace| + 8 ==> j !in failures
    ensures var r := RunFrom(apps, trace, failures, EstablishPlan(primary, secondary));
      var p, s, pw := primary.managementIp, secondary.managementIp, primary.password;
      && r.outcome == Pass
      && r.trace == trace + EstablishPlan(primary, secondary)
      && r.apps == apps[p := Paired(apps[p], s, p, s, pw, true)]
                       [s := Paired(apps[s].(rootPassword := pw), p, p, s, pw, apps[s].synced)]
  {
    EightAccepted(apps, trace, failures, EstablishPlan(primary, secondary),
                  primary.managementIp, secondary.managementIp, primary.password, secondary.password);
  }

  /**
   * A fault at the k-th establish call on otherwise healthy appliances:
   * that call's error is returned, the calls before it are issued and stay
   * in effect (nothing is rolled back), and none after it is issued.
   */
  lemma EstablishStopsAtFault(primary: Credentials, secondary: Credentials, apps: map<string, Appliance>,
                              trace: seq<Call>, failures: map<nat, string>, k: nat)
    requires primary.managementIp != secondary.managementIp
    requires primary.managementIp in apps && secondary.managementIp in apps
    requires apps[primary.managementIp].rootPassword == primary.password
    requires apps[secondary.managementIp].rootPassword == secondary.password
    requires k < 8 && |trace| + k in failures
    requires forall j :: |trace| <= j < |trace| + k ==> j !in failures
    ensures var plan := EstablishPlan(primary, secondary);
      RunFrom(apps, trace, failures, plan) ==
        Run(RunFrom(apps, trace, map[], plan[..k]).apps, trace + plan[..k + 1], Fail(failures[|trace| + k]))
  {
    EstablishFaultFree(primary, secondary, apps, trace, map[]);
    FirstFaultStops(apps, trace, failures, EstablishPlan(primary, secondary), k);
  }

  /**
   * Without the switch of the secondary session's password, every later
   * call to the secondary would be refused: once the first call has been
   * accepted, the secondary's own directory password no longer authenticates.
   */
  lemma StalePasswordRefused(primary: Credentials, secondary: Credentials, apps: map<string, Appliance>,
                             trace: seq<Call>, failures: map<nat, string>, pos: nat, request: Request)
    requires primary.password != secondary.password
    requires Deliver(apps, failures, |trace|, EstablishPlan(primary, secondary)[0]).1.Pass?
    requires pos !in failures
    ensures var after := Deliver(apps, failures, |trace|, EstablishPlan(primary, secondary)[0]).0;
      Deliver(after, failures, pos, Call(secondary.managementIp, secondary.password, request)).1 == Fail(AuthFailed)
  {
  }

  /** The name the teardown deletes designates node 2, the peer the establish registers. */
  lemma PeerNodeNameDesignatesPeer()
    ensures Atoi(PeerNodeName) == Some(PeerNodeId)
  {
    assert DecimalValue(PeerNodeName) == PeerNodeId;
  }

  /** HA node entries other than node 2 that a run of node-2 deletes and password updates leaves alone. */
  predicate SparesOtherNodes(calls: seq<Call>) {
    forall i :: 0 <= i < |calls| ==>
      calls[i].request.UpdateSystemuser? || calls[i].request == DeleteHanode(PeerNodeName)
  }

  lemma {:induction false} RunSparesOtherNodes(apps: map<string, Appliance>, trace: seq<Call>, failures: map<nat, string>,
                                               calls: seq<Call>, e: string, k: int)
    requires SparesOtherNodes(calls)
    requires e in apps && k != PeerNodeId
    ensures var r := RunFrom(apps, trace, failures, calls);
      && (k in r.apps[e].haNodes <==> k in apps[e].haNodes)
      && (k in apps[e].haNodes ==> r.apps[e].haNodes[k] == apps[e].haNodes[k])
    decreases |calls|
  {
    if calls != [] {
      var (next, outcome) := Deliver(apps, failures, |trace|, calls[0]);
      if outcome.Pass? {
        PeerNodeNameDesignatesPeer();
        assert (k in next[e].haNodes <==> k in apps[e].haNodes) &&
          (k in apps[e].haNodes ==> next[e].haNodes[k] == apps[e].haNodes[k]);
        assert SparesOtherNodes(calls[1..]) by {
          forall i | 0 <= i < |calls[1..]| ensures calls[1..][i] == calls[i + 1] { }
        }
        RunSparesOtherNodes(next, trace + [calls[0]], failures, calls[1..], e, k);
      }
    }
  }

  /**
   * Whatever fails, tearing down neither removes nor adds nor changes any HA
   * node other than node 2, on any appliance.
   */
  lemma TeardownOnlyRemovesPeer(directory: map<int, Credentials>, apps: map<string, Appliance>, trace: seq<Call>,
                                failures: map<nat, string>, primaryId: int, secondaryId: int, e: string, k: int)
    requires e in apps && k != PeerNodeId
    ensures var r := Teardown(directory, apps, trace, failures, primaryId, secondaryId);
      && (k in r.apps[e].haNodes <==> k in apps[e].haNodes)
      && (k in apps[e].haNodes ==> r.apps[e].haNodes[k] == apps[e].haNodes[k])
  {
    if primaryId in directory && secondaryId in directory {
      RunSparesOtherNodes(apps, trace, failures, TeardownPlan(directory[primaryId], directory[secondaryId]), e, k);
    }
  }

  function WithoutPeer(a: Appliance): Appliance {
    a.(haNodes := a.haNodes - {PeerNodeId})
  }

  lemma DeletePeerNode(a: Appliance)
    ensures Apply(a, DeleteHanode(PeerNodeName)) == WithoutPeer(a)
  {
    PeerNodeNameDesignatesPeer();
  }

  /**
   * Tearing down a pair whose secondary has the primary's password, without
   * faults: node 2 disappears from both appliances, the secondary gets its
   * directory password back, and nothing else changes.
   */
  lemma TeardownFaultFree(primary: Credentials, secondary: Credentials, apps: map<string, Appliance>,
                          trace: seq<Call>, failures: map<nat, string>)
    requires primary.managementIp != secondary.managementIp
    requires primary.managementIp in apps && secondary.managementIp in apps
    requires apps[primary.managementIp].rootPassword == primary.password
    requires apps[secondary.managementIp].rootPassword == primary.password
    requires forall j :: |trace| <= j < |trace| + 3 ==> j !in failures
    ensures var r := RunFrom(apps, trace, failures, TeardownPlan(primary, secondary));
      var p, s := primary.managementIp, secondary.managementIp;
      && r.outcome == Pass
      && r.trace == trace + TeardownPlan(primary, secondary)
      && r.apps == apps[s := WithoutPeer(apps[s]).(rootPassword := secondary.password)][p := WithoutPeer(apps[p])]
  {
    var p, s := primary.managementIp, secondary.managementIp;
    var plan := TeardownPlan(primary, secondary);
    DeletePeerNode(apps[s]);
    DeletePeerNode(apps[p]);
    var a1 := apps[s := WithoutPeer(apps[s])];
    var a2 := a1[p := WithoutPeer(apps[p])];
    var a3 := a2[s := WithoutPeer(apps[s]).(rootPassword := secondary.password)];
    assert RunFrom(a2, trace + plan[..2], failures, plan[2..]) == Run(a3, trace + plan, Pass) by {
      assert plan[2..][1..] == [] && trace + plan[..2] + [plan[2]] == trace + plan;
    }
    assert RunFrom(a1, trace + plan[..1], failures, plan[1..]) == Run(a3, trace + plan, Pass) by {
      assert plan[1..][1..] == plan[2..] && trace + plan[..1] + [plan[1]] == trace + plan[..2];
    }
    assert RunFrom(apps, trace, failures, plan) == Run(a3, trace + plan, Pass) by {
      assert plan[..1] == [plan[0]];
    }
    assert a3 == apps[s := WithoutPeer(apps[s]).(rootPassword := secondary.password)][p := WithoutPeer(apps[p])];
  }

  /**
   * The secondary's password is restored only after both deletes succeeded:
   * a fault at the first delete leaves everything as it was, and one at the
   * second leaves the secondary without node 2 but still on the primary's
   * password; in neither case is the restore issued.
   */
  lemma TeardownInterrupted(primary: Credentials, secondary: Credentials, apps: map<string, Appliance>,
                            trace: seq<Call>, failures: map<nat, string>)
    requires primary.managementIp != secondary.managementIp
    requires primary.managementIp in apps && secondary.managementIp in apps
    requires apps[primary.managementIp].rootPassword == primary.password
    requires apps[secondary.managementIp].rootPassword == primary.password
    ensures var plan := TeardownPlan(primary, secondary);
      var r := RunFrom(apps, trace, failures, plan);
      var s := secondary.managementIp;
      && (|trace| in failures ==> r == Run(apps, trace + plan[..1], Fail(failures[|trace|])))
      && (|trace| !in failures && |trace| + 1 in failures ==>
            r == Run(apps[s := WithoutPeer(apps[s])], trace + plan[..2], Fail(failures[|trace| + 1])))
  {
    var plan := TeardownPlan(primary, secondary);
    var s := secondary.managementIp;
    assert plan[0..] == plan && plan[..1] == [plan[0]];
    if |trace| in failures {
      SentAt(apps, trace, failures, plan, 0, apps, Fail(failures[|trace|]));
    } else if |trace| + 1 in failures {
      var a1 := apps[s := WithoutPeer(apps[s])];
      DeletePeerNode(apps[s]);
      SentAt(apps, trace, failures, plan, 0, a1, Pass);
      SentAt(a1, trace + [plan[0]], failures, plan, 1, a1, Fail(failures[|trace| + 1]));
      assert trace + [plan[0]] + [plan[1]] == trace + plan[..2];
    }
  }

  /** The part of the Terraform resource data the Update branch reads. */
  datatype HaChange = HaChange(
    changed: bool,            // d.HasChange("ha_secondary")
    propertyCount: string,    // d.Get("ha_secondary.%")
    primaryId: string,        // d.Get("ha_secondary.primary_id")
    previousPrimaryId: string) // the old value of ha_secondary.primary_id

  /** What resourceSoftLayerLbVpxUpdate decides to do. */
  datatype UpdateAction =
    | NoChange
    | InvalidId(text: string)
    | EstablishHa(primaryId: int, secondaryId: int)
    | TeardownHa(primaryId: int, secondaryId: int)

  /** The branch logic of resourceSoftLayerLbVpxUpdate; a malformed count is taken as 0. */
  function DecideUpdate(resourceId: string, change: HaChange): UpdateAction {
    if !change.changed then NoChange
    else
      var primaryText := if Atoi(change.propertyCount).GetOr(0) > 0 then change.primaryId else change.previousPrimaryId;
      match Atoi(primaryText)
      case None => InvalidId(primaryText)
      case Some(primaryId) =>
        match Atoi(resourceId)
        case None => InvalidId(resourceId)
        case Some(secondaryId) =>
          if Atoi(change.propertyCount).GetOr(0) > 0 then EstablishHa(primaryId, secondaryId)
          else TeardownHa(primaryId, secondaryId)
  }

  /**
   * Update acts only when ha_secondary changed; with properties present it
   * establishes HA with primary_id as primary and this resource as
   * secondary, and with none it tears down the pair recorded before the change.
   */
  lemma DecideUpdateCases(resourceId: string, change: HaChange, p: int, s: int)
    ensures !change.changed ==> DecideUpdate(resourceId, change) == NoChange
    ensures DecideUpdate(resourceId, change) == EstablishHa(p, s) <==>
      change.changed && Atoi(change.propertyCount).GetOr(0) > 0 &&
      Atoi(change.primaryId) == Some(p) && Atoi(resourceId) == Some(s)
    ensures DecideUpdate(resourceId, change) == TeardownHa(p, s) <==>
      change.changed && Atoi(change.propertyCount).GetOr(0) <= 0 &&
      Atoi(change.previousPrimaryId) == Some(p) && Atoi(resourceId) == Some(s)
  {
  }

  /** resourceSoftLayerLbVpxUpdate as written: the teardown's error is dropped. */
  function UpdateAsWritten(directory: map<int, Credentials>, apps: map<string, Appliance>, trace: seq<Call>,
                           failures: map<nat, string>, resourceId: string, change: HaChange): Run {
    match DecideUpdate(resourceId, change)
    case NoChange => Run(apps, trace, Pass)
    case InvalidId(text) => Run(apps, trace, Fail(NotValidId + AtoiSyntaxError(text)))
    case EstablishHa(p, s) =>
      var r := Establish(directory, apps, trace, failures, p, s);
      if r.outcome.Fail? then r.(outcome := Fail(ConfigureFailed + r.outcome.error)) else r
    case TeardownHa(p, s) => Teardown(directory, apps, trace, failures, p, s).(outcome := Pass)
  }

  /** resourceSoftLayerLbVpxUpdate as evidently intended: the teardown's error is returned. */
  function UpdateIntended(directory: map<int, Credentials>, apps: map<string, Appliance>, trace: seq<Call>,
                          failures: map<nat, string>, resourceId: string, change: HaChange): Run {
    match DecideUpdate(resourceId, change)
    case TeardownHa(p, s) => Teardown(directory, apps, trace, failures, p, s)
    case _ => UpdateAsWritten(directory, apps, trace, failures, resourceId, change)
  }

  /** resourceSoftLayerLbVpxUpdate. */
  method Update(cloud: Cloud, resourceId: string, change: HaChange) returns (err: Outcome)
    modifies cloud
    ensures Run(cloud.appliances, cloud.trace, err) ==
      UpdateAsWritten(cloud.directory, old(cloud.appliances), old(cloud.trace), cloud.failures, resourceId, change)
  {
    if change.changed {
      var numOfProperties := Atoi(change.propertyCount).GetOr(0);
      if numOfProperties > 0 {
        var primaryId := Atoi(change.primaryId);
        if primaryId.None? {
          return Fail(NotValidId + AtoiSyntaxError(change.primaryId));
        }
        var secondaryId := Atoi(resourceId);
        if secondaryId.None? {
          return Fail(NotValidId + AtoiSyntaxError(resourceId));
        }
        assert DecideUpdate(resourceId, change) == EstablishHa(primaryId.value, secondaryId.value);
        err := ConfigureHa(cloud, primaryId.value, secondaryId.value);
        if err.Fail? {
          return Fail(ConfigureFailed + err.error);
        }
      } else {
        var primaryId := Atoi(change.previousPrimaryId);
        if primaryId.None? {
          return Fail(NotValidId + AtoiSyntaxError(change.previousPrimaryId));
        }
        var secondaryId := Atoi(resourceId);
        if secondaryId.None? {
          return Fail(NotValidId + AtoiSyntaxError(resourceId));
        }
        assert DecideUpdate(resourceId, change) == TeardownHa(primaryId.value, secondaryId.value);
        err := DeleteHa(cloud, primaryId.value, secondaryId.value);
      }
    }
    return Pass;
  }

  /** As written, a teardown that fails still reports success, though its calls were made. */
  lemma UpdateHidesTeardownFailure(directory: map<int, Credentials>, apps: map<string, Appliance>, trace: seq<Call>,
                                   failures: map<nat, string>, resourceId: string, change: HaChange)
    requires DecideUpdate(resourceId, change).TeardownHa?
    ensures var a := DecideUpdate(resourceId, change);
      var t := Teardown(directory, apps, trace, failures, a.primaryId, a.secondaryId);
      UpdateAsWritten(directory, apps, trace, failures, resourceId, change) == Run(t.apps, t.trace, Pass)
  {
  }

  /** A pairing whose first teardown call fails. */
  const ExampleDirectory := map[1 := Credentials("10.0.0.1", "pw1"), 2 := Credentials("10.0.0.2", "pw2")]
  const ExampleChange := HaChange(true, "0", "", "1")

  /** The input that shows it: tearing down HA of controller 2 from controller 1 while the first delete fails. */
  lemma UpdateHidesTeardownFailureExample(apps: map<string, Appliance>)
    ensures Teardown(ExampleDirectory, apps, [], map[0 := "connection reset"], 1, 2).outcome == Fail("connection reset")
    ensures UpdateAsWritten(ExampleDirectory, apps, [], map[0 := "connection reset"], "2", ExampleChange).outcome == Pass
    ensures UpdateIntended(ExampleDirectory, apps, [], map[0 := "connection reset"], "2", ExampleChange).outcome
      == Fail("connection reset")
  {
    assert Atoi("0") == Some(0) by { assert DecimalValue("0") == 0; }
    assert Atoi("1") == Some(1) by { assert DecimalValue("1") == 1; }
    assert Atoi("2") == Some(2) by { assert DecimalValue("2") == 2; }
    assert DecideUpdate("2", ExampleChange) == TeardownHa(1, 2);
  }

  /**
   * As intended, Update reports success exactly when there was nothing to
   * do or the HA operation it chose succeeded.
   */
  lemma UpdateIntendedReports(directory: map<int, Credentials>, apps: map<string, Appliance>, trace: seq<Call>,
                              failures: map<nat, string>, resourceId: string, change: HaChange)
    ensures var a := DecideUpdate(resourceId, change);
      UpdateIntended(directory, apps, trace, failures, resourceId, change).outcome.Pass? <==>
        || a.NoChange?
        || (a.EstablishHa? && Establish(directory, apps, trace, failures, a.primaryId, a.secondaryId).outcome.Pass?)
        || (a.TeardownHa? && Teardown(directory, apps, trace, failures, a.primaryId, a.secondaryId).outcome.Pass?)
    ensures UpdateIntended(directory, apps, trace, failures, resourceId, change).apps ==
      UpdateAsWritten(directory, apps, trace, failures, resourceId, change).apps
    ensures UpdateIntended(directory, apps, trace, failures, resourceId, change).trace ==
      UpdateAsWritten(directory, apps, trace, failures, resourceId, change).trace
  {
  }
}
