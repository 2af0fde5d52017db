/** Hcp: the service definition `ToHCP` builds from a role manifest. The definition is an
    object filled step by step (`to_hcp`, `process_roles`, `add_role`); each step is a method
    of `Definition` proved against a function of the definition's previous contents, and the
    whole run against `Transform`. */
module Hcp {
  import opened Results
  import Seqs
  import opened Text
  import opened Version
  import opened Manifest
  import opened ParameterCodec
  import opened Volumes
  import opened Ports
  import opened ComponentParameters
  import opened Auth

  const ProductName := "hcf"
  const Vendor := "HPE"
  const ComponentVersion := "0.0.0"
  const MinDiskGb := 1
  const Platform := "linux-x86_64"
  const WorkloadType := "container"
  const DockerKind := "docker"
  const TaskRetries: nat := 5
  const EnvCommand := "/usr/bin/env"
  const InternalHostnames := "HCP_HOSTNAME_SUFFIX=-int"
  const RunScript := "/opt/hcf/run.sh"

  /** A component (a role) of the definition. `retryCount` and `entrypoint` are keys that
      may be absent. */
  datatype Component = Component(
    name: string,
    version: string,
    vendor: string,
    image: string,
    repository: string,
    minRamMb: Option<int>,
    minDiskGb: int,
    minVcpu: Option<int>,
    platform: string,
    capabilities: Option<seq<string>>,
    labels: seq<string>,
    minInstances: int,
    maxInstances: int,
    servicePorts: seq<ServicePort>,
    volumeMounts: seq<Mount>,
    parameters: seq<string>,
    workloadType: string,
    retryCount: Option<nat>,
    entrypoint: Option<seq<string>>)

  /** The three lists a role can be routed to. */
  datatype Section = Preflight | Flight | Postflight

  /** The parts of the definition the transform fills. */
  datatype State = State(
    volumes: seq<Filesystem>,
    preflight: seq<Component>,
    components: seq<Component>,
    postflight: seq<Component>,
    parameters: seq<ParamDef>,
    auth: Option<seq<AuthDef>>)

  /** The finished service definition. */
  datatype ServiceDefinition = ServiceDefinition(
    name: string,
    sdlVersion: string,
    productVersion: string,
    vendor: string,
    content: State)

  const EmptyState := State([], [], [], [], [], None)

  // ---------------------------------------------------------------- roles

  /** Manual roles and development-only roles have no place in the definition. */
  predicate Skipped(role: Role) {
    role.stage == "manual" || "dev-only" in role.tags
  }

  /** Task roles are retried a bounded number of times; other roles are not. */
  function Retries(role: Role): nat {
    if role.isTask then TaskRetries else 0
  }

  /** The section a flight stage is routed to. */
  function SectionOf(stage: string): (r: Option<Section>)
    ensures r == Some(Preflight) <==> stage == "pre-flight"
    ensures r == Some(Flight) <==> stage == "flight"
    ensures r == Some(Postflight) <==> stage == "post-flight"
  {
    if stage == "pre-flight" then Some(Preflight)
    else if stage == "flight" then Some(Flight)
    else if stage == "post-flight" then Some(Postflight)
    else None
  }

  function Image(c: Collaborators, name: string): string {
    c.dtrOrg + "/" + c.hcfPrefix + "-" + name + ":" + c.hcfTag
  }

  predicate HasPublicPort(ports: seq<Port>) {
    exists i :: 0 <= i < |ports| && ports[i].public == Some(true)
  }

  /** `build_entrypoint`: the command line of a non-docker role. */
  function Entrypoint(c: Collaborators, m: RoleManifest, role: Role, run: Runtime): Result<seq<string>> {
    if run.exposedPorts.None? then Err(MissingExposedPorts(role.name))
    else
      var hostnames := if HasPublicPort(run.exposedPorts.value) then [] else [InternalHostnames];
      Ok([EnvCommand] + hostnames + UaaSettings(c, m) + [RunScript])
  }

  /** The UAA clients and user authorities handed to the role's script, each when the
      manifest's auth block has them. */
  function UaaSettings(c: Collaborators, m: RoleManifest): seq<string> {
    var clients := if m.auth.Some? && m.auth.value.clients.Some?
                   then ["UAA_CLIENTS=" + c.clientsJson(m.auth.value.clients.value)] else [];
    var authorities := if m.auth.Some? && m.auth.value.authorities.Some?
                       then ["UAA_USER_AUTHORITIES=" + c.authoritiesJson(m.auth.value.authorities.value)] else [];
    clients + authorities
  }

  /** The entry point fails exactly when the role declares no ports. */
  lemma EntrypointFails(c: Collaborators, m: RoleManifest, role: Role, run: Runtime)
    ensures Entrypoint(c, m, role, run).Ok? <==> run.exposedPorts.Some?
    ensures Entrypoint(c, m, role, run).Err? ==> Entrypoint(c, m, role, run).error == MissingExposedPorts(role.name)
  {
  }

  /** The entry point runs the role's script through `env`; it marks the role's host names
      internal exactly when none of its ports is public, and passes the UAA clients and user
      authorities when the manifest has them. */
  lemma EntrypointShape(c: Collaborators, m: RoleManifest, role: Role, run: Runtime)
    requires run.exposedPorts.Some?
    ensures Entrypoint(c, m, role, run).Ok?
    ensures var e := Entrypoint(c, m, role, run).value;
      && 2 <= |e| <= 5 && e[0] == EnvCommand && e[|e| - 1] == RunScript
      && (InternalHostnames in e <==> !HasPublicPort(run.exposedPorts.value))
  {
    var u := UaaSettings(c, m);
    UaaSettingsShape(c, m);
    Framed(InternalHostnames, EnvCommand, u, RunScript);
    if HasPublicPort(run.exposedPorts.value) {
      assert Entrypoint(c, m, role, run) == Ok([EnvCommand] + [] + u + [RunScript]);
    } else {
      assert Entrypoint(c, m, role, run) == Ok([EnvCommand] + [InternalHostnames] + u + [RunScript]);
    }
  }

  /** There are at most two UAA settings, and each names a `UAA_` variable. */
  lemma UaaSettingsShape(c: Collaborators, m: RoleManifest)
    ensures |UaaSettings(c, m)| <= 2
    ensures forall y :: y in UaaSettings(c, m) ==> |y| > 0 && y[0] == 'U'
    ensures InternalHostnames !in UaaSettings(c, m) && InternalHostnames != EnvCommand && InternalHostnames != RunScript
  {
    assert InternalHostnames[0] == 'H' && EnvCommand[0] != 'H' && RunScript[0] != 'H';
  }

  /** Where a setting that is neither the command, the script nor a UAA setting shows up in
      the entry point. */
  lemma Framed(x: string, first: string, u: seq<string>, last: string)
    requires x != first && x != last && x !in u
    ensures var e := [first] + [] + u + [last];
      x !in e && 2 <= |e| && e[0] == first && e[|e| - 1] == last
    ensures var e := [first] + [x] + u + [last];
      x in e && 3 <= |e| && e[0] == first && e[|e| - 1] == last
  {
    assert ([first] + [x] + u + [last])[1] == x;
  }

  /** The global parameter names a component references: the table's entry, or every global
      name without a table; missing when the table has no entry for the role. */
  function GlobalReferences(m: RoleManifest, table: Option<ComponentTable>, role: Role): Result<seq<string>> {
    if GlobalVariables(m).None? then Ok([])
    else match ComponentParameters.ComponentParameters(table, role.name, GlobalVariables(m).value)
      case None => Err(MissingComponentParameters(role.name))
      case Some(names) => Ok(names)
  }

  /** The role's own variables. `add_role` takes these references before `process_roles`
      converts the variables, but each reference shares the variable's String, which the
      conversion renames in place; the emitted definition therefore shows the final names. */
  function RoleReferences(role: Role): seq<string> {
    if RoleVariables(role).Some? then References(RoleVariables(role).value) else []
  }

  /** Docker roles also reference the names of their environment, as written. */
  function EnvReferences(role: Role, run: Runtime): seq<string> {
    if role.kind == DockerKind && run.env.Some? then run.env.value else []
  }

  /** Everything a component references: the global names, then the role's variables, then
      a docker role's environment. */
  function ComponentReferences(m: RoleManifest, table: Option<ComponentTable>, role: Role, run: Runtime): Result<seq<string>> {
    var globals :- GlobalReferences(m, table, role);
    Ok(globals + RoleReferences(role) + EnvReferences(role, run))
  }

  /** The filesystems a role's persistent volumes add to the definition. */
  function PrivateOf(role: Role): seq<Filesystem> {
    if role.run.Some? then PrivateEntries(role.run.value.persistentVolumes.GetOr([])) else []
  }

  /** `add_role` up to the push: the component for a role. */
  function AssembleRole(c: Collaborators, m: RoleManifest, table: Option<ComponentTable>, role: Role, retries: nat)
    : (r: Result<Component>)
    ensures role.run.None? ==> r == Err(MissingRuntime(role.name))
    ensures r.Ok? ==> && r.value.name == role.name && r.value.labels == [role.name]
                      && r.value.image == Image(c, role.name)
                      && r.value.retryCount == (if retries > 0 then Some(retries) else None)
                      && (r.value.entrypoint.Some? <==> role.kind != DockerKind)
  {
    if role.run.None? then Err(MissingRuntime(role.name))
    else
      var run := role.run.value;
      var entrypoint :- if role.kind != DockerKind then
                          var e :- Entrypoint(c, m, role, run);
                          Ok(Some(e))
                        else Ok(None);
      var mounts := Mounts(run.persistentVolumes.GetOr([])) + Mounts(run.sharedVolumes.GetOr([]));
      var ports :- if run.exposedPorts.Some? then ServicePorts(role.name, run.exposedPorts.value, c.nameHash) else Ok([]);
      var references :- ComponentReferences(m, table, role, run);
      Ok(Component(role.name, ComponentVersion, Vendor, Image(c, role.name), c.dtr,
                   run.memory, MinDiskGb, run.virtualCpus, Platform, run.capabilities, [role.name],
                   run.scaling.min, run.scaling.max, ports, mounts, references,
                   WorkloadType, if retries > 0 then Some(retries) else None, entrypoint))
  }

  /** A component's volume mounts list the persistent volumes, then the shared ones; its
      parameters list the global references, then the role's variables under their final
      names, then a docker role's environment names unchanged; its ports are the expanded
      exposed ports. */
  lemma ComponentContents(c: Collaborators, m: RoleManifest, table: Option<ComponentTable>, role: Role, retries: nat)
    requires AssembleRole(c, m, table, role, retries).Ok?
    ensures var comp, run := AssembleRole(c, m, table, role, retries).value, role.run.value;
      && comp.volumeMounts == Mounts(run.persistentVolumes.GetOr([]) + run.sharedVolumes.GetOr([]))
      && GlobalReferences(m, table, role).Ok?
      && comp.parameters == GlobalReferences(m, table, role).value + RoleReferences(role) + EnvReferences(role, run)
      && (run.exposedPorts.None? ==> comp.servicePorts == [])
      && (run.exposedPorts.Some? ==> Ok(comp.servicePorts) == ServicePorts(role.name, run.exposedPorts.value, c.nameHash))
      && comp.minInstances == run.scaling.min && comp.maxInstances == run.scaling.max
  {
    var run := role.run.value;
    var comp := AssembleRole(c, m, table, role, retries).value;
    var a, b := run.persistentVolumes.GetOr([]), run.sharedVolumes.GetOr([]);
    MountsAppend(a, b);
    assert comp.volumeMounts == Mounts(a) + Mounts(b);
    assert ComponentReferences(m, table, role, run) == Ok(comp.parameters);
  }

  /** Every role reference names the definition the role's variable gets, so a secret is
      referenced under its dashed lower-case name. */
  lemma RoleReferencesAreDefined(role: Role)
    requires RoleVariables(role).Some? && ConvertAll(RoleVariables(role).value).Ok?
    ensures |RoleReferences(role)| == |ConvertAll(RoleVariables(role).value).value|
    ensures forall i :: 0 <= i < |RoleReferences(role)| ==>
              RoleReferences(role)[i] == ConvertAll(RoleVariables(role).value).value[i].name
    ensures forall i :: 0 <= i < |RoleReferences(role)| && IsSecret(RoleVariables(role).value[i]) ==>
              RoleReferences(role)[i] == DashedLower(RoleVariables(role).value[i].name)
  {
    ReferencesMatchDefinitions(RoleVariables(role).value);
  }

  // ---------------------------------------------------------------- routing

  function Place(s: State, sec: Section, comp: Component): State {
    match sec
    case Preflight => s.(preflight := s.preflight + [comp])
    case Flight => s.(components := s.components + [comp])
    case Postflight => s.(postflight := s.postflight + [comp])
  }

  /** `add_role`: the role's private filesystems are recorded and its component is pushed
      onto the section of its stage; an unknown stage fails at the push. */
  function AddRoleSpec(c: Collaborators, m: RoleManifest, table: Option<ComponentTable>, s: State, role: Role, retries: nat)
    : Result<State>
  {
    var comp :- AssembleRole(c, m, table, role, retries);
    match SectionOf(role.stage)
    case None => Err(UnknownFlightStage(role.name, role.stage))
    case Some(sec) => Ok(Place(s.(volumes := s.volumes + PrivateOf(role)), sec, comp))
  }

  function RoleDefinitionsOf(role: Role): Result<seq<ParamDef>> {
    if RoleVariables(role).Some? then ConvertAll(RoleVariables(role).value) else Ok([])
  }

  /** One iteration of `process_roles`. */
  function RoleStep(c: Collaborators, m: RoleManifest, table: Option<ComponentTable>, s: State, role: Role): Result<State> {
    if Skipped(role) then Ok(s)
    else
      var t :- AddRoleSpec(c, m, table, s, role, Retries(role));
      var defs :- RoleDefinitionsOf(role);
      Ok(t.(parameters := t.parameters + defs))
  }

  /** The role loop of `process_roles` over these roles. */
  function ProcessRolesSpec(c: Collaborators, m: RoleManifest, table: Option<ComponentTable>, s: State, roles: seq<Role>)
    : Result<State>
  {
    if roles == [] then Ok(s)
    else
      var t :- ProcessRolesSpec(c, m, table, s, roles[..|roles| - 1]);
      RoleStep(c, m, table, t, roles[|roles| - 1])
  }

  /** `process_roles`: the roles, then the auth feature when the manifest has an `auth`
      block. */
  function Processed(c: Collaborators, m: RoleManifest, table: Option<ComponentTable>, s: State): Result<State> {
    var t :- ProcessRolesSpec(c, m, table, s, m.roles);
    if m.auth.Some? then
      var a :- AuthDefinition(m);
      Ok(t.(auth := Some([a])))
    else Ok(t)
  }

  /** `to_hcp`: the shared filesystems, the global parameters, the component table, then
      the roles. */
  function Transform(c: Collaborators, m: RoleManifest): Result<ServiceDefinition> {
    var s :- Prepared(m);
    var table := Determine(m, c.propertyMap, c.parametersInTemplate);
    var t :- Processed(c, m, table, s);
    Ok(ServiceDefinition(ProductName, Sanitise(c.version), c.productVersion, Vendor, t))
  }

  /** The definition before the roles: the shared filesystems, then the global parameters. */
  function Prepared(m: RoleManifest): Result<State> {
    var shared :- Reconcile(SharedDecls(m.roles));
    var globals :- if GlobalVariables(m).Some? then ConvertAll(GlobalVariables(m).value) else Ok([]);
    Ok(EmptyState.(volumes := SharedEntries(shared), parameters := globals))
  }

  // ---------------------------------------------------------------- reference definitions

  /** The roles that are not skipped. */
  function Kept(roles: seq<Role>): (r: seq<Role>)
    ensures forall x :: x in r ==> x in roles && !Skipped(x)
  {
    if roles == [] then []
    else Kept(roles[..|roles| - 1]) + (if Skipped(roles[|roles| - 1]) then [] else [roles[|roles| - 1]])
  }

  /** The kept roles whose stage routes them to `sec`, in manifest order. */
  function Routed(roles: seq<Role>, sec: Section): (r: seq<Role>)
    ensures forall x :: x in r ==> x in roles && !Skipped(x) && SectionOf(x.stage) == Some(sec)
  {
    if roles == [] then []
    else
      var x := roles[|roles| - 1];
      Routed(roles[..|roles| - 1], sec) + (if !Skipped(x) && SectionOf(x.stage) == Some(sec) then [x] else [])
  }

  /** The component a role contributes to `sec`: none when the role is skipped, routed
      elsewhere or cannot be assembled. */
  function Built(c: Collaborators, m: RoleManifest, table: Option<ComponentTable>, x: Role, sec: Section): seq<Component> {
    var built := AssembleRole(c, m, table, x, Retries(x));
    if !Skipped(x) && SectionOf(x.stage) == Some(sec) && built.Ok? then [built.value] else []
  }

  /** The components the roles routed to `sec` contribute. */
  function Emitted(c: Collaborators, m: RoleManifest, table: Option<ComponentTable>, roles: seq<Role>, sec: Section)
    : seq<Component>
  {
    if roles == [] then []
    else Emitted(c, m, table, roles[..|roles| - 1], sec) + Built(c, m, table, roles[|roles| - 1], sec)
  }

  /** The private filesystems of the kept roles. */
  function Privates(roles: seq<Role>): seq<Filesystem> {
    if roles == [] then []
    else
      var x := roles[|roles| - 1];
      Privates(roles[..|roles| - 1]) + (if Skipped(x) then [] else PrivateOf(x))
  }

  /** The parameter definitions of the kept roles' variables. */
  function RoleDefinitions(roles: seq<Role>): seq<ParamDef> {
    if roles == [] then []
    else
      var x := roles[|roles| - 1];
      var defs := RoleDefinitionsOf(x);
      RoleDefinitions(roles[..|roles| - 1]) + (if Skipped(x) || defs.Err? then [] else defs.value)
  }

  function Grown(c: Collaborators, m: RoleManifest, table: Option<ComponentTable>, s: State, roles: seq<Role>): State {
    s.(volumes := s.volumes + Privates(roles),
       preflight := s.preflight + Emitted(c, m, table, roles, Preflight),
       components := s.components + Emitted(c, m, table, roles, Flight),
       postflight := s.postflight + Emitted(c, m, table, roles, Postflight),
       parameters := s.parameters + RoleDefinitions(roles))
  }

  // ---------------------------------------------------------------- properties

  /** A skipped role leaves the definition as it is; any other role adds its component to
      exactly the section of its stage, its private filesystems and its parameter
      definitions. */
  lemma RoleStepSpec(c: Collaborators, m: RoleManifest, table: Option<ComponentTable>, s: State, x: Role)
    ensures Skipped(x) ==> RoleStep(c, m, table, s, x) == Ok(s)
    ensures RoleStep(c, m, table, s, x).Ok? ==> RoleStep(c, m, table, s, x) == Ok(Grown(c, m, table, s, [x]))
  {
    assert [x][..0] == [];
    if Skipped(x) {
      assert Privates([x]) == Privates([]) + [];
      assert RoleDefinitions([x]) == RoleDefinitions([]) + [];
      assert forall other :: Emitted(c, m, table, [x], other) == Built(c, m, table, x, other) == [];
      assert s.preflight + [] == s.preflight && s.components + [] == s.components && s.postflight + [] == s.postflight;
      assert s.volumes + [] == s.volumes && s.parameters + [] == s.parameters;
    }
    if !Skipped(x) && RoleStep(c, m, table, s, x).Ok? {
      var comp := AssembleRole(c, m, table, x, Retries(x)).value;
      var sec := SectionOf(x.stage).value;
      var defs := RoleDefinitionsOf(x).value;
      assert Privates([x]) == PrivateOf(x);
      assert RoleDefinitions([x]) == defs;
      assert forall other :: Emitted(c, m, table, [x], other) == Built(c, m, table, x, other);
      assert forall other :: other != sec ==> Built(c, m, table, x, other) == [];
      assert Built(c, m, table, x, sec) == [comp];
      assert s.preflight + [] == s.preflight && s.components + [] == s.components && s.postflight + [] == s.postflight;
      var t := Place(s.(volumes := s.volumes + PrivateOf(x)), sec, comp);
      assert RoleStep(c, m, table, s, x) == Ok(t.(parameters := t.parameters + defs));
    }
  }

  /** A role the loop keeps and does not fail on has a known stage and assembles. */
  lemma RoleStepKept(c: Collaborators, m: RoleManifest, table: Option<ComponentTable>, s: State, x: Role)
    ensures !Skipped(x) && RoleStep(c, m, table, s, x).Ok? ==>
              SectionOf(x.stage).Some? && AssembleRole(c, m, table, x, Retries(x)).Ok?
  {
  }

  lemma PrivatesStep(roles: seq<Role>)
    requires roles != []
    ensures Privates(roles) == Privates(roles[..|roles| - 1]) + Privates([roles[|roles| - 1]])
  {
    var x := roles[|roles| - 1];
    var own := if Skipped(x) then [] else PrivateOf(x);
    assert Privates([x]) == own by {
      assert [x][..0] == [];
      assert Privates([x]) == Privates([]) + own;
    }
  }

  lemma RoleDefinitionsStep(roles: seq<Role>)
    requires roles != []
    ensures RoleDefinitions(roles) == RoleDefinitions(roles[..|roles| - 1]) + RoleDefinitions([roles[|roles| - 1]])
  {
    var x := roles[|roles| - 1];
    var defs := RoleDefinitionsOf(x);
    var own := if Skipped(x) || defs.Err? then [] else defs.value;
    assert RoleDefinitions([x]) == own by {
      assert [x][..0] == [];
      assert RoleDefinitions([x]) == RoleDefinitions([]) + own;
    }
  }

  lemma EmittedStep(c: Collaborators, m: RoleManifest, table: Option<ComponentTable>, roles: seq<Role>, sec: Section)
    requires roles != []
    ensures Emitted(c, m, table, roles, sec) == Emitted(c, m, table, roles[..|roles| - 1], sec) + Emitted(c, m, table, [roles[|roles| - 1]], sec)
  {
    var x := roles[|roles| - 1];
    assert Emitted(c, m, table, [x], sec) == Built(c, m, table, x, sec) by {
      assert [x][..0] == [];
      assert Emitted(c, m, table, [x], sec) == Emitted(c, m, table, [], sec) + Built(c, m, table, x, sec);
    }
  }

  lemma Reassociate<T>(a: seq<T>, b: seq<T>, c: seq<T>, d: seq<T>)
    requires b == c + d
    ensures a + b == (a + c) + d
  {
  }

  lemma GrownStep(c: Collaborators, m: RoleManifest, table: Option<ComponentTable>, s: State, roles: seq<Role>)
    requires roles != []
    ensures var init, x := roles[..|roles| - 1], roles[|roles| - 1];
      Grown(c, m, table, s, roles) == Grown(c, m, table, Grown(c, m, table, s, init), [x])
  {
    var init, x := roles[..|roles| - 1], roles[|roles| - 1];
    PrivatesStep(roles);
    RoleDefinitionsStep(roles);
    EmittedStep(c, m, table, roles, Preflight);
    EmittedStep(c, m, table, roles, Flight);
    EmittedStep(c, m, table, roles, Postflight);
    Reassociate(s.volumes, Privates(roles), Privates(init), Privates([x]));
    Reassociate(s.parameters, RoleDefinitions(roles), RoleDefinitions(init), RoleDefinitions([x]));
    Reassociate(s.preflight, Emitted(c, m, table, roles, Preflight), Emitted(c, m, table, init, Preflight), Emitted(c, m, table, [x], Preflight));
    Reassociate(s.components, Emitted(c, m, table, roles, Flight), Emitted(c, m, table, init, Flight), Emitted(c, m, table, [x], Flight));
    Reassociate(s.postflight, Emitted(c, m, table, roles, Postflight), Emitted(c, m, table, init, Postflight), Emitted(c, m, table, [x], Postflight));
  }

  /** The role loop, when it succeeds, has appended to each section exactly the components
      of the roles routed there, in manifest order, to the filesystems the kept roles'
      private ones and to the parameters the kept roles' definitions. */
  lemma {:induction false} ProcessRolesShape(c: Collaborators, m: RoleManifest, table: Option<ComponentTable>, s: State, roles: seq<Role>)
    requires ProcessRolesSpec(c, m, table, s, roles).Ok?
    ensures ProcessRolesSpec(c, m, table, s, roles) == Ok(Grown(c, m, table, s, roles))
    decreases |roles|
  {
    if roles == [] {
      assert Grown(c, m, table, s, roles) == s;
    } else {
      var init, x := roles[..|roles| - 1], roles[|roles| - 1];
      ProcessRolesShape(c, m, table, s, init);
      var g := Grown(c, m, table, s, init);
      assert ProcessRolesSpec(c, m, table, s, roles) == RoleStep(c, m, table, g, x);
      RoleStepSpec(c, m, table, g, x);
      GrownStep(c, m, table, s, roles);
    }
  }

  /** When the role loop succeeds, every role it did not skip had a known stage and an
      assembled component. */
  lemma {:induction false} ProcessRolesKept(c: Collaborators, m: RoleManifest, table: Option<ComponentTable>, s: State, roles: seq<Role>)
    requires ProcessRolesSpec(c, m, table, s, roles).Ok?
    ensures forall i :: 0 <= i < |roles| && !Skipped(roles[i]) ==>
              SectionOf(roles[i].stage).Some? && AssembleRole(c, m, table, roles[i], Retries(roles[i])).Ok?
    decreases |roles|
  {
    if roles != [] {
      var init, x := roles[..|roles| - 1], roles[|roles| - 1];
      ProcessRolesKept(c, m, table, s, init);
      var t := ProcessRolesSpec(c, m, table, s, init).value;
      RoleStepKept(c, m, table, t, x);
      forall i | 0 <= i < |roles| && !Skipped(roles[i])
        ensures SectionOf(roles[i].stage).Some? && AssembleRole(c, m, table, roles[i], Retries(roles[i])).Ok?
      {
        if i < |init| {
          assert init[i] == roles[i];
        }
      }
    }
  }

  /** With every kept role routable, the sections hold exactly one component per routed
      role, in order, each built from its role. */
  lemma {:induction false} EmittedAreRouted(c: Collaborators, m: RoleManifest, table: Option<ComponentTable>, roles: seq<Role>, sec: Section)
    requires forall i :: 0 <= i < |roles| && !Skipped(roles[i]) ==> AssembleRole(c, m, table, roles[i], Retries(roles[i])).Ok?
    ensures |Emitted(c, m, table, roles, sec)| == |Routed(roles, sec)|
    ensures forall k :: 0 <= k < |Routed(roles, sec)| ==>
              Ok(Emitted(c, m, table, roles, sec)[k]) == AssembleRole(c, m, table, Routed(roles, sec)[k], Retries(Routed(roles, sec)[k]))
    decreases |roles|
  {
    if roles != [] {
      var init := roles[..|roles| - 1];
      assert forall i :: 0 <= i < |init| ==> init[i] == roles[i];
      EmittedAreRouted(c, m, table, init, sec);
    }
  }

  /** Each kept role with a known stage is routed to exactly one section. */
  lemma {:induction false} RoutedPartition(roles: seq<Role>)
    requires forall i :: 0 <= i < |roles| && !Skipped(roles[i]) ==> SectionOf(roles[i].stage).Some?
    ensures |Routed(roles, Preflight)| + |Routed(roles, Flight)| + |Routed(roles, Postflight)| == |Kept(roles)|
    decreases |roles|
  {
    if roles != [] {
      var init := roles[..|roles| - 1];
      assert forall i :: 0 <= i < |init| ==> init[i] == roles[i];
      RoutedPartition(init);
    }
  }

  /** A routed component carries its role's name, and a retry count of 5 exactly when its
      role is a task. */
  lemma RoutedComponents(c: Collaborators, m: RoleManifest, table: Option<ComponentTable>, roles: seq<Role>, sec: Section)
    requires forall i :: 0 <= i < |roles| && !Skipped(roles[i]) ==> AssembleRole(c, m, table, roles[i], Retries(roles[i])).Ok?
    ensures |Emitted(c, m, table, roles, sec)| == |Routed(roles, sec)|
    ensures forall k :: 0 <= k < |Routed(roles, sec)| ==>
              && Emitted(c, m, table, roles, sec)[k].name == Routed(roles, sec)[k].name
              && (Emitted(c, m, table, roles, sec)[k].retryCount == Some(TaskRetries) <==> Routed(roles, sec)[k].isTask)
              && (Emitted(c, m, table, roles, sec)[k].retryCount.None? <==> !Routed(roles, sec)[k].isTask)
  {
    EmittedAreRouted(c, m, table, roles, sec);
  }

  /** What a successful run produces: the shared filesystems (one per tag, first-declared
      size) ahead of the private ones, the global parameter definitions ahead of the roles'
      ones, every section filled from its routed roles, the auth feature exactly when the
      manifest has an auth block, and a version usable as a label. A tag declared with two
      sizes makes the run fail. */
  lemma TransformShape(c: Collaborators, m: RoleManifest)
    ensures HasConflict(SharedDecls(m.roles)) ==> Transform(c, m).Err? && Transform(c, m).error.SharedVolumeSizeMismatch?
    ensures Transform(c, m).Ok? ==>
              var d, decls := Transform(c, m).value, SharedDecls(m.roles);
              var table := Determine(m, c.propertyMap, c.parametersInTemplate);
              && d.name == ProductName && d.vendor == Vendor && IsLabel(d.sdlVersion)
              && d.content.volumes == SharedEntries(FirstOccurrences(decls)) + Privates(m.roles)
              && d.content.preflight == Emitted(c, m, table, m.roles, Preflight)
              && d.content.components == Emitted(c, m, table, m.roles, Flight)
              && d.content.postflight == Emitted(c, m, table, m.roles, Postflight)
              && (GlobalVariables(m).None? ==> d.content.parameters == RoleDefinitions(m.roles))
              && (GlobalVariables(m).Some? ==>
                    d.content.parameters == ConvertAll(GlobalVariables(m).value).value + RoleDefinitions(m.roles))
              && (d.content.auth.Some? <==> m.auth.Some?)
  {
    ReconcileSpec(SharedDecls(m.roles));
    if HasConflict(SharedDecls(m.roles)) {
      ReconcileFailure(SharedDecls(m.roles));
    }
    if Transform(c, m).Ok? {
      var shared := Reconcile(SharedDecls(m.roles)).value;
      var globals := if GlobalVariables(m).Some? then ConvertAll(GlobalVariables(m).value).value else [];
      var table := Determine(m, c.propertyMap, c.parametersInTemplate);
      var s := EmptyState.(volumes := SharedEntries(shared), parameters := globals);
      ProcessRolesShape(c, m, table, s, m.roles);
      assert [] + Emitted(c, m, table, m.roles, Preflight) == Emitted(c, m, table, m.roles, Preflight);
      assert [] + Emitted(c, m, table, m.roles, Flight) == Emitted(c, m, table, m.roles, Flight);
      assert [] + Emitted(c, m, table, m.roles, Postflight) == Emitted(c, m, table, m.roles, Postflight);
      assert [] + RoleDefinitions(m.roles) == RoleDefinitions(m.roles);
    }
  }

  // ---------------------------------------------------------------- the definition object

  /** Which outcome a step reported: the new contents, or the failure that aborted it. */
  function Outcome(e: Option<Error>, s: State): Result<State> {
    if e.Some? then Err(e.value) else Ok(s)
  }

  lemma {:induction false} ProcessRolesErrorPersists(c: Collaborators, m: RoleManifest, table: Option<ComponentTable>, s: State,
                                                     roles: seq<Role>, more: seq<Role>)
    requires ProcessRolesSpec(c, m, table, s, roles).Err?
    ensures ProcessRolesSpec(c, m, table, s, roles + more) == ProcessRolesSpec(c, m, table, s, roles)
    decreases |more|
  {
    if more == [] {
      assert roles + more == roles;
    } else {
      var init := more[..|more| - 1];
      Seqs.DropLast(roles, more);
      ProcessRolesErrorPersists(c, m, table, s, roles, init);
    }
  }

  lemma ProcessRolesStep(c: Collaborators, m: RoleManifest, table: Option<ComponentTable>, s: State, roles: seq<Role>, i: nat, t: State)
    requires i < |roles| && ProcessRolesSpec(c, m, table, s, roles[..i]) == Ok(t)
    ensures ProcessRolesSpec(c, m, table, s, roles[..i + 1]) == RoleStep(c, m, table, t, roles[i])
  {
    Seqs.PrefixOfPrefix(roles, i, i + 1);
  }

  lemma ProcessRolesAborts(c: Collaborators, m: RoleManifest, table: Option<ComponentTable>, s: State, roles: seq<Role>, i: nat, t: State)
    requires i < |roles| && ProcessRolesSpec(c, m, table, s, roles[..i]) == Ok(t)
    requires RoleStep(c, m, table, t, roles[i]).Err?
    ensures ProcessRolesSpec(c, m, table, s, roles) == RoleStep(c, m, table, t, roles[i])
  {
    ProcessRolesStep(c, m, table, s, roles, i, t);
    ProcessRolesErrorPersists(c, m, table, s, roles[..i + 1], roles[i + 1..]);
    Seqs.SplitAt(roles, i + 1);
  }

  /** The reference part of `add_role`: `add_parameter_names` for the global names, then
      `add_parameters` for the role's variables and a docker role's environment. */
  method CollectReferences(m: RoleManifest, table: Option<ComponentTable>, role: Role, run: Runtime)
    returns (r: Result<seq<string>>)
    ensures r == ComponentReferences(m, table, role, run)
  {
    var references: seq<string> := [];
    if GlobalVariables(m).Some? {
      var names := ComponentParameters.ComponentParameters(table, role.name, GlobalVariables(m).value);
      if names.None? {
        return Err(MissingComponentParameters(role.name));
      }
      references := names.value;
    }
    assert Ok(references) == GlobalReferences(m, table, role);
    if RoleVariables(role).Some? {
      references := references + References(RoleVariables(role).value);
    }
    assert references == GlobalReferences(m, table, role).value + RoleReferences(role);
    if role.kind == DockerKind && run.env.Some? {
      references := references + run.env.value;
    } else {
      assert references + [] == references;
    }
    assert references == GlobalReferences(m, table, role).value + RoleReferences(role) + EnvReferences(role, run);
    r := Ok(references);
  }

  /** The service definition under construction (`empty_hcp` and what the steps push onto
      it). */
  class Definition {
    const name: string
    const sdlVersion: string
    const productVersion: string
    const vendor: string
    var volumes: seq<Filesystem>
    var preflight: seq<Component>
    var components: seq<Component>
    var postflight: seq<Component>
    var parameters: seq<ParamDef>
    var auth: Option<seq<AuthDef>>

    /** `empty_hcp`. */
    constructor (version: string, productVersion: string)
      ensures name == ProductName && sdlVersion == Sanitise(version)
      ensures this.productVersion == productVersion && vendor == Vendor
      ensures Contents() == EmptyState
    {
      name := ProductName;
      sdlVersion := Sanitise(version);
      this.productVersion := productVersion;
      vendor := Vendor;
      volumes, preflight, components, postflight, parameters, auth := [], [], [], [], [], None;
    }

    function Contents(): State
      reads this
    {
      State(volumes, preflight, components, postflight, parameters, auth)
    }

    /** `add_filesystem`. */
    method AddFilesystem(fs: Filesystem)
      modifies this
      ensures Contents() == old(Contents()).(volumes := old(volumes) + [fs])
    {
      volumes := volumes + [fs];
    }

    /** `save_shared_filesystems`: one shared filesystem per row of the table. */
    method SaveSharedFilesystems(shared: SharedTable)
      modifies this
      ensures Contents() == old(Contents()).(volumes := old(volumes) + SharedEntries(shared))
    {
      for i := 0 to |shared|
        invariant Contents() == old(Contents()).(volumes := old(volumes) + SharedEntries(shared[..i]))
      {
        assert SharedEntries(shared[..i + 1]) == SharedEntries(shared[..i]) + [Filesystem(shared[i].0, shared[i].1, DefaultFilesystem, true)];
        AddFilesystem(Filesystem(shared[i].0, shared[i].1, DefaultFilesystem, true));
      }
      assert shared[..|shared|] == shared;
    }

    /** `add_volumes`: a mount per volume; a private volume's filesystem is recorded too. */
    method AddVolumes(vols: seq<Volume>, sharedFs: bool) returns (mounts: seq<Mount>)
      modifies this
      ensures mounts == Mounts(vols)
      ensures Contents() == old(Contents()).(volumes := old(volumes) + (if sharedFs then [] else PrivateEntries(vols)))
    {
      mounts := [];
      for i := 0 to |vols|
        invariant mounts == Mounts(vols[..i])
        invariant Contents() == old(Contents()).(volumes := old(volumes) + (if sharedFs then [] else PrivateEntries(vols[..i])))
      {
        var v := vols[i];
        if !sharedFs {
          assert PrivateEntries(vols[..i + 1]) == PrivateEntries(vols[..i]) + [Filesystem(v.tag, v.size, DefaultFilesystem, false)];
          AddFilesystem(Filesystem(v.tag, v.size, DefaultFilesystem, false));
        }
        assert Mounts(vols[..i + 1]) == Mounts(vols[..i]) + [Mount(v.tag, v.path)];
        mounts := mounts + [Mount(v.tag, v.path)];
      }
      assert vols[..|vols|] == vols;
    }

    method AddParameters(defs: seq<ParamDef>)
      modifies this
      ensures Contents() == old(Contents()).(parameters := old(parameters) + defs)
    {
      parameters := parameters + defs;
    }

    /** The volume part of `add_role`: persistent volumes first, then shared ones. */
    method AttachVolumes(role: Role, run: Runtime) returns (mounts: seq<Mount>)
      requires role.run == Some(run)
      modifies this
      ensures mounts == Mounts(run.persistentVolumes.GetOr([])) + Mounts(run.sharedVolumes.GetOr([]))
      ensures Contents() == old(Contents()).(volumes := old(volumes) + PrivateOf(role))
    {
      var persistent: seq<Mount> := [];
      if run.persistentVolumes.Some? {
        persistent := AddVolumes(run.persistentVolumes.value, false);
      } else {
        assert old(volumes) + PrivateOf(role) == old(volumes);
      }
      var shared: seq<Mount> := [];
      if run.sharedVolumes.Some? {
        shared := AddVolumes(run.sharedVolumes.value, true);
        assert volumes + [] == volumes;
      }
      mounts := persistent + shared;
    }

    /** `add_role`: builds the role's component field by field, recording its private
        filesystems on the way, and pushes it onto the section of its stage. */
    method AddRole(c: Collaborators, m: RoleManifest, table: Option<ComponentTable>, role: Role, retries: nat)
      returns (e: Option<Error>)
      modifies this
      ensures Outcome(e, Contents()) == AddRoleSpec(c, m, table, old(Contents()), role, retries)
    {
      if role.run.None? {
        return Some(MissingRuntime(role.name));
      }
      var run := role.run.value;
      var entrypoint: Option<seq<string>> := None;
      if role.kind != DockerKind {
        var built := Entrypoint(c, m, role, run);
        if built.Err? {
          return Some(built.error);
        }
        entrypoint := Some(built.value);
      }
      var mounts := AttachVolumes(role, run);
      var ports: seq<ServicePort> := [];
      if run.exposedPorts.Some? {
        var added := AddPorts(role.name, run.exposedPorts.value, c.nameHash);
        if added.Err? {
          return Some(added.error);
        }
        ports := added.value;
      }
      var references := CollectReferences(m, table, role, run);
      if references.Err? {
        return Some(references.error);
      }
      var comp := Component(role.name, ComponentVersion, Vendor, Image(c, role.name), c.dtr,
                            run.memory, MinDiskGb, run.virtualCpus, Platform, run.capabilities, [role.name],
                            run.scaling.min, run.scaling.max, ports, mounts, references.value,
                            WorkloadType, if retries > 0 then Some(retries) else None, entrypoint);
      assert Ok(comp) == AssembleRole(c, m, table, role, retries);
      match SectionOf(role.stage) {
        case None =>
          return Some(UnknownFlightStage(role.name, role.stage));
        case Some(Preflight) =>
          preflight := preflight + [comp];
        case Some(Flight) =>
          components := components + [comp];
        case Some(Postflight) =>
          postflight := postflight + [comp];
      }
      e := None;
    }

    /** `process_roles`: every kept role is added and its variables defined, then the auth
        feature is set. */
    method ProcessRoles(c: Collaborators, m: RoleManifest, table: Option<ComponentTable>) returns (e: Option<Error>)
      modifies this
      ensures Outcome(e, Contents()) == Processed(c, m, table, old(Contents()))
    {
      ghost var s := Contents();
      for i := 0 to |m.roles|
        invariant ProcessRolesSpec(c, m, table, s, m.roles[..i]) == Ok(Contents())
      {
        var role := m.roles[i];
        ghost var t := Contents();
        ProcessRolesStep(c, m, table, s, m.roles, i, t);
        if Skipped(role) {
          continue;
        }
        var retries := if role.isTask then TaskRetries else 0;
        var failed := AddRole(c, m, table, role, retries);
        if failed.Some? {
          ProcessRolesAborts(c, m, table, s, m.roles, i, t);
          return failed;
        }
        if RoleVariables(role).Some? {
          var defs := CollectParameters(RoleVariables(role).value);
          if defs.Err? {
            ProcessRolesAborts(c, m, table, s, m.roles, i, t);
            return Some(defs.error);
          }
          AddParameters(defs.value);
        } else {
          AddParameters([]);
        }
      }
      assert m.roles[..|m.roles|] == m.roles;
      if m.auth.Some? {
        var a := AuthDefinition(m);
        if a.Err? {
          return Some(a.error);
        }
        auth := Some([a.value]);
      }
      e := None;
    }
  }

  /** The part of `to_hcp` before the roles: `empty_hcp`, the shared filesystems, then the
      global parameters. */
  method Prepare(c: Collaborators, m: RoleManifest) returns (d: Definition, e: Option<Error>)
    ensures fresh(d)
    ensures d.name == ProductName && d.sdlVersion == Sanitise(c.version)
    ensures d.productVersion == c.productVersion && d.vendor == Vendor
    ensures Outcome(e, d.Contents()) == Prepared(m)
  {
    d := new Definition(c.version, c.productVersion);
    var shared := CollectSharedFilesystems(m.roles);
    if shared.Err? {
      return d, Some(shared.error);
    }
    d.SaveSharedFilesystems(shared.value);
    assert [] + SharedEntries(shared.value) == SharedEntries(shared.value);
    if GlobalVariables(m).Some? {
      var globals := CollectParameters(GlobalVariables(m).value);
      if globals.Err? {
        return d, Some(globals.error);
      }
      d.AddParameters(globals.value);
      assert [] + globals.value == globals.value;
    }
    e := None;
  }

  /** `to_hcp`. */
  method ToHcp(c: Collaborators, m: RoleManifest) returns (r: Result<ServiceDefinition>)
    ensures r == Transform(c, m)
  {
    var d, failed := Prepare(c, m);
    if failed.Some? {
      return Err(failed.value);
    }
    var table := DetermineComponentParameters(m, c.propertyMap, c.parametersInTemplate);
    failed := d.ProcessRoles(c, m, table);
    if failed.Some? {
      return Err(failed.value);
    }
    r := Ok(ServiceDefinition(d.name, d.sdlVersion, d.productVersion, d.vendor, d.Contents()));
  }
}
