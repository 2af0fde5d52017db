/** Component parameters: which global parameters each component references
    (`process_templates`, `determine_component_parameters`, `component_parameters`). With a
    property map, a role references the parameters named in the templates of the properties
    its jobs declare; without one, every component references every global parameter. */
module ComponentParameters {
  import opened Results
  import opened Text
  import opened Manifest
  import opened ParameterCodec

  /** property key (`properties.x.y`) -> the parameter names its template mentions. */
  type TemplateParams = map<string, seq<string>>

  /** role name -> the parameter names its component references. */
  type ComponentTable = map<string, seq<string>>

  const PropertyPrefix := "properties."

  /** `process_templates`: the global templates' parameters, overridden key by key by the
      role's own templates; nothing at all when the manifest has no global templates. */
  function ProcessTemplates(m: RoleManifest, role: Role, pit: string -> seq<string>): (r: Option<TemplateParams>)
    ensures r.None? <==> GlobalTemplates(m).None?
    ensures r.Some? ==>
              var own := RoleTemplates(role).GetOr(map[]);
              && r.value.Keys == GlobalTemplates(m).value.Keys + own.Keys
              && (forall k :: k in own ==> r.value[k] == pit(own[k]))
              && (forall k :: k in GlobalTemplates(m).value && k !in own ==> r.value[k] == pit(GlobalTemplates(m).value[k]))
  {
    match GlobalTemplates(m)
    case None => None
    case Some(global) =>
      var own := RoleTemplates(role).GetOr(map[]);
      Some((map k | k in global :: pit(global[k])) + (map k | k in own :: pit(own[k])))
  }

  function JobsOf(role: Role): seq<Job> {
    role.jobs.GetOr([])
  }

  /** The job's release and name are both in the property map. */
  predicate Known(prop: PropertyMap, job: Job) {
    job.release in prop && job.name in prop[job.release]
  }

  /** The parameters of the templates of these properties, in order; a property without a
      template contributes nothing. */
  function PropertyParameters(templates: TemplateParams, pnames: seq<string>): seq<string> {
    if pnames == [] then []
    else
      var key := PropertyPrefix + pnames[|pnames| - 1];
      PropertyParameters(templates, pnames[..|pnames| - 1]) + if key in templates then templates[key] else []
  }

  /** What one job contributes: nothing for an unknown release or job. */
  function JobParameters(prop: PropertyMap, templates: TemplateParams, job: Job): seq<string> {
    if Known(prop, job) then PropertyParameters(templates, prop[job.release][job.name]) else []
  }

  /** The `parameters` list before `uniq.sort`. */
  function RoleParameterList(prop: PropertyMap, templates: TemplateParams, jobs: seq<Job>): seq<string> {
    if jobs == [] then []
    else RoleParameterList(prop, templates, jobs[..|jobs| - 1]) + JobParameters(prop, templates, jobs[|jobs| - 1])
  }

  /** A role's resolved parameter list. */
  function Resolved(prop: PropertyMap, templates: TemplateParams, role: Role): seq<string> {
    UniqSort(RoleParameterList(prop, templates, JobsOf(role)))
  }

  /** The table built over these roles: a role gets an entry only when there are templates. */
  function Table(m: RoleManifest, prop: PropertyMap, pit: string -> seq<string>, roles: seq<Role>): ComponentTable {
    if roles == [] then map[]
    else
      var t := Table(m, prop, pit, roles[..|roles| - 1]);
      var role := roles[|roles| - 1];
      match ProcessTemplates(m, role, pit)
      case None => t
      case Some(templates) => t[role.name := Resolved(prop, templates, role)]
  }

  /** `@component_parameters` after `determine_component_parameters`. */
  function Determine(m: RoleManifest, prop: Option<PropertyMap>, pit: string -> seq<string>): Option<ComponentTable> {
    if prop.None? then None else Some(Table(m, prop.value, pit, m.roles))
  }

  /** `component_parameters`: the table's entry for the component, which may be missing, or
      the names of all global variables when there is no table. */
  function ComponentParameters(table: Option<ComponentTable>, name: string, globals: seq<Variable>): Option<seq<string>> {
    if table.Some? then (if name in table.value then Some(table.value[name]) else None)
    else Some(References(globals))
  }

  // ---------------------------------------------------------------- properties

  /** The name comes from the template of one of these properties. */
  predicate FromProperty(templates: TemplateParams, pnames: seq<string>, x: string) {
    exists k :: 0 <= k < |pnames| && PropertyPrefix + pnames[k] in templates && x in templates[PropertyPrefix + pnames[k]]
  }

  /** The name comes from a property of one of these jobs that the property map knows. */
  predicate FromJobs(prop: PropertyMap, templates: TemplateParams, jobs: seq<Job>, x: string) {
    exists j :: 0 <= j < |jobs| && Known(prop, jobs[j]) && FromProperty(templates, prop[jobs[j].release][jobs[j].name], x)
  }

  lemma {:induction false} PropertyParametersMembers(templates: TemplateParams, pnames: seq<string>, x: string)
    ensures x in PropertyParameters(templates, pnames) <==> FromProperty(templates, pnames, x)
    decreases |pnames|
  {
    if pnames != [] {
      var init, key := pnames[..|pnames| - 1], PropertyPrefix + pnames[|pnames| - 1];
      PropertyParametersMembers(templates, init, x);
      if FromProperty(templates, init, x) {
        var k :| 0 <= k < |init| && PropertyPrefix + init[k] in templates && x in templates[PropertyPrefix + init[k]];
        assert pnames[k] == init[k];
      }
      if FromProperty(templates, pnames, x) {
        var k :| 0 <= k < |pnames| && PropertyPrefix + pnames[k] in templates && x in templates[PropertyPrefix + pnames[k]];
        if k < |init| {
          assert init[k] == pnames[k];
        }
      }
    }
  }

  lemma {:induction false} RoleParameterListMembers(prop: PropertyMap, templates: TemplateParams, jobs: seq<Job>, x: string)
    ensures x in RoleParameterList(prop, templates, jobs) <==> FromJobs(prop, templates, jobs, x)
    decreases |jobs|
  {
    if jobs != [] {
      var init, job := jobs[..|jobs| - 1], jobs[|jobs| - 1];
      RoleParameterListMembers(prop, templates, init, x);
      if Known(prop, job) {
        PropertyParametersMembers(templates, prop[job.release][job.name], x);
      }
      if FromJobs(prop, templates, init, x) {
        var j :| 0 <= j < |init| && Known(prop, init[j]) && FromProperty(templates, prop[init[j].release][init[j].name], x);
        assert jobs[j] == init[j];
      }
      if FromJobs(prop, templates, jobs, x) {
        var j :| 0 <= j < |jobs| && Known(prop, jobs[j]) && FromProperty(templates, prop[jobs[j].release][jobs[j].name], x);
        if j < |init| {
          assert init[j] == jobs[j];
        }
      }
    }
  }

  /** A resolved list is sorted and free of duplicates, and holds exactly the names the
      templates of its known jobs' properties mention. */
  lemma ResolvedSpec(prop: PropertyMap, templates: TemplateParams, role: Role)
    ensures Ascending(Resolved(prop, templates, role))
    ensures forall i, j :: 0 <= i < j < |Resolved(prop, templates, role)| ==>
              Resolved(prop, templates, role)[i] != Resolved(prop, templates, role)[j]
    ensures forall x :: x in Resolved(prop, templates, role) <==> FromJobs(prop, templates, JobsOf(role), x)
  {
    AscendingDistinct(Resolved(prop, templates, role));
    forall x ensures x in Resolved(prop, templates, role) <==> FromJobs(prop, templates, JobsOf(role), x) {
      RoleParameterListMembers(prop, templates, JobsOf(role), x);
    }
  }

  /** A role without jobs references no parameter. */
  lemma NoJobsNoParameters(prop: PropertyMap, templates: TemplateParams, role: Role)
    requires role.jobs.None? || role.jobs == Some([])
    ensures Resolved(prop, templates, role) == []
  {
  }

  /** The resolved list depends only on which names the jobs contribute, not on the order the
      jobs or their properties come in. */
  lemma ResolvedOrderIndependent(prop: PropertyMap, templates: TemplateParams, a: Role, b: Role)
    requires forall x :: FromJobs(prop, templates, JobsOf(a), x) <==> FromJobs(prop, templates, JobsOf(b), x)
    ensures Resolved(prop, templates, a) == Resolved(prop, templates, b)
  {
    ResolvedSpec(prop, templates, a);
    ResolvedSpec(prop, templates, b);
    AscendingDetermined(Resolved(prop, templates, a), Resolved(prop, templates, b));
  }

  lemma TableWithoutTemplates(m: RoleManifest, prop: PropertyMap, pit: string -> seq<string>, roles: seq<Role>)
    requires GlobalTemplates(m).None?
    ensures Table(m, prop, pit, roles) == map[]
  {
    if roles != [] {
      TableWithoutTemplates(m, prop, pit, roles[..|roles| - 1]);
    }
  }

  /** With global templates every role has an entry. */
  lemma {:induction false} TableCoversRoles(m: RoleManifest, prop: PropertyMap, pit: string -> seq<string>, roles: seq<Role>)
    requires GlobalTemplates(m).Some?
    ensures forall i :: 0 <= i < |roles| ==> roles[i].name in Table(m, prop, pit, roles)
    decreases |roles|
  {
    if roles != [] {
      var init, role := roles[..|roles| - 1], roles[|roles| - 1];
      TableCoversRoles(m, prop, pit, init);
      assert ProcessTemplates(m, role, pit).Some?;
      forall i | 0 <= i < |roles| ensures roles[i].name in Table(m, prop, pit, roles) {
        if i < |init| {
          assert roles[i] == init[i];
        }
      }
    }
  }

  /** Every entry belongs to a role. */
  lemma {:induction false} TableKeysAreRoles(m: RoleManifest, prop: PropertyMap, pit: string -> seq<string>, roles: seq<Role>, name: string)
    requires name in Table(m, prop, pit, roles)
    ensures exists i :: 0 <= i < |roles| && roles[i].name == name
    decreases |roles|
  {
    var init, role := roles[..|roles| - 1], roles[|roles| - 1];
    if name == role.name {
      assert roles[|roles| - 1].name == name;
    } else {
      TableKeysAreRoles(m, prop, pit, init, name);
      var i :| 0 <= i < |init| && init[i].name == name;
      assert roles[i].name == name;
    }
  }

  /** The entry of a name is the resolution of the last role so named. */
  lemma {:induction false} TableEntry(m: RoleManifest, prop: PropertyMap, pit: string -> seq<string>, roles: seq<Role>, i: nat)
    requires GlobalTemplates(m).Some?
    requires i < |roles| && forall j :: i < j < |roles| ==> roles[j].name != roles[i].name
    ensures roles[i].name in Table(m, prop, pit, roles)
    ensures Table(m, prop, pit, roles)[roles[i].name] == Resolved(prop, ProcessTemplates(m, roles[i], pit).value, roles[i])
    decreases |roles|
  {
    var init, role := roles[..|roles| - 1], roles[|roles| - 1];
    assert ProcessTemplates(m, role, pit).Some?;
    if i < |init| {
      assert init[i] == roles[i];
      TableEntry(m, prop, pit, init, i);
    }
  }

  /** Without a property map every component references all global parameters, in
      declaration order and under the names their definitions carry. */
  lemma FallbackIsGlobalNames(name: string, globals: seq<Variable>)
    ensures ComponentParameters(None, name, globals).Some?
    ensures var r := ComponentParameters(None, name, globals).value;
      |r| == |globals| && forall i :: 0 <= i < |globals| ==> r[i] == FinalName(globals[i])
    ensures ConvertAll(globals).Ok? ==>
              var r := ComponentParameters(None, name, globals).value;
              forall i :: 0 <= i < |globals| ==> r[i] == ConvertAll(globals).value[i].name
  {
    if ConvertAll(globals).Ok? {
      ReferencesMatchDefinitions(globals);
    }
  }

  /** A role of the manifest finds no component parameters exactly when there is a property
      map but no global templates. */
  lemma MissingEntry(m: RoleManifest, prop: Option<PropertyMap>, pit: string -> seq<string>, role: Role, globals: seq<Variable>)
    requires role in m.roles
    ensures (ComponentParameters(Determine(m, prop, pit), role.name, globals).None?) <==> (prop.Some? && GlobalTemplates(m).None?)
  {
    if prop.Some? {
      if GlobalTemplates(m).None? {
        TableWithoutTemplates(m, prop.value, pit, m.roles);
      } else {
        TableCoversRoles(m, prop.value, pit, m.roles);
      }
    }
  }

  // ---------------------------------------------------------------- the loops

  lemma PropertyParametersStep(templates: TemplateParams, pnames: seq<string>, k: nat)
    requires k < |pnames|
    ensures PropertyParameters(templates, pnames[..k + 1])
              == PropertyParameters(templates, pnames[..k])
                 + if PropertyPrefix + pnames[k] in templates then templates[PropertyPrefix + pnames[k]] else []
  {
    assert pnames[..k + 1][..k] == pnames[..k];
  }

  lemma RoleParameterListStep(prop: PropertyMap, templates: TemplateParams, jobs: seq<Job>, j: nat)
    requires j < |jobs|
    ensures RoleParameterList(prop, templates, jobs[..j + 1])
              == RoleParameterList(prop, templates, jobs[..j]) + JobParameters(prop, templates, jobs[j])
  {
    assert jobs[..j + 1][..j] == jobs[..j];
  }

  lemma TableStep(m: RoleManifest, prop: PropertyMap, pit: string -> seq<string>, roles: seq<Role>, i: nat)
    requires i < |roles|
    ensures Table(m, prop, pit, roles[..i + 1])
              == match ProcessTemplates(m, roles[i], pit)
                 case None => Table(m, prop, pit, roles[..i])
                 case Some(templates) => Table(m, prop, pit, roles[..i])[roles[i].name := Resolved(prop, templates, roles[i])]
  {
    assert roles[..i + 1][..i] == roles[..i];
  }

  /** The properties of one known job: those with a template contribute its parameters. */
  method CollectPropertyParameters(templates: TemplateParams, pnames: seq<string>) returns (collected: seq<string>)
    ensures collected == PropertyParameters(templates, pnames)
  {
    collected := [];
    for k := 0 to |pnames|
      invariant collected == PropertyParameters(templates, pnames[..k])
    {
      PropertyParametersStep(templates, pnames, k);
      var key := PropertyPrefix + pnames[k];
      if key in templates {
        collected := collected + templates[key];
      }
    }
    assert pnames[..|pnames|] == pnames;
  }

  /** The parameters one role resolves to: every known job's contribution in order, then
      `uniq.sort`. */
  method ResolveRole(prop: PropertyMap, templates: TemplateParams, role: Role) returns (parameters: seq<string>)
    ensures parameters == Resolved(prop, templates, role)
  {
    var jobs := JobsOf(role);
    var collected: seq<string> := [];
    for j := 0 to |jobs|
      invariant collected == RoleParameterList(prop, templates, jobs[..j])
    {
      RoleParameterListStep(prop, templates, jobs, j);
      var job := jobs[j];
      if job.release in prop && job.name in prop[job.release] {
        var more := CollectPropertyParameters(templates, prop[job.release][job.name]);
        collected := collected + more;
      }
    }
    assert jobs[..|jobs|] == jobs;
    parameters := UniqSort(collected);
  }

  /** `determine_component_parameters`: nothing without a property map; otherwise the table
      of every role that has templates. */
  method DetermineComponentParameters(m: RoleManifest, prop: Option<PropertyMap>, pit: string -> seq<string>)
    returns (table: Option<ComponentTable>)
    ensures table == Determine(m, prop, pit)
  {
    if prop.None? {
      return None;
    }
    var t: ComponentTable := map[];
    for i := 0 to |m.roles|
      invariant t == Table(m, prop.value, pit, m.roles[..i])
    {
      TableStep(m, prop.value, pit, m.roles, i);
      var role := m.roles[i];
      var templates := ProcessTemplates(m, role, pit);
      if templates.None? {
        continue;
      }
      var parameters := ResolveRole(prop.value, templates.value, role);
      t := t[role.name := parameters];
    }
    assert m.roles[..|m.roles|] == m.roles;
    table := Some(t);
  }
}
