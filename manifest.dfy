/** The role manifest, as the transforms read it, and the collaborators they consult.
    A hash key that may be absent is an `Option`; a `None` stands for Ruby's `nil`. */
module Manifest {
  import opened Results
  import opened Text

  /** A configuration value as YAML delivers it. */
  datatype Scalar = Str(s: string) | Int(i: int) | Bool(b: bool)

  /** `to_s`. */
  function ToS(v: Scalar): string {
    match v
    case Str(s) => s
    case Int(i) => IntToDecimal(i)
    case Bool(b) => if b then "true" else "false"
  }

  /** Ruby truthiness: only `nil` and `false` are false. */
  predicate Truthy(v: Option<Scalar>) {
    v.Some? && v.value != Bool(false)
  }

  /** A secret generator: `id`, `type`, the generator-specific options and the optional
      list of subject-alt-name specifications. */
  datatype Generator = Generator(
    id: Option<string>,
    kind: Option<string>,
    options: map<string, Scalar>,
    subjectAltNames: Option<seq<map<string, Scalar>>>)

  datatype Variable = Variable(
    name: string,
    default: Option<Scalar>,
    example: Option<Scalar>,
    required: Option<bool>,
    secret: Option<bool>,
    generator: Option<Generator>)

  /** `variables` is a list; `templates` maps a property key (`properties.x.y`) to its
      template text. */
  datatype Configuration = Configuration(
    variables: Option<seq<Variable>>,
    templates: Option<map<string, string>>)

  datatype Volume = Volume(tag: string, size: int, path: string)

  /** An `external`/`internal` port specifier: an integer or a text such as "8080-8082". */
  datatype PortValue = Number(n: int) | Text(s: string)

  datatype Port = Port(
    name: string,
    protocol: string,
    external: PortValue,
    internal: PortValue,
    public: Option<bool>)

  datatype Scaling = Scaling(min: int, max: int)

  datatype Runtime = Runtime(
    scaling: Scaling,
    memory: Option<int>,
    virtualCpus: Option<int>,
    capabilities: Option<seq<string>>,
    persistentVolumes: Option<seq<Volume>>,
    sharedVolumes: Option<seq<Volume>>,
    exposedPorts: Option<seq<Port>>,
    env: Option<seq<string>>)

  datatype Job = Job(name: string, release: string)

  /** A role. `stage`, `tags` and `isTask` are what the shared helpers `flight_stage_of`,
      `tags_of` and `task?` report for it; `kind` is its `type` key. */
  datatype Role = Role(
    name: string,
    kind: string,
    stage: string,
    tags: seq<string>,
    isTask: bool,
    run: Option<Runtime>,
    configuration: Option<Configuration>,
    jobs: Option<seq<Job>>)

  /** A value of an auth client's configuration: a comma-separated string, a list, a flag or
      a number. */
  datatype Field = FStr(s: string) | FList(items: seq<string>) | FBool(b: bool) | FInt(i: int)

  datatype ClientConfig = ClientConfig(
    grantTypes: Option<Field>,
    scope: Option<Field>,
    autoapprove: Option<Field>,
    authorities: Option<Field>,
    accessTokenValidity: Option<Field>,
    refreshTokenValidity: Option<Field>)

  datatype Client = Client(id: string, config: ClientConfig)

  datatype AuthBlock = AuthBlock(authorities: Option<seq<string>>, clients: Option<seq<Client>>)

  datatype RoleManifest = RoleManifest(
    roles: seq<Role>,
    configuration: Option<Configuration>,
    auth: Option<AuthBlock>)

  /** release name -> job name -> the job's property names (without `properties.`). */
  type PropertyMap = map<string, map<string, seq<string>>>

  /** What the transforms take from outside: the options and the helpers that are not part
      of this model, passed in as values and functions. */
  datatype Collaborators = Collaborators(
    version: string,                               // the raw `@hcf_version`
    productVersion: string,                        // `Common.product_version`
    dtrOrg: string,
    hcfPrefix: string,
    hcfTag: string,
    dtr: string,
    propertyMap: Option<PropertyMap>,              // `options[:propmap]`
    parametersInTemplate: string -> seq<string>,   // `Common.parameters_in_template`
    nameHash: string -> string,                    // `name.hash.to_s(16)`
    clientsJson: seq<Client> -> string,            // `to_json` of the auth clients
    authoritiesJson: seq<string> -> string)        // `to_json` of the user authorities

  function GlobalVariables(m: RoleManifest): Option<seq<Variable>> {
    if m.configuration.Some? then m.configuration.value.variables else None
  }

  function GlobalTemplates(m: RoleManifest): Option<map<string, string>> {
    if m.configuration.Some? then m.configuration.value.templates else None
  }

  function RoleVariables(role: Role): Option<seq<Variable>> {
    if role.configuration.Some? then role.configuration.value.variables else None
  }

  function RoleTemplates(role: Role): Option<map<string, string>> {
    if role.configuration.Some? then role.configuration.value.templates else None
  }
}
