# HCP transformers of the role-manifest tool

This project models, in Dafny, the two output providers of the SCF role-manifest
transformer that target the Helion Control Plane (HCP):

- `ToHCP` (`bin/rm-transformer/hcp.rb`) turns a role manifest into an HCP *service
  definition*. It sanitises the release version into a Kubernetes label. It reconciles the
  shared volumes every role declares; a tag declared with two sizes aborts the run. It
  converts the global variables into parameter definitions. It works out, per role, which
  global parameters the role's jobs reference. It routes every role that is not manual and
  not development-only to the pre-flight, flight or post-flight list as a component. Each
  component gets its image, entry point, volume mounts, expanded service ports, parameter
  references and retry count. Finally, when the manifest has an auth block, it adds the UAA
  feature.
- `ToHCPInstance` (`bin/rm-transformer/hcp-instance.rb`) stamps an *instance definition*
  onto a JSON template. Developer settings first override variable defaults in place. Then
  every variable whose default is present and not empty becomes a `{name, value}`
  parameter. Secret names are lower-cased and dashed, and literal `\n` is unescaped.

The transforms are modelled as they run. The service definition is a class, `Hcp.Definition`,
whose methods push onto its lists, and the instance overrides update an array of variables
in place. Each method is proved against a specification function: `Hcp.Transform`,
`Hcp.Processed`, `Instance.InstanceDefinition`, `Volumes.Reconcile`,
`ComponentParameters.Determine`, `Ports.ServicePorts`, `ParameterCodec.ConvertAll`. What the
source promises is proved about those functions as lemmas. A Ruby exception that aborts the
run is an `Err` of `Results.Result`; the error variants name the cases.

Modules, one per file: `Results` (Option, Result, the error cases, flattening a list of
results), `Seqs` (sequence slicing facts), `Text` (case, decimals, `split`, `uniq.sort`),
`Version` (the version label), `Manifest` (the role manifest and the collaborators),
`ParameterCodec` (variables as parameter definitions), `Volumes` (shared and private
filesystems), `Ports` (service ports), `ComponentParameters` (which global parameters a role
references), `Auth` (the UAA feature), `Scaling` (instance bounds per clone), `Hcp` (the
service definition) and `Instance` (the instance definition).

Three behaviours of the code that the model keeps:

- the secret template of a UAA client drops every `((` and `))` pair, group by group, and
  keeps spaces inside a group (`bin/rm-transformer/hcp.rb:592`);
- a role without `jobs` keeps its empty parameter list (`bin/rm-transformer/hcp.rb:410-411`);
- when a property map is given but the manifest has no global templates, every role is
  skipped and the component-parameter table stays empty
  (`bin/rm-transformer/hcp.rb:403-408`). When the manifest also has global variables, the
  first kept role then makes the run fail.

## Model

| member | source | states |
|---|---|---|
| Text.DashedLower | bin/rm-transformer/hcp.rb:476 | lower-cases and replaces `_` by `-`: same length, no upper-case letter and no underscore left, every other character unchanged |
| Text.ToIOfDecimal | bin/rm-transformer/hcp.rb:333 | `to_i` reads back the decimal text of any natural number |
| Text.ToIOfSigned | bin/rm-transformer/hcp.rb:333 | `to_i` skips leading blanks and reads an optional `+` or `-` sign before the digits |
| Text.SplitJoin | bin/rm-transformer/hcp.rb:573 | `split(',')` recovers the parts of a joined list whose last part is not empty (Ruby drops trailing empty fields) |
| Text.UniqSort | bin/rm-transformer/hcp.rb:440 | `uniq.sort` yields a strictly ascending list with exactly the members of its input |
| Text.AscendingDetermined | bin/rm-transformer/hcp.rb:440 | two strictly ascending lists with the same members are equal, so `uniq.sort` does not depend on the input's order or repetitions |
| Version.Sanitise | bin/rm-transformer/hcp.rb:16-17 | the version becomes a label: at most 63 characters, each a letter, digit, `.` or `-`, every disallowed character of the first 63 replaced by `-` and every allowed one kept |
| Version.SanitiseIdempotent | bin/rm-transformer/hcp.rb:16-17 | sanitising twice equals sanitising once |
| Version.SanitiseKeepsLabels | bin/rm-transformer/hcp.rb:16-17 | a version that already is a label is kept unchanged |
| ParameterCodec.NormaliseSecretName | bin/rm-transformer/hcp.rb:476 | `downcase!.gsub!` on a secret name succeeds exactly when the name has an upper-case letter (otherwise `downcase!` answers nil and the run aborts) and yields its dashed lower-case form |
| ParameterCodec.Example | bin/rm-transformer/hcp.rb:471-472 | the example shown is the text of a truthy `example`, else the text of the default; it is `unknown` when that text is empty or there is no default, so it is never empty |
| ParameterCodec.SelectKeys | bin/rm-transformer/hcp.rb:499-507 | keeps exactly the selected keys that are present, with their values |
| ParameterCodec.ConvertGenerator | bin/rm-transformer/hcp.rb:498-514 | the generator keeps its type, takes the variable's name as `id` when it has none, keeps exactly the known option keys, and keeps exactly the known keys of each subject-alt-name entry, one entry per given entry |
| ParameterCodec.ConvertGeneratorKeepsValues | bin/rm-transformer/hcp.rb:501-507 | every option and subject-alt-name key the generator keeps carries the value it was given |
| ParameterCodec.ConvertParameter | bin/rm-transformer/hcp.rb:467-496 | a variable converts exactly when it is not secret or its name has an upper-case letter; the definition carries the final (possibly normalised) name |
| ParameterCodec.ConvertParameterContents | bin/rm-transformer/hcp.rb:467-496 | the definition's `secret`, `required`, `default`, `example`, `description` and generator follow the variable |
| ParameterCodec.ConvertAll | bin/rm-transformer/hcp.rb:453-458 | a successful conversion has one definition per variable |
| ParameterCodec.ConvertAllSpec | bin/rm-transformer/hcp.rb:453-458 | converting a list succeeds exactly when every variable converts, and then the i-th definition is the i-th variable's |
| ParameterCodec.ReferencesMatchDefinitions | bin/rm-transformer/hcp.rb:444-451 | the names a reference shows once the codec has run are exactly the names the converted definitions carry, position by position |
| ParameterCodec.CollectParameters | bin/rm-transformer/hcp.rb:369-373 | the loop over the variables computes `ConvertAll`, stopping at the first failure |
| Volumes.ReconcileSpec | bin/rm-transformer/hcp.rb:154-180 | reconciling the shared declarations succeeds exactly when no tag is declared with two sizes, and then yields one row per tag in first-declaration order |
| Volumes.ReconcileFailure | bin/rm-transformer/hcp.rb:174-180 | a failure is always a size mismatch |
| Volumes.FirstOccurrencesAreFirst | bin/rm-transformer/hcp.rb:167-172 | every row of the table comes from the first declaration of its tag |
| Volumes.FirstOccurrencesCover | bin/rm-transformer/hcp.rb:167-172 | every declared tag has a row |
| Volumes.FirstOccurrencesDistinct | bin/rm-transformer/hcp.rb:167-172 | no tag has two rows |
| Volumes.ReconciledTable | bin/rm-transformer/hcp.rb:154-180 | a reconciled table has distinct tags, covers every declared tag, and gives each the size of its first declaration |
| Volumes.SharedEntries | bin/rm-transformer/hcp.rb:182-186 | one shared filesystem of the default type per table row, in order |
| Volumes.PrivateEntries | bin/rm-transformer/hcp.rb:293-300 | one private filesystem of the default type per persistent volume, in order |
| Volumes.Mounts | bin/rm-transformer/hcp.rb:302-313 | one mount per volume: its tag and path, in order |
| Volumes.MountsAppend | bin/rm-transformer/hcp.rb:239-243 | the mounts of two volume lists are the mounts of each, concatenated |
| Volumes.CollectSharedFilesystems | bin/rm-transformer/hcp.rb:154-165 | the nested loop over roles and their shared volumes computes `Reconcile` of all declarations and fails exactly on a conflict |
| Ports.Classify | bin/rm-transformer/hcp.rb:328-333 | a port is a single port exactly when its external value has no `-`; a range must have equal external and internal text, else the run aborts with a range mismatch |
| Ports.ClassifyRangeText | bin/rm-transformer/hcp.rb:328-333 | the text `a-b` given as both external and internal port classifies as the range from a to b |
| Ports.HashSuffix | bin/rm-transformer/hcp.rb:358 | `[-8...-1]` of the hash: 7 characters, ending one before its last, when the hash has at least 8, and nothing otherwise |
| Ports.ShortName | bin/rm-transformer/hcp.rb:355-359 | a port name longer than 15 characters is cut to its first 8 plus the hash suffix, and is never longer than 15 |
| Ports.ConvertPort | bin/rm-transformer/hcp.rb:350-367 | a port converts exactly when its external value is a number no larger than the upper bound; otherwise the error names the port or the number and component |
| Ports.ExpandRangeSpec | bin/rm-transformer/hcp.rb:333-340 | a range expands to one port per number from first to last, each mapping the number to itself, and fails exactly when the last number is out of range |
| Ports.ExpandRangeAscending | bin/rm-transformer/hcp.rb:334-340 | the expanded source ports are strictly ascending |
| Ports.ExpandSinglePort | bin/rm-transformer/hcp.rb:341-343 | a single port contributes exactly its converted port |
| Ports.ExpandPortBounded | bin/rm-transformer/hcp.rb:327-344 | every port a declaration contributes is within the external upper bound |
| Ports.ExpandAllBounded | bin/rm-transformer/hcp.rb:327-344 | every port of the expanded list is within the external upper bound |
| Ports.ExpandAllOk | bin/rm-transformer/hcp.rb:327-344 | expanding the list succeeds exactly when every declaration expands |
| Ports.Contributions | bin/rm-transformer/hcp.rb:327-344 | the i-th contribution is the expansion of the i-th declaration |
| Ports.ServicePortsBounded | bin/rm-transformer/hcp.rb:345-347 | a successful result has at most the maximum number of ports, and a longer expansion aborts with too-many-ports |
| Ports.ExpandOne | bin/rm-transformer/hcp.rb:328-343 | the loop over a range computes the declaration's contribution |
| Ports.ExpandPorts | bin/rm-transformer/hcp.rb:327-344 | the loop over the declarations computes the concatenated expansion, stopping at the first failure |
| Ports.AddPorts | bin/rm-transformer/hcp.rb:324-348 | computes `ServicePorts`; a result has at most the maximum count of ports, each within the upper bound |
| ComponentParameters.ProcessTemplates | bin/rm-transformer/hcp.rb:375-390 | without global templates there is nothing; otherwise the role's templates override the global ones and each maps to the parameters it mentions |
| ComponentParameters.PropertyParametersMembers | bin/rm-transformer/hcp.rb:425-437 | a name is collected for a job exactly when some property of the job has a template mentioning it |
| ComponentParameters.RoleParameterListMembers | bin/rm-transformer/hcp.rb:411-439 | a name is collected for a role exactly when one of its jobs known to the property map collects it |
| ComponentParameters.ResolvedSpec | bin/rm-transformer/hcp.rb:410-440 | a role's parameter list is strictly ascending, has no repetitions, and holds exactly the names its jobs collect |
| ComponentParameters.NoJobsNoParameters | bin/rm-transformer/hcp.rb:410-440 | a role without jobs references no global parameter |
| ComponentParameters.ResolvedOrderIndependent | bin/rm-transformer/hcp.rb:440 | two roles whose jobs collect the same names get the same list |
| ComponentParameters.TableWithoutTemplates | bin/rm-transformer/hcp.rb:406-408 | without global templates the table is empty |
| ComponentParameters.TableCoversRoles | bin/rm-transformer/hcp.rb:405-441 | with global templates every role has a table entry |
| ComponentParameters.TableKeysAreRoles | bin/rm-transformer/hcp.rb:405-441 | every table entry belongs to a role |
| ComponentParameters.TableEntry | bin/rm-transformer/hcp.rb:405-441 | the entry of a role (the last role of that name wins) is its resolved parameter list |
| ComponentParameters.FallbackIsGlobalNames | bin/rm-transformer/hcp.rb:444-451 | without a property map every role references all global variables by their final names |
| ComponentParameters.MissingEntry | bin/rm-transformer/hcp.rb:444-451 | a role of the manifest has no parameter list exactly when a property map is given but the manifest has no global templates |
| ComponentParameters.CollectPropertyParameters | bin/rm-transformer/hcp.rb:425-437 | the loop over a job's properties computes `PropertyParameters` |
| ComponentParameters.ResolveRole | bin/rm-transformer/hcp.rb:410-440 | the loop over a role's jobs computes its resolved list |
| ComponentParameters.DetermineComponentParameters | bin/rm-transformer/hcp.rb:392-442 | the loop over the roles computes `Determine`: no table without a property map, else one entry per role |
| Auth.Unquote | bin/rm-transformer/hcp.rb:591 | a single-line value enclosed in matching quotes loses them; anything else is kept |
| Auth.CloseAt | bin/rm-transformer/hcp.rb:592 | finds the first `))` on the line at or after a position |
| Auth.UnwrapPlain | bin/rm-transformer/hcp.rb:592 | a text without `((` is left unchanged |
| Auth.UnwrapWrapped | bin/rm-transformer/hcp.rb:592 | `((x))` unwraps to `x` |
| Auth.ClientSecretOfTemplate | bin/rm-transformer/hcp.rb:588-595 | the secret template `((X))`, quoted or not, yields the dashed lower-case form of `X` |
| Auth.OrEmpty | bin/rm-transformer/hcp.rb:559-560 | `x \|\| []`: a value that is absent or false becomes the empty list |
| Auth.SplitIfString | bin/rm-transformer/hcp.rb:569-575 | a string becomes its comma-split list; any other value is kept |
| Auth.ConvertClient | bin/rm-transformer/hcp.rb:555-598 | a client converts exactly when the templates exist and its secret template, if any, yields a name; the definition keeps the client's id |
| Auth.ConvertClientContents | bin/rm-transformer/hcp.rb:556-597 | grant types default to authorization code and refresh token, `autoapprove: true` copies the scopes, string lists are split, and the secret parameter is present exactly when the template has the client's secret |
| Auth.SecretTemplateAddsParameter | bin/rm-transformer/hcp.rb:588-596 | a client whose secret template is `((X))` gets the one parameter named by the dashed lower-case `X` |
| Auth.ConvertClients | bin/rm-transformer/hcp.rb:555-599 | a successful conversion has one definition per client |
| Auth.ConvertClientsSpec | bin/rm-transformer/hcp.rb:555-599 | converting the clients succeeds exactly when each client converts, and then the i-th definition is the i-th client's |
| Auth.AuthDefinition | bin/rm-transformer/hcp.rb:549-601 | fails without a configuration or without clients; the feature's zone is `self` and its user authorities are the manifest's |
| Auth.AuthNeedsTemplatesForClients | bin/rm-transformer/hcp.rb:550-588 | without global templates the feature can be built exactly when there are no clients |
| Scaling.MinimumsAddUp | bin/rm-transformer/hcp.rb:528-537 | over the indexed clones, the clone minimums add up to the component's minimum |
| Scaling.MaximumsAddUp | bin/rm-transformer/hcp.rb:539-546 | over the indexed clones, the clone maximums add up to the component's maximum |
| Hcp.SectionOf | bin/rm-transformer/hcp.rb:121-125 | `pre-flight`, `flight` and `post-flight` are routed to their three lists, and nothing else is routed |
| Hcp.EntrypointFails | bin/rm-transformer/hcp.rb:275-276 | building the entry point fails exactly when the role declares no ports |
| Hcp.EntrypointShape | bin/rm-transformer/hcp.rb:272-291 | the entry point runs the script through `env`, has 2 to 5 words, and marks the host names internal exactly when no port is public |
| Hcp.UaaSettingsShape | bin/rm-transformer/hcp.rb:280-286 | at most two UAA settings, each a `UAA_` assignment distinct from the other words |
| Hcp.AssembleRole | bin/rm-transformer/hcp.rb:198-264 | a role without a runtime aborts; a component carries the role's name as name and label, its image, a retry count exactly when retried, and an entry point exactly when not a docker role |
| Hcp.ComponentContents | bin/rm-transformer/hcp.rb:239-264 | mounts list persistent then shared volumes; parameters list the global references, the role's variables and a docker role's environment; ports are the expansion of the exposed ports; instance bounds come from the scaling |
| Hcp.RoleReferencesAreDefined | bin/rm-transformer/hcp.rb:255-257 | every role reference names the definition its variable gets (`add_role` stores the variable's own String, which `convert_parameter` renames in place at line 476), so a secret is referenced under its dashed lower-case name |
| Hcp.Kept | bin/rm-transformer/hcp.rb:127-130 | the kept roles are roles of the manifest that are neither manual nor development-only |
| Hcp.Routed | bin/rm-transformer/hcp.rb:121-135 | the roles routed to a list are kept roles of that stage |
| Hcp.RoleStepSpec | bin/rm-transformer/hcp.rb:127-140 | a skipped role leaves the definition unchanged; a processed role grows it by exactly its own contributions |
| Hcp.ProcessRolesShape | bin/rm-transformer/hcp.rb:120-145 | processing the roles, when it succeeds, appends their private filesystems, their components per list and their variable definitions, in role order |
| Hcp.ProcessRolesKept | bin/rm-transformer/hcp.rb:120-145 | after a successful run every kept role had a known stage and assembled |
| Hcp.EmittedAreRouted | bin/rm-transformer/hcp.rb:121-135 | each list holds one component per role routed to it, in order, each that role's component |
| Hcp.RoutedPartition | bin/rm-transformer/hcp.rb:121-135 | the three lists together take every kept role exactly once |
| Hcp.RoutedComponents | bin/rm-transformer/hcp.rb:121-135 | the k-th component of a list is the component of the k-th role routed to it |
| Hcp.TransformShape | bin/rm-transformer/hcp.rb:35-44 | a tag with two sizes aborts with a size mismatch; a definition has a label version, the shared then private filesystems, one list per stage, the global then role parameter definitions, and the auth feature exactly when the manifest has one |
| Hcp.ProcessRolesAborts | bin/rm-transformer/hcp.rb:120-145 | a role that fails aborts the whole run with its error |
| Hcp.CollectReferences | bin/rm-transformer/hcp.rb:248-264 | the references are computed as the global names, then the role's, then the environment's |
| Hcp.Definition.constructor | bin/rm-transformer/hcp.rb:105-118 | an empty definition carrying the product name, vendor, product version and sanitised version |
| Hcp.Definition.AddFilesystem | bin/rm-transformer/hcp.rb:188-196 | appends one filesystem and changes nothing else |
| Hcp.Definition.SaveSharedFilesystems | bin/rm-transformer/hcp.rb:182-186 | appends one shared filesystem per table row and changes nothing else |
| Hcp.Definition.AddVolumes | bin/rm-transformer/hcp.rb:293-300 | returns one mount per volume and, unless shared, appends one private filesystem per volume |
| Hcp.Definition.AddParameters | bin/rm-transformer/hcp.rb:453-458 | appends the parameter definitions and changes nothing else |
| Hcp.Definition.AttachVolumes | bin/rm-transformer/hcp.rb:239-243 | returns the persistent then shared mounts and appends only the private filesystems |
| Hcp.Definition.AddRole | bin/rm-transformer/hcp.rb:198-270 | adding a role has exactly the outcome of `AddRoleSpec` on the previous contents |
| Hcp.Definition.ProcessRoles | bin/rm-transformer/hcp.rb:120-145 | the loop over the roles has exactly the outcome of `Processed` on the previous contents |
| Hcp.Prepare | bin/rm-transformer/hcp.rb:35-40 | a fresh definition filled with the shared filesystems and global parameters, or the reconciliation's error |
| Hcp.ToHcp | bin/rm-transformer/hcp.rb:35-44 | the whole run computes `Transform` |
| Instance.FirstIndex | bin/rm-transformer/hcp-instance.rb:31 | `find_index`: the first position holding the name, or none when no variable has it |
| Instance.OverriddenSpec | bin/rm-transformer/hcp-instance.rb:30-33 | after the overrides, every variable keeps its place; a variable that is the first of its name takes the last setting for that name, and every other variable is unchanged |
| Instance.LookupDistinct | bin/rm-transformer/hcp-instance.rb:30 | with distinct setting names, looking up a setting's name yields its value |
| Instance.SettingLands | bin/rm-transformer/hcp-instance.rb:30-33 | with the distinct names a settings hash has, every setting replaces the default of the first variable of its name with its own value |
| Instance.UnescapePlain | bin/rm-transformer/hcp-instance.rb:72 | a text without a literal `\n` is left unchanged |
| Instance.UnescapeEscape | bin/rm-transformer/hcp-instance.rb:72 | unescaping undoes escaping line breaks for a text without backslashes |
| Instance.EntryOf | bin/rm-transformer/hcp-instance.rb:61-78 | an entry exists exactly when the variable is not secret or its name has an upper-case letter; it carries the final name and the default's text |
| Instance.ListedVars | bin/rm-transformer/hcp-instance.rb:62 | the listed variables are variables whose default is present and not empty |
| Instance.InstanceParametersSpec | bin/rm-transformer/hcp-instance.rb:57-81 | collecting succeeds exactly when every listed variable has an entry, and then gives one entry per listed variable, in order |
| Instance.EntriesJson | bin/rm-transformer/hcp-instance.rb:75-78 | one `{name, value}` object per entry, in order |
| Instance.Stamp | bin/rm-transformer/hcp-instance.rb:36-39 | the template keeps every other key, and gets the parameters, the version and the product version |
| Instance.InstanceDefinitionShape | bin/rm-transformer/hcp-instance.rb:23-41 | fails without a configuration; a definition has one parameter per listed variable after the overrides and a version that is a label |
| Instance.FindIndex | bin/rm-transformer/hcp-instance.rb:31 | the loop finds `FirstIndex` |
| Instance.ApplyOverrides | bin/rm-transformer/hcp-instance.rb:30-33 | the in-place loop leaves the array equal to `Overridden` of its old contents |
| Instance.CollectInstanceParameters | bin/rm-transformer/hcp-instance.rb:57-81 | the loop over the variables computes `InstanceParameters` |
| Instance.ToHcpInstance | bin/rm-transformer/hcp-instance.rb:23-41 | the whole run computes `InstanceDefinition` |

## Left out

- JSON output (`transform`, `pretty_generate`, `to_json`): the model stops at the
  definition values. The JSON texts of the auth clients and user authorities that the entry
  point embeds are parameters (`Collaborators.clientsJson`, `Collaborators.authoritiesJson`).
- Reading the template file (`load_template`) and the developer environment files
  (`dirs_for_flavor`, `Common.collect_dev_env`): the template map and the ordered developer
  settings are inputs.
- The helpers of `common.rb` (`parameters_in_template`, `product_version`, the
  `@dtr`/`@hcf_*` options, `String#hash`) are not part of this model; they are inputs of
  `Manifest.Collaborators`.
- Warnings printed to standard error are not modelled.
- `Auth.Unquote`, `Auth.Unwrap`: the regular expressions are modelled for a single-line
  secret template; Ruby's `^`/`$` would also match at inner line breaks.
- Ruby exception classes are collapsed into the variants of `Results.Error`. The error
  `abort_on_mismatch` raises is a size mismatch in the model; in Ruby, formatting its message
  itself raises a `TypeError`, which aborts the run all the same.
- The empty `depends_on` and `affinity` of every component, and the serial counter in
  `convert_volume`, are constants of the source and are not modelled.
- `Hcp.AssembleRole` takes a role's `run.scaling` and its `min` and `max` as present
  (`Manifest.Scaling` holds two integers). In the source a role whose `run` has no `scaling`
  aborts the whole run with a `NoMethodError` (bin/rm-transformer/hcp.rb:205-207), and a
  `scaling` without `min` or `max` emits `min_instances` or `max_instances` as null; neither
  case is modelled.
- Roles' `tags`, volume sizes and the auth client settings are taken as well-formed;
  a `nil` where the source dereferences one is not modelled.
- `Text.Lower` lower-cases ASCII letters only.
- `Text.ToI` reads leading blanks, a sign and the leading digits; Ruby's `to_i` also accepts a
  single underscore between two digits (`"1_000".to_i` is 1000), which the model reads as the
  end of the number.
- `Ports.Classify`: a range text without a second bound (`8080-`) is a `MalformedPortRange`
  error in the model. In Ruby 2.6 and later it builds an endless range, which expands up to
  the port bound and then fails with a port-out-of-range error; in earlier Ruby it fails when
  the range is built. A reversed range expands to no ports, in the model as in Ruby.
- YAML anchors shared between variables are not modelled: overriding a default changes one
  variable only.
- The partial state a failing `to_hcp` leaves behind is not modelled: a failing run is just
  its error.
- `Scaling.MinimumsAddUp`, `Scaling.MaximumsAddUp`: `scale_min` and `scale_max` have no
  caller in the source; the model proves what they share out, not where they are used.
- `Hcp.EntrypointShape` does not state the exact text of the UAA settings, only their shape.
