/** Instance: the instance definition `ToHCPInstance` stamps onto a template. Developer
    overrides first replace variable defaults in place; every variable with a non-empty
    default then becomes a `{name, value}` parameter of the instance. */
module Instance {
  import opened Results
  import Seqs
  import opened Text
  import opened Version
  import opened Manifest
  import opened ParameterCodec

  /** The template, as the JSON loader delivers it. */
  datatype Json = JNull | JBool(b: bool) | JInt(i: int) | JStr(s: string) | JArray(items: seq<Json>) | JObject(fields: map<string, Json>)

  /** A developer setting: a variable name and the value the environment files give it. */
  type DevSetting = (string, string)

  /** One parameter of the instance. */
  datatype Entry = Entry(name: string, value: string)

  const ParametersKey := "parameters"
  const SdlVersionKey := "sdl_version"
  const ProductVersionKey := "product_version"

  // ---------------------------------------------------------------- overrides

  /** `find_index`: the position of the first variable with this name. */
  function FirstIndex(vars: seq<Variable>, name: string): (r: Option<nat>)
    ensures r.Some? ==> r.value < |vars| && vars[r.value].name == name
    ensures r.Some? ==> forall j :: 0 <= j < r.value ==> vars[j].name != name
    ensures r.None? ==> forall j :: 0 <= j < |vars| ==> vars[j].name != name
  {
    if vars == [] then None
    else if vars[0].name == name then Some(0)
    else match FirstIndex(vars[1..], name)
      case None => None
      case Some(j) => Some(j + 1)
  }

  /** One override: the first variable of that name gets the value as its default. */
  function Override(vars: seq<Variable>, o: DevSetting): seq<Variable> {
    match FirstIndex(vars, o.0)
    case None => vars
    case Some(i) => vars[i := vars[i].(default := Some(Str(o.1)))]
  }

  /** The variables after the overrides, applied in order. */
  function Overridden(vars: seq<Variable>, overrides: seq<DevSetting>): seq<Variable> {
    if overrides == [] then vars
    else Override(Overridden(vars, overrides[..|overrides| - 1]), overrides[|overrides| - 1])
  }

  /** The value the overrides finally give a name: the last override of that name. */
  function Lookup(overrides: seq<DevSetting>, name: string): Option<string> {
    if overrides == [] then None
    else if overrides[|overrides| - 1].0 == name then Some(overrides[|overrides| - 1].1)
    else Lookup(overrides[..|overrides| - 1], name)
  }

  /** Variable i is the first of its name. */
  predicate IsFirstNamed(vars: seq<Variable>, i: int)
    requires 0 <= i < |vars|
  {
    forall j :: 0 <= j < i ==> vars[j].name != vars[i].name
  }

  /** What the overrides leave: the variable that is first of its name and has an override
      holds the last override's value as its default; every other variable is untouched. */
  function Expected(vars: seq<Variable>, overrides: seq<DevSetting>, i: int): Variable
    requires 0 <= i < |vars|
  {
    if IsFirstNamed(vars, i) && Lookup(overrides, vars[i].name).Some?
    then vars[i].(default := Some(Str(Lookup(overrides, vars[i].name).value)))
    else vars[i]
  }

  lemma FirstIndexOfSameNames(a: seq<Variable>, b: seq<Variable>, name: string)
    requires |a| == |b| && forall i :: 0 <= i < |a| ==> a[i].name == b[i].name
    ensures FirstIndex(a, name) == FirstIndex(b, name)
  {
  }

  /** One more override, seen at one position: the expected variable for the longer list
      of overrides. */
  lemma OverrideAt(vars: seq<Variable>, r: seq<Variable>, init: seq<DevSetting>, o: DevSetting, i: int)
    requires |r| == |vars| && 0 <= i < |vars|
    requires forall j :: 0 <= j < |vars| ==> r[j].name == vars[j].name
    requires r[i] == Expected(vars, init, i)
    ensures |Override(r, o)| == |vars|
    ensures Override(r, o)[i] == Expected(vars, init + [o], i)
  {
    var overrides := init + [o];
    assert overrides[..|overrides| - 1] == init;
    FirstIndexOfSameNames(r, vars, o.0);
    match FirstIndex(vars, o.0)
    case None =>
      assert vars[i].name != o.0;
    case Some(k) =>
      if i == k {
        assert IsFirstNamed(vars, i);
      } else if vars[i].name == o.0 {
        assert k < i;
        assert !IsFirstNamed(vars, i);
      }
  }

  /** Overriding keeps every variable's name and position; the first variable of each
      overridden name takes the last override of that name as its default, and no other
      variable changes. Override names that no variable has are ignored. */
  lemma {:induction false} OverriddenSpec(vars: seq<Variable>, overrides: seq<DevSetting>)
    ensures |Overridden(vars, overrides)| == |vars|
    ensures forall i :: 0 <= i < |vars| ==> Overridden(vars, overrides)[i] == Expected(vars, overrides, i)
    decreases |overrides|
  {
    if overrides != [] {
      var init, o := overrides[..|overrides| - 1], overrides[|overrides| - 1];
      assert overrides == init + [o];
      OverriddenSpec(vars, init);
      var r := Overridden(vars, init);
      assert forall i :: 0 <= i < |vars| ==> r[i].name == vars[i].name by {
        forall i | 0 <= i < |vars| ensures r[i].name == vars[i].name {
          assert r[i] == Expected(vars, init, i);
        }
      }
      forall i | 0 <= i < |vars|
        ensures Overridden(vars, overrides)[i] == Expected(vars, overrides, i)
      {
        OverrideAt(vars, r, init, o, i);
      }
    }
  }


  /** With override names all different, each override's value ends up in the first
      variable of its name. */
  lemma LookupDistinct(overrides: seq<DevSetting>, k: int)
    requires 0 <= k < |overrides|
    requires forall a, b :: 0 <= a < b < |overrides| ==> overrides[a].0 != overrides[b].0
    ensures Lookup(overrides, overrides[k].0) == Some(overrides[k].1)
    decreases |overrides|
  {
    if k < |overrides| - 1 {
      var init := overrides[..|overrides| - 1];
      assert init[k] == overrides[k];
      LookupDistinct(init, k);
    }
  }

  /** The developer settings come from a hash, so their names are distinct: every setting
      then lands, with its own value, on the first variable of its name. */
  lemma SettingLands(vars: seq<Variable>, overrides: seq<DevSetting>, k: int, i: int)
    requires forall a, b :: 0 <= a < b < |overrides| ==> overrides[a].0 != overrides[b].0
    requires 0 <= k < |overrides| && 0 <= i < |vars|
    requires vars[i].name == overrides[k].0 && IsFirstNamed(vars, i)
    ensures |Overridden(vars, overrides)| == |vars|
    ensures Overridden(vars, overrides)[i] == vars[i].(default := Some(Str(overrides[k].1)))
  {
    OverriddenSpec(vars, overrides);
    LookupDistinct(overrides, k);
  }

  // ---------------------------------------------------------------- parameters

  /** `gsub!('\\n', "\n")`: every backslash-n pair becomes a line break, scanning left to
      right. */
  function UnescapeNewlines(s: string): string
    decreases |s|
  {
    if |s| < 2 then s
    else if s[0] == '\\' && s[1] == 'n' then "\n" + UnescapeNewlines(s[2..])
    else [s[0]] + UnescapeNewlines(s[1..])
  }

  /** Writes every line break as a backslash-n pair. */
  function EscapeNewlines(s: string): string {
    if s == [] then []
    else (if s[0] == '\n' then "\\n" else [s[0]]) + EscapeNewlines(s[1..])
  }

  /** A text without a backslash-n pair is left as it is. */
  lemma {:induction false} UnescapePlain(s: string)
    requires forall k :: 0 <= k < |s| - 1 ==> !(s[k] == '\\' && s[k + 1] == 'n')
    ensures UnescapeNewlines(s) == s
    decreases |s|
  {
    if |s| >= 2 {
      UnescapePlain(s[1..]);
      assert s == [s[0]] + s[1..];
    }
  }

  /** Unescaping undoes escaping for a text without backslashes. */
  lemma {:induction false} UnescapeEscape(s: string)
    requires '\\' !in s
    ensures UnescapeNewlines(EscapeNewlines(s)) == s
    decreases |s|
  {
    if s != [] {
      UnescapeEscape(s[1..]);
      var rest := EscapeNewlines(s[1..]);
      if s[0] == '\n' {
        assert EscapeNewlines(s) == "\\n" + rest;
        assert ("\\n" + rest)[2..] == rest;
      } else {
        assert EscapeNewlines(s) == [s[0]] + rest;
        if |rest| >= 1 {
          assert ([s[0]] + rest)[1..] == rest;
        } else {
          assert s[1..] == [];
        }
      }
      assert s == [s[0]] + s[1..];
    }
  }

  /** The value a default stands for: a string with its escaped line breaks restored, or any
      other value written out. */
  function ValueText(v: Scalar): string {
    if v.Str? then UnescapeNewlines(v.s) else ToS(v)
  }

  /** A variable the instance lists: one whose default is present and not empty. */
  predicate Listed(v: Variable) {
    v.default.Some? && ToS(v.default.value) != ""
  }

  /** The parameter for a listed variable; a secret name must hold an upper-case letter. */
  function EntryOf(v: Variable): (r: Result<Entry>)
    requires Listed(v)
    ensures r.Ok? <==> !IsSecret(v) || HasUpper(v.name)
    ensures r.Ok? ==> r.value.name == FinalName(v) && r.value.value == ValueText(v.default.value)
  {
    var name :- if IsSecret(v) then NormaliseSecretName(v.name) else Ok(v.name);
    Ok(Entry(name, ValueText(v.default.value)))
  }

  /** The listed variables, in order. */
  function ListedVars(vars: seq<Variable>): (r: seq<Variable>)
    ensures forall v :: v in r ==> Listed(v) && v in vars
  {
    if vars == [] then []
    else ListedVars(vars[..|vars| - 1]) + (if Listed(vars[|vars| - 1]) then [vars[|vars| - 1]] else [])
  }

  /** `collect_parameters` of `ToHCPInstance` as a value. */
  function InstanceParameters(vars: seq<Variable>): Result<seq<Entry>> {
    if vars == [] then Ok([])
    else
      var before :- InstanceParameters(vars[..|vars| - 1]);
      var v := vars[|vars| - 1];
      if !Listed(v) then Ok(before)
      else
        var e :- EntryOf(v);
        Ok(before + [e])
  }

  /** The parameters are exactly one entry per listed variable, in order; collecting fails
      exactly when a listed secret has no upper-case letter in its name. */
  lemma {:induction false} InstanceParametersSpec(vars: seq<Variable>)
    ensures InstanceParameters(vars).Ok? <==>
              forall i :: 0 <= i < |ListedVars(vars)| ==> EntryOf(ListedVars(vars)[i]).Ok?
    ensures InstanceParameters(vars).Ok? ==>
              && |InstanceParameters(vars).value| == |ListedVars(vars)|
              && forall i :: 0 <= i < |ListedVars(vars)| ==>
                   Ok(InstanceParameters(vars).value[i]) == EntryOf(ListedVars(vars)[i])
    decreases |vars|
  {
    if vars != [] {
      var init, v := vars[..|vars| - 1], vars[|vars| - 1];
      InstanceParametersSpec(init);
      var ls := ListedVars(init);
      assert forall i :: 0 <= i < |ls| ==> ListedVars(vars)[i] == ls[i];
      if Listed(v) {
        assert ListedVars(vars) == ls + [v];
        if InstanceParameters(init).Ok? && EntryOf(v).Ok? {
          var r := InstanceParameters(init).value + [EntryOf(v).value];
          assert InstanceParameters(vars) == Ok(r);
          assert forall i :: 0 <= i < |ls| ==> r[i] == InstanceParameters(init).value[i];
        } else if InstanceParameters(init).Err? {
          var i :| 0 <= i < |ls| && !EntryOf(ls[i]).Ok?;
          assert ListedVars(vars)[i] == ls[i];
        } else {
          assert ListedVars(vars)[|ls|] == v;
        }
      } else {
        assert ListedVars(vars) == ls;
      }
    }
  }

  // ---------------------------------------------------------------- the instance

  function EntryJson(e: Entry): Json {
    JObject(map["name" := JStr(e.name), "value" := JStr(e.value)])
  }

  function EntriesJson(es: seq<Entry>): (r: seq<Json>)
    ensures |r| == |es|
    ensures forall k :: 0 <= k < |es| ==> r[k] == EntryJson(es[k])
  {
    seq(|es|, k requires 0 <= k < |es| => EntryJson(es[k]))
  }

  /** The template with its parameters replaced and its versions overwritten; every other
      key of the template is kept as it is. */
  function Stamp(template: map<string, Json>, entries: seq<Entry>, version: string, productVersion: string)
    : (r: map<string, Json>)
    ensures r.Keys == template.Keys + {ParametersKey, SdlVersionKey, ProductVersionKey}
    ensures r[ParametersKey] == JArray(EntriesJson(entries))
    ensures r[SdlVersionKey] == JStr(version) && r[ProductVersionKey] == JStr(productVersion)
    ensures forall k :: k in template && k != ParametersKey && k != SdlVersionKey && k != ProductVersionKey ==>
              r[k] == template[k]
  {
    template[ParametersKey := JArray(EntriesJson(entries))][SdlVersionKey := JStr(version)][ProductVersionKey := JStr(productVersion)]
  }

  /** `to_hcp_instance`: fails without a `configuration` and without its `variables`. */
  function InstanceDefinition(m: RoleManifest, template: map<string, Json>, overrides: seq<DevSetting>,
                              version: string, productVersion: string): Result<map<string, Json>>
  {
    if m.configuration.None? then Err(MissingConfiguration)
    else if m.configuration.value.variables.None? then Err(MissingVariables)
    else
      var entries :- InstanceParameters(Overridden(m.configuration.value.variables.value, overrides));
      Ok(Stamp(template, entries, Sanitise(version), productVersion))
  }

  /** A successful instance lists one parameter per variable whose default, after the
      overrides, is present and not empty; the version is a valid label. */
  lemma InstanceDefinitionShape(m: RoleManifest, template: map<string, Json>, overrides: seq<DevSetting>,
                                version: string, productVersion: string)
    ensures m.configuration.None? ==> InstanceDefinition(m, template, overrides, version, productVersion) == Err(MissingConfiguration)
    ensures InstanceDefinition(m, template, overrides, version, productVersion).Ok? ==>
              var d, vars := InstanceDefinition(m, template, overrides, version, productVersion).value, m.configuration.value.variables.value;
              && d[ParametersKey].JArray?
              && |d[ParametersKey].items| == |ListedVars(Overridden(vars, overrides))|
              && d[SdlVersionKey].JStr? && IsLabel(d[SdlVersionKey].s)
  {
    if InstanceDefinition(m, template, overrides, version, productVersion).Ok? {
      InstanceParametersSpec(Overridden(m.configuration.value.variables.value, overrides));
    }
  }

  // ---------------------------------------------------------------- methods

  /** `vars.find_index { |x| x['name'] == name }`. */
  method FindIndex(vars: array<Variable>, name: string) returns (i: Option<nat>)
    ensures i == FirstIndex(vars[..], name)
  {
    var k := 0;
    while k < vars.Length
      invariant 0 <= k <= vars.Length
      invariant forall j :: 0 <= j < k ==> vars[j].name != name
    {
      if vars[k].name == name {
        return Some(k);
      }
      k := k + 1;
    }
    return None;
  }

  /** The override loop of `to_hcp_instance`, which sets defaults in place. */
  method ApplyOverrides(vars: array<Variable>, overrides: seq<DevSetting>)
    modifies vars
    ensures vars[..] == Overridden(old(vars[..]), overrides)
  {
    for k := 0 to |overrides|
      invariant vars[..] == Overridden(old(vars[..]), overrides[..k])
    {
      assert overrides[..k + 1][..k] == overrides[..k];
      var i := FindIndex(vars, overrides[k].0);
      if i.Some? {
        vars[i.value] := vars[i.value].(default := Some(Str(overrides[k].1)));
      }
    }
    assert overrides[..|overrides|] == overrides;
  }

  lemma {:induction false} InstanceParametersErrorPersists(vars: seq<Variable>, more: seq<Variable>)
    requires InstanceParameters(vars).Err?
    ensures InstanceParameters(vars + more) == InstanceParameters(vars)
    decreases |more|
  {
    if more == [] {
      assert vars + more == vars;
    } else {
      var init := more[..|more| - 1];
      assert (vars + more)[..|vars + more| - 1] == vars + init;
      InstanceParametersErrorPersists(vars, init);
    }
  }

  /** One more variable of a walk that has succeeded so far; a failing entry is the
      failure of the whole walk. */
  lemma InstanceParametersStep(vars: seq<Variable>, i: nat, acc: seq<Entry>)
    requires i < |vars| && InstanceParameters(vars[..i]) == Ok(acc)
    ensures !Listed(vars[i]) ==> InstanceParameters(vars[..i + 1]) == Ok(acc)
    ensures Listed(vars[i]) && EntryOf(vars[i]).Ok? ==> InstanceParameters(vars[..i + 1]) == Ok(acc + [EntryOf(vars[i]).value])
    ensures Listed(vars[i]) && EntryOf(vars[i]).Err? ==> InstanceParameters(vars) == Err(EntryOf(vars[i]).error)
  {
    Seqs.PrefixOfPrefix(vars, i, i + 1);
    if Listed(vars[i]) && EntryOf(vars[i]).Err? {
      InstanceParametersErrorPersists(vars[..i + 1], vars[i + 1..]);
      Seqs.SplitAt(vars, i + 1);
    }
  }

  /** `collect_parameters`: skips unlisted variables and appends an entry for each other. */
  method CollectInstanceParameters(vars: seq<Variable>) returns (r: Result<seq<Entry>>)
    ensures r == InstanceParameters(vars)
  {
    var results: seq<Entry> := [];
    for i := 0 to |vars|
      invariant InstanceParameters(vars[..i]) == Ok(results)
    {
      InstanceParametersStep(vars, i, results);
      var v := vars[i];
      if !Listed(v) {
        continue;
      }
      var name := v.name;
      if IsSecret(v) {
        var normalised := NormaliseSecretName(name);
        if normalised.Err? {
          assert EntryOf(v).Err?;
          return Err(normalised.error);
        }
        name := normalised.value;
      }
      var value := v.default.value;
      var text := if value.Str? then UnescapeNewlines(value.s) else ToS(value);
      assert EntryOf(v) == Ok(Entry(name, text));
      results := results + [Entry(name, text)];
    }
    assert vars[..|vars|] == vars;
    r := Ok(results);
  }

  /** `to_hcp_instance`. */
  method ToHcpInstance(m: RoleManifest, template: map<string, Json>, overrides: seq<DevSetting>,
                       version: string, productVersion: string) returns (r: Result<map<string, Json>>)
    ensures r == InstanceDefinition(m, template, overrides, version, productVersion)
  {
    if m.configuration.None? {
      return Err(MissingConfiguration);
    }
    var declared := m.configuration.value.variables;
    if declared.None? {
      return Err(MissingVariables);
    }
    var vars := new Variable[|declared.value|](i requires 0 <= i < |declared.value| => declared.value[i]);
    assert vars[..] == declared.value;
    ApplyOverrides(vars, overrides);
    var parameters := CollectInstanceParameters(vars[..]);
    if parameters.Err? {
      return Err(parameters.error);
    }
    var definition := template;
    definition := definition[ParametersKey := JArray(EntriesJson(parameters.value))];
    definition := definition[SdlVersionKey := JStr(Sanitise(version))];
    definition := definition[ProductVersionKey := JStr(productVersion)];
    r := Ok(definition);
  }
}
