/** The parameter codec: one manifest variable to the platform's parameter definition
    (`convert_parameter`, `convert_parameter_generator`) and to the name-only references a
    component lists (`convert_parameter_ref`, `convert_parameter_name`). */
module ParameterCodec {
  import opened Results
  import Seqs
  import opened Text
  import opened Manifest

  const GeneratorKeys: set<string> := {"value_type", "length", "characters", "key_length"}
  const SubjectAltNameKeys: set<string> := {"static", "parameter", "wildcard"}

  datatype GeneratorDef = GeneratorDef(
    id: string,
    kind: Option<string>,
    options: map<string, Scalar>,
    subjectAltNames: Option<seq<map<string, Scalar>>>)

  datatype ParamDef = ParamDef(
    name: string,
    description: string,
    example: string,
    required: bool,
    secret: bool,
    default: Option<string>,
    generator: Option<GeneratorDef>)

  predicate IsSecret(v: Variable) {
    v.secret == Some(true)
  }

  /** `name.downcase!.gsub!('_', '-')`, which renames in place. `downcase!` answers nil when
      it changed nothing, so a name without an upper-case letter makes the chained `gsub!`
      raise instead of being normalised. */
  function NormaliseSecretName(name: string): (r: Result<string>)
    ensures r.Ok? <==> HasUpper(name)
    ensures r.Ok? ==> r.value == DashedLower(name)
    ensures r.Err? ==> r.error == LowercaseSecretName(name)
  {
    if HasUpper(name) then Ok(DashedLower(name)) else Err(LowercaseSecretName(name))
  }

  /** The name a variable carries once the codec has run on it: the codec renames the
      variable's own String, so every reference to it shows this name too. */
  function FinalName(v: Variable): string {
    if IsSecret(v) then DashedLower(v.name) else v.name
  }

  /** `(example || default).to_s`, and 'unknown' for an empty result. */
  function Example(v: Variable): (r: string)
    ensures r != ""
    ensures Truthy(v.example) && ToS(v.example.value) != "" ==> r == ToS(v.example.value)
    ensures !Truthy(v.example) && v.default.Some? && ToS(v.default.value) != "" ==> r == ToS(v.default.value)
    ensures !Truthy(v.example) && v.default.None? ==> r == "unknown"
    ensures Truthy(v.example) && ToS(v.example.value) == "" ==> r == "unknown"
    ensures !Truthy(v.example) && v.default.Some? && ToS(v.default.value) == "" ==> r == "unknown"
  {
    var chosen := if Truthy(v.example) then ToS(v.example.value)
                  else if v.default.Some? then ToS(v.default.value)
                  else "";
    if chosen == "" then "unknown" else chosen
  }

  /** `hash.select { |k| keys.include? k }`. */
  function SelectKeys(m: map<string, Scalar>, keys: set<string>): (r: map<string, Scalar>)
    ensures r.Keys == m.Keys * keys
    ensures forall k :: k in r ==> r[k] == m[k]
  {
    map k | k in m && k in keys :: m[k]
  }

  /** `convert_parameter_generator`: only the recognised option keys and subject-alt-name
      keys survive; the id falls back to the parameter name. */
  function ConvertGenerator(g: Generator, name: string): (r: GeneratorDef)
    ensures r.options.Keys <= GeneratorKeys && r.options.Keys == g.options.Keys * GeneratorKeys
    ensures r.kind == g.kind
    ensures r.id == if g.id.Some? then g.id.value else name
    ensures r.subjectAltNames.Some? <==> g.subjectAltNames.Some?
    ensures r.subjectAltNames.Some? ==>
              |r.subjectAltNames.value| == |g.subjectAltNames.value|
              && forall i :: 0 <= i < |r.subjectAltNames.value| ==>
                   r.subjectAltNames.value[i].Keys == g.subjectAltNames.value[i].Keys * SubjectAltNameKeys
  {
    var sans := if g.subjectAltNames.Some? then
                  var given := g.subjectAltNames.value;
                  Some(seq(|given|, i requires 0 <= i < |given| => SelectKeys(given[i], SubjectAltNameKeys)))
                else None;
    GeneratorDef(g.id.GetOr(name), g.kind, SelectKeys(g.options, GeneratorKeys), sans)
  }

  /** The options and subject-alt-name entries the generator keeps carry the values given. */
  lemma ConvertGeneratorKeepsValues(g: Generator, name: string)
    ensures var r := ConvertGenerator(g, name);
      forall k :: k in r.options ==> r.options[k] == g.options[k]
    ensures var r := ConvertGenerator(g, name);
      r.subjectAltNames.Some? ==>
        forall i, k :: 0 <= i < |r.subjectAltNames.value| && k in r.subjectAltNames.value[i] ==>
          r.subjectAltNames.value[i][k] == g.subjectAltNames.value[i][k]
  {
  }

  /** `convert_parameter`: fails exactly on a secret without an upper-case letter, and
      otherwise carries the variable's final name. */
  function ConvertParameter(v: Variable): (r: Result<ParamDef>)
    ensures r.Ok? <==> !IsSecret(v) || HasUpper(v.name)
    ensures r.Err? ==> r.error == LowercaseSecretName(v.name)
    ensures r.Ok? ==> r.value.name == FinalName(v)
  {
    var secret := IsSecret(v);
    var name :- if secret then NormaliseSecretName(v.name) else Ok(v.name);
    var default := if v.default.None? || secret then None else Some(ToS(v.default.value));
    var generator := if v.generator.Some? then Some(ConvertGenerator(v.generator.value, name)) else None;
    Ok(ParamDef(name, "placeholder", Example(v), v.required.GetOr(true), secret, default, generator))
  }

  /** What a converted definition holds: secret names are lower-case with dashes and other
      names pass unchanged; `required` defaults to true and `secret` to false; the default
      is present only for a non-secret variable that has one; the generator keeps only the
      recognised keys. */
  lemma ConvertParameterContents(v: Variable)
    requires ConvertParameter(v).Ok?
    ensures var p := ConvertParameter(v).value;
      && (IsSecret(v) ==> forall i :: 0 <= i < |p.name| ==> !IsUpper(p.name[i]) && p.name[i] != '_')
      && (!IsSecret(v) ==> p.name == v.name)
      && p.required == v.required.GetOr(true) && p.secret == IsSecret(v)
      && p.example == Example(v) && p.description == "placeholder"
      && (p.default.Some? <==> v.default.Some? && !IsSecret(v))
      && (p.default.Some? ==> p.default.value == ToS(v.default.value))
      && (p.generator.Some? <==> v.generator.Some?)
      && (v.generator.Some? ==> p.generator.value == ConvertGenerator(v.generator.value, FinalName(v)))
  {
  }

  /** A variable whose conversion raises: a secret without an upper-case letter. */
  predicate Unconvertible(v: Variable) {
    IsSecret(v) && !HasUpper(v.name)
  }

  /** `collect_parameters` as a value: every variable converted, in order. */
  function ConvertAll(vars: seq<Variable>): (r: Result<seq<ParamDef>>)
    ensures r.Ok? ==> |r.value| == |vars|
  {
    if vars == [] then Ok([])
    else
      var init := vars[..|vars| - 1];
      var before :- ConvertAll(init);
      var last :- ConvertParameter(vars[|vars| - 1]);
      Ok(before + [last])
  }

  /** Converting a list succeeds exactly when no variable is unconvertible, and then holds
      each variable's own definition at its position. */
  lemma {:induction false} ConvertAllSpec(vars: seq<Variable>)
    ensures ConvertAll(vars).Ok? <==> forall i :: 0 <= i < |vars| ==> !Unconvertible(vars[i])
    ensures ConvertAll(vars).Ok? ==> forall i :: 0 <= i < |vars| ==> Ok(ConvertAll(vars).value[i]) == ConvertParameter(vars[i])
    decreases |vars|
  {
    if vars != [] {
      var init, x := vars[..|vars| - 1], vars[|vars| - 1];
      ConvertAllSpec(init);
      assert forall i :: 0 <= i < |init| ==> init[i] == vars[i];
      if ConvertAll(init).Err? {
        var i :| 0 <= i < |init| && Unconvertible(init[i]);
        assert Unconvertible(vars[i]);
      } else if ConvertParameter(x).Err? {
        assert Unconvertible(vars[|vars| - 1]);
      } else {
        var r := ConvertAll(init).value + [ConvertParameter(x).value];
        assert ConvertAll(vars) == Ok(r);
        forall i | 0 <= i < |vars|
          ensures Ok(r[i]) == ConvertParameter(vars[i]) && !Unconvertible(vars[i])
        {
          if i < |init| {
            assert r[i] == ConvertAll(init).value[i];
          }
        }
      }
    }
  }

  /** The names `{name: var['name']}` holds once the codec has run (`convert_parameter_ref`,
      `convert_parameter_name`, and `component_parameters` without a property map): the hash
      keeps the variable's own String, which the codec renames in place, so a reference
      shows the final name even when it was taken before the variable was converted. */
  function References(vars: seq<Variable>): (r: seq<string>)
    ensures |r| == |vars|
  {
    seq(|vars|, i requires 0 <= i < |vars| => FinalName(vars[i]))
  }

  /** Every reference names a definition: the i-th reference is the i-th converted name. */
  lemma ReferencesMatchDefinitions(vars: seq<Variable>)
    requires ConvertAll(vars).Ok?
    ensures forall i :: 0 <= i < |vars| ==> References(vars)[i] == ConvertAll(vars).value[i].name
  {
    ConvertAllSpec(vars);
  }

  lemma {:induction false} ConvertAllErrorPersists(vars: seq<Variable>, more: seq<Variable>)
    requires ConvertAll(vars).Err?
    ensures ConvertAll(vars + more) == ConvertAll(vars)
    decreases |more|
  {
    if more == [] {
      assert vars + more == vars;
    } else {
      var init := more[..|more| - 1];
      assert vars + more == (vars + init) + [more[|more| - 1]];
      assert (vars + more)[..|vars + more| - 1] == vars + init;
      ConvertAllErrorPersists(vars, init);
    }
  }

  /** `collect_parameters(para, variables)`: converts the variables one after the other and
      pushes each definition; the first variable that cannot be converted aborts. */
  method CollectParameters(vars: seq<Variable>) returns (r: Result<seq<ParamDef>>)
    ensures r == ConvertAll(vars)
  {
    var para: seq<ParamDef> := [];
    for i := 0 to |vars|
      invariant ConvertAll(vars[..i]) == Ok(para)
    {
      Seqs.PrefixOfPrefix(vars, i, i + 1);
      var converted := ConvertParameter(vars[i]);
      if converted.Err? {
        ConvertAllErrorPersists(vars[..i + 1], vars[i + 1..]);
        Seqs.SplitAt(vars, i + 1);
        return Err(converted.error);
      }
      para := para + [converted.value];
    }
    assert vars[..|vars|] == vars;
    r := Ok(para);
  }
}
