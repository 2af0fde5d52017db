/** Auth: the `features.auth` element built from the manifest's `auth` block
    (`generate_auth_definition`). Each UAA client becomes a client definition in the form the
    platform wants: lists instead of comma-separated strings, explicit defaults, and the
    client's secret parameter recovered from the secret's template. */
module Auth {
  import opened Results
  import opened Text
  import opened Manifest
  import opened ParameterCodec

  const AuthZone := "self"
  const DefaultGrantTypes: seq<string> := ["authorization_code", "refresh_token"]

  /** A client in the output. `grantTypes`, `scopes` and `autoapprove` are always present;
      the other optional keys are dropped when the manifest has no value for them. */
  datatype ClientDef = ClientDef(
    id: string,
    grantTypes: Field,
    scopes: Field,
    autoapprove: Field,
    authorities: Option<Field>,
    accessTokenValidity: Option<Field>,
    refreshTokenValidity: Option<Field>,
    parameters: seq<string>)

  datatype AuthDef = AuthDef(zone: string, userAuthorities: Option<seq<string>>, clients: seq<ClientDef>)

  // ---------------------------------------------------------------- secret templates

  predicate IsQuote(c: char) {
    c == '"' || c == '\''
  }

  /** Strips one pair of matching quotes around a one-line text (`gsub!(/^(["'])(.*)\1$/,
      '\2')`). */
  function Unquote(s: string): (r: string)
    ensures '\n' !in s && |s| >= 2 && IsQuote(s[0]) && s[|s| - 1] == s[0] ==> r == s[1..|s| - 1]
    ensures !('\n' !in s && |s| >= 2 && IsQuote(s[0]) && s[|s| - 1] == s[0]) ==> r == s
  {
    if '\n' !in s && |s| >= 2 && IsQuote(s[0]) && s[|s| - 1] == s[0] then s[1..|s| - 1] else s
  }

  /** The position of the first "))" at or after i, provided no line break comes before it. */
  function CloseAt(s: string, i: nat): (r: Option<nat>)
    ensures r.Some? ==> i <= r.value && r.value + 1 < |s| && s[r.value] == ')' && s[r.value + 1] == ')'
    ensures r.Some? ==> forall k :: i <= k < r.value ==> s[k] != '\n' && !(s[k] == ')' && s[k + 1] == ')')
    decreases |s| - i
  {
    if i + 1 >= |s| then None
    else if s[i] == ')' && s[i + 1] == ')' then Some(i)
    else if s[i] == '\n' then None
    else CloseAt(s, i + 1)
  }

  /** Replaces every `((x))` by `x`, scanning left to right with the shortest `x` on one line
      (`gsub!(/\(\((.*?)\)\)/, '\1')`); a replacement is not scanned again. */
  function Unwrap(s: string): string
    decreases |s|
  {
    if |s| < 2 then s
    else if s[0] == '(' && s[1] == '(' && CloseAt(s, 2).Some? then
      var k := CloseAt(s, 2).value;
      s[2..k] + Unwrap(s[k + 2..])
    else [s[0]] + Unwrap(s[1..])
  }

  /** The secret parameter name a client's secret template stands for. */
  function ClientSecret(template: string): Result<string> {
    NormaliseSecretName(Unwrap(Unquote(template)))
  }

  /** A text without "((" passes through the unwrapping unchanged. */
  lemma {:induction false} UnwrapPlain(s: string)
    requires forall k :: 0 <= k < |s| - 1 ==> !(s[k] == '(' && s[k + 1] == '(')
    ensures Unwrap(s) == s
    decreases |s|
  {
    if |s| >= 2 {
      UnwrapPlain(s[1..]);
      assert s == [s[0]] + s[1..];
    }
  }

  lemma CloseAtNoParen(x: string, i: nat)
    requires i <= |x|
    requires forall k :: 0 <= k < |x| ==> x[k] != ')' && x[k] != '\n'
    ensures CloseAt(x + "))", i) == Some(|x|)
    decreases |x| - i
  {
    var s := x + "))";
    if i < |x| {
      assert s[i] == x[i];
      CloseAtNoParen(x, i + 1);
    }
  }

  /** `((x))` unwraps to `x` for a one-line `x` without parentheses closing early. */
  lemma UnwrapWrapped(x: string)
    requires forall k :: 0 <= k < |x| ==> x[k] != ')' && x[k] != '\n'
    ensures Unwrap("((" + x + "))") == x
  {
    var s := "((" + x + "))";
    assert s[0] == '(' && s[1] == '(' && |s| == |x| + 4;
    CloseAtShifted(x);
    assert s[2..|x| + 2] == x;
    assert s[|x| + 4..] == "";
    assert Unwrap(s) == s[2..|x| + 2] + Unwrap(s[|x| + 4..]);
  }

  lemma CloseAtShifted(x: string)
    requires forall k :: 0 <= k < |x| ==> x[k] != ')' && x[k] != '\n'
    ensures CloseAt("((" + x + "))", 2) == Some(|x| + 2)
  {
    var s := "((" + x + "))";
    ShiftCloseAt(s, 2, |x| + 2);
  }

  lemma {:induction false} ShiftCloseAt(s: string, i: nat, k: nat)
    requires i <= k && k + 1 < |s| && s[k] == ')' && s[k + 1] == ')'
    requires forall j :: i <= j < k ==> s[j] != ')' && s[j] != '\n'
    ensures CloseAt(s, i) == Some(k)
    decreases k - i
  {
    if i < k {
      ShiftCloseAt(s, i + 1, k);
    }
  }

  /** A quoted one-line text loses its quotes. */
  lemma UnquoteQuoted(q: char, y: string)
    requires IsQuote(q) && '\n' !in y && '\n' != q
    ensures Unquote([q] + y + [q]) == y
  {
    var s := [q] + y + [q];
    assert s[1..|s| - 1] == y;
    assert '\n' !in s;
  }

  /** A secret template `((X_Y))`, quoted or not, names the parameter `x-y`. */
  lemma ClientSecretOfTemplate(x: string)
    requires forall k :: 0 <= k < |x| ==> x[k] != ')' && x[k] != '\n' && x[k] != '"'
    requires HasUpper(x)
    ensures ClientSecret("((" + x + "))") == Ok(DashedLower(x))
    ensures ClientSecret("\"((" + x + "))\"") == Ok(DashedLower(x))
  {
    var w := "((" + x + "))";
    assert w[0] == '(';
    UnwrapWrapped(x);
    assert "\"((" + x + "))\"" == ['"'] + w + ['"'];
    assert '\n' !in w by {
      assert forall k :: 0 <= k < |x| ==> w[k + 2] == x[k];
    }
    UnquoteQuoted('"', w);
  }

  // ---------------------------------------------------------------- clients

  /** `value || []`: only nil and false fall back to the empty list. */
  function OrEmpty(f: Option<Field>): (r: Field)
    ensures f.Some? && f.value != FBool(false) ==> r == f.value
    ensures f.None? || f.value == FBool(false) ==> r == FList([])
  {
    if f.Some? && f.value != FBool(false) then f.value else FList([])
  }

  /** A comma-separated string becomes the list of its items; any other value is kept. */
  function SplitIfString(f: Field): (r: Field)
    ensures f.FStr? ==> r == FList(Split(f.s, ','))
    ensures !f.FStr? ==> r == f
  {
    if f.FStr? then FList(Split(f.s, ',')) else f
  }

  function SecretKey(id: string): string {
    "properties.uaa.clients." + id + ".secret"
  }

  /** One client of the `clients` map. The template lookup fails on a manifest without
      templates; the secret's name must hold an upper-case letter. */
  function ConvertClient(c: Client, templates: Option<map<string, string>>): (r: Result<ClientDef>)
    ensures r.Ok? <==> templates.Some? && (SecretKey(c.id) in templates.value ==> ClientSecret(templates.value[SecretKey(c.id)]).Ok?)
    ensures templates.None? ==> r == Err(MissingTemplates)
    ensures r.Ok? ==> r.value.id == c.id
  {
    var cfg := c.config;
    var scopes := SplitIfString(OrEmpty(cfg.scope));
    var autoapprove := if cfg.autoapprove == Some(FBool(true)) then scopes else OrEmpty(cfg.autoapprove);
    var grantTypes := if cfg.grantTypes.Some? then SplitIfString(cfg.grantTypes.value) else FList(DefaultGrantTypes);
    var authorities := if cfg.authorities.Some? then Some(SplitIfString(cfg.authorities.value)) else None;
    if templates.None? then Err(MissingTemplates)
    else
      var key := SecretKey(c.id);
      var parameters :- if key in templates.value then
                          var name :- ClientSecret(templates.value[key]);
                          Ok([name])
                        else Ok([]);
      Ok(ClientDef(c.id, grantTypes, scopes, autoapprove, authorities,
                   cfg.accessTokenValidity, cfg.refreshTokenValidity, parameters))
  }

  /** What a converted client holds: strings of grant types, scopes and authorities are split
      on commas; scopes and autoapprove default to the empty list; an autoapprove of `true`
      approves exactly the scopes; missing grant types get the defaults; other missing keys
      stay missing; the secret's parameter is listed when the manifest has a secret
      template. */
  lemma ConvertClientContents(c: Client, templates: Option<map<string, string>>)
    requires ConvertClient(c, templates).Ok?
    ensures var r, cfg := ConvertClient(c, templates).value, c.config;
      && r.scopes == SplitIfString(OrEmpty(cfg.scope))
      && (cfg.autoapprove == Some(FBool(true)) ==> r.autoapprove == r.scopes)
      && (cfg.autoapprove != Some(FBool(true)) ==> r.autoapprove == OrEmpty(cfg.autoapprove))
      && (cfg.grantTypes.None? ==> r.grantTypes == FList(DefaultGrantTypes))
      && (cfg.grantTypes.Some? ==> r.grantTypes == SplitIfString(cfg.grantTypes.value))
      && (r.authorities.Some? <==> cfg.authorities.Some?)
      && (cfg.authorities.Some? ==> r.authorities.value == SplitIfString(cfg.authorities.value))
      && r.accessTokenValidity == cfg.accessTokenValidity
      && r.refreshTokenValidity == cfg.refreshTokenValidity
      && (SecretKey(c.id) !in templates.value ==> r.parameters == [])
      && (SecretKey(c.id) in templates.value ==> r.parameters == [ClientSecret(templates.value[SecretKey(c.id)]).value])
  {
  }

  /** A client whose secret template is `((X_Y))` gets the parameter `x-y`. */
  lemma SecretTemplateAddsParameter(c: Client, templates: map<string, string>, x: string)
    requires SecretKey(c.id) in templates && templates[SecretKey(c.id)] == "((" + x + "))"
    requires forall k :: 0 <= k < |x| ==> x[k] != ')' && x[k] != '\n' && x[k] != '"'
    requires HasUpper(x)
    ensures ConvertClient(c, Some(templates)).Ok?
    ensures ConvertClient(c, Some(templates)).value.parameters == [DashedLower(x)]
  {
    ClientSecretOfTemplate(x);
  }

  /** The clients, converted in order. */
  function ConvertClients(clients: seq<Client>, templates: Option<map<string, string>>): (r: Result<seq<ClientDef>>)
    ensures r.Ok? ==> |r.value| == |clients|
  {
    if clients == [] then Ok([])
    else
      var before :- ConvertClients(clients[..|clients| - 1], templates);
      var last :- ConvertClient(clients[|clients| - 1], templates);
      Ok(before + [last])
  }

  /** Converting the clients succeeds exactly when every client converts, and then holds each
      client's own definition at its position. */
  lemma {:induction false} ConvertClientsSpec(clients: seq<Client>, templates: Option<map<string, string>>)
    ensures ConvertClients(clients, templates).Ok? <==>
              forall i :: 0 <= i < |clients| ==> ConvertClient(clients[i], templates).Ok?
    ensures ConvertClients(clients, templates).Ok? ==>
              forall i :: 0 <= i < |clients| ==> Ok(ConvertClients(clients, templates).value[i]) == ConvertClient(clients[i], templates)
    decreases |clients|
  {
    if clients != [] {
      var init, c := clients[..|clients| - 1], clients[|clients| - 1];
      ConvertClientsSpec(init, templates);
      assert forall i :: 0 <= i < |init| ==> init[i] == clients[i];
      if ConvertClients(init, templates).Ok? && ConvertClient(c, templates).Ok? {
        var r := ConvertClients(init, templates).value + [ConvertClient(c, templates).value];
        assert ConvertClients(clients, templates) == Ok(r);
        forall i | 0 <= i < |clients| ensures Ok(r[i]) == ConvertClient(clients[i], templates) {
          if i < |init| {
            assert r[i] == ConvertClients(init, templates).value[i];
          }
        }
      } else if ConvertClients(init, templates).Err? {
        var i :| 0 <= i < |init| && !ConvertClient(init[i], templates).Ok?;
        assert !ConvertClient(clients[i], templates).Ok?;
      } else {
        assert !ConvertClient(clients[|clients| - 1], templates).Ok?;
      }
    }
  }

  /** `generate_auth_definition`, which runs only for a manifest with an `auth` block. It
      reads the global templates (failing without a `configuration`), maps the clients
      (failing without any) and copies the user authorities. */
  function AuthDefinition(m: RoleManifest): (r: Result<AuthDef>)
    requires m.auth.Some?
    ensures m.configuration.None? ==> r == Err(MissingConfiguration)
    ensures m.configuration.Some? && m.auth.value.clients.None? ==> r == Err(MissingAuthClients)
    ensures r.Ok? ==> r.value.zone == AuthZone && r.value.userAuthorities == m.auth.value.authorities
                      && Ok(r.value.clients) == ConvertClients(m.auth.value.clients.value, GlobalTemplates(m))
  {
    if m.configuration.None? then Err(MissingConfiguration)
    else if m.auth.value.clients.None? then Err(MissingAuthClients)
    else
      var clients :- ConvertClients(m.auth.value.clients.value, m.configuration.value.templates);
      Ok(AuthDef(AuthZone, m.auth.value.authorities, clients))
  }

  /** Without templates, an auth block with clients cannot be converted, while one with no
      clients can. */
  lemma AuthNeedsTemplatesForClients(m: RoleManifest)
    requires m.auth.Some? && m.configuration.Some? && m.auth.value.clients.Some?
    requires GlobalTemplates(m).None?
    ensures AuthDefinition(m).Ok? <==> m.auth.value.clients.value == []
  {
    var cs := m.auth.value.clients.value;
    ConvertClientsSpec(cs, None);
    if cs != [] {
      assert !ConvertClient(cs[0], None).Ok?;
    }
  }
}
