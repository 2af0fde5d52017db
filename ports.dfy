/** Ports: how a role's `exposed-ports` become a component's `service_ports` (`add_ports`,
    `convert_port`). A port whose external spec reads as a range "A-B" expands to one port
    per number; every emitted port must stay at or below the external port bound, and a
    component may forward only a bounded number of ports. */
module Ports {
  import opened Results
  import opened Text
  import opened Manifest

  const MaxExternalPortCount := 10
  const ExternalPortUpperBound := 29999
  const MaxPortNameLength := 15

  /** An entry of a component's `service_ports`. */
  datatype ServicePort = ServicePort(
    name: string,
    protocol: string,
    sourcePort: int,
    targetPort: PortValue,
    public: Option<bool>)

  /** `to_s` of an external or internal spec. */
  function PortText(v: PortValue): string {
    match v
    case Number(n) => IntToDecimal(n)
    case Text(s) => s
  }

  /** A port's external spec as `add_ports` reads it: a single value, or the bounds of a range. */
  datatype PortSpec = Single(value: PortValue) | Range(first: nat, last: nat)

  /** A spec whose text holds a dash is a range; it must be written identically on both
      sides, and only a text can be split into its bounds. The bounds are the `to_i` of the
      first two dash-separated fields. */
  function Classify(p: Port): (r: Result<PortSpec>)
    ensures (r.Ok? && r.value.Single?) <==> '-' !in PortText(p.external)
    ensures r.Ok? && r.value.Single? ==> r.value.value == p.external
    ensures '-' in PortText(p.external) && p.external != p.internal ==> r == Err(PortRangeMismatch(p.name))
    ensures r.Ok? && r.value.Range? ==> p.external == p.internal && p.external.Text?
    ensures r.Err? ==> r.error == PortRangeMismatch(p.name) || r.error == MalformedPortRange(p.name)
  {
    if '-' !in PortText(p.external) then Ok(Single(p.external))
    else if p.external != p.internal then Err(PortRangeMismatch(p.name))
    else
      match p.external
      case Number(_) => Err(MalformedPortRange(p.name))
      case Text(s) =>
        var fields := Split(s, '-');
        if |fields| < 2 then Err(MalformedPortRange(p.name))
        else Ok(Range(ToI(fields[0]) as nat, ToI(fields[1]) as nat))
  }

  /** `h[-8...-1]`: seven characters ending one before the last, or nothing for a short text. */
  function HashSuffix(h: string): (r: string)
    ensures |r| == if |h| >= 8 then 7 else 0
  {
    if |h| >= 8 then h[|h| - 8..|h| - 1] else ""
  }

  /** A service port name must be a valid host name: a longer name keeps its first eight
      characters and gains seven characters of its hash. */
  function ShortName(name: string, hash: string -> string): (r: string)
    ensures |name| <= MaxPortNameLength ==> r == name
    ensures |name| > MaxPortNameLength ==> 8 <= |r| <= MaxPortNameLength && r[..8] == name[..8]
    ensures |name| > MaxPortNameLength && |hash(name)| >= 8 ==> |r| == MaxPortNameLength
  {
    if |name| <= MaxPortNameLength then name else name[..8] + HashSuffix(hash(name))
  }

  /** `convert_port`: the external spec must be a number not above the bound (a text cannot
      be compared with the bound); protocol, target and public flag are copied. */
  function ConvertPort(cname: string, p: Port, hash: string -> string): (r: Result<ServicePort>)
    ensures r.Ok? <==> p.external.Number? && p.external.n <= ExternalPortUpperBound
    ensures p.external.Text? ==> r == Err(NonNumericPort(p.name))
    ensures p.external.Number? && p.external.n > ExternalPortUpperBound ==> r == Err(PortOutOfRange(p.external.n, cname))
    ensures r.Ok? ==> r.value.sourcePort == p.external.n && r.value.targetPort == p.internal
                      && r.value.protocol == p.protocol && r.value.public == p.public
                      && r.value.name == ShortName(p.name, hash)
  {
    match p.external
    case Text(_) => Err(NonNumericPort(p.name))
    case Number(n) =>
      if n > ExternalPortUpperBound then Err(PortOutOfRange(n, cname))
      else Ok(ServicePort(ShortName(p.name, hash), p.protocol, n, p.internal, p.public))
  }

  /** The port a range contributes for number k: `port.merge(...)` with both sides set to k
      and the number appended to the name. */
  function NumberedPort(p: Port, k: nat): Port {
    Port(p.name + "-" + NatToDecimal(k), p.protocol, Number(k), Number(k), p.public)
  }

  /** The ports of a range `first..last`, in ascending order, up to the first number above
      the bound. */
  function ExpandRange(cname: string, p: Port, first: nat, last: int, hash: string -> string): Result<seq<ServicePort>>
    decreases last - first
  {
    if last < first then Ok([])
    else
      var before :- ExpandRange(cname, p, first, last - 1, hash);
      var sp :- ConvertPort(cname, NumberedPort(p, last), hash);
      Ok(before + [sp])
  }

  /** What one exposed port contributes. */
  function ExpandPort(cname: string, p: Port, hash: string -> string): Result<seq<ServicePort>> {
    var spec :- Classify(p);
    match spec
    case Single(_) =>
      var sp :- ConvertPort(cname, p, hash);
      Ok([sp])
    case Range(first, last) => ExpandRange(cname, p, first, last, hash)
  }

  /** What each exposed port contributes, one entry per port. */
  function Contributions(cname: string, ports: seq<Port>, hash: string -> string): (r: seq<Result<seq<ServicePort>>>)
    ensures |r| == |ports|
    ensures forall i :: 0 <= i < |ports| ==> r[i] == ExpandPort(cname, ports[i], hash)
  {
    seq(|ports|, i requires 0 <= i < |ports| => ExpandPort(cname, ports[i], hash))
  }

  /** Every exposed port's contribution, in declaration order. */
  function ExpandAll(cname: string, ports: seq<Port>, hash: string -> string): Result<seq<ServicePort>> {
    Flatten(Contributions(cname, ports, hash))
  }

  /** The service ports `add_ports` leaves on the component, or the error it raises. */
  function ServicePorts(cname: string, ports: seq<Port>, hash: string -> string): Result<seq<ServicePort>> {
    var sps :- ExpandAll(cname, ports, hash);
    if |sps| > MaxExternalPortCount then Err(TooManyPorts(|sps|, cname)) else Ok(sps)
  }

  // ---------------------------------------------------------------- properties

  /** A range expands to one port per number, ascending, each forwarding the number to
      itself under the name "<name>-<number>"; it fails exactly when it reaches past the
      bound, and then at the first number past it. */
  lemma {:induction false} ExpandRangeSpec(cname: string, p: Port, first: nat, last: int, hash: string -> string)
    ensures ExpandRange(cname, p, first, last, hash).Ok? <==> last < first || last <= ExternalPortUpperBound
    ensures ExpandRange(cname, p, first, last, hash).Err? ==>
              ExpandRange(cname, p, first, last, hash).error
                == PortOutOfRange(if first > ExternalPortUpperBound then first else ExternalPortUpperBound + 1, cname)
    ensures ExpandRange(cname, p, first, last, hash).Ok? ==>
              var r := ExpandRange(cname, p, first, last, hash).value;
              |r| == (if last < first then 0 else last - first + 1)
              && forall i :: 0 <= i < |r| ==>
                   && r[i].sourcePort == first + i && r[i].targetPort == Number(first + i)
                   && r[i].name == ShortName(p.name + "-" + NatToDecimal(first + i), hash)
                   && r[i].protocol == p.protocol && r[i].public == p.public
    decreases last - first
  {
    if last >= first {
      ExpandRangeSpec(cname, p, first, last - 1, hash);
      var before := ExpandRange(cname, p, first, last - 1, hash);
      if before.Ok? {
        var sp := ConvertPort(cname, NumberedPort(p, last), hash);
        if sp.Ok? {
          var r := before.value + [sp.value];
          assert ExpandRange(cname, p, first, last, hash) == Ok(r);
          forall i | 0 <= i < |r|
            ensures r[i].sourcePort == first + i && r[i].targetPort == Number(first + i)
                    && r[i].name == ShortName(p.name + "-" + NatToDecimal(first + i), hash)
                    && r[i].protocol == p.protocol && r[i].public == p.public
          {
            if i < |before.value| {
              assert r[i] == before.value[i];
            }
          }
        }
      }
    }
  }

  /** Ports of a range come out in strictly ascending order. */
  lemma ExpandRangeAscending(cname: string, p: Port, first: nat, last: int, hash: string -> string)
    requires ExpandRange(cname, p, first, last, hash).Ok?
    ensures var r := ExpandRange(cname, p, first, last, hash).value;
      forall i, j :: 0 <= i < j < |r| ==> r[i].sourcePort < r[j].sourcePort
  {
    ExpandRangeSpec(cname, p, first, last, hash);
  }

  /** A range written as "A-B" on both sides is read back as the range from A to B. */
  lemma ClassifyRangeText(p: Port, a: nat, b: nat)
    requires p.external == Text(NatToDecimal(a) + "-" + NatToDecimal(b))
    requires p.internal == p.external
    ensures Classify(p) == Ok(Range(a, b))
  {
    var x, y := NatToDecimal(a), NatToDecimal(b);
    assert '-' in PortText(p.external) by {
      assert (x + "-" + y)[|x|] == '-';
    }
    assert '-' !in x && '-' !in y by {
      assert forall i :: 0 <= i < |x| ==> IsDigit(x[i]);
      assert forall i :: 0 <= i < |y| ==> IsDigit(y[i]);
    }
    assert Join([x, y], '-') == x + "-" + y by {
      assert Join([x, y], '-') == x + ['-'] + Join([y], '-');
    }
    SplitJoin([x, y], '-');
    ToIOfDecimal(a);
    ToIOfDecimal(b);
  }

  /** A port that is not a range contributes exactly its own conversion. */
  lemma ExpandSinglePort(cname: string, p: Port, hash: string -> string)
    requires '-' !in PortText(p.external)
    ensures ExpandPort(cname, p, hash) == if ConvertPort(cname, p, hash).Ok? then Ok([ConvertPort(cname, p, hash).value])
                                         else Err(ConvertPort(cname, p, hash).error)
  {
  }

  /** Every port a declaration contributes forwards a number not above the bound. */
  lemma ExpandPortBounded(cname: string, p: Port, hash: string -> string)
    requires ExpandPort(cname, p, hash).Ok?
    ensures forall sp :: sp in ExpandPort(cname, p, hash).value ==> sp.sourcePort <= ExternalPortUpperBound
  {
    var spec := Classify(p).value;
    if spec.Range? {
      ExpandRangeSpec(cname, p, spec.first, spec.last, hash);
    }
  }

  /** Every emitted port forwards a number not above the bound. */
  lemma ExpandAllBounded(cname: string, ports: seq<Port>, hash: string -> string)
    requires ExpandAll(cname, ports, hash).Ok?
    ensures forall sp :: sp in ExpandAll(cname, ports, hash).value ==> sp.sourcePort <= ExternalPortUpperBound
  {
    var cs := Contributions(cname, ports, hash);
    forall i | 0 <= i < |cs| && cs[i].Ok?
      ensures forall sp :: sp in cs[i].value ==> sp.sourcePort <= ExternalPortUpperBound
    {
      ExpandPortBounded(cname, ports[i], hash);
    }
    FlattenAll(cs, (sp: ServicePort) => sp.sourcePort <= ExternalPortUpperBound);
  }

  /** The ports of consecutive declarations follow each other: expansion keeps declaration
      order. */
  lemma ExpandAllAppend(cname: string, a: seq<Port>, b: seq<Port>, hash: string -> string)
    requires ExpandAll(cname, a, hash).Ok? && ExpandAll(cname, b, hash).Ok?
    ensures ExpandAll(cname, a + b, hash) == Ok(ExpandAll(cname, a, hash).value + ExpandAll(cname, b, hash).value)
  {
    ContributionsAppend(cname, a, b, hash);
    FlattenAppend(Contributions(cname, a, hash), Contributions(cname, b, hash));
  }

  lemma ContributionsAppend(cname: string, a: seq<Port>, b: seq<Port>, hash: string -> string)
    ensures Contributions(cname, a + b, hash) == Contributions(cname, a, hash) + Contributions(cname, b, hash)
  {
  }

  /** Expansion succeeds exactly when every declaration's contribution does. */
  lemma ExpandAllOk(cname: string, ports: seq<Port>, hash: string -> string)
    ensures ExpandAll(cname, ports, hash).Ok? <==> forall i :: 0 <= i < |ports| ==> ExpandPort(cname, ports[i], hash).Ok?
  {
    FlattenOk(Contributions(cname, ports, hash));
  }

  /** After `add_ports` a component forwards at most ten ports, each within the bound; more
      ports than that is an error that reports the count. */
  lemma ServicePortsBounded(cname: string, ports: seq<Port>, hash: string -> string)
    ensures ServicePorts(cname, ports, hash).Ok? ==>
              var r := ServicePorts(cname, ports, hash).value;
              |r| <= MaxExternalPortCount && forall i :: 0 <= i < |r| ==> r[i].sourcePort <= ExternalPortUpperBound
    ensures ExpandAll(cname, ports, hash).Ok? && |ExpandAll(cname, ports, hash).value| > MaxExternalPortCount ==>
              ServicePorts(cname, ports, hash) == Err(TooManyPorts(|ExpandAll(cname, ports, hash).value|, cname))
  {
    if ExpandAll(cname, ports, hash).Ok? {
      ExpandAllBounded(cname, ports, hash);
      var r := ExpandAll(cname, ports, hash).value;
      assert forall i :: 0 <= i < |r| ==> r[i] in r;
    }
  }

  // ---------------------------------------------------------------- the loop

  lemma {:induction false} ExpandRangeErrorPersists(cname: string, p: Port, first: nat, last: int, later: int, hash: string -> string)
    requires last <= later
    requires ExpandRange(cname, p, first, last, hash).Err?
    ensures ExpandRange(cname, p, first, later, hash) == ExpandRange(cname, p, first, last, hash)
    decreases later - last
  {
    if later > last {
      ExpandRangeErrorPersists(cname, p, first, last, later - 1, hash);
    }
  }

  /** The body of `add_ports`' loop for one port: a single conversion, or the conversions of
      a range's numbers, one after the other. */
  method ExpandOne(cname: string, port: Port, hash: string -> string) returns (c: Result<seq<ServicePort>>)
    ensures c == ExpandPort(cname, port, hash)
  {
    var spec := Classify(port);
    if spec.Err? {
      return Err(spec.error);
    }
    match spec.value
    case Single(_) =>
      var converted := ConvertPort(cname, port, hash);
      c := if converted.Ok? then Ok([converted.value]) else Err(converted.error);
    case Range(first, last) =>
      var added: seq<ServicePort> := [];
      var k := first;
      while k <= last
        invariant first <= k && (k <= last + 1 || k == first)
        invariant ExpandRange(cname, port, first, k - 1, hash) == Ok(added)
        decreases last - k
      {
        var converted := ConvertPort(cname, NumberedPort(port, k), hash);
        if converted.Err? {
          ExpandRangeErrorPersists(cname, port, first, k, last, hash);
          return Err(converted.error);
        }
        added := added + [converted.value];
        k := k + 1;
      }
      if last < first {
        assert added == [];
      } else {
        assert k - 1 == last;
      }
      c := Ok(added);
  }

  /** The loop of `add_ports`: pushes the contribution of every port in turn, stopping at
      the first port that cannot be expanded. */
  method ExpandPorts(cname: string, ports: seq<Port>, hash: string -> string) returns (r: Result<seq<ServicePort>>)
    ensures r == ExpandAll(cname, ports, hash)
  {
    ghost var cs := Contributions(cname, ports, hash);
    var cports: seq<ServicePort> := [];
    for i := 0 to |ports|
      invariant Flatten(cs[..i]) == Ok(cports)
    {
      var contribution := ExpandOne(cname, ports[i], hash);
      assert contribution == cs[i];
      if contribution.Err? {
        FlattenStopsAt(cs, i);
        return Err(contribution.error);
      }
      FlattenPrefixStep(cs, i, cports);
      cports := cports + contribution.value;
    }
    assert cs[..|ports|] == cs;
    r := Ok(cports);
  }

  /** `add_ports`: every port's contribution, then the check on their count. */
  method AddPorts(cname: string, ports: seq<Port>, hash: string -> string) returns (r: Result<seq<ServicePort>>)
    ensures r == ServicePorts(cname, ports, hash)
    ensures r.Ok? ==> |r.value| <= MaxExternalPortCount
    ensures r.Ok? ==> forall i :: 0 <= i < |r.value| ==> r.value[i].sourcePort <= ExternalPortUpperBound
  {
    ServicePortsBounded(cname, ports, hash);
    var cports :- ExpandPorts(cname, ports, hash);
    if |cports| > MaxExternalPortCount {
      return Err(TooManyPorts(|cports|, cname));
    }
    r := Ok(cports);
  }
}
