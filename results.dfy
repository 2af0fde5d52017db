/** Optional values, the failures the transforms raise, and a failure-compatible result. */
module Results {

  datatype Option<+T> = None | Some(value: T) {
    /** The value, or `d` when there is none. */
    function GetOr(d: T): T {
      if Some? then value else d
    }
  }

  /** Every way the transforms abort. The Ruby code raises plain RuntimeErrors (or crashes on a
      nil receiver); each distinct cause is one variant here. */
  datatype Error =
    | SharedVolumeSizeMismatch(tag: string, size: int, previous: int)
    | PortRangeMismatch(port: string)
    | MalformedPortRange(port: string)
    | NonNumericPort(port: string)
    | PortOutOfRange(number: int, component: string)
    | TooManyPorts(count: nat, component: string)
      // `downcase!` answers nil on a string without upper-case letters, and `.gsub!` on nil raises
    | LowercaseSecretName(name: string)
    | MissingRuntime(role: string)
    | MissingExposedPorts(role: string)
    | UnknownFlightStage(role: string, stage: string)
    | MissingComponentParameters(role: string)
    | MissingConfiguration
    | MissingVariables
    | MissingAuthClients
    | MissingTemplates

  datatype Result<+T> = Ok(value: T) | Err(error: Error) {
    predicate IsFailure() {
      Err?
    }

    function PropagateFailure<U>(): Result<U>
      requires Err?
    {
      Err(error)
    }

    function Extract(): T
      requires Ok?
    {
      value
    }
  }

  /** The concatenation of a list of partial results, in order; the first failure wins. */
  function Flatten<T>(rs: seq<Result<seq<T>>>): Result<seq<T>> {
    if rs == [] then Ok([])
    else
      var before :- Flatten(rs[..|rs| - 1]);
      var last :- rs[|rs| - 1];
      Ok(before + last)
  }

  /** The fold unfolded at its last element. */
  lemma FlattenSnoc<T>(rs: seq<Result<seq<T>>>, x: Result<seq<T>>)
    ensures Flatten(rs + [x]) == if Flatten(rs).Err? then Flatten(rs)
                                 else if x.Err? then Err(x.error)
                                 else Ok(Flatten(rs).value + x.value)
  {
    assert (rs + [x])[..|rs|] == rs;
  }

  /** One more part of a flattening that has succeeded so far. */
  lemma FlattenPrefixStep<T>(rs: seq<Result<seq<T>>>, i: nat, acc: seq<T>)
    requires i < |rs| && Flatten(rs[..i]) == Ok(acc)
    ensures Flatten(rs[..i + 1]) == if rs[i].Err? then Err(rs[i].error) else Ok(acc + rs[i].value)
  {
    assert rs[..i + 1] == rs[..i] + [rs[i]];
    FlattenSnoc(rs[..i], rs[i]);
  }

  /** The first failing part is the failure of the whole flattening. */
  lemma FlattenStopsAt<T>(rs: seq<Result<seq<T>>>, i: nat)
    requires i < |rs| && Flatten(rs[..i]).Ok? && rs[i].Err?
    ensures Flatten(rs) == Err(rs[i].error)
  {
    FlattenPrefixStep(rs, i, Flatten(rs[..i]).value);
    assert rs[..i + 1] + rs[i + 1..] == rs;
    FlattenErrorPersists(rs[..i + 1], rs[i + 1..]);
  }

  /** The flattening succeeds exactly when every part does. */
  lemma {:induction false} FlattenOk<T>(rs: seq<Result<seq<T>>>)
    ensures Flatten(rs).Ok? <==> forall i :: 0 <= i < |rs| ==> rs[i].Ok?
    decreases |rs|
  {
    if rs != [] {
      var init := rs[..|rs| - 1];
      FlattenOk(init);
      assert forall i :: 0 <= i < |init| ==> init[i] == rs[i];
    }
  }

  /** Once a failure is reached, later parts do not matter. */
  lemma {:induction false} FlattenErrorPersists<T>(rs: seq<Result<seq<T>>>, more: seq<Result<seq<T>>>)
    requires Flatten(rs).Err?
    ensures Flatten(rs + more) == Flatten(rs)
    decreases |more|
  {
    if more == [] {
      assert rs + more == rs;
    } else {
      var init := more[..|more| - 1];
      assert rs + more == (rs + init) + [more[|more| - 1]];
      FlattenSnoc(rs + init, more[|more| - 1]);
      FlattenErrorPersists(rs, init);
    }
  }

  /** Flattening is a homomorphism: the parts of consecutive lists follow each other. */
  lemma {:induction false} FlattenAppend<T>(a: seq<Result<seq<T>>>, b: seq<Result<seq<T>>>)
    requires Flatten(a).Ok? && Flatten(b).Ok?
    ensures Flatten(a + b) == Ok(Flatten(a).value + Flatten(b).value)
    decreases |b|
  {
    if b == [] {
      assert a + b == a;
      assert Flatten(a).value + [] == Flatten(a).value;
    } else {
      var init, last := b[..|b| - 1], b[|b| - 1];
      assert Flatten(init).Ok? && last.Ok? && Flatten(b).value == Flatten(init).value + last.value by {
        assert b == init + [last];
        FlattenSnoc(init, last);
      }
      FlattenAppend(a, init);
      var x, y, z := Flatten(a).value, Flatten(init).value, last.value;
      assert Flatten(a + b) == Ok((x + y) + z) by {
        assert a + b == (a + init) + [last];
        FlattenSnoc(a + init, last);
      }
      assert (x + y) + z == x + (y + z);
    }
  }

  /** A property every part's elements have, the flattening's elements have. */
  lemma {:induction false} FlattenAll<T>(rs: seq<Result<seq<T>>>, P: T -> bool)
    requires forall i :: 0 <= i < |rs| && rs[i].Ok? ==> forall e :: e in rs[i].value ==> P(e)
    ensures Flatten(rs).Ok? ==> forall e :: e in Flatten(rs).value ==> P(e)
    decreases |rs|
  {
    if rs != [] {
      var init := rs[..|rs| - 1];
      assert forall i :: 0 <= i < |init| ==> init[i] == rs[i];
      FlattenAll(init, P);
      FlattenSnoc(init, rs[|rs| - 1]);
      assert rs == init + [rs[|rs| - 1]];
    }
  }
}
