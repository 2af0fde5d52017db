/** Volumes: the reconciliation of shared volumes across roles (`collect_shared_filesystems`,
    `add_shared_fs`, `abort_on_mismatch`) and the volume and mount entries the definition
    receives (`add_filesystem`, `convert_volume`, `a_volume_spec`). */
module Volumes {
  import opened Results
  import Seqs
  import opened Manifest

  const DefaultFilesystem := "ext4"

  /** An entry of the definition's `volumes`. */
  datatype Filesystem = Filesystem(name: string, sizeGb: int, filesystem: string, shared: bool)

  /** An entry of a component's `volume_mounts`. */
  datatype Mount = Mount(volumeName: string, mountpoint: string)

  /** The `shared` hash: tag -> size, in insertion order. */
  type SharedTable = seq<(string, int)>

  function SharedOf(role: Role): seq<Volume> {
    if role.run.Some? && role.run.value.sharedVolumes.Some? then role.run.value.sharedVolumes.value else []
  }

  /** Every shared-volume declaration, role by role, in manifest order. */
  function SharedDecls(roles: seq<Role>): seq<Volume> {
    if roles == [] then [] else SharedDecls(roles[..|roles| - 1]) + SharedOf(roles[|roles| - 1])
  }

  /** `shared[tag]`. */
  function Find(t: SharedTable, tag: string): Option<int> {
    if t == [] then None else if t[0].0 == tag then Some(t[0].1) else Find(t[1..], tag)
  }

  /** `add_shared_fs`: a tag seen before must come with the size it was first given. */
  function AddSharedFs(t: SharedTable, v: Volume): Result<SharedTable> {
    match Find(t, v.tag)
    case Some(size) =>
      if v.size != size then Err(SharedVolumeSizeMismatch(v.tag, v.size, size)) else Ok(t)
    case None => Ok(t + [(v.tag, v.size)])
  }

  /** The table `collect_shared_filesystems` returns for these declarations, processed in order. */
  function Reconcile(decls: seq<Volume>): Result<SharedTable> {
    if decls == [] then Ok([])
    else
      var t :- Reconcile(decls[..|decls| - 1]);
      AddSharedFs(t, decls[|decls| - 1])
  }

  // ---------------------------------------------------------------- reference definitions

  /** Two declarations of one tag that disagree on the size. */
  predicate HasConflict(decls: seq<Volume>) {
    exists i, j :: 0 <= i < j < |decls| && decls[i].tag == decls[j].tag && decls[i].size != decls[j].size
  }

  /** Declaration i is the first one of its tag. */
  predicate IsFirst(decls: seq<Volume>, i: int)
    requires 0 <= i < |decls|
  {
    forall j :: 0 <= j < i ==> decls[j].tag != decls[i].tag
  }

  /** The first declaration of every tag, in the order the tags first appear. */
  function FirstOccurrences(decls: seq<Volume>): seq<(string, int)> {
    if decls == [] then []
    else
      var x := decls[|decls| - 1];
      FirstOccurrences(decls[..|decls| - 1]) + if IsFirst(decls, |decls| - 1) then [(x.tag, x.size)] else []
  }

  /** The table answers, for every declared tag, that declaration's size, and knows no
      other tag. */
  ghost predicate Summarises(t: SharedTable, decls: seq<Volume>) {
    && (forall i :: 0 <= i < |decls| ==> Find(t, decls[i].tag) == Some(decls[i].size))
    && (forall tag :: Find(t, tag).Some? ==> exists i :: 0 <= i < |decls| && decls[i].tag == tag)
  }

  lemma {:induction false} FindAppend(t: SharedTable, e: (string, int), tag: string)
    ensures Find(t + [e], tag) == if Find(t, tag).Some? then Find(t, tag) else if e.0 == tag then Some(e.1) else None
    decreases |t|
  {
    if t == [] {
      assert t + [e] == [e];
    } else {
      assert (t + [e])[1..] == t[1..] + [e];
      FindAppend(t[1..], e, tag);
    }
  }

  /** Appending a declaration that agrees with every earlier one of its tag keeps the
      declarations conflict-free. */
  lemma NoConflictExtend(d: seq<Volume>, x: Volume)
    requires !HasConflict(d)
    requires forall i :: 0 <= i < |d| && d[i].tag == x.tag ==> d[i].size == x.size
    ensures !HasConflict(d + [x])
  {
    var e := d + [x];
    forall i, j | 0 <= i < j < |e| && e[i].tag == e[j].tag ensures e[i].size == e[j].size {
      if j < |d| {
        assert e[i] == d[i] && e[j] == d[j];
      } else {
        assert e[i] == d[i];
      }
    }
  }

  lemma ConflictExtend(d: seq<Volume>, x: Volume)
    requires HasConflict(d) || exists i :: 0 <= i < |d| && d[i].tag == x.tag && d[i].size != x.size
    ensures HasConflict(d + [x])
  {
    var e := d + [x];
    if HasConflict(d) {
      var i, j :| 0 <= i < j < |d| && d[i].tag == d[j].tag && d[i].size != d[j].size;
      assert e[i] == d[i] && e[j] == d[j];
    } else {
      var i :| 0 <= i < |d| && d[i].tag == x.tag && d[i].size != x.size;
      assert e[i] == d[i] && e[|d|] == x;
    }
  }

  /** A declaration the table already answers correctly changes nothing. */
  lemma SummarisesKeep(t: SharedTable, d: seq<Volume>, x: Volume)
    requires Summarises(t, d) && Find(t, x.tag) == Some(x.size)
    ensures Summarises(t, d + [x])
  {
    var e := d + [x];
    forall i | 0 <= i < |e| ensures Find(t, e[i].tag) == Some(e[i].size) {
      if i < |d| {
        assert e[i] == d[i];
      }
    }
    forall tag | Find(t, tag).Some? ensures exists i :: 0 <= i < |e| && e[i].tag == tag {
      var i :| 0 <= i < |d| && d[i].tag == tag;
      assert e[i] == d[i];
    }
  }

  /** A declaration of a new tag is answered by the row appended for it. */
  lemma SummarisesAdd(t: SharedTable, d: seq<Volume>, x: Volume)
    requires Summarises(t, d) && Find(t, x.tag) == None
    ensures Summarises(t + [(x.tag, x.size)], d + [x])
  {
    var e, t' := d + [x], t + [(x.tag, x.size)];
    forall tag ensures Find(t', tag) == if Find(t, tag).Some? then Find(t, tag) else if x.tag == tag then Some(x.size) else None {
      FindAppend(t, (x.tag, x.size), tag);
    }
    forall i | 0 <= i < |e| ensures Find(t', e[i].tag) == Some(e[i].size) {
      if i < |d| {
        assert e[i] == d[i];
      }
    }
    forall tag | Find(t', tag).Some? ensures exists i :: 0 <= i < |e| && e[i].tag == tag {
      if Find(t, tag).Some? {
        var i :| 0 <= i < |d| && d[i].tag == tag;
        assert e[i] == d[i];
      } else {
        assert e[|d|].tag == tag;
      }
    }
  }

  /** Reconciliation succeeds exactly when no tag is declared with two sizes; the table it
      builds then holds the first declaration of each tag, in first-seen order. */
  lemma {:induction false} ReconcileSpec(decls: seq<Volume>)
    ensures Reconcile(decls).Ok? <==> !HasConflict(decls)
    ensures Reconcile(decls).Ok? ==>
              Reconcile(decls).value == FirstOccurrences(decls) && Summarises(Reconcile(decls).value, decls)
    decreases |decls|
  {
    if decls != [] {
      var d, x := decls[..|decls| - 1], decls[|decls| - 1];
      assert decls == d + [x];
      ReconcileSpec(d);
      if Reconcile(d).Err? {
        ConflictExtend(d, x);
      } else {
        var t := Reconcile(d).value;
        match Find(t, x.tag)
        case Some(size) =>
          var i :| 0 <= i < |d| && d[i].tag == x.tag;
          assert decls[i] == d[i];
          assert !IsFirst(decls, |decls| - 1);
          if x.size != size {
            ConflictExtend(d, x);
          } else {
            NoConflictExtend(d, x);
            SummarisesKeep(t, d, x);
          }
        case None =>
          assert IsFirst(decls, |decls| - 1) by {
            forall j | 0 <= j < |d| ensures decls[j].tag != x.tag {
              assert decls[j] == d[j];
            }
          }
          NoConflictExtend(d, x);
          SummarisesAdd(t, d, x);
      }
    }
  }

  /** The only way reconciliation fails is a size mismatch. */
  lemma {:induction false} ReconcileFailure(decls: seq<Volume>)
    requires Reconcile(decls).Err?
    ensures Reconcile(decls).error.SharedVolumeSizeMismatch?
    decreases |decls|
  {
    if Reconcile(decls[..|decls| - 1]).Err? {
      ReconcileFailure(decls[..|decls| - 1]);
    }
  }

  lemma IsFirstExtend(d: seq<Volume>, x: Volume, i: int)
    requires 0 <= i < |d| && IsFirst(d, i)
    ensures IsFirst(d + [x], i)
  {
    forall j | 0 <= j < i ensures (d + [x])[j].tag != (d + [x])[i].tag {
      assert (d + [x])[j] == d[j] && (d + [x])[i] == d[i];
    }
  }

  lemma FirstOccurrencesStep(d: seq<Volume>, x: Volume)
    ensures FirstOccurrences(d + [x]) == FirstOccurrences(d) + if IsFirst(d + [x], |d|) then [(x.tag, x.size)] else []
  {
    assert (d + [x])[..|d|] == d;
  }

  /** The declaration a row of the first-occurrence list comes from. */
  lemma {:induction false} FirstOccurrenceSource(decls: seq<Volume>, k: nat) returns (i: nat)
    requires k < |FirstOccurrences(decls)|
    ensures i < |decls| && IsFirst(decls, i) && FirstOccurrences(decls)[k] == (decls[i].tag, decls[i].size)
    decreases |decls|
  {
    var d, x := decls[..|decls| - 1], decls[|decls| - 1];
    assert decls == d + [x];
    FirstOccurrencesStep(d, x);
    if k < |FirstOccurrences(d)| {
      i := FirstOccurrenceSource(d, k);
      IsFirstExtend(d, x, i);
      assert decls[i] == d[i];
    } else {
      i := |d|;
    }
  }

  /** `row` is the tag and size of some tag's first declaration. */
  predicate FromFirst(decls: seq<Volume>, row: (string, int)) {
    exists i :: 0 <= i < |decls| && IsFirst(decls, i) && row == (decls[i].tag, decls[i].size)
  }

  /** Every row of the first-occurrence list is some tag's first declaration. */
  lemma FirstOccurrencesAreFirst(decls: seq<Volume>)
    ensures forall k :: 0 <= k < |FirstOccurrences(decls)| ==> FromFirst(decls, FirstOccurrences(decls)[k])
  {
    forall k | 0 <= k < |FirstOccurrences(decls)|
      ensures FromFirst(decls, FirstOccurrences(decls)[k])
    {
      var i := FirstOccurrenceSource(decls, k);
    }
  }

  /** Every declared tag has a row. */
  lemma {:induction false} FirstOccurrencesCover(decls: seq<Volume>)
    ensures forall i :: 0 <= i < |decls| ==> exists k :: 0 <= k < |FirstOccurrences(decls)| && FirstOccurrences(decls)[k].0 == decls[i].tag
    decreases |decls|
  {
    if decls != [] {
      var d, x := decls[..|decls| - 1], decls[|decls| - 1];
      assert decls == d + [x];
      FirstOccurrencesCover(d);
      FirstOccurrencesStep(d, x);
      var fo, fo' := FirstOccurrences(d), FirstOccurrences(decls);
      forall i | 0 <= i < |decls| ensures exists k :: 0 <= k < |fo'| && fo'[k].0 == decls[i].tag {
        if i < |d| {
          var k :| 0 <= k < |fo| && fo[k].0 == d[i].tag;
          assert fo'[k] == fo[k] && decls[i] == d[i];
        } else if IsFirst(decls, i) {
          assert fo'[|fo|].0 == decls[i].tag;
        } else {
          var j :| 0 <= j < i && decls[j].tag == decls[i].tag;
          var k :| 0 <= k < |fo| && fo[k].0 == d[j].tag;
          assert fo'[k] == fo[k] && decls[j] == d[j];
        }
      }
    }
  }

  /** No tag has two rows. */
  lemma {:induction false} FirstOccurrencesDistinct(decls: seq<Volume>)
    ensures forall k, l :: 0 <= k < l < |FirstOccurrences(decls)| ==> FirstOccurrences(decls)[k].0 != FirstOccurrences(decls)[l].0
    decreases |decls|
  {
    if decls != [] {
      var d, x := decls[..|decls| - 1], decls[|decls| - 1];
      assert decls == d + [x];
      FirstOccurrencesDistinct(d);
      FirstOccurrencesAreFirst(d);
      FirstOccurrencesStep(d, x);
      var fo, fo' := FirstOccurrences(d), FirstOccurrences(decls);
      forall k, l | 0 <= k < l < |fo'| ensures fo'[k].0 != fo'[l].0 {
        if l >= |fo| {
          var i :| 0 <= i < |d| && IsFirst(d, i) && fo[k] == (d[i].tag, d[i].size);
          assert decls[i] == d[i] && fo'[k] == fo[k];
          assert fo'[l].0 == x.tag;
        } else {
          assert fo'[k] == fo[k] && fo'[l] == fo[l];
        }
      }
    }
  }

  // ---------------------------------------------------------------- emitted entries

  /** `save_shared_filesystems`: one shared entry per table row. */
  function SharedEntries(t: SharedTable): (r: seq<Filesystem>)
    ensures |r| == |t|
    ensures forall k :: 0 <= k < |t| ==> r[k] == Filesystem(t[k].0, t[k].1, DefaultFilesystem, true)
  {
    seq(|t|, k requires 0 <= k < |t| => Filesystem(t[k].0, t[k].1, DefaultFilesystem, true))
  }

  /** The private entries `convert_volume` adds for persistent volumes. */
  function PrivateEntries(vols: seq<Volume>): (r: seq<Filesystem>)
    ensures |r| == |vols|
    ensures forall k :: 0 <= k < |vols| ==> r[k] == Filesystem(vols[k].tag, vols[k].size, DefaultFilesystem, false)
  {
    seq(|vols|, k requires 0 <= k < |vols| => Filesystem(vols[k].tag, vols[k].size, DefaultFilesystem, false))
  }

  /** `a_volume_spec` for every volume. */
  function Mounts(vols: seq<Volume>): (r: seq<Mount>)
    ensures |r| == |vols|
    ensures forall k :: 0 <= k < |vols| ==> r[k] == Mount(vols[k].tag, vols[k].path)
  {
    seq(|vols|, k requires 0 <= k < |vols| => Mount(vols[k].tag, vols[k].path))
  }

  /** Mounting two lists of volumes mounts the first list, then the second. */
  lemma MountsAppend(a: seq<Volume>, b: seq<Volume>)
    ensures Mounts(a + b) == Mounts(a) + Mounts(b)
  {
    assert forall k :: 0 <= k < |a| + |b| ==> (a + b)[k] == if k < |a| then a[k] else b[k - |a|];
  }

  /** A reconciled table holds exactly one row per declared tag, each row being that tag's
      first declaration. */
  lemma ReconciledTable(decls: seq<Volume>, t: SharedTable)
    requires Reconcile(decls) == Ok(t)
    ensures forall k, l :: 0 <= k < l < |t| ==> t[k].0 != t[l].0
    ensures forall i :: 0 <= i < |decls| ==> exists k :: 0 <= k < |t| && t[k].0 == decls[i].tag
    ensures forall k :: 0 <= k < |t| ==>
              exists i :: 0 <= i < |decls| && IsFirst(decls, i) && t[k] == (decls[i].tag, decls[i].size)
  {
    ReconcileSpec(decls);
    FirstOccurrencesAreFirst(decls);
    FirstOccurrencesCover(decls);
    FirstOccurrencesDistinct(decls);
  }

  lemma {:induction false} ReconcileErrorPersists(decls: seq<Volume>, more: seq<Volume>)
    requires Reconcile(decls).Err?
    ensures Reconcile(decls + more) == Reconcile(decls)
    decreases |more|
  {
    if more == [] {
      assert decls + more == decls;
    } else {
      var init := more[..|more| - 1];
      assert (decls + more)[..|decls + more| - 1] == decls + init;
      ReconcileErrorPersists(decls, init);
    }
  }

  lemma {:induction false} SharedDeclsAppend(a: seq<Role>, b: seq<Role>)
    ensures SharedDecls(a + b) == SharedDecls(a) + SharedDecls(b)
    decreases |b|
  {
    if b == [] {
      assert a + b == a;
    } else {
      var init := b[..|b| - 1];
      Seqs.DropLast(a, b);
      SharedDeclsAppend(a, init);
    }
  }

  /** The declarations split around any one role. */
  lemma SharedDeclsSplit(roles: seq<Role>, i: nat)
    requires i < |roles|
    ensures SharedDecls(roles) == SharedDecls(roles[..i]) + SharedOf(roles[i]) + SharedDecls(roles[i + 1..])
  {
    Seqs.SplitAt(roles, i + 1);
    SharedDeclsAppend(roles[..i + 1], roles[i + 1..]);
    SharedDeclsStep(roles, i);
  }

  lemma PrefixFails(before: seq<Volume>, vols: seq<Volume>, rest: seq<Volume>, j: nat)
    requires j < |vols|
    requires Reconcile(before + vols[..j + 1]).Err?
    ensures Reconcile(before + vols + rest) == Reconcile(before + vols[..j + 1])
  {
    var head, tail := before + vols[..j + 1], vols[j + 1..] + rest;
    assert vols == vols[..j + 1] + vols[j + 1..];
    assert before + vols + rest == head + tail;
    ReconcileErrorPersists(head, tail);
  }

  lemma CollectAborts(roles: seq<Role>, i: nat, j: nat)
    requires i < |roles| && j < |SharedOf(roles[i])|
    requires Reconcile(SharedDecls(roles[..i]) + SharedOf(roles[i])[..j + 1]).Err?
    ensures Reconcile(SharedDecls(roles)) == Reconcile(SharedDecls(roles[..i]) + SharedOf(roles[i])[..j + 1])
  {
    SharedDeclsSplit(roles, i);
    PrefixFails(SharedDecls(roles[..i]), SharedOf(roles[i]), SharedDecls(roles[i + 1..]), j);
  }

  lemma ReconcileStep(before: seq<Volume>, vols: seq<Volume>, j: nat, shared: SharedTable)
    requires j < |vols| && Reconcile(before + vols[..j]) == Ok(shared)
    ensures Reconcile(before + vols[..j + 1]) == AddSharedFs(shared, vols[j])
  {
    var done := before + vols[..j + 1];
    assert done[..|done| - 1] == before + vols[..j];
  }

  lemma SharedDeclsStep(roles: seq<Role>, i: nat)
    requires i < |roles|
    ensures SharedDecls(roles[..i + 1]) == SharedDecls(roles[..i]) + SharedOf(roles[i])
  {
    Seqs.PrefixOfPrefix(roles, i, i + 1);
  }

  /** `collect_shared_filesystems`: walks every role's shared volumes, checking each against
      the table and recording it. */
  method CollectSharedFilesystems(roles: seq<Role>) returns (r: Result<SharedTable>)
    ensures r == Reconcile(SharedDecls(roles))
    ensures r.Ok? <==> !HasConflict(SharedDecls(roles))
  {
    var shared: SharedTable := [];
    for i := 0 to |roles|
      invariant Reconcile(SharedDecls(roles[..i])) == Ok(shared)
    {
      var vols := SharedOf(roles[i]);
      assert SharedDecls(roles[..i]) + vols[..0] == SharedDecls(roles[..i]);
      for j := 0 to |vols|
        invariant Reconcile(SharedDecls(roles[..i]) + vols[..j]) == Ok(shared)
      {
        ReconcileStep(SharedDecls(roles[..i]), vols, j, shared);
        var added := AddSharedFs(shared, vols[j]);
        if added.Err? {
          CollectAborts(roles, i, j);
          ReconcileSpec(SharedDecls(roles));
          return added;
        }
        shared := added.value;
      }
      SharedDeclsStep(roles, i);
      assert vols[..|vols|] == vols;
    }
    assert roles[..|roles|] == roles;
    ReconcileSpec(SharedDecls(roles));
    r := Ok(shared);
  }
}
