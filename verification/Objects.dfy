/** The PDInferenceService object that a reconcile or a request holds in memory and
    updates in place, with the finalizer helpers of controller-runtime that the
    controller calls on it.
 */
module Objects {
  import opened Types

  /** The finalizers other than pd-manager's own, in order. */
  function Foreign(fs: seq<string>): (r: seq<string>)
    ensures FINALIZER !in r
    ensures forall f :: f in r <==> f in fs && f != FINALIZER
    ensures FINALIZER !in fs ==> r == fs
  {
    if fs == [] then []
    else
      var last := fs[|fs| - 1];
      assert fs == fs[..|fs| - 1] + [last];
      Foreign(fs[..|fs| - 1]) + (if last == FINALIZER then [] else [last])
  }

  lemma ForeignOne(f: string)
    ensures Foreign([f]) == if f == FINALIZER then [] else [f]
  {
    assert [f][..0] == [];
  }

  lemma ForeignAppend(fs: seq<string>, f: string)
    ensures Foreign(fs + [f]) == Foreign(fs) + Foreign([f])
  {
    ForeignOne(f);
    assert (fs + [f])[..|fs|] == fs;
  }

  lemma CutLast(a: seq<string>, b: seq<string>)
    requires b != []
    ensures b == b[..|b| - 1] + [b[|b| - 1]]
    ensures a + b == a + b[..|b| - 1] + [b[|b| - 1]]
  {
  }

  lemma Regroup(x: seq<string>, y: seq<string>, z: seq<string>)
    ensures x + y + z == x + (y + z)
  {
  }

  /** It is the filter that drops our finalizer and keeps the rest in order: entry by
      entry it keeps or drops, and lists are taken in their parts. */
  lemma {:induction false} ForeignDistributes(a: seq<string>, b: seq<string>)
    ensures Foreign(a + b) == Foreign(a) + Foreign(b)
  {
    if b == [] {
      assert a + b == a;
    } else {
      var init, last := b[..|b| - 1], b[|b| - 1];
      CutLast(a, b);
      calc {
        Foreign(a + b);
        { ForeignAppend(a + init, last); }
        Foreign(a + init) + Foreign([last]);
        { ForeignDistributes(a, init); }
        Foreign(a) + Foreign(init) + Foreign([last]);
        { Regroup(Foreign(a), Foreign(init), Foreign([last])); }
        Foreign(a) + (Foreign(init) + Foreign([last]));
        { ForeignAppend(init, last); }
        Foreign(a) + Foreign(b);
      }
    }
  }

  lemma ForeignGrows(fs: seq<string>, i: nat)
    requires i < |fs|
    ensures Foreign(fs[..i + 1]) == Foreign(fs[..i]) + (if fs[i] == FINALIZER then [] else [fs[i]])
  {
    assert fs[..i + 1][..i] == fs[..i];
  }

  /** An entry moved to the front part extends it and leaves the rest alone. */
  lemma EntryMoves(f: seq<string>, index: nat, i: nat)
    requires index <= i < |f|
    ensures f[index := f[i]][..index + 1] == f[..index] + [f[i]] && f[index := f[i]][i + 1..] == f[i + 1..]
  {
  }

  class ServiceObject {
    const key: Key
    var uid: nat
    var rv: nat
    var created: int
    var deleting: bool
    var finalizers: seq<string>
    var spec: ServiceSpec
    var phase: Phase
    var conditions: seq<Condition>
    var roleStatuses: seq<RoleStatus>
    var lastEvent: Option<EventRecord>

    function Status(): ServiceStatus
      reads this
    {
      ServiceStatus(phase, conditions, roleStatuses, lastEvent)
    }

    function Value(): Service
      reads this
    {
      Service(uid, rv, created, deleting, finalizers, spec, Status())
    }

    constructor (key: Key, s: Service)
      ensures this.key == key && Value() == s
    {
      this.key := key;
      uid, rv, created, deleting := s.uid, s.rv, s.created, s.deleting;
      finalizers, spec := s.finalizers, s.spec;
      phase, conditions := s.status.phase, s.status.conditions;
      roleStatuses, lastEvent := s.status.roleStatuses, s.status.lastEvent;
    }

    /** The client decodes the server's answer into the object it was given. */
    method Load(s: Service)
      modifies this
      ensures Value() == s
    {
      uid, rv, created, deleting := s.uid, s.rv, s.created, s.deleting;
      finalizers, spec := s.finalizers, s.spec;
      phase, conditions := s.status.phase, s.status.conditions;
      roleStatuses, lastEvent := s.status.roleStatuses, s.status.lastEvent;
    }

    method AddFinalizer()
      modifies this`finalizers
      ensures finalizers == if FINALIZER in old(finalizers) then old(finalizers) else old(finalizers) + [FINALIZER]
    {
      for i := 0 to |finalizers|
        invariant FINALIZER !in finalizers[..i]
      {
        if finalizers[i] == FINALIZER {
          return;
        }
      }
      finalizers := finalizers + [FINALIZER];
    }

    /** Compacts the list in place: every kept entry moves to the front, then the
        list is cut to the number of kept entries. */
    method RemoveFinalizer()
      modifies this`finalizers
      ensures finalizers == Foreign(old(finalizers))
    {
      ghost var was := finalizers;
      var f := finalizers;
      var index := 0;
      for i := 0 to |f|
        invariant 0 <= index <= i
        invariant |f| == |was| && f[i..] == was[i..]
        invariant f[..index] == Foreign(was[..i])
      {
        assert f[i] == f[i..][0] == was[i];
        assert f[i + 1..] == f[i..][1..] == was[i + 1..];
        ForeignGrows(was, i);
        if f[i] != FINALIZER {
          EntryMoves(f, index, i);
          f := f[index := f[i]];
          index := index + 1;
        }
      }
      assert was[..|was|] == was;
      finalizers := f[..index];
    }
  }
}
