/** internal/tracker/pod_mapping.go: the two-way index between pod names and UIDs. */
module PodMappings {
  import opened Types

  datatype Index = Index(nameToUID: map<NamespacedName, UID>, uidToName: map<UID, NamespacedName>)

  const EMPTY := Index(map[], map[])

  function Add(x: Index, n: NamespacedName, u: UID): Index {
    Index(x.nameToUID[n := u], x.uidToName[u := n])
  }

  /** Forgets the names, and the UIDs they are bound to. */
  function RemoveNames(x: Index, names: set<NamespacedName>): Index {
    Index(x.nameToUID - names, x.uidToName - set n | n in names && n in x.nameToUID :: x.nameToUID[n])
  }

  lemma AddBinds(x: Index, n: NamespacedName, u: UID)
    ensures var y := Add(x, n, u);
            && (forall m :: Bound(y, m) == if m == n then Some(u) else Bound(x, m))
            && (forall v :: Named(y, v) == if v == u then Some(n) else Named(x, v))
  {
  }

  lemma RemoveNamesUnbinds(x: Index, names: set<NamespacedName>)
    ensures var y := RemoveNames(x, names);
            && (forall m :: Bound(y, m) == if m in names then None else Bound(x, m))
            && (forall v :: Named(y, v) == if exists m :: m in names && Bound(x, m) == Some(v) then None else Named(x, v))
  {
    var y := RemoveNames(x, names);
    forall v ensures Named(y, v) == if exists m :: m in names && Bound(x, m) == Some(v) then None else Named(x, v) {
      if m :| m in names && Bound(x, m) == Some(v) {
        assert v !in y.uidToName;
      }
    }
  }

  function Bound(x: Index, n: NamespacedName): Option<UID> {
    if n in x.nameToUID then Some(x.nameToUID[n]) else None
  }

  function Named(x: Index, u: UID): Option<NamespacedName> {
    if u in x.uidToName then Some(x.uidToName[u]) else None
  }

  function RemoveEach(x: Index, names: seq<NamespacedName>): Index {
    if names == [] then x
    else
      var y, n := RemoveEach(x, names[..|names| - 1]), names[|names| - 1];
      if n in y.nameToUID then Index(y.nameToUID - {n}, y.uidToName - {y.nameToUID[n]}) else y
  }

  function Elements(names: seq<NamespacedName>): set<NamespacedName> {
    set n | n in names
  }

  lemma RemoveOneMore(x: Index, names: set<NamespacedName>, n: NamespacedName)
    ensures var y, z := RemoveNames(x, names), RemoveNames(x, names + {n});
            z == if n in y.nameToUID then Index(y.nameToUID - {n}, y.uidToName - {y.nameToUID[n]}) else y
  {
    var y, z := RemoveNames(x, names), RemoveNames(x, names + {n});
    var gone := set m | m in names && m in x.nameToUID :: x.nameToUID[m];
    var goner := set m | m in names + {n} && m in x.nameToUID :: x.nameToUID[m];
    if n in y.nameToUID {
      assert goner == gone + {x.nameToUID[n]};
      assert y.nameToUID - {n} == z.nameToUID;
    } else {
      assert goner == gone;
      assert y.nameToUID == z.nameToUID;
    }
  }

  /** Removing names one after another is removing them together, whatever the order or repeats. */
  lemma {:induction false} RemoveEachMeaning(x: Index, names: seq<NamespacedName>)
    ensures RemoveEach(x, names) == RemoveNames(x, Elements(names))
  {
    if names == [] {
      assert x.nameToUID - {} == x.nameToUID && x.uidToName - {} == x.uidToName;
    } else {
      var rest, n := names[..|names| - 1], names[|names| - 1];
      RemoveEachMeaning(x, rest);
      RemoveOneMore(x, Elements(rest), n);
      assert names == rest + [n];
      assert Elements(names) == Elements(rest) + {n};
    }
  }

  class PodMapping {
    var nameToUID: map<NamespacedName, UID>
    var uidToName: map<UID, NamespacedName>

    ghost function Value(): Index
      reads this
    {
      Index(nameToUID, uidToName)
    }

    constructor ()
      ensures Value() == EMPTY
    {
      nameToUID, uidToName := map[], map[];
    }

    method AddPod(n: NamespacedName, u: UID)
      modifies this
      ensures Value() == Add(old(Value()), n, u)
    {
      RemovePair(n, u);
      nameToUID := nameToUID[n := u];
      uidToName := uidToName[u := n];
    }

    method RemovePair(n: NamespacedName, u: UID)
      modifies this
      ensures Value() == Index(old(nameToUID) - {n}, old(uidToName) - {u})
    {
      nameToUID := nameToUID - {n};
      uidToName := uidToName - {u};
    }

    method GetUIDByName(n: NamespacedName) returns (u: Option<UID>)
      ensures u == if n in nameToUID then Some(nameToUID[n]) else None
    {
      u := if n in nameToUID then Some(nameToUID[n]) else None;
    }

    method RemovePodsByName(names: seq<NamespacedName>)
      modifies this
      ensures Value() == RemoveNames(old(Value()), Elements(names))
    {
      for k := 0 to |names|
        invariant Value() == RemoveEach(old(Value()), names[..k])
      {
        assert names[..k + 1][..k] == names[..k];
        if names[k] in nameToUID {
          RemovePair(names[k], nameToUID[names[k]]);
        }
      }
      assert names[..|names|] == names;
      RemoveEachMeaning(old(Value()), names);
    }
  }
}
