/** The in-memory case registry: method name -> case name -> case. */
module CaseManager {
  import opened Types

  type Table = map<string, map<string, Case>>

  /** Every case sits under its own method and name. */
  ghost predicate Keyed(t: Table)
  {
    forall m, n :: m in t && n in t[m] ==> t[m][n].methodName == m && t[m][n].name == n
  }

  predicate Stored(t: Table, methodName: string, name: string)
  {
    methodName in t && name in t[methodName]
  }

  /** What CaseGet answers: the stored case, or the zero Case. */
  function Lookup(t: Table, methodName: string, name: string): (c: Case)
    ensures Stored(t, methodName, name) ==> c == t[methodName][name]
    ensures !Stored(t, methodName, name) ==> c == ZeroCase
  {
    if Stored(t, methodName, name) then t[methodName][name] else ZeroCase
  }

  /** The table after CaseAdd(c). */
  function Added(t: Table, c: Case): (r: Table)
    ensures Lookup(r, c.methodName, c.name) == c
    ensures forall m, n :: (m, n) != (c.methodName, c.name) ==> Lookup(r, m, n) == Lookup(t, m, n)
    ensures Keyed(t) ==> Keyed(r)
  {
    var inner := if c.methodName in t then t[c.methodName] else map[];
    t[c.methodName := inner[c.name := c]]
  }

  /** The table after CaseDel(method, name). */
  function Deleted(t: Table, methodName: string, name: string): (r: Table)
    ensures Lookup(r, methodName, name) == ZeroCase
    ensures forall m, n :: (m, n) != (methodName, name) ==> Lookup(r, m, n) == Lookup(t, m, n)
    ensures !Stored(t, methodName, name) ==> r == t
    ensures Keyed(t) ==> Keyed(r)
  {
    if Stored(t, methodName, name) then t[methodName := t[methodName] - {name}] else t
  }

  /** `names` holds every name of `inner` exactly once. */
  ghost predicate Enumerates(inner: map<string, Case>, names: seq<string>)
  {
    |names| == |inner| &&
    (forall i :: 0 <= i < |names| ==> names[i] in inner) &&
    (forall n :: n in inner ==> n in names) &&
    (forall i, j :: 0 <= i < j < |names| ==> names[i] != names[j])
  }

  /** `cases` lists the cases stored under `method`, one per name, in some order of the names. */
  ghost predicate IsListing(t: Table, methodName: string, cases: seq<Case>)
  {
    if methodName !in t then cases == []
    else
      exists names: seq<string> :: Enumerates(t[methodName], names) && |cases| == |names| &&
        forall i :: 0 <= i < |names| ==> cases[i] == t[methodName][names[i]]
  }

  /**
   * Cases are keyed by method and name only: a case of another tested app
   * with the same method and name replaces the first one everywhere.
   */
  lemma SameNameOtherAppReplaces(t: Table, c1: Case, c2: Case)
    requires Keyed(t)
    requires c1.methodName == c2.methodName && c1.name == c2.name && c1 != c2
    ensures var r := Added(Added(t, c1), c2);
      Lookup(r, c1.methodName, c1.name) == c2 &&
      forall n :: n in r[c1.methodName] ==> r[c1.methodName][n] != c1
  {
  }

  class Manager {
    var cases: Table

    ghost predicate Valid()
      reads this
    {
      Keyed(cases)
    }

    constructor ()
      ensures Valid() && cases == map[]
    {
      cases := map[];
    }

    /** CaseAdd: stores `c` under its method and name; the Go error is always nil. */
    method CaseAdd(c: Case)
      requires Valid()
      modifies this
      ensures Valid()
      ensures cases == Added(old(cases), c)
    {
      if c.methodName !in cases {
        cases := cases[c.methodName := map[]];
      }
      cases := cases[c.methodName := cases[c.methodName][c.name := c]];
    }

    /** CaseDel: removes the entry if there is one; the Go error is always nil. */
    method CaseDel(methodName: string, name: string)
      requires Valid()
      modifies this
      ensures Valid()
      ensures cases == Deleted(old(cases), methodName, name)
    {
      if methodName !in cases {
        return;
      }
      if name !in cases[methodName] {
        return;
      }
      cases := cases[methodName := cases[methodName] - {name}];
    }

    /** CaseGet: the stored case, or the zero Case with a nil error. */
    method CaseGet(methodName: string, name: string) returns (c: Case)
      ensures c == Lookup(cases, methodName, name)
    {
      if methodName !in cases {
        return ZeroCase;
      }
      if name !in cases[methodName] {
        return ZeroCase;
      }
      c := cases[methodName][name];
    }

    /** CaseList: every case stored under `method`, in map iteration order. */
    method CaseList(methodName: string) returns (list: seq<Case>)
      ensures IsListing(cases, methodName, list)
    {
      if methodName !in cases {
        return [];
      }
      var inner := cases[methodName];
      var left := inner.Keys;
      list := [];
      ghost var names: seq<string> := [];
      while left != {}
        invariant left <= inner.Keys
        invariant |list| == |names| && |names| + |left| == |inner|
        invariant forall i :: 0 <= i < |names| ==> names[i] in inner && names[i] !in left && list[i] == inner[names[i]]
        invariant forall n :: n in inner && n !in left ==> n in names
        invariant forall i, j :: 0 <= i < j < |names| ==> names[i] != names[j]
      {
        var n :| n in left;
        list := list + [inner[n]];
        names := names + [n];
        left := left - {n};
      }
      assert Enumerates(inner, names);
    }
  }
}
