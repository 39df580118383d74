/** The push path: OTLPExporter and its observable gauges (otlp.go). */
module Push {
  import opened Prelude
  import opened Metrics
  import opened Snapshots

  /** What one pass of EnsureInstruments creates, and whether it got to the end. */
  datatype Pass = Pass(created: seq<string>, ok: bool)

  /** Names are taken in order; known ones are skipped, and the first one the meter refuses ends the pass. */
  function Ensure(names: seq<string>, registered: set<string>, accepted: set<string>): (p: Pass)
    ensures NoDup(p.created) && Elems(p.created) !! registered && Elems(p.created) <= Elems(names) * accepted
    ensures p.ok ==> Elems(names) <= registered + Elems(p.created)
  {
    if names == [] then Pass([], true)
    else
      assert Elems(names) == {names[0]} + Elems(names[1..]);
      if names[0] in registered then Ensure(names[1..], registered, accepted)
      else if names[0] !in accepted then Pass([], false)
      else
        var rest := Ensure(names[1..], registered + {names[0]}, accepted);
        assert Elems([names[0]] + rest.created) == {names[0]} + Elems(rest.created);
        Pass([names[0]] + rest.created, rest.ok)
  }

  /** The pass succeeds exactly when the meter accepts every name that is new. */
  lemma {:induction false} EnsureSucceedsIff(names: seq<string>, registered: set<string>, accepted: set<string>)
    ensures Ensure(names, registered, accepted).ok <==> Elems(names) <= registered + accepted
  {
    if names != [] {
      assert Elems(names) == {names[0]} + Elems(names[1..]);
      EnsureSucceedsIff(names[1..], registered, accepted);
      EnsureSucceedsIff(names[1..], registered + {names[0]}, accepted);
    }
  }

  /** The meter has not refused any new name up to this one. */
  predicate GotTo(names: seq<string>, registered: set<string>, accepted: set<string>, i: int)
  {
    0 <= i < |names| && forall j :: 0 <= j <= i ==> names[j] in registered || names[j] in accepted
  }

  lemma GotToTail(names: seq<string>, registered: set<string>, accepted: set<string>, i: nat)
    requires i + 1 < |names|
    ensures GotTo(names, registered, accepted, i + 1) <==>
      (names[0] in registered || names[0] in accepted) && GotTo(names[1..], registered, accepted, i)
  {
    assert forall j :: 0 <= j <= i ==> names[1..][j] == names[j + 1];
    if GotTo(names, registered, accepted, i + 1) {
      forall j | 0 <= j <= i
        ensures names[1..][j] in registered || names[1..][j] in accepted
      {
        assert names[j + 1] in registered || names[j + 1] in accepted;
      }
    }
  }

  ghost predicate Reached(names: seq<string>, registered: set<string>, accepted: set<string>, name: string)
  {
    exists i :: GotTo(names, registered, accepted, i) && names[i] == name
  }

  lemma ReachedTail(names: seq<string>, registered: set<string>, accepted: set<string>, name: string)
    requires names != []
    ensures Reached(names, registered, accepted, name) <==>
      (names[0] in registered || names[0] in accepted) &&
      (names[0] == name || Reached(names[1..], registered, accepted, name))
  {
    if names[0] in registered || names[0] in accepted {
      assert GotTo(names, registered, accepted, 0);
    }
    if i :| GotTo(names, registered, accepted, i) && names[i] == name && i > 0 {
      GotToTail(names, registered, accepted, i - 1);
      assert names[1..][i - 1] == name;
    }
    if i :| GotTo(names[1..], registered, accepted, i) && names[1..][i] == name {
      GotToTail(names, registered, accepted, i);
      assert names[i + 1] == name;
    }
  }

  /** Exactly the new names before the first refusal are created. */
  lemma {:induction false} EnsureCreatesIff(names: seq<string>, registered: set<string>, accepted: set<string>,
                                            name: string)
    ensures name in Ensure(names, registered, accepted).created <==>
      name !in registered && Reached(names, registered, accepted, name)
  {
    if names != [] {
      ReachedTail(names, registered, accepted, name);
      EnsureCreatesIff(names[1..], registered, accepted, name);
      EnsureCreatesIff(names[1..], registered + {names[0]}, accepted, name);
      if names[0] in accepted {
        assert forall i :: GotTo(names[1..], registered + {names[0]}, accepted, i) <==>
                           GotTo(names[1..], registered, accepted, i);
      }
    }
  }

  class OTLPExporter {
    var registered: set<string>
    /** The gauges the meter holds, in the order they were created. */
    var instruments: seq<string>

    ghost predicate Valid()
      reads this
    {
      NoDup(instruments) && Elems(instruments) == registered
    }

    constructor ()
      ensures Valid() && instruments == []
    {
      registered, instruments := {}, [];
      new;
    }

    method EnsureInstruments(names: seq<string>, accepted: set<string>) returns (ok: bool)
      requires Valid()
      modifies this
      ensures Valid()
      ensures instruments == old(instruments) + Ensure(names, old(registered), accepted).created
      ensures ok == Ensure(names, old(registered), accepted).ok
    {
      ghost var pass := Ensure(names, registered, accepted);
      ghost var created: seq<string> := [];
      for i := 0 to |names|
        invariant Valid() && instruments == old(instruments) + created
        invariant pass == var rest := Ensure(names[i..], registered, accepted); Pass(created + rest.created, rest.ok)
      {
        var name := names[i];
        assert names[i..][0] == name && names[i..][1..] == names[i + 1..];
        if name in registered {
          continue;
        }
        if name !in accepted {
          return false;
        }
        assert Elems(instruments + [name]) == Elems(instruments) + {name};
        instruments, registered := instruments + [name], registered + {name};
        ghost var rest := Ensure(names[i + 1..], registered, accepted);
        assert created + ([name] + rest.created) == created + [name] + rest.created;
        created := created + [name];
      }
      ok := true;
    }
  }

  /** One push: every instrument's callback observes the current samples of its name. */
  function Observed(snap: Snapshot, instruments: seq<string>): seq<Sample>
  {
    if instruments == [] then []
    else
      var n := |instruments| - 1;
      Observed(snap, instruments[..n]) + snap.SamplesByName(instruments[n])
  }
}
