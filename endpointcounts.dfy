/** The sizes of the two parameter maps of lib/Konnected/Models/BlaqEndPoints.ts. Each map's
    keys are written out as a list in three short runs; a list with no repeated entry has as
    many distinct endpoints as entries, and each map's key set is the set of its list. */
module EndpointCounts {
  import opened BlaqEndPoints

  /** No endpoint occurs twice in `q`. */
  predicate NoRepeats(q: seq<Endpoint>) {
    forall i, j :: 0 <= i < j < |q| ==> q[i] != q[j]
  }

  /** The distinct endpoints of `q`. */
  function Elems(q: seq<Endpoint>): (r: set<Endpoint>)
    ensures |r| <= |q|
  {
    if q == [] then {} else Elems(q[..|q| - 1]) + {q[|q| - 1]}
  }

  lemma {:induction false} ElemsIn(q: seq<Endpoint>, e: Endpoint)
    ensures e in Elems(q) <==> e in q
  {
    if q != [] {
      ElemsIn(q[..|q| - 1], e);
      assert e in q <==> e in q[..|q| - 1] || e == q[|q| - 1];
    }
  }

  /** Joining two lists without repeats that share no endpoint gives a list without repeats. */
  lemma NoRepeatsAppend(a: seq<Endpoint>, b: seq<Endpoint>)
    requires NoRepeats(a) && NoRepeats(b)
    requires forall e :: e in a ==> e !in b
    ensures NoRepeats(a + b)
  {
    forall i, j | 0 <= i < j < |a + b|
      ensures (a + b)[i] != (a + b)[j]
    {
      if i < |a| <= j {
        assert (a + b)[i] == a[i] && (a + b)[j] == b[j - |a|];
        assert a[i] in a;
      }
    }
  }

  /** A list without repeats has exactly as many distinct endpoints as entries. */
  lemma {:induction false} NoRepeatsCard(q: seq<Endpoint>)
    requires NoRepeats(q)
    ensures |Elems(q)| == |q|
  {
    if q != [] {
      var p := q[..|q| - 1];
      assert NoRepeats(p);
      NoRepeatsCard(p);
      ElemsIn(p, q[|q| - 1]);
    }
  }

  /** BlaqGetEndpoints' keys, in three runs. */
  const GetRun1: seq<Endpoint> := [GarageDoor, GarageLight, Lock, MotionSensor, RollingCodeSynced, Obstruction]
  const GetRun2: seq<Endpoint> := [MotorRunning, WallButtonPressed, GarageOpenings, SecurityProtocol, Learn, WifiSignalRssi]
  const GetRun3: seq<Endpoint> := [WifiSignalPercent, Uptime, DeviceId, IPAddress, ToggleOnly]
  const GetKeys: seq<Endpoint> := GetRun1 + GetRun2 + GetRun3

  /** BlaqPostEndPoints' keys, in three runs. */
  const PostRun1: seq<Endpoint> := [GarageDoorOpen, GarageDoorClose, GarageDoorStop, GarageDoorToggle,
                                    GarageDoorSet, ToggleOnlyOn, ToggleOnlyOff, GarageLightTurnOn]
  const PostRun2: seq<Endpoint> := [GarageLightTurnOff, GarageLightToggle, LockLock, LockUnlock,
                                    SecurityProtocolSet, LearnOn, LearnOff]
  const PostRun3: seq<Endpoint> := [LearnToggle, PreCloseWarningPress, PlaySoundPress, RestartPress,
                                    FactoryResetPress, ReSyncPress, ResetDoorTimingsPress]
  const PostKeys: seq<Endpoint> := PostRun1 + PostRun2 + PostRun3

  lemma GetRunsNoRepeats()
    ensures NoRepeats(GetRun1) && NoRepeats(GetRun2) && NoRepeats(GetRun3)
  {
  }

  lemma GetRunsDisjoint()
    ensures forall e :: e in GetRun1 ==> e !in GetRun2 && e !in GetRun3
    ensures forall e :: e in GetRun2 ==> e !in GetRun3
  {
  }

  lemma GetKeysNoRepeats()
    ensures NoRepeats(GetKeys)
  {
    GetRunsNoRepeats();
    GetRunsDisjoint();
    NoRepeatsAppend(GetRun1, GetRun2);
    NoRepeatsAppend(GetRun1 + GetRun2, GetRun3);
  }

  /* One lemma per run: the POST runs are longer, and each pairwise check grows with the
     square of the run's length. */
  lemma PostRun1NoRepeats()
    ensures NoRepeats(PostRun1)
  {
  }

  lemma PostRun2NoRepeats()
    ensures NoRepeats(PostRun2)
  {
  }

  lemma PostRun3NoRepeats()
    ensures NoRepeats(PostRun3)
  {
  }

  lemma PostRunsDisjoint()
    ensures forall e :: e in PostRun1 ==> e !in PostRun2 && e !in PostRun3
    ensures forall e :: e in PostRun2 ==> e !in PostRun3
  {
  }

  lemma PostKeysNoRepeats()
    ensures NoRepeats(PostKeys)
  {
    PostRun1NoRepeats();
    PostRun2NoRepeats();
    PostRun3NoRepeats();
    PostRunsDisjoint();
    NoRepeatsAppend(PostRun1, PostRun2);
    NoRepeatsAppend(PostRun1 + PostRun2, PostRun3);
  }

  /** A set whose members are exactly the entries of a list without repeats has the list's
      length as its size. */
  lemma ListedSetSize(s: set<Endpoint>, q: seq<Endpoint>)
    requires NoRepeats(q)
    requires forall e :: e in s <==> e in q
    ensures |s| == |q|
  {
    NoRepeatsCard(q);
    forall e
      ensures e in s <==> e in Elems(q)
    {
      ElemsIn(q, e);
    }
    assert s == Elems(q);
  }

  /** The list holds exactly the keys of BlaqGetEndpoints. */
  lemma GetKeysExactly()
    ensures forall e :: e in GetEndpoints <==> e in GetKeys
  {
    assert forall e :: e in GetKeys <==> e in GetRun1 || e in GetRun2 || e in GetRun3;
  }

  /** BlaqGetEndpoints has 17 keys. */
  lemma GetCount()
    ensures |GetEndpoints| == 17
  {
    GetKeysNoRepeats();
    GetKeysExactly();
    ListedSetSize(GetEndpoints, GetKeys);
  }

  /** The list holds exactly the keys of BlaqPostEndPoints. */
  lemma PostKeysExactly()
    ensures forall e :: e in PostEndpoints <==> e in PostKeys
  {
    assert forall e :: e in PostKeys <==> e in PostRun1 || e in PostRun2 || e in PostRun3;
  }

  /** BlaqPostEndPoints has 22 keys. */
  lemma PostCount()
    ensures |PostEndpoints| == 22
  {
    PostKeysNoRepeats();
    PostKeysExactly();
    ListedSetSize(PostEndpoints, PostKeys);
  }

  /** BlaqGetEndpoints has 17 keys and BlaqPostEndPoints 22; with
      `BlaqEndPoints.GetPostPartition` they account for all 39 endpoints. */
  lemma KeyCounts()
    ensures |GetEndpoints| == 17 && |PostEndpoints| == 22
  {
    GetCount();
    PostCount();
  }
}
