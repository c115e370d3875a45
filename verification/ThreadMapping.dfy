// The two-way map in memory (internal/codexbridge/mapping.go).

module ThreadMapping {
  import opened Options

  datatype Record = Record(instanceID: string, codexID: string, createdAt: int, lastUsedAt: int)

  datatype Maps = Maps(forward: map<string, Record>, reverse: map<string, string>)

  const EMPTY := Maps(map[], map[])

  function Set(m: Maps, r: Record): Maps {
    var reverse :=
      if r.instanceID in m.forward && m.forward[r.instanceID].codexID != r.codexID
      then m.reverse - {m.forward[r.instanceID].codexID} else m.reverse;
    Maps(m.forward[r.instanceID := r], reverse[r.codexID := r.instanceID])
  }

  class ThreadMapping {
    var instanceToCodex: map<string, Record>
    var codexToInstance: map<string, string>

    ghost function State(): Maps
      reads this
    {
      Maps(instanceToCodex, codexToInstance)
    }

    constructor ()
      ensures State() == EMPTY
    {
      instanceToCodex, codexToInstance := map[], map[];
    }

    method SetRecord(r: Record)
      modifies this
      ensures State() == Set(old(State()), r)
    {
      if r.instanceID in instanceToCodex {
        var existing := instanceToCodex[r.instanceID];
        if existing.codexID != r.codexID {
          codexToInstance := codexToInstance - {existing.codexID};
        }
      }
      instanceToCodex := instanceToCodex[r.instanceID := r];
      codexToInstance := codexToInstance[r.codexID := r.instanceID];
    }

    method RecordForInstance(instanceID: string) returns (r: Option<Record>)
      ensures r == if instanceID in instanceToCodex then Some(instanceToCodex[instanceID]) else None
    {
      if instanceID in instanceToCodex {
        return Some(instanceToCodex[instanceID]);
      }
      return None;
    }

    method InstanceForCodex(codexID: string) returns (instanceID: Option<string>)
      ensures instanceID == if codexID in codexToInstance then Some(codexToInstance[codexID]) else None
      ensures Backed(State()) && instanceID.Some? ==>
        instanceID.value in instanceToCodex && instanceToCodex[instanceID.value].codexID == codexID
    {
      if codexID in codexToInstance {
        return Some(codexToInstance[codexID]);
      }
      return None;
    }
  }

  /** A reverse entry is backed by a forward one, and a record stands under its own instance. */
  ghost predicate Backed(m: Maps) {
    && (forall i | i in m.forward :: m.forward[i].instanceID == i)
    && forall c | c in m.reverse :: m.reverse[c] in m.forward && m.forward[m.reverse[c]].codexID == c
  }

  /** And the other way round: the two maps are inverse. */
  ghost predicate Inverse(m: Maps) {
    Backed(m) && forall i | i in m.forward :: m.forward[i].codexID in m.reverse && m.reverse[m.forward[i].codexID] == i
  }

  /** Backing survives every SetRecord; being inverse survives exactly those whose codex thread
      no other instance holds. */
  lemma {:induction false} SetKeeps(m: Maps, r: Record)
    requires Backed(m)
    ensures Backed(Set(m, r))
    ensures Inverse(m) ==>
      (Inverse(Set(m, r)) <==> forall i | i in m.forward && i != r.instanceID :: m.forward[i].codexID != r.codexID)
  {
    var m' := Set(m, r);
    assert m'.forward[r.instanceID] == r;
    if Inverse(m) && exists i :: i in m.forward && i != r.instanceID && m.forward[i].codexID == r.codexID {
      var i :| i in m.forward && i != r.instanceID && m.forward[i].codexID == r.codexID;
      assert m'.forward[i].codexID == r.codexID && m'.reverse[r.codexID] != i;
    }
  }
}
