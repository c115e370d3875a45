// The merger of no-proxy lists (internal/daemon/codexconfig.go:270-304). lower is the case
// folding of strings.ToLower, of which nothing is assumed.

module NoProxy {
  import opened Strings

  const REQUIRED: seq<string> := [".agyn", "llm-proxy.agyn", "gateway.agyn", "tracing.agyn"]

  /** The parts that are not blank, without the space around them. */
  function Kept(parts: seq<string>): seq<string> {
    if parts == [] then []
    else
      var entry := Trim(parts[|parts| - 1]);
      Kept(parts[..|parts| - 1]) + if entry == "" then [] else [entry]
  }

  function Entries(value: string): seq<string> {
    Kept(Split(value, ','))
  }

  function AllEntries(values: seq<string>): seq<string> {
    if values == [] then [] else AllEntries(values[..|values| - 1]) + Entries(values[|values| - 1])
  }

  predicate Covered(entries: seq<string>, host: string, lower: string -> string) {
    exists i :: 0 <= i < |entries| && lower(entries[i]) == lower(host)
  }

  /** The entries no earlier one covers. */
  function Firsts(entries: seq<string>, lower: string -> string): seq<string> {
    if entries == [] then []
    else
      var n := |entries| - 1;
      Firsts(entries[..n], lower) + if Covered(entries[..n], entries[n], lower) then [] else [entries[n]]
  }

  /** The merged list, and its spelling. */
  function Merged(values: seq<string>, lower: string -> string): seq<string> {
    Firsts(AllEntries(values) + REQUIRED, lower)
  }

  function NoProxyValue(values: seq<string>, lower: string -> string): string {
    Join(Merged(values, lower), ',')
  }

  /** The places of the entries kept: each the first of its host, in order. */
  predicate FirstPlaces(entries: seq<string>, at: seq<nat>, lower: string -> string) {
    && (forall k | 0 <= k < |at| :: at[k] < |entries| && !Covered(entries[..at[k]], entries[at[k]], lower))
    && forall j, k | 0 <= j < k < |at| :: at[j] < at[k]
  }

  predicate Distinct(hosts: seq<string>, lower: string -> string) {
    forall j, k | 0 <= j < k < |hosts| :: lower(hosts[j]) != lower(hosts[k])
  }

  /** The kept entries are the first of each host, in the order first seen. */
  lemma {:induction false} FirstsInOrder(entries: seq<string>, lower: string -> string) returns (at: seq<nat>)
    ensures FirstPlaces(entries, at, lower) && |at| == |Firsts(entries, lower)|
    ensures forall k | 0 <= k < |at| :: Firsts(entries, lower)[k] == entries[at[k]]
  {
    at := [];
    if entries != [] {
      var n := |entries| - 1;
      at := FirstsInOrder(entries[..n], lower);
      PlacesNext(entries, at, lower);
      if !Covered(entries[..n], entries[n], lower) {
        at := at + [n];
      }
    }
  }

  /** They are of different hosts, and of all there are. */
  lemma {:induction false} FirstsCover(entries: seq<string>, lower: string -> string)
    ensures forall host :: Covered(entries, host, lower) <==> Covered(Firsts(entries, lower), host, lower)
    ensures Distinct(Firsts(entries, lower), lower)
  {
    if entries != [] {
      var n := |entries| - 1;
      var before, kept := entries[..n], Firsts(entries[..n], lower);
      FirstsCover(before, lower);
      FirstsNext(before, kept, entries[n], lower);
      assert before + [entries[n]] == entries;
      assert Firsts(entries, lower) == if Covered(before, entries[n], lower) then kept else kept + [entries[n]];
    }
  }

  lemma {:induction false} PlacesNext(entries: seq<string>, at: seq<nat>, lower: string -> string)
    requires entries != [] && FirstPlaces(entries[..|entries| - 1], at, lower)
    ensures
      var n := |entries| - 1;
      FirstPlaces(entries, at, lower) && (!Covered(entries[..n], entries[n], lower) ==> FirstPlaces(entries, at + [n], lower))
  {
    var before := entries[..|entries| - 1];
    assert forall k | 0 <= k < |at| :: entries[..at[k]] == before[..at[k]] && entries[at[k]] == before[at[k]];
  }

  lemma {:induction false} FirstsNext(before: seq<string>, kept: seq<string>, entry: string, lower: string -> string)
    requires forall host :: Covered(before, host, lower) <==> Covered(kept, host, lower)
    requires Distinct(kept, lower)
    ensures
      var next := if Covered(before, entry, lower) then kept else kept + [entry];
      && Distinct(next, lower)
      && forall host :: Covered(before + [entry], host, lower) <==> Covered(next, host, lower)
  {
    forall host ensures Covered(before + [entry], host, lower) <==> Covered(before, host, lower) || lower(host) == lower(entry) {
      CoveredOne(before, entry, host, lower);
    }
    forall host ensures Covered(kept + [entry], host, lower) <==> Covered(kept, host, lower) || lower(host) == lower(entry) {
      CoveredOne(kept, entry, host, lower);
    }
  }

  lemma {:induction false} CoveredOne(a: seq<string>, entry: string, host: string, lower: string -> string)
    ensures Covered(a + [entry], host, lower) <==> Covered(a, host, lower) || lower(host) == lower(entry)
  {
    CoveredSplit(a, [entry], host, lower);
    assert [entry][0] == entry;
  }

  lemma {:induction false} CoveredSplit(a: seq<string>, b: seq<string>, host: string, lower: string -> string)
    ensures Covered(a + b, host, lower) <==> Covered(a, host, lower) || Covered(b, host, lower)
  {
    if Covered(a, host, lower) {
      var i :| 0 <= i < |a| && lower(a[i]) == lower(host);
      assert (a + b)[i] == a[i];
    }
    if Covered(b, host, lower) {
      var i :| 0 <= i < |b| && lower(b[i]) == lower(host);
      assert (a + b)[|a| + i] == b[i];
    }
  }

  /** Hosts already covered add nothing. */
  lemma {:induction false} CoveredAddNothing(entries: seq<string>, more: seq<string>, lower: string -> string)
    requires forall host | host in more :: Covered(entries, host, lower)
    ensures Firsts(entries + more, lower) == Firsts(entries, lower)
    decreases |more|
  {
    if more == [] {
      assert entries + more == entries;
    } else {
      var n := |more| - 1;
      assert (entries + more)[..|entries| + n] == entries + more[..n];
      CoveredSplit(entries, more[..n], more[n], lower);
      CoveredAddNothing(entries, more[..n], lower);
    }
  }

  lemma {:induction false} DistinctStay(hosts: seq<string>, lower: string -> string)
    requires Distinct(hosts, lower)
    ensures Firsts(hosts, lower) == hosts
  {
    if hosts != [] {
      var n := |hosts| - 1;
      DistinctStay(hosts[..n], lower);
      assert hosts[..n] + [hosts[n]] == hosts;
    }
  }

  predicate Clean(entry: string) {
    entry != "" && Trimmed(entry) && ',' !in entry
  }

  predicate AllClean(entries: seq<string>) {
    forall entry | entry in entries :: Clean(entry)
  }

  lemma {:induction false} KeptClean(parts: seq<string>)
    requires forall part | part in parts :: ',' !in part
    ensures AllClean(Kept(parts))
  {
    if parts != [] {
      var n := |parts| - 1;
      assert parts[n] in parts;
      KeptClean(parts[..n]);
      TrimProperties(parts[n]);
    }
  }

  lemma {:induction false} CleanKept(parts: seq<string>)
    requires AllClean(parts)
    ensures Kept(parts) == parts
  {
    if parts != [] {
      var n := |parts| - 1;
      assert parts[n] in parts;
      assert AllClean(parts[..n]) by {
        assert forall part | part in parts[..n] :: part in parts;
      }
      CleanKept(parts[..n]);
      TrimProperties(parts[n]);
      assert Trim(parts[n]) == parts[n];
      assert parts[..n] + [parts[n]] == parts;
    }
  }

  lemma {:induction false} EntriesClean(values: seq<string>)
    ensures AllClean(AllEntries(values))
  {
    if values != [] {
      var n := |values| - 1;
      EntriesClean(values[..n]);
      SplitPieces(values[n], ',');
      KeptClean(Split(values[n], ','));
    }
  }

  lemma {:induction false} RequiredClean()
    ensures AllClean(REQUIRED)
  {
  }

  lemma {:induction false} MergedClean(values: seq<string>, lower: string -> string)
    ensures AllClean(Merged(values, lower)) && Merged(values, lower) != []
  {
    var entries := AllEntries(values) + REQUIRED;
    EntriesClean(values);
    RequiredClean();
    var at := FirstsInOrder(entries, lower);
    FirstsCover(entries, lower);
    assert entries[0] in entries && Covered(entries, entries[0], lower);
    forall entry | entry in Merged(values, lower) ensures Clean(entry) {
      var k :| 0 <= k < |at| && Merged(values, lower)[k] == entry;
      assert entries[at[k]] in entries;
    }
  }

  /** Reading the merged value back gives the merged list: no entry holds a comma or space to trim. */
  lemma {:induction false} ReadsBack(values: seq<string>, lower: string -> string)
    ensures Entries(NoProxyValue(values, lower)) == Merged(values, lower)
  {
    MergedClean(values, lower);
    SplitJoin(Merged(values, lower), ',');
    CleanKept(Merged(values, lower));
  }

  /** The merged list holds each host once, ignoring case, and covers every entry given and every
      required host. */
  lemma {:induction false} CoversEachOnce(values: seq<string>, lower: string -> string)
    ensures Distinct(Merged(values, lower), lower)
    ensures forall host | host in REQUIRED || host in AllEntries(values) :: Covered(Merged(values, lower), host, lower)
    ensures forall host | host in Merged(values, lower) :: host in REQUIRED || host in AllEntries(values)
  {
    var entries := AllEntries(values) + REQUIRED;
    var at := FirstsInOrder(entries, lower);
    FirstsCover(entries, lower);
    forall host | host in REQUIRED || host in AllEntries(values) ensures Covered(Merged(values, lower), host, lower) {
      assert host in entries;
      assert Covered(entries, host, lower);
    }
    forall host | host in Merged(values, lower) ensures host in REQUIRED || host in AllEntries(values) {
      var k :| 0 <= k < |at| && Merged(values, lower)[k] == host;
      assert entries[at[k]] in entries;
    }
  }

  /** Merging a merged value again, alone, with itself, or with any values whose hosts it covers,
      gives it back. */
  lemma {:induction false} MergingAgainChangesNothing(values: seq<string>, others: seq<string>, lower: string -> string)
    requires forall host | host in AllEntries(others) :: Covered(Merged(values, lower), host, lower)
    ensures NoProxyValue([NoProxyValue(values, lower)] + others, lower) == NoProxyValue(values, lower)
  {
    var merged := Merged(values, lower);
    ReadsBack(values, lower);
    AllEntriesJoin(NoProxyValue(values, lower), others);
    CoversEachOnce(values, lower);
    Absorbs(merged, AllEntries(others), REQUIRED, lower);
  }

  lemma {:induction false} Absorbs(merged: seq<string>, a: seq<string>, b: seq<string>, lower: string -> string)
    requires Distinct(merged, lower)
    requires forall host | host in a || host in b :: Covered(merged, host, lower)
    ensures Firsts(merged + a + b, lower) == merged
  {
    assert merged + a + b == merged + (a + b);
    CoveredAddNothing(merged, a + b, lower);
    DistinctStay(merged, lower);
  }

  lemma {:induction false} AllEntriesJoin(value: string, others: seq<string>)
    ensures AllEntries([value] + others) == Entries(value) + AllEntries(others)
    decreases |others|
  {
    if others == [] {
      OneValue(value);
      Ends([value], Entries(value));
    } else {
      var init, last := others[..|others| - 1], others[|others| - 1];
      AllEntriesJoin(value, init);
      OneMoreValue([value] + init, last);
      OneMoreValue(init, last);
      Regroup([value], init, [last]);
      assert init + [last] == others;
      Regroup(Entries(value), AllEntries(init), Entries(last));
    }
  }

  lemma {:induction false} Regroup(a: seq<string>, b: seq<string>, c: seq<string>)
    ensures a + b + c == a + (b + c)
  {
  }

  lemma {:induction false} Ends(a: seq<string>, b: seq<string>)
    ensures a + [] == a && b + [] == b
  {
  }

  lemma {:induction false} OneValue(value: string)
    ensures AllEntries([value]) == Entries(value)
  {
    OneMoreValue([], value);
    assert [] + [value] == [value] && [] + Entries(value) == Entries(value);
  }

  lemma {:induction false} OneMoreValue(values: seq<string>, value: string)
    ensures AllEntries(values + [value]) == AllEntries(values) + Entries(value)
  {
    assert (values + [value])[..|values|] == values;
  }

  /** In particular merging it with itself. */
  lemma {:induction false} SelfMerge(values: seq<string>, lower: string -> string)
    ensures var value := NoProxyValue(values, lower); NoProxyValue([value, value], lower) == value
  {
    var value, merged := NoProxyValue(values, lower), Merged(values, lower);
    ReadsBack(values, lower);
    assert AllEntries([value]) == AllEntries([]) + Entries(value) == merged;
    forall host | host in merged ensures Covered(merged, host, lower) {
      var k :| 0 <= k < |merged| && merged[k] == host;
    }
    MergingAgainChangesNothing(values, [value], lower);
    assert [value] + [value] == [value, value];
  }

  method SplitNoProxy(value: string) returns (entries: seq<string>)
    ensures entries == Entries(value)
  {
    var parts := Split(value, ',');
    entries := [];
    for i := 0 to |parts|
      invariant entries == Kept(parts[..i])
    {
      var entry := Trim(parts[i]);
      if entry != "" {
        entries := entries + [entry];
      }
      assert parts[..i + 1][..i] == parts[..i];
    }
    assert parts[..|parts|] == parts;
  }

  /** seen holds the folded entries so far, merged the entries kept. */
  predicate Holds(entries: seq<string>, seen: set<string>, merged: seq<string>, lower: string -> string) {
    && seen == (set entry | entry in entries :: lower(entry))
    && merged == Firsts(entries, lower)
  }

  method AddEntries(more: seq<string>, lower: string -> string, ghost before: seq<string>, was: set<string>, had: seq<string>)
      returns (seen: set<string>, merged: seq<string>)
    requires Holds(before, was, had, lower)
    ensures Holds(before + more, seen, merged, lower)
  {
    seen, merged := was, had;
    assert before + more[..0] == before;
    for i := 0 to |more|
      invariant Holds(before + more[..i], seen, merged, lower)
    {
      var key := lower(more[i]);
      HeldNext(before + more[..i], seen, more[i], lower);
      assert before + more[..i] + [more[i]] == before + more[..i + 1];
      if key !in seen {
        seen := seen + {key};
        merged := merged + [more[i]];
      }
    }
    assert more[..|more|] == more;
  }

  lemma {:induction false} HeldNext(entries: seq<string>, seen: set<string>, entry: string, lower: string -> string)
    requires seen == (set e | e in entries :: lower(e))
    ensures lower(entry) in seen <==> Covered(entries, entry, lower)
    ensures (set e | e in entries + [entry] :: lower(e)) == seen + {lower(entry)}
    ensures Firsts(entries + [entry], lower) == Firsts(entries, lower) + if lower(entry) in seen then [] else [entry]
  {
    assert (entries + [entry])[..|entries|] == entries;
    if Covered(entries, entry, lower) {
      var i :| 0 <= i < |entries| && lower(entries[i]) == lower(entry);
      assert entries[i] in entries;
    }
  }

  method ZitiNoProxyValue(values: seq<string>, lower: string -> string) returns (value: string)
    ensures value == NoProxyValue(values, lower)
  {
    var seen: set<string>, merged: seq<string> := {}, [];
    for i := 0 to |values|
      invariant Holds(AllEntries(values[..i]), seen, merged, lower)
    {
      var entries := SplitNoProxy(values[i]);
      assert values[..i + 1][..i] == values[..i];
      seen, merged := AddEntries(entries, lower, AllEntries(values[..i]), seen, merged);
    }
    assert values[..|values|] == values;
    seen, merged := AddEntries(REQUIRED, lower, AllEntries(values), seen, merged);
    return Join(merged, ',');
  }
}
