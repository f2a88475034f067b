/** Plugin inventories: their difference, its rendering, and what the difference still says about both sides. */
module PluginDiff {
  import opened Order
  import opened Protocol

  datatype Plugin = Plugin(id: string, version: string, active: bool)

  /** A plugin that differs; `None` means absent on that side. */
  datatype Mismatch = Mismatch(id: string, source: Option<string>, other: Option<string>)

  type Inventory = map<string, Plugin>

  const INACTIVE := " (inactive)"

  /** The records by id; the last record of an id wins. */
  function ById(records: seq<Plugin>): (m: Inventory)
    ensures WellKeyed(m)
  {
    if records == [] then map[]
    else
      var last := records[|records| - 1];
      ById(records[..|records| - 1])[last.id := last]
  }

  /** Record `k` is the last one with its id. */
  predicate LastOfId(records: seq<Plugin>, k: nat) {
    k < |records| && forall m :: k < m < |records| ==> records[m].id != records[k].id
  }

  /** The inventory holds the last record of every id... */
  lemma {:induction false} LastRecordIsHeld(records: seq<Plugin>, k: nat)
    requires LastOfId(records, k)
    ensures records[k].id in ById(records) && ById(records)[records[k].id] == records[k]
  {
    var front := records[..|records| - 1];
    if k < |front| {
      assert LastOfId(front, k);
      LastRecordIsHeld(front, k);
      assert records[|front|].id != records[k].id;
    }
  }

  /** ...and nothing else. */
  lemma {:induction false} HeldIsTheLastRecord(records: seq<Plugin>, id: string) returns (k: nat)
    requires id in ById(records)
    ensures LastOfId(records, k) && records[k].id == id
  {
    var front, last := records[..|records| - 1], records[|records| - 1];
    if last.id == id {
      k := |records| - 1;
    } else {
      k := HeldIsTheLastRecord(front, id);
    }
  }

  predicate WellKeyed(m: Inventory) { forall id :: id in m ==> m[id].id == id }

  function Rendered(p: Plugin): string { if p.active then p.version else p.version + INACTIVE }

  function Shown(m: Inventory, id: string): Option<string> { if id in m then Some(Rendered(m[id])) else None }

  /** The ids on which two inventories disagree. */
  function Differing(a: Inventory, b: Inventory): set<string> {
    set id | id in a.Keys + b.Keys && Find(a, id) != Find(b, id)
  }

  function MismatchOf(a: Inventory, b: Inventory, id: string): Mismatch {
    Mismatch(id, Shown(a, id), Shown(b, id))
  }

  /** The full mismatch list: one entry for each differing id, ascending. */
  ghost function Diff(a: Inventory, b: Inventory): (list: seq<Mismatch>)
    ensures |list| == |Differing(a, b)|
  {
    Described(a, b, Sorted(Differing(a, b)))
  }

  function Described(a: Inventory, b: Inventory, ids: seq<string>): (list: seq<Mismatch>)
    ensures |list| == |ids| && forall i :: 0 <= i < |ids| ==> list[i] == MismatchOf(a, b, ids[i])
  {
    if ids == [] then [] else [MismatchOf(a, b, ids[0])] + Described(a, b, ids[1..])
  }

  // ----- building the list -----

  function IdOf(x: Mismatch): string { x.id }

  function Ids(list: seq<Mismatch>): (ids: seq<string>)
    ensures |ids| == |list| && forall i :: 0 <= i < |list| ==> ids[i] == list[i].id
  {
    if list == [] then [] else [list[0].id] + Ids(list[1..])
  }

  /** `list` holds one entry for each id of `ids` and nothing else. */
  ghost predicate Covers(list: seq<Mismatch>, ids: set<string>, a: Inventory, b: Inventory) {
    && (forall x :: x in list ==> x.id in ids && x == MismatchOf(a, b, x.id))
    && (forall id :: id in ids ==> MismatchOf(a, b, id) in list)
    && |list| == |ids|
  }

  lemma {:induction false} DistinctByCount(s: seq<string>, ids: set<string>)
    requires forall x :: x in s <==> x in ids
    requires |s| == |ids|
    ensures forall i, j :: 0 <= i < j < |s| ==> s[i] != s[j]
    decreases |s|
  {
    if s != [] {
      var rest := s[1..];
      assert s == [s[0]] + rest;
      if s[0] in rest {
        assert forall x :: x in rest <==> x in ids;
        FewerMembers(rest, ids);
        assert false;
      }
      DistinctByCount(rest, ids - {s[0]});
    }
  }

  lemma {:induction false} FewerMembers(s: seq<string>, ids: set<string>)
    requires forall x :: x in ids ==> x in s
    ensures |ids| <= |s|
    decreases |s|
  {
    if s == [] {
      assert ids == {};
    } else {
      assert s == [s[0]] + s[1..];
      FewerMembers(s[1..], ids - {s[0]});
      assert |ids| <= |ids - {s[0]}| + 1;
    }
  }

  /** Sorting an unordered collection of the differences yields the mismatch list, whatever the order was. */
  lemma {:induction false} SortedCoverIsDiff(list: seq<Mismatch>, a: Inventory, b: Inventory)
    requires Covers(list, Differing(a, b), a, b)
    ensures SortByText(list, IdOf) == Diff(a, b)
  {
    hide LexLe, Sorted, SortByText, Differing, MismatchOf;
    var r := SortByText(list, IdOf);
    SortByTextAscends(list, IdOf);
    var ids, wanted := Ids(r), Sorted(Differing(a, b));
    SameMembers(r, list);
    forall x ensures x in r <==> x in list { assert x in Members(r) <==> x in Members(list); }
    forall id ensures id in ids <==> id in Differing(a, b) {
      if id in ids {
        var i :| 0 <= i < |ids| && ids[i] == id;
        assert r[i] in list;
      }
      if id in Differing(a, b) {
        assert MismatchOf(a, b, id) in r;
        var i :| 0 <= i < |r| && r[i] == MismatchOf(a, b, id);
        MismatchHasId(a, b, id);
        assert ids[i] == id;
      }
    }
    DistinctByCount(ids, Differing(a, b));
    assert StrictlySorted(ids);
    StrictlySortedUnique(ids, wanted);
    forall i | 0 <= i < |r| ensures r[i] == Diff(a, b)[i] { assert r[i] in list; }
  }

  lemma MismatchHasId(a: Inventory, b: Inventory, id: string)
    ensures MismatchOf(a, b, id).id == id
  {}

  lemma CoverGrows(list: seq<Mismatch>, ids: set<string>, a: Inventory, b: Inventory, id: string)
    requires Covers(list, ids, a, b) && id !in ids
    ensures Covers(list + [MismatchOf(a, b, id)], ids + {id}, a, b)
  {}

  lemma DoneGrows(a: Inventory, b: Inventory, done: set<string>, id: string)
    requires id !in done
    ensures
      Differing(a, b) * (done + {id})
      == if Find(a, id) != Find(b, id) then Differing(a, b) * done + {id} else Differing(a, b) * done
  {}

  /** First pass: plugins of the source that are missing or different on the other side. */
  method SourceEntries(a: Inventory, b: Inventory) returns (list: seq<Mismatch>)
    requires WellKeyed(a) && WellKeyed(b)
    ensures Covers(list, Differing(a, b) * a.Keys, a, b)
  {
    hide Covers, Differing;
    list := [];
    var done, left: set<string> := {}, a.Keys;
    NothingDone(a, b);
    while left != {}
      invariant left <= a.Keys && done == a.Keys - left
      invariant Covers(list, Differing(a, b) * done, a, b)
      decreases |left|
    {
      var id :| id in left;
      DoneGrows(a, b, done, id);
      AgreeOn(a, b, id);
      if !(id in b && b[id].version == a[id].version && b[id].active == a[id].active) {
        CoverGrows(list, Differing(a, b) * done, a, b, id);
        list := list + [Mismatch(id, Some(Rendered(a[id])), if id in b then Some(Rendered(b[id])) else None)];
      }
      done, left := done + {id}, left - {id};
    }
    assert done == a.Keys;
  }

  /** Second pass: plugins the source does not have. */
  method OtherEntries(a: Inventory, b: Inventory, list: seq<Mismatch>) returns (all: seq<Mismatch>)
    requires Covers(list, Differing(a, b) * a.Keys, a, b)
    ensures Covers(all, Differing(a, b), a, b)
  {
    hide Covers, Differing;
    all := list;
    var done, left := a.Keys, b.Keys;
    while left != {}
      invariant left <= b.Keys
      invariant forall x :: x in done <==> x in a || (x in b && x !in left)
      invariant Covers(all, Differing(a, b) * done, a, b)
      decreases |left|
    {
      var id :| id in left;
      if id !in a {
        DoneGrows(a, b, done, id);
        CoverGrows(all, Differing(a, b) * done, a, b, id);
        all := all + [Mismatch(id, None, Some(Rendered(b[id])))];
      } else {
        assert done + {id} == done;
      }
      done, left := done + {id}, left - {id};
    }
    assert done == a.Keys + b.Keys;
    AllDone(a, b);
  }

  /** Builds the mismatch list: both sides by id, the two passes, then a sort. */
  method DiffPluginInventory(source: seq<Plugin>, other: seq<Plugin>) returns (list: seq<Mismatch>)
    ensures list == Diff(ById(source), ById(other))
  {
    var a := CollectById(source);
    var b := CollectById(other);
    list := SourceEntries(a, b);
    list := OtherEntries(a, b, list);
    SortedCoverIsDiff(list, a, b);
    list := SortByText(list, IdOf);
  }

  lemma AgreeOn(a: Inventory, b: Inventory, id: string)
    requires WellKeyed(a) && WellKeyed(b) && id in a
    ensures Find(a, id) == Find(b, id) <==> id in b && b[id].version == a[id].version && b[id].active == a[id].active
  {}

  lemma NothingDone(a: Inventory, b: Inventory)
    ensures Covers([], Differing(a, b) * {}, a, b)
  {}

  lemma AllDone(a: Inventory, b: Inventory)
    ensures Differing(a, b) * (a.Keys + b.Keys) == Differing(a, b)
  {}

  method CollectById(records: seq<Plugin>) returns (m: Inventory)
    ensures m == ById(records)
  {
    m := map[];
    for i := 0 to |records|
      invariant m == ById(records[..i])
    {
      assert records[..i + 1][..i] == records[..i];
      m := m[records[i].id := records[i]];
    }
    assert records[..|records|] == records;
  }

  // ----- what the list means -----

  lemma DiffIsSortedById(a: Inventory, b: Inventory)
    ensures StrictlySorted(Ids(Diff(a, b)))
  {
    assert Ids(Diff(a, b)) == Sorted(Differing(a, b));
  }

  lemma DiffEmptyIffEqual(a: Inventory, b: Inventory)
    ensures Diff(a, b) == [] <==> a == b
  {
    if Diff(a, b) == [] {
      assert Differing(a, b) == {};
      forall id ensures (id in a <==> id in b) && (id in a ==> a[id] == b[id]) {
        assert Find(a, id) != Find(b, id) ==> id in Differing(a, b);
      }
      assert a == b;
    }
  }

  function Swapped(list: seq<Mismatch>): (r: seq<Mismatch>)
    ensures |r| == |list| && forall i :: 0 <= i < |r| ==> r[i] == Mismatch(list[i].id, list[i].other, list[i].source)
  {
    if list == [] then [] else [Mismatch(list[0].id, list[0].other, list[0].source)] + Swapped(list[1..])
  }

  lemma {:induction false} SwappingSidesSwapsEntries(a: Inventory, b: Inventory)
    ensures Diff(b, a) == Swapped(Diff(a, b))
  {
    assert Differing(a, b) == Differing(b, a);
  }

  // ----- reading the list back -----

  predicate EndsInactive(v: string) {
    |v| >= |INACTIVE| && v[|v| - |INACTIVE|..] == INACTIVE
  }

  function Decoded(id: string, v: string): Plugin {
    if EndsInactive(v) then Plugin(id, v[..|v| - |INACTIVE|], false) else Plugin(id, v, true)
  }

  /** An active plugin shows its version, an inactive one the version with the suffix. */
  lemma RenderedAsPublished(id: string)
    ensures Rendered(Plugin(id, "1.0", true)) == "1.0" && Rendered(Plugin(id, "1.0", false)) == "1.0 (inactive)"
  {}

  /** A record whose rendering reads as an inactive one. */
  predicate Ambiguous(p: Plugin) { p.active && EndsInactive(p.version) }

  lemma DecodedRendering(p: Plugin)
    ensures Decoded(p.id, Rendered(p)) == p <==> !Ambiguous(p)
  {
    if !p.active {
      var v := p.version + INACTIVE;
      assert v[|v| - |INACTIVE|..] == INACTIVE && v[..|v| - |INACTIVE|] == p.version;
    }
  }

  function Applied(m: Inventory, x: Mismatch): Inventory {
    match x.other
    case None => m - {x.id}
    case Some(v) => m[x.id := Decoded(x.id, v)]
  }

  /** The inventory after reading the first `k` entries as edits to `m`. */
  function Patched(m: Inventory, list: seq<Mismatch>, k: nat): Inventory
    requires k <= |list|
  {
    if k == 0 then m else Applied(Patched(m, list, k - 1), list[k - 1])
  }

  lemma {:induction false} PatchedElsewhere(m: Inventory, list: seq<Mismatch>, k: nat, id: string)
    requires k <= |list| && forall i :: 0 <= i < k ==> list[i].id != id
    ensures Find(Patched(m, list, k), id) == Find(m, id)
  {
    if k > 0 { PatchedElsewhere(m, list, k - 1, id); }
  }

  lemma {:induction false} PatchedAt(m: Inventory, list: seq<Mismatch>, k: nat, i: nat)
    requires i < k <= |list| && forall j :: i < j < k ==> list[j].id != list[i].id
    ensures
      Find(Patched(m, list, k), list[i].id)
      == if list[i].other == None then None else Some(Decoded(list[i].id, list[i].other.value))
  {
    if i < k - 1 { PatchedAt(m, list, k - 1, i); }
  }

  lemma PatchedEntry(a: Inventory, b: Inventory, id: string)
    ensures
      Find(Patched(a, Diff(a, b), |Diff(a, b)|), id)
      == if id !in Differing(a, b) then Find(a, id)
         else if id in b then Some(Decoded(id, Rendered(b[id]))) else None
  {
    var list, ids := Diff(a, b), Sorted(Differing(a, b));
    if id in Differing(a, b) {
      assert id in ids;
      var i :| 0 <= i < |ids| && ids[i] == id;
      forall j | i < j < |list| ensures list[j].id != list[i].id { assert LexLess(ids[i], ids[j]); }
      PatchedAt(a, list, |list|, i);
    } else {
      forall i | 0 <= i < |list| ensures list[i].id != id { assert ids[i] in ids; }
      PatchedElsewhere(a, list, |list|, id);
    }
  }

  /**
   * Reading the mismatch list as edits to the source gives back the other inventory, exactly when no differing
   * plugin is active on the other side with a version that itself ends in the inactive suffix.
   */
  lemma {:induction false} PatchRoundTrip(a: Inventory, b: Inventory)
    requires WellKeyed(b)
    ensures
      Patched(a, Diff(a, b), |Diff(a, b)|) == b
      <==> (forall id :: id in Differing(a, b) && id in b ==> !Ambiguous(b[id]))
  {
    hide Patched, Diff, Ambiguous, Rendered, Decoded;
    var p := Patched(a, Diff(a, b), |Diff(a, b)|);
    forall id ensures Find(p, id) == Find(b, id) <==> (id in Differing(a, b) && id in b ==> !Ambiguous(b[id])) {
      PatchedEntry(a, b, id);
      if id in Differing(a, b) && id in b { DecodedRendering(b[id]); }
    }
    SameEntries(p, b);
  }

  lemma SameEntries(m: Inventory, n: Inventory)
    ensures m == n <==> forall id :: Find(m, id) == Find(n, id)
  {
    if forall id :: Find(m, id) == Find(n, id) {
      forall id ensures (id in m <==> id in n) && (id in m ==> m[id] == n[id]) { assert Find(m, id) == Find(n, id); }
      assert m == n;
    }
  }

  /** An update that only the suffix tells apart is listed, with both sides rendered alike, and is lost on reading. */
  lemma RenderingCollides(id: string, version: string)
    ensures
      var a, b := map[id := Plugin(id, version, false)], map[id := Plugin(id, version + INACTIVE, true)];
      && Differing(a, b) == {id} && MismatchOf(a, b, id).source == MismatchOf(a, b, id).other
      && Patched(a, Diff(a, b), |Diff(a, b)|) != b
  {
    var a, b := map[id := Plugin(id, version, false)], map[id := Plugin(id, version + INACTIVE, true)];
    assert a[id].version != b[id].version;
    assert Find(a, id) != Find(b, id);
    var v := version + INACTIVE;
    assert v[|v| - |INACTIVE|..] == INACTIVE;
    assert id in Differing(a, b) && Ambiguous(b[id]);
    PatchRoundTrip(a, b);
  }
}
