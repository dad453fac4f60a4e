/** The store: profiles, covers and order, updated in place, and the exact undo of every write
    (calibration_store.py, CalibrationStore). */
module CalibrationStores {
  import opened Wrappers
  import opened StoredRecords

  // ---------------------------------------------------------------- the order

  /** The items of a stored list that are ids, the first time each comes. */
  function NormalisedOrder(items: seq<Json>): (r: seq<string>)
    ensures forall i, j :: 0 <= i < j < |r| ==> r[i] != r[j]
    ensures forall u :: u in r <==> u != "" && exists i :: 0 <= i < |items| && items[i].JText? && items[i].text == u
  {
    if items == [] then []
    else
      var last := items[|items| - 1];
      var before := NormalisedOrder(items[..|items| - 1]);
      if !last.JText? || last.text == "" || last.text in before then before else before + [last.text]
  }

  method NormaliseOrder(items: seq<Json>) returns (kept: seq<string>)
    ensures kept == NormalisedOrder(items)
  {
    var seen: set<string> := {};
    kept := [];
    for i := 0 to |items|
      invariant kept == NormalisedOrder(items[..i])
      invariant forall u :: u in seen <==> u in kept
    {
      assert items[..i + 1][..i] == items[..i];
      if items[i].JText? && items[i].text != "" && items[i].text !in seen {
        seen := seen + {items[i].text};
        kept := kept + [items[i].text];
      }
    }
    assert items[..|items|] == items;
  }

  function AsItems(ids: seq<string>): (r: seq<Json>)
    ensures |r| == |ids| && forall i :: 0 <= i < |r| ==> r[i] == JText(ids[i], None)
  {
    seq(|ids|, i requires 0 <= i < |ids| => JText(ids[i], None))
  }

  /** An order that normalising leaves as it is. */
  ghost predicate Normal(order: seq<string>) {
    "" !in order && forall i, j :: 0 <= i < j < |order| ==> order[i] != order[j]
  }

  /** Normalising changes nothing exactly where there is no blank and no repeat; so it is idempotent. */
  lemma {:induction false} NormalIsAFixpoint(order: seq<string>)
    ensures NormalisedOrder(AsItems(order)) == order <==> Normal(order)
  {
    var items := AsItems(order);
    if Normal(order) && order != [] {
      var before := order[..|order| - 1];
      assert AsItems(before) == items[..|items| - 1];
      assert Normal(before);
      NormalIsAFixpoint(before);
      assert order[|order| - 1] !in before;
      assert order == before + [order[|order| - 1]];
    }
  }

  lemma {:induction false} NormalisedIsNormal(items: seq<Json>)
    ensures Normal(NormalisedOrder(items))
    ensures NormalisedOrder(AsItems(NormalisedOrder(items))) == NormalisedOrder(items)
  {
    NormalIsAFixpoint(NormalisedOrder(items));
  }

  predicate Names(item: Json, u: string) { item.JText? && item.text == u }

  /** `u` is at place `p`, and `v` has not come yet. */
  ghost predicate ComesFirst(items: seq<Json>, p: nat, u: string, v: string) {
    p < |items| && Names(items[p], u) && forall q :: 0 <= q <= p ==> !Names(items[q], v)
  }

  /** The ids come in the order of their first occurrences: each was there before the next one ever came. */
  lemma {:induction false} FirstOccurrencesInOrder(items: seq<Json>, i: nat, j: nat)
    requires i < j < |NormalisedOrder(items)|
    ensures exists p :: ComesFirst(items, p, NormalisedOrder(items)[i], NormalisedOrder(items)[j])
  {
    var r := NormalisedOrder(items);
    var init := items[..|items| - 1];
    var before := NormalisedOrder(init);
    if j < |before| {
      FirstOccurrencesInOrder(init, i, j);
      var p :| ComesFirst(init, p, r[i], r[j]);
      forall q | 0 <= q <= p ensures !Names(items[q], r[j]) { assert init[q] == items[q]; }
      assert ComesFirst(items, p, r[i], r[j]);
    } else {
      assert r[i] in before;
      var p :| 0 <= p < |init| && init[p].JText? && init[p].text == r[i];
      forall q | 0 <= q <= p ensures !Names(items[q], r[j]) {
        assert init[q] == items[q];
        assert r[j] !in before;
      }
      assert ComesFirst(items, p, r[i], r[j]);
    }
  }

  /** The members of `ids` that are in `keep`, in their order. */
  function Filter(ids: seq<string>, keep: set<string>): (r: seq<string>)
    ensures forall u :: u in r <==> u in ids && u in keep
  {
    if ids == [] then [] else (if ids[0] in keep then [ids[0]] else []) + Filter(ids[1..], keep)
  }

  function Without(ids: seq<string>, drop: seq<string>): (r: seq<string>)
    ensures forall u :: u in r <==> u in ids && u !in drop
  {
    if ids == [] then [] else (if ids[0] !in drop then [ids[0]] else []) + Without(ids[1..], drop)
  }

  function Members(ids: seq<string>): (r: set<string>)
    ensures forall u :: u in r <==> u in ids
  {
    set u | u in ids
  }

  /** Those covers, the ones the order names first, the rest as they were handed in. */
  function Ordered(order: seq<string>, ids: seq<string>): seq<string> {
    var first := Filter(order, Members(ids));
    first + Without(ids, first)
  }

  ghost predicate NoRepeats(ids: seq<string>) { forall i, j :: 0 <= i < j < |ids| ==> ids[i] != ids[j] }

  lemma {:induction false} FilterCounts(ids: seq<string>, keep: set<string>, u: string)
    ensures multiset(Filter(ids, keep))[u] == if u in keep then multiset(ids)[u] else 0
  {
    if ids != [] {
      assert ids == [ids[0]] + ids[1..];
      FilterCounts(ids[1..], keep, u);
    }
  }

  lemma {:induction false} WithoutCounts(ids: seq<string>, drop: seq<string>, u: string)
    ensures multiset(Without(ids, drop))[u] == if u in drop then 0 else multiset(ids)[u]
  {
    if ids != [] {
      assert ids == [ids[0]] + ids[1..];
      WithoutCounts(ids[1..], drop, u);
    }
  }

  lemma {:induction false} NoRepeatsCounts(ids: seq<string>, u: string)
    requires NoRepeats(ids)
    ensures multiset(ids)[u] == if u in ids then 1 else 0
  {
    if ids != [] {
      assert ids == [ids[0]] + ids[1..];
      NoRepeatsCounts(ids[1..], u);
      assert ids[0] !in ids[1..];
    }
  }

  /** Each id comes out as often as it went in, but for one the order names, which comes out once. */
  lemma OrderedCounts(order: seq<string>, ids: seq<string>, u: string)
    requires NoRepeats(order)
    ensures multiset(Ordered(order, ids))[u] == if u in order && u in ids then 1 else multiset(ids)[u]
  {
    var first := Filter(order, Members(ids));
    FilterCounts(order, Members(ids), u);
    WithoutCounts(ids, first, u);
    NoRepeatsCounts(order, u);
    assert u in first <==> u in order && u in ids;
  }

  /** A permutation exactly when no id the order names is handed in twice. */
  lemma OrderedPermutes(order: seq<string>, ids: seq<string>)
    requires NoRepeats(order)
    ensures multiset(Ordered(order, ids)) == multiset(ids)
            <==> forall u :: u in order && u in ids ==> multiset(ids)[u] == 1
  {
    forall u ensures multiset(Ordered(order, ids))[u] == if u in order && u in ids then 1 else multiset(ids)[u] {
      OrderedCounts(order, ids, u);
    }
    hide Ordered;
    if forall u :: u in order && u in ids ==> multiset(ids)[u] == 1 {
      assert forall u :: multiset(Ordered(order, ids))[u] == multiset(ids)[u];
    }
  }

  lemma {:induction false} FilterOfEnough(ids: seq<string>, a: set<string>, b: set<string>)
    requires forall u :: u in ids ==> (u in a <==> u in b)
    ensures Filter(ids, a) == Filter(ids, b)
  {
    if ids != [] { FilterOfEnough(ids[1..], a, b); }
  }

  lemma {:induction false} WithoutAll(ids: seq<string>, drop: seq<string>)
    requires forall u :: u in ids ==> u in drop
    ensures Without(ids, drop) == []
  {
    if ids != [] { WithoutAll(ids[1..], drop); }
  }

  lemma {:induction false} WithoutNone(ids: seq<string>, drop: seq<string>)
    requires forall u :: u in ids ==> u !in drop
    ensures Without(ids, drop) == ids
  {
    if ids != [] { WithoutNone(ids[1..], drop); assert ids == [ids[0]] + ids[1..]; }
  }

  lemma {:induction false} WithoutAppend(a: seq<string>, b: seq<string>, drop: seq<string>)
    ensures Without(a + b, drop) == Without(a, drop) + Without(b, drop)
  {
    if a == [] { assert a + b == b; }
    else { assert (a + b)[1..] == a[1..] + b; WithoutAppend(a[1..], b, drop); }
  }

  /** Ordering what has been ordered changes nothing. */
  lemma OrderedTwice(order: seq<string>, ids: seq<string>)
    ensures Ordered(order, Ordered(order, ids)) == Ordered(order, ids)
  {
    var first := Filter(order, Members(ids));
    var rest := Without(ids, first);
    var once := first + rest;
    hide Filter, Without, Members;
    forall u | u in order ensures u in Members(ids) <==> u in Members(once) {
      assert u in once <==> u in first || u in rest;
    }
    FilterOfEnough(order, Members(ids), Members(once));
    WithoutAppend(first, rest, first);
    WithoutAll(first, first);
    WithoutNone(rest, first);
  }

  lemma {:induction false} FilterAll(ids: seq<string>, keep: set<string>)
    requires forall u :: u in ids ==> u in keep
    ensures Filter(ids, keep) == ids
  {
    if ids != [] { FilterAll(ids[1..], keep); assert ids == [ids[0]] + ids[1..]; }
  }

  /** Once its own result has been stored as the order, ordering the same ids gives it back. */
  lemma StoredOrderIsAFixpoint(order: seq<string>, ids: seq<string>)
    requires NoRepeats(order) && NoRepeats(ids)
    ensures Ordered(Ordered(order, ids), ids) == Ordered(order, ids)
  {
    var once := Ordered(order, ids);
    FilterAll(once, Members(ids));
    WithoutAll(ids, once);
    assert once + [] == once;
  }

  lemma {:induction false} FilterAppend(a: seq<string>, b: seq<string>, keep: set<string>)
    ensures Filter(a + b, keep) == Filter(a, keep) + Filter(b, keep)
  {
    if a == [] { assert a + b == b; }
    else { assert (a + b)[1..] == a[1..] + b; FilterAppend(a[1..], b, keep); }
  }

  lemma {:induction false} FilterOfFilter(ids: seq<string>, a: set<string>, keep: set<string>)
    ensures Filter(Filter(ids, a), keep) == Filter(ids, a * keep)
  {
    if ids != [] {
      FilterOfFilter(ids[1..], a, keep);
      FilterAppend(if ids[0] in a then [ids[0]] else [], Filter(ids[1..], a), keep);
    }
  }

  lemma {:induction false} FilterOfWithout(ids: seq<string>, drop: seq<string>, drop1: seq<string>, keep: set<string>)
    requires forall u :: u in ids && u in keep ==> (u in drop <==> u in drop1)
    ensures Filter(Without(ids, drop), keep) == Without(Filter(ids, keep), drop1)
  {
    if ids != [] {
      FilterOfWithout(ids[1..], drop, drop1, keep);
      FilterAppend(if ids[0] !in drop then [ids[0]] else [], Without(ids[1..], drop), keep);
      WithoutAppend(if ids[0] in keep then [ids[0]] else [], Filter(ids[1..], keep), drop1);
    }
  }

  /** Ordering commutes with restricting to a group: the members of `group` come in the order they have among all. */
  lemma GroupIsFiltered(order: seq<string>, ids: seq<string>, group: set<string>)
    ensures Ordered(order, Filter(ids, group)) == Filter(Ordered(order, ids), group)
  {
    var first := Filter(order, Members(ids));
    var mine := Filter(order, Members(Filter(ids, group)));
    FilterAppend(first, Without(ids, first), group);
    FilterOfFilter(order, Members(ids), group);
    FilterOfEnough(order, Members(ids) * group, Members(Filter(ids, group)));
    FilterOfWithout(ids, first, mine, group);
  }

  // ---------------------------------------------------------------- the contents, and what each write does to them

  datatype Contents = Contents(profiles: map<string, Record>, covers: map<string, Record>, order: seq<string>)

  function Lookup(m: map<string, Record>, k: string): Option<Record> { if k in m then Some(m[k]) else None }

  /** `m` with that key put, or taken away. */
  function Put(m: map<string, Record>, k: string, v: Option<Record>): (r: map<string, Record>)
    ensures Lookup(r, k) == v
    ensures forall j :: j != k ==> Lookup(r, j) == Lookup(m, j)
  {
    if v.Some? then m[k := v.value] else m - {k}
  }

  lemma SameLookups(a: map<string, Record>, b: map<string, Record>)
    requires forall k :: Lookup(a, k) == Lookup(b, k)
    ensures a == b
  {
    assert forall k :: k in a <==> Lookup(a, k).Some?;
    assert forall k :: k in b <==> Lookup(b, k).Some?;
    forall k | k in a ensures k in b && a[k] == b[k] { assert Lookup(a, k) == Lookup(b, k); }
    forall k | k in b ensures k in a { assert Lookup(a, k) == Lookup(b, k); }
  }

  datatype Assignment = Assignment(cover: string, profile: Option<string>, height: Option<real>)

  /** A record as `stored_calibration` is handed it: with its cover's id, unless it carries one. */
  function Identified(cover: string, r: Record): Record { map[CoverUniqueId := JText(cover, None)] + r }

  function Unassigned(r: Record): Record { r - {ProfileKey, ProfileWins} }

  function Reassigned(r: Record, a: Assignment): Record {
    var r1 := if a.profile.None? then Unassigned(r)
              else r[ProfileKey := JText(a.profile.value, None)][ProfileWins := JBool(true)];
    if a.height.None? then r1 else r1[HeightKey := JNumber(a.height.value)]
  }

  /** The record one assignment leaves, or None when it would say nothing any more. */
  function Assigned(before: Option<Record>, a: Assignment, now: Json): Option<Record> {
    var r := before.GetOr(map[]);
    var r1 := Reassigned(r, a);
    if r1 == r then before
    else if !SaysAnything(ReadCalibration(Identified(a.cover, r1))) then None
    else
      var r2 := if SourceKey in r1 then r1 else r1[SourceKey := GUIDED];
      Some(r2[MeasuredAt := if Truthy(Get(r1, MeasuredAt)) then r1[MeasuredAt] else now])
  }

  function AllAssigned(covers: map<string, Record>, assignments: seq<Assignment>, now: Json): map<string, Record> {
    if assignments == [] then covers
    else
      var a := assignments[|assignments| - 1];
      var covers1 := AllAssigned(covers, assignments[..|assignments| - 1], now);
      Put(covers1, a.cover, Assigned(Lookup(covers1, a.cover), a, now))
  }

  /** The record names the profile. */
  predicate Follows(r: Record, name: string) {
    ProfileKey in r && r[ProfileKey].JText? && r[ProfileKey].text == name
  }

  function Followers(covers: map<string, Record>, name: string): set<string> {
    set k | k in covers && Follows(covers[k], name)
  }

  /** A follower whose profile is gone: without the assignment, or not there at all. */
  function Orphaned(cover: string, r: Record): Option<Record> {
    if SaysAnything(ReadCalibration(Identified(cover, Unassigned(r)))) then Some(Unassigned(r)) else None
  }

  function AllOrphaned(covers: map<string, Record>, name: string): map<string, Record> {
    map k | k in covers && (Follows(covers[k], name) ==> Orphaned(k, covers[k]).Some?)
        :: if Follows(covers[k], name) then Orphaned(k, covers[k]).value else covers[k]
  }

  /** Every write the panel and the guided calibration make. */
  datatype Change =
    | SetAssignments(assignments: seq<Assignment>)
    | SetProfile(name: string, data: Record)
    | RemoveProfile(name: string)
    | SetCalibration(cover: string, data: Record)
    | RemoveCalibration(cover: string)
    | SetOrder(items: seq<Json>, known: Option<set<string>>)

  function WantedOrder(items: seq<Json>, known: Option<set<string>>): seq<string> {
    if known.Some? then Filter(NormalisedOrder(items), known.value) else NormalisedOrder(items)
  }

  function Apply(c: Contents, change: Change, now: Json): Contents {
    match change
    case SetAssignments(assignments) => c.(covers := AllAssigned(c.covers, assignments, now))
    case SetProfile(name, data) => c.(profiles := c.profiles[name := data])
    case RemoveProfile(name) =>
      if name !in c.profiles then c
      else c.(profiles := c.profiles - {name}, covers := AllOrphaned(c.covers, name))
    case SetCalibration(cover, data) => c.(covers := c.covers[cover := data - {CoverUniqueId}])
    case RemoveCalibration(cover) => c.(covers := c.covers - {cover})
    case SetOrder(items, known) => c.(order := WantedOrder(items, known))
  }

  // ---------------------------------------------------------------- the undo

  /** Records to put back: the value of a key is the record it had, or None when it had none. */
  type Patch = map<string, Option<Record>>

  function Patched(m: map<string, Record>, p: Patch): map<string, Record> {
    map k | k in m.Keys + p.Keys && (k in p ==> p[k].Some?) :: if k in p then p[k].value else m[k]
  }

  lemma PatchedLookup(m: map<string, Record>, p: Patch, k: string)
    ensures Lookup(Patched(m, p), k) == if k in p then p[k] else Lookup(m, k)
  {
  }

  function OrderBack(order: seq<string>, wanted: Option<seq<string>>): seq<string> {
    if wanted.Some? then NormalisedOrder(AsItems(wanted.value)) else order
  }

  function Restored(c: Contents, profiles: Patch, covers: Patch, order: Option<seq<string>>): Contents {
    Contents(Patched(c.profiles, profiles), Patched(c.covers, covers), OrderBack(c.order, order))
  }

  /** The covers a change may touch. */
  function TouchedCovers(c: Contents, change: Change): set<string> {
    match change
    case SetAssignments(assignments) => set a | a in assignments :: a.cover
    case RemoveProfile(name) => Followers(c.covers, name)
    case SetCalibration(cover, _) => {cover}
    case RemoveCalibration(cover) => {cover}
    case _ => {}
  }

  function TouchedProfiles(change: Change): set<string> {
    match change
    case SetProfile(name, _) => {name}
    case RemoveProfile(name) => {name}
    case _ => {}
  }

  /** The records of those keys as they are. */
  function Image(m: map<string, Record>, keys: set<string>): Patch { map k | k in keys :: Lookup(m, k) }

  lemma {:induction false} AssignmentsTouch(covers: map<string, Record>, assignments: seq<Assignment>, now: Json,
                                            k: string)
    requires forall i :: 0 <= i < |assignments| ==> assignments[i].cover != k
    ensures Lookup(AllAssigned(covers, assignments, now), k) == Lookup(covers, k)
  {
    hide Assigned;
    if assignments != [] { AssignmentsTouch(covers, assignments[..|assignments| - 1], now, k); }
  }

  /** A change touches no record but those. */
  lemma ChangesTouch(c: Contents, change: Change, now: Json, k: string)
    ensures k !in TouchedCovers(c, change) ==> Lookup(Apply(c, change, now).covers, k) == Lookup(c.covers, k)
    ensures k !in TouchedProfiles(change) ==> Lookup(Apply(c, change, now).profiles, k) == Lookup(c.profiles, k)
  {
    hide AllAssigned, Orphaned;
    if change.SetAssignments? && k !in TouchedCovers(c, change) {
      forall i | 0 <= i < |change.assignments| ensures change.assignments[i].cover != k {
        assert change.assignments[i] in change.assignments;
      }
      AssignmentsTouch(c.covers, change.assignments, now, k);
    }
  }

  lemma PatchUndoes(m: map<string, Record>, m1: map<string, Record>, keys: set<string>)
    requires forall k :: k !in keys ==> Lookup(m1, k) == Lookup(m, k)
    ensures Patched(m1, Image(m, keys)) == m
  {
    forall k ensures Lookup(Patched(m1, Image(m, keys)), k) == Lookup(m, k) { PatchedLookup(m1, Image(m, keys), k); }
    SameLookups(Patched(m1, Image(m, keys)), m);
  }

  /** Restoring the before-image of what a change touched gives back exactly what there was, order and all. */
  lemma UndoIsExact(c: Contents, change: Change, now: Json)
    requires Normal(c.order)
    ensures Restored(Apply(c, change, now), Image(c.profiles, TouchedProfiles(change)),
                     Image(c.covers, TouchedCovers(c, change)),
                     if change.SetOrder? then Some(c.order) else None)
            == c
  {
    hide Patched, Image;
    forall k
      ensures k !in TouchedCovers(c, change) ==> Lookup(Apply(c, change, now).covers, k) == Lookup(c.covers, k)
      ensures k !in TouchedProfiles(change) ==> Lookup(Apply(c, change, now).profiles, k) == Lookup(c.profiles, k)
    {
      ChangesTouch(c, change, now, k);
    }
    PatchUndoes(c.covers, Apply(c, change, now).covers, TouchedCovers(c, change));
    PatchUndoes(c.profiles, Apply(c, change, now).profiles, TouchedProfiles(change));
    NormalIsAFixpoint(c.order);
    hide TouchedCovers, TouchedProfiles, NormalisedOrder;
  }

  /** And it touches no other key, whatever has been written to them meanwhile. */
  lemma UndoTouchesNothingElse(c: Contents, profiles: Patch, covers: Patch, order: Option<seq<string>>, k: string)
    ensures k !in profiles ==> Lookup(Restored(c, profiles, covers, order).profiles, k) == Lookup(c.profiles, k)
    ensures k !in covers ==> Lookup(Restored(c, profiles, covers, order).covers, k) == Lookup(c.covers, k)
    ensures k in covers ==> Lookup(Restored(c, profiles, covers, order).covers, k) == covers[k]
    ensures k in profiles ==> Lookup(Restored(c, profiles, covers, order).profiles, k) == profiles[k]
  {
    PatchedLookup(c.profiles, profiles, k);
    PatchedLookup(c.covers, covers, k);
  }

  lemma FilterIsNormal(ids: seq<string>, keep: set<string>)
    requires Normal(ids)
    ensures Normal(Filter(ids, keep))
  {
    forall i, j | 0 <= i < j < |Filter(ids, keep)| ensures Filter(ids, keep)[i] != Filter(ids, keep)[j] {
      if Filter(ids, keep)[i] == Filter(ids, keep)[j] {
        Twice(Filter(ids, keep), i, j);
        FilterCounts(ids, keep, Filter(ids, keep)[i]);
        NoRepeatsCounts(ids, Filter(ids, keep)[i]);
      }
    }
  }

  lemma Twice(ids: seq<string>, i: nat, j: nat)
    requires i < j < |ids| && ids[i] == ids[j]
    ensures multiset(ids)[ids[i]] >= 2
  {
    assert ids == ids[..i] + [ids[i]] + ids[i + 1..j] + [ids[j]] + ids[j + 1..];
  }

  /** The order stays normalised under every write. */
  lemma OrderStaysNormal(c: Contents, change: Change, now: Json)
    requires Normal(c.order)
    ensures Normal(Apply(c, change, now).order)
  {
    if change.SetOrder? {
      NormalisedIsNormal(change.items);
      if change.known.Some? { FilterIsNormal(NormalisedOrder(change.items), change.known.value); }
    }
  }

  /** A profile that is removed is followed by nobody afterwards. A follower that was measured, by its height
      or by a number of the travel model, keeps its whole record but for the assignment; one that only
      followed is gone; nobody else is touched. */
  lemma RemovedProfileIsForgotten(c: Contents, name: string, now: Json, k: string)
    requires name in c.profiles
    ensures Followers(Apply(c, RemoveProfile(name), now).covers, name) == {}
    ensures Lookup(Apply(c, RemoveProfile(name), now).covers, k)
            == if k in Followers(c.covers, name)
               then (var read := ReadCalibration(Identified(k, c.covers[k]));
                     if read.height.Some? || read.overrides != map[] then Some(c.covers[k] - {ProfileKey, ProfileWins})
                     else None)
               else Lookup(c.covers, k)
  {
    if k in c.covers { UnassignedReads(k, c.covers[k]); }
    hide ReadCalibration, SaysAnything;
    forall j | j in c.covers && Follows(c.covers[j], name) ensures !Follows(Unassigned(c.covers[j]), name) {}
  }

  lemma UnassignedReads(cover: string, r: Record)
    ensures var read := ReadCalibration(Identified(cover, r));
            SaysAnything(ReadCalibration(Identified(cover, Unassigned(r))))
            <==> read.height.Some? || read.overrides != map[]
  {
    var a, b := Identified(cover, r), Identified(cover, Unassigned(r));
    assert Get(a, HeightKey) == Get(b, HeightKey) && Get(a, Overrides) == Get(b, Overrides)
           && Get(b, ProfileKey) == None;
    hide Identified;
  }

  /** An assignment that is not already so moves the record, and only such a one does. */
  lemma AssignmentMoves(before: Option<Record>, a: Assignment, now: Json)
    ensures Assigned(before, a, now) != before <==> Reassigned(before.GetOr(map[]), a) != before.GetOr(map[])
  {
    var r := before.GetOr(map[]);
    var r1 := Reassigned(r, a);
    if r1 != r {
      ReassignedDiffers(r, a);
      if before.None? { NewAssignmentSpeaks(a); }
      hide Reassigned, ReadCalibration;
    }
  }

  lemma ReassignedDiffers(r: Record, a: Assignment)
    requires Reassigned(r, a) != r
    ensures var r1 := Reassigned(r, a);
            Get(r1, ProfileKey) != Get(r, ProfileKey) || Get(r1, ProfileWins) != Get(r, ProfileWins)
            || Get(r1, HeightKey) != Get(r, HeightKey)
  {
    var r1 := Reassigned(r, a);
    forall k | k != ProfileKey && k != ProfileWins && k != HeightKey ensures Get(r1, k) == Get(r, k) {}
    if Get(r1, ProfileKey) == Get(r, ProfileKey) && Get(r1, ProfileWins) == Get(r, ProfileWins)
       && Get(r1, HeightKey) == Get(r, HeightKey) {
      SameRecord(r1, r);
    }
  }

  lemma SameRecord(a: Record, b: Record)
    requires forall k :: Get(a, k) == Get(b, k)
    ensures a == b
  {
    forall k | k in a ensures k in b && a[k] == b[k] { assert Get(a, k) == Get(b, k); }
    forall k | k in b ensures k in a { assert Get(a, k) == Get(b, k); }
  }

  lemma NewAssignmentSpeaks(a: Assignment)
    requires Reassigned(map[], a) != map[]
    ensures SaysAnything(ReadCalibration(Identified(a.cover, Reassigned(map[], a))))
  {
    var r := Identified(a.cover, Reassigned(map[], a));
    assert Unassigned(map[]) == map[];
    if a.profile.Some? { assert Get(r, ProfileKey) == Some(JText(a.profile.value, None)); }
    else if a.height.Some? { assert Get(r, HeightKey) == Some(JNumber(a.height.value)); }
  }

  // ---------------------------------------------------------------- what an assignment leaves

  /** The record names just that profile, wins with it, and has the height that was given. */
  predicate AlreadySo(r: Record, a: Assignment) {
    && Get(r, ProfileKey) == (if a.profile.Some? then Some(JText(a.profile.value, None)) else None)
    && Get(r, ProfileWins) == (if a.profile.Some? then Some(JBool(true)) else None)
    && (a.height.Some? ==> Get(r, HeightKey) == Some(JNumber(a.height.value)))
  }

  /** What becomes of the record of an assigned cover. Where there is one it reads back as that profile, winning
      exactly when there is one, at the height given or else the one there was, with the numbers there were.
      There is none exactly when that would say nothing, unless a mute record was so already. One that is
      so stays as it is; another is stamped, and keeps everything the assignment is not about. */
  ghost predicate IsAssigned(before: Option<Record>, after: Option<Record>, a: Assignment, now: Json) {
    var record := before.GetOr(map[]);
    var was := ReadCalibration(Identified(a.cover, record));
    var height := if a.height.Some? then a.height else was.height;
    var mute := a.profile.None? && height.None? && was.overrides == map[];
    && (after.None? <==> mute && (before.None? || ProfileKey in record || ProfileWins in record))
    && (after == before <==> AlreadySo(record, a))
    && (after.Some? ==>
          && (forall k: Key ::
                !k.ProfileKey? && !k.ProfileWins? && !k.HeightKey? && !k.SourceKey? && !k.MeasuredAt? ==>
                  Get(after.value, k) == Get(record, k))
          && var read := ReadCalibration(Identified(a.cover, after.value));
             && read.profile == a.profile && read.profileWins == a.profile.Some? && read.height == height
             && read.overrides == was.overrides)
    && (after.Some? && after != before ==>
          && Get(after.value, SourceKey) == Some(Get(record, SourceKey).GetOr(GUIDED))
          && Get(after.value, MeasuredAt)
             == (if Truthy(Get(record, MeasuredAt)) then Get(record, MeasuredAt) else Some(now)))
  }

  /** The assignments of distinct covers: each leaves the record of its own cover so, and no other record moves. */
  lemma AssignmentsReadBack(c: Contents, assignments: seq<Assignment>, now: Json)
    requires forall i, j :: 0 <= i < j < |assignments| ==> assignments[i].cover != assignments[j].cover
    ensures var covers := Apply(c, SetAssignments(assignments), now).covers;
            && (forall i :: 0 <= i < |assignments| ==>
                  IsAssigned(Lookup(c.covers, assignments[i].cover), Lookup(covers, assignments[i].cover),
                             assignments[i], now))
            && (forall k :: (forall i :: 0 <= i < |assignments| ==> assignments[i].cover != k) ==>
                  Lookup(covers, k) == Lookup(c.covers, k))
  {
    hide Assigned, IsAssigned, AllAssigned, Lookup;
    var covers := Apply(c, SetAssignments(assignments), now).covers;
    forall i | 0 <= i < |assignments|
      ensures IsAssigned(Lookup(c.covers, assignments[i].cover), Lookup(covers, assignments[i].cover), assignments[i],
                         now)
    {
      AssignedInTurn(c.covers, assignments, i, now);
      OneIsAssigned(Lookup(c.covers, assignments[i].cover), assignments[i], now);
    }
    forall k | forall i :: 0 <= i < |assignments| ==> assignments[i].cover != k
      ensures Lookup(covers, k) == Lookup(c.covers, k)
    {
      AssignmentsTouch(c.covers, assignments, now, k);
    }
  }

  /** The turn of one assignment: the ones before it and after it are about other covers. */
  lemma {:induction false} AssignedInTurn(covers: map<string, Record>, assignments: seq<Assignment>, i: nat, now: Json)
    requires i < |assignments|
    requires forall i, j :: 0 <= i < j < |assignments| ==> assignments[i].cover != assignments[j].cover
    ensures var a := assignments[i];
            Lookup(AllAssigned(covers, assignments, now), a.cover) == Assigned(Lookup(covers, a.cover), a, now)
  {
    hide Assigned;
    var n := |assignments| - 1;
    if i == n { AssignmentsTouch(covers, assignments[..n], now, assignments[n].cover); }
    else { AssignedInTurn(covers, assignments[..n], i, now); }
  }

  lemma OneIsAssigned(before: Option<Record>, a: Assignment, now: Json)
    ensures IsAssigned(before, Assigned(before, a, now), a, now)
  {
    hide ReadCalibration, Reassigned, Assigned, AlreadySo, Identified, IsAssigned;
    var record := before.GetOr(map[]);
    ReassignedReads(record, a);
    if Reassigned(record, a) == record { UnmovedIsAssigned(before, a, now); }
    else {
      AssignmentMoves(before, a, now);
      if SaysAnything(ReadCalibration(Identified(a.cover, Reassigned(record, a)))) {
        StampedIsAssigned(before, a, now);
      } else {
        MuteIsAssigned(before, a, now);
      }
    }
  }

  lemma UnmovedIsAssigned(before: Option<Record>, a: Assignment, now: Json)
    requires Reassigned(before.GetOr(map[]), a) == before.GetOr(map[])
    ensures IsAssigned(before, Assigned(before, a, now), a, now)
  {
    var record := before.GetOr(map[]);
    ReassignedReads(record, a);
    IdentifiedGets(a.cover, record);
    hide Reassigned, Identified;
    if before.None? { assert Get(record, HeightKey).None? && Get(record, Overrides).None?; }
    else if ProfileKey in record || ProfileWins in record { assert a.profile.Some?; }
  }

  lemma MuteIsAssigned(before: Option<Record>, a: Assignment, now: Json)
    requires var record := before.GetOr(map[]);
             && Reassigned(record, a) != record
             && !SaysAnything(ReadCalibration(Identified(a.cover, Reassigned(record, a))))
    ensures IsAssigned(before, Assigned(before, a, now), a, now)
  {
    ReassignedReads(before.GetOr(map[]), a);
    AssignmentMoves(before, a, now);
    hide Reassigned, ReadCalibration, Identified;
  }

  lemma StampedIsAssigned(before: Option<Record>, a: Assignment, now: Json)
    requires var record := before.GetOr(map[]);
             && Reassigned(record, a) != record
             && SaysAnything(ReadCalibration(Identified(a.cover, Reassigned(record, a))))
    ensures IsAssigned(before, Assigned(before, a, now), a, now)
  {
    hide ReadCalibration, Identified, Get, Reassigned, Assigned, Truthy, AlreadySo;
    var record := before.GetOr(map[]);
    var r1 := Reassigned(record, a);
    AssignmentMoves(before, a, now);
    ReassignedReads(record, a);
    StampGets(before, a, now);
    StampedReads(a.cover, r1, Assigned(before, a, now).value);
  }

  lemma StampGets(before: Option<Record>, a: Assignment, now: Json)
    requires var record := before.GetOr(map[]);
             && Reassigned(record, a) != record
             && SaysAnything(ReadCalibration(Identified(a.cover, Reassigned(record, a))))
    ensures var r, after := Reassigned(before.GetOr(map[]), a), Assigned(before, a, now);
            && after.Some?
            && (forall k :: k != SourceKey && k != MeasuredAt ==> Get(after.value, k) == Get(r, k))
            && Get(after.value, SourceKey) == Some(Get(r, SourceKey).GetOr(GUIDED))
            && Get(after.value, MeasuredAt) == (if Truthy(Get(r, MeasuredAt)) then Get(r, MeasuredAt) else Some(now))
  {
    hide ReadCalibration, Identified, Reassigned;
  }

  lemma ReassignedReads(r: Record, a: Assignment)
    ensures var r1 := Reassigned(r, a);
            var was, says := ReadCalibration(Identified(a.cover, r)), ReadCalibration(Identified(a.cover, r1));
            && says.profile == a.profile && says.profileWins == a.profile.Some?
            && says.height == (if a.height.Some? then a.height else was.height) && says.overrides == was.overrides
            && (r1 == r <==> AlreadySo(r, a))
            && (forall k: Key :: !k.ProfileKey? && !k.ProfileWins? && !k.HeightKey? ==> Get(r1, k) == Get(r, k))
  {
    var r1 := Reassigned(r, a);
    assert Get(r1, ProfileKey) == (if a.profile.Some? then Some(JText(a.profile.value, None)) else None);
    assert Get(r1, ProfileWins) == (if a.profile.Some? then Some(JBool(true)) else None);
    assert Get(r1, HeightKey) == (if a.height.Some? then Some(JNumber(a.height.value)) else Get(r, HeightKey));
    forall k: Key | !k.ProfileKey? && !k.ProfileWins? && !k.HeightKey? ensures Get(r1, k) == Get(r, k) {}
    IdentifiedGets(a.cover, r);
    IdentifiedGets(a.cover, r1);
    hide Reassigned, Identified;
    if AlreadySo(r, a) { SameRecord(r1, r); }
  }

  /** A record under its cover's id has its own keys. */
  lemma IdentifiedGets(cover: string, r: Record)
    ensures forall k :: k != CoverUniqueId ==> Get(Identified(cover, r), k) == Get(r, k)
  {
  }

  lemma StampedReads(cover: string, r: Record, r1: Record)
    requires forall k :: k != SourceKey && k != MeasuredAt ==> Get(r1, k) == Get(r, k)
    ensures var a, b := ReadCalibration(Identified(cover, r)), ReadCalibration(Identified(cover, r1));
            && b.profile == a.profile && b.profileWins == a.profileWins && b.height == a.height
            && b.overrides == a.overrides
  {
    IdentifiedGets(cover, r);
    IdentifiedGets(cover, r1);
    hide Identified, Get;
  }

  // ---------------------------------------------------------------- the store itself

  /** A section without the values that are no objects: those count as absent. */
  function RecordsOnly(section: map<string, Json>): map<string, Record> {
    map k | k in section && section[k].JObject? :: section[k].fields
  }

  class CalibrationStore {
    var profiles: map<string, Record>
    var covers: map<string, Record>
    var order: seq<string>
    var saves: nat              // every save withdraws the undo that was standing

    ghost predicate Valid()
      reads this
    {
      Normal(order)
    }

    ghost function Holds(): Contents
      reads this
    {
      Contents(profiles, covers, order)
    }

    /** A store over the three sections of a file; what cannot be read as a record or an order is left behind. */
    constructor (profileSection: map<string, Json>, coverSection: map<string, Json>, orderSection: Option<seq<Json>>)
      ensures Valid()
      ensures Holds() == Contents(RecordsOnly(profileSection), RecordsOnly(coverSection),
                                  NormalisedOrder(orderSection.GetOr([])))
    {
      profiles := RecordsOnly(profileSection);
      covers := RecordsOnly(coverSection);
      order := NormalisedOrder(orderSection.GetOr([]));
      saves := 0;
      NormalisedIsNormal(orderSection.GetOr([]));
    }

    method SetProfile(name: string, data: Record)
      requires Valid()
      modifies this
      ensures Valid() && Holds() == Apply(old(Holds()), Change.SetProfile(name, data), JNull)
      ensures saves == old(saves) + 1
    {
      profiles := profiles[name := data];
      saves := saves + 1;
    }

    method RemoveProfile(name: string) returns (orphans: set<string>)
      requires Valid()
      modifies this
      ensures Valid() && Holds() == Apply(old(Holds()), Change.RemoveProfile(name), JNull)
      ensures orphans == if name in old(profiles) then Followers(old(covers), name) else {}
      ensures saves == old(saves) + if name in old(profiles) then 1 else 0
    {
      if name !in profiles { return {}; }
      profiles := profiles - {name};
      orphans := set k | k in covers && Follows(covers[k], name);
      covers := OrphanAll(covers, orphans, name);
      saves := saves + 1;
    }

    static method OrphanAll(m: map<string, Record>, orphans: set<string>, name: string) returns (r: map<string, Record>)
      requires orphans == Followers(m, name)
      ensures r == AllOrphaned(m, name)
    {
      r := m;
      var todo := orphans;
      while todo != {}
        invariant todo <= orphans
        invariant forall k :: Lookup(r, k) == if k in orphans && k !in todo then Orphaned(k, m[k]) else Lookup(m, k)
        decreases |todo|
      {
        hide Orphaned, Put;
        var cover :| cover in todo;
        assert Lookup(r, cover) == Lookup(m, cover);
        r := Put(r, cover, TheOrphan(cover, r[cover]));
        todo := todo - {cover};
      }
      OrphansAreAll(m, r, name);
    }

    static function TheOrphan(cover: string, r: Record): (o: Option<Record>)
      ensures o == Orphaned(cover, r)
    {
      var record := r - {ProfileKey, ProfileWins};
      if SaysAnything(ReadCalibration(Identified(cover, record))) then Some(record) else None
    }

    method SetCalibration(cover: string, data: Record)
      requires Valid()
      modifies this
      ensures Valid() && Holds() == Apply(old(Holds()), Change.SetCalibration(cover, data), JNull)
      ensures saves == old(saves) + 1
    {
      covers := covers[cover := data - {CoverUniqueId}];
      saves := saves + 1;
    }

    method RemoveCalibration(cover: string) returns (there: bool)
      requires Valid()
      modifies this
      ensures Valid() && Holds() == Apply(old(Holds()), Change.RemoveCalibration(cover), JNull)
      ensures (there <==> Holds() != old(Holds())) && saves == old(saves) + if there then 1 else 0
    {
      there := cover in covers;
      if there {
        covers := covers - {cover};
        saves := saves + 1;
      }
    }

    method SetOrder(items: seq<Json>, known: Option<set<string>>) returns (changed: bool)
      requires Valid()
      modifies this
      ensures Valid() && Holds() == Apply(old(Holds()), Change.SetOrder(items, known), JNull)
      ensures (changed <==> Holds() != old(Holds())) && saves == old(saves) + if changed then 1 else 0
    {
      OrderStaysNormal(Holds(), Change.SetOrder(items, known), JNull);
      var wanted := NormaliseOrder(items);
      if known.Some? { wanted := Filter(wanted, known.value); }
      changed := wanted != order;
      if changed {
        order := wanted;
        saves := saves + 1;
      }
    }

    /** One record per assignment, in turn; `changed` says whether any record is another one than before. Each cover is
        assigned at most once. */
    method SetAssignments(assignments: seq<Assignment>, now: Json) returns (changed: bool)
      requires Valid()
      requires forall i, j :: 0 <= i < j < |assignments| ==> assignments[i].cover != assignments[j].cover
      modifies this
      ensures Valid() && Holds() == Apply(old(Holds()), Change.SetAssignments(assignments), now)
      ensures (changed <==> Holds() != old(Holds())) && saves == old(saves) + if changed then 1 else 0
    {
      covers, changed := AssignAll(covers, assignments, now);
      if changed { saves := saves + 1; }
    }

    static method AssignAll(m: map<string, Record>, assignments: seq<Assignment>, now: Json)
        returns (r: map<string, Record>, moved: bool)
      requires forall i, j :: 0 <= i < j < |assignments| ==> assignments[i].cover != assignments[j].cover
      ensures r == AllAssigned(m, assignments, now) && (moved <==> r != m)
    {
      hide Assigned, Reassigned, Put, AllAssigned;
      r, moved := m, false;
      assert assignments[..0] == [];
      NothingAssigned(m, now);
      for i := 0 to |assignments|
        invariant r == AllAssigned(m, assignments[..i], now)
        invariant moved <==> r != m
      {
        var a := assignments[i];
        AssignStep(m, assignments, i, now);
        var outcome := TheAssigned(if a.cover in r then Some(r[a.cover]) else None, a, now);
        if outcome.0 { moved := true; }
        r := Put(r, a.cover, outcome.1);
      }
      assert assignments[..|assignments|] == assignments;
    }

    /** Whether the record moves, and to what. */
    static function TheAssigned(before: Option<Record>, a: Assignment, now: Json): (o: (bool, Option<Record>))
      ensures o.0 <==> Reassigned(before.GetOr(map[]), a) != before.GetOr(map[])
      ensures o.1 == Assigned(before, a, now)
    {
      (Reassigned(before.GetOr(map[]), a) != before.GetOr(map[]), Assigned(before, a, now))
    }

    /** Every key of the two patches ends as its patch says, present or absent, and the rest as it was. */
    method Restore(profilePatch: Patch, coverPatch: Patch, wanted: Option<seq<string>>) returns (changed: bool)
      requires Valid()
      modifies this
      ensures Valid() && Holds() == Restored(old(Holds()), profilePatch, coverPatch, wanted)
      ensures (changed <==> Holds() != old(Holds())) && saves == old(saves) + if changed then 1 else 0
    {
      hide Patched, Normal, OrderBack;
      var profiles1, profilesMoved := PutBack(profiles, profilePatch);
      var covers1, coversMoved := PutBack(covers, coverPatch);
      var order1 := PutOrderBack(order, wanted);
      changed := profilesMoved || coversMoved || order1 != order;
      profiles, covers, order := profiles1, covers1, order1;
      if changed { saves := saves + 1; }
    }

    static method PutOrderBack(order: seq<string>, wanted: Option<seq<string>>) returns (r: seq<string>)
      ensures r == OrderBack(order, wanted) && (Normal(order) || wanted.Some? ==> Normal(r))
    {
      if wanted.None? { return order; }
      NormalisedIsNormal(AsItems(wanted.value));
      r := NormaliseOrder(AsItems(wanted.value));
    }

    static method PutBack(m: map<string, Record>, p: Patch) returns (r: map<string, Record>, moved: bool)
      ensures r == Patched(m, p)
      ensures moved <==> r != m
    {
      r, moved := m, false;
      var todo := p.Keys;
      while todo != {}
        invariant todo <= p.Keys
        invariant forall k :: Lookup(r, k) == if k in p && k !in todo then p[k] else Lookup(m, k)
        invariant moved <==> exists k :: Lookup(r, k) != Lookup(m, k)
        decreases |todo|
      {
        hide Put;
        var k :| k in todo;
        ghost var before := r;
        assert Lookup(r, k) == Lookup(m, k);
        if p[k] != (if k in r then Some(r[k]) else None) {
          r := Put(r, k, p[k]);
          moved := true;
          assert Lookup(r, k) != Lookup(m, k);
        }
        todo := todo - {k};
        assert forall j :: j != k ==> Lookup(r, j) == Lookup(before, j);
      }
      forall k ensures Lookup(r, k) == Lookup(Patched(m, p), k) { PatchedLookup(m, p, k); }
      SameLookups(r, Patched(m, p));
      Moved(m, r);
    }
  }

  lemma NothingAssigned(m: map<string, Record>, now: Json)
    ensures AllAssigned(m, [], now) == m
  {
  }

  /** One more assignment: it moves the whole if it moves its own record, and hides no move of another. */
  lemma AssignStep(m: map<string, Record>, assignments: seq<Assignment>, i: nat, now: Json)
    requires i < |assignments|
    requires forall i, j :: 0 <= i < j < |assignments| ==> assignments[i].cover != assignments[j].cover
    ensures var a, before := assignments[i], AllAssigned(m, assignments[..i], now);
            var after := AllAssigned(m, assignments[..i + 1], now);
            && after == Put(before, a.cover, Assigned(Lookup(before, a.cover), a, now))
            && (after != m
                <==> (before != m
                      || Reassigned(Lookup(before, a.cover).GetOr(map[]), a) != Lookup(before, a.cover).GetOr(map[])))
  {
    hide Assigned, Reassigned, Put;
    var a, before := assignments[i], AllAssigned(m, assignments[..i], now);
    assert assignments[..i + 1][..i] == assignments[..i];
    AssignmentsTouch(m, assignments[..i], now, a.cover);
    AssignmentMoves(Lookup(m, a.cover), a, now);
    var after := Put(before, a.cover, Assigned(Lookup(before, a.cover), a, now));
    if Assigned(Lookup(m, a.cover), a, now) == Lookup(m, a.cover) { SameLookups(after, before); }
    else { assert Lookup(after, a.cover) != Lookup(m, a.cover); }
  }

  lemma Moved(a: map<string, Record>, b: map<string, Record>)
    ensures a != b <==> exists k :: Lookup(b, k) != Lookup(a, k)
  {
    if forall k :: Lookup(b, k) == Lookup(a, k) { SameLookups(a, b); }
  }

  lemma OrphansAreAll(covers: map<string, Record>, covers1: map<string, Record>, name: string)
    requires forall k :: Lookup(covers1, k)
               == if k in Followers(covers, name) then Orphaned(k, covers[k]) else Lookup(covers, k)
    ensures covers1 == AllOrphaned(covers, name)
  {
    hide Orphaned;
    SameLookups(covers1, AllOrphaned(covers, name));
  }

  /** A calibration written by a save reads back, through the store, as what the save said. */
  lemma WrittenCalibrationReadsBack(c: Contents, cover: string, profile: Option<string>, profileWins: bool,
                                    height: Option<real>, overrides: map<Key, real>, source: Json, measuredAt: Json,
                                    raw: map<Key, Json>, now: Json)
    ensures var data := CalibrationData(cover, profile, profileWins, height, overrides, source, measuredAt, raw);
            var covers := Apply(c, SetCalibration(cover, data), now).covers;
            cover in covers
            && ReadCalibration(Identified(cover, covers[cover]))
               == StoredCalibration(cover, profile, profileWins && profile.Some?, height, TravelOnly(overrides),
                                    source, Some(measuredAt))
  {
    var data := CalibrationData(cover, profile, profileWins, height, overrides, source, measuredAt, raw);
    CalibrationReadsBack(cover, profile, profileWins, height, overrides, source, measuredAt, raw);
    CalibrationFields(cover, profile, profileWins, height, overrides, source, measuredAt, raw);
    hide CalibrationData, ReadCalibration;
    assert Get(data, CoverUniqueId) == Some(JText(cover, None));
    SameRecord(Identified(cover, data - {CoverUniqueId}), data) by {
      forall k ensures Get(Identified(cover, data - {CoverUniqueId}), k) == Get(data, k) {}
    }
  }
}
