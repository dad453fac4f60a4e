/** The stages of the guided conversation, the plans that list them, and the dealing out
    of the tape readings (calibration_flow.py). */
module Plans {
  import opened Wrappers

  /** An end stop, or the run that reaches it. */
  datatype Direction = Close | Open

  function OtherEnd(d: Direction): Direction {
    if d.Close? then Open else Close
  }

  datatype Stage =
    | HomeClosed | OpenTimed | HeightRead | CloseTimed | TapeBrief
    | HalfDown | HalfUp | QuarterDown | ThreeQuarterDown | QuarterUp | ThreeQuarterUp
    | Verify | VerifyB | VerifyOffer | ProfileName | Summary

  const PLAN_FULL: seq<Stage> :=
    [HomeClosed, OpenTimed, HeightRead, CloseTimed, TapeBrief, HalfDown, HalfUp, ProfileName, Summary]
  const PLAN_PRECISE: seq<Stage> :=
    [TapeBrief, QuarterDown, ThreeQuarterDown, QuarterUp, ThreeQuarterUp, Verify, Summary]
  const PLAN_PRECISE_TRAVEL: seq<Stage> :=
    [TapeBrief, HeightRead, QuarterDown, ThreeQuarterDown, QuarterUp, ThreeQuarterUp, Verify, Summary]
  const PLAN_PROFILE: seq<Stage> := [TapeBrief, HeightRead, VerifyOffer, Summary]
  const PLAN_TIMES: seq<Stage> := [HomeClosed, OpenTimed, CloseTimed, Summary]
  const PLAN_TIMES_AND_ROLLS: seq<Stage> :=
    [HomeClosed, OpenTimed, HeightRead, CloseTimed, TapeBrief, HalfDown, HalfUp, Summary]

  /** The readings a fit is made from: the ones that may be dealt in another order. */
  predicate Movable(s: Stage) {
    s.HalfDown? || s.HalfUp? || s.QuarterDown? || s.ThreeQuarterDown? || s.QuarterUp? || s.ThreeQuarterUp?
  }

  /** A stage that is one run to a percentage with a tape at the end of it. */
  predicate IsReading(s: Stage) { Movable(s) || s == Verify || s == VerifyB }

  /** The direction the run of a reading goes in. */
  function RunDirection(s: Stage): Direction {
    if s.HalfUp? || s.QuarterUp? || s.ThreeQuarterUp? || s.VerifyB? then Open else Close
  }

  /** The end stop a reading's run starts from; the travel is read at the top. */
  function StartsFrom(s: Stage): Direction {
    if s == HeightRead then Open else OtherEnd(RunDirection(s))
  }

  // ---------------------------------------------------------------- dealing the readings out

  function MovableOf(stages: seq<Stage>): seq<Stage> {
    if stages == [] then []
    else (if Movable(stages[0]) then [stages[0]] else []) + MovableOf(stages[1..])
  }

  /** The least index of a reading that starts at `at`, or the length. */
  function FirstFrom(movable: seq<Stage>, at: Option<Direction>): (k: nat)
    ensures k <= |movable|
    ensures k < |movable| ==> at == Some(StartsFrom(movable[k]))
    ensures forall i :: 0 <= i < k ==> at != Some(StartsFrom(movable[i]))
  {
    if movable == [] then 0
    else if Some(StartsFrom(movable[0])) == at then 0
    else 1 + FirstFrom(movable[1..], at)
  }

  /** That reading brought to the front, everything else in the plan's own order. */
  function Promote(movable: seq<Stage>, at: Option<Direction>): (r: seq<Stage>)
    ensures |r| == |movable|
  {
    var k := FirstFrom(movable, at);
    if k == |movable| then movable else [movable[k]] + movable[..k] + movable[k + 1..]
  }

  /** `hand` dealt into the movable places of `stages`. */
  function Deal(stages: seq<Stage>, hand: seq<Stage>): (r: seq<Stage>)
    requires |hand| == |MovableOf(stages)|
    ensures |r| == |stages|
  {
    if stages == [] then []
    else if Movable(stages[0]) then [hand[0]] + Deal(stages[1..], hand[1..])
    else [stages[0]] + Deal(stages[1..], hand)
  }

  function OrderOf(stages: seq<Stage>, at: Option<Direction>): (r: seq<Stage>)
    ensures |r| == |stages|
  {
    Deal(stages, Promote(MovableOf(stages), at))
  }

  /** The dealing as the dialog carries it out: pick, remove, append, one reading at a time. */
  method OrderTheReadings(stages: seq<Stage>, at: Option<Direction>) returns (r: seq<Stage>)
    ensures r == OrderOf(stages, at)
  {
    hide Promote;
    var movable := MovableOf(stages);
    var ordered: seq<Stage> := [];
    var here := at;
    while movable != []
      invariant here == None || (ordered == [] && here == at)
      invariant ordered + Promote(movable, here) == Promote(MovableOf(stages), at)
      decreases |movable|
    {
      var found := FirstFrom(movable, here);
      var pick := if found == |movable| then 0 else found;
      PromoteStep(movable, here, pick);
      Regrouped(ordered, movable[pick], Promote(movable[..pick] + movable[pick + 1..], None), Promote(movable, here));
      ordered := ordered + [movable[pick]];
      movable := movable[..pick] + movable[pick + 1..];
      here := None;
    }
    NothingToPromote(here);
    assert ordered == ordered + Promote(movable, here);
    r := Deal(stages, ordered);
  }

  lemma NothingToPromote(at: Option<Direction>)
    ensures Promote([], at) == []
  {
  }

  lemma Regrouped(a: seq<Stage>, x: Stage, b: seq<Stage>, c: seq<Stage>)
    requires c == [x] + b
    ensures (a + [x]) + b == a + c
  {
  }

  /** One turn of the loop above: the pick is the head of the promoted hand, and what is left
      is dealt as if the shutter stood nowhere. */
  lemma PromoteStep(movable: seq<Stage>, here: Option<Direction>, pick: nat)
    requires movable != []
    requires pick == if FirstFrom(movable, here) == |movable| then 0 else FirstFrom(movable, here)
    ensures Promote(movable, here) == [movable[pick]] + Promote(movable[..pick] + movable[pick + 1..], None)
  {
    hide Promote, FirstFrom;
    NothingStartsNowhere(movable[..pick] + movable[pick + 1..]);
    PromoteIs(movable, here);
    PickedApart(movable, pick);
  }

  lemma PickedApart(movable: seq<Stage>, pick: nat)
    requires pick < |movable|
    ensures [movable[pick]] + movable[..pick] + movable[pick + 1..]
            == [movable[pick]] + (movable[..pick] + movable[pick + 1..])
    ensures pick == 0 ==> movable == [movable[0]] + (movable[..0] + movable[1..])
  {
  }

  lemma PromoteIs(movable: seq<Stage>, at: Option<Direction>)
    ensures var k := FirstFrom(movable, at);
            Promote(movable, at) == if k == |movable| then movable else [movable[k]] + movable[..k] + movable[k + 1..]
  {
  }

  lemma NothingStartsNowhere(movable: seq<Stage>)
    ensures Promote(movable, None) == movable
  {
  }

  // ---------------------------------------------------------------- what the dealing keeps

  lemma {:induction false} AllMovable(stages: seq<Stage>)
    ensures forall s :: s in MovableOf(stages) ==> Movable(s)
  {
    if stages != [] { AllMovable(stages[1..]); }
  }

  lemma {:induction false} DealKeeps(stages: seq<Stage>, hand: seq<Stage>)
    requires |hand| == |MovableOf(stages)|
    requires forall s :: s in hand ==> Movable(s)
    ensures MovableOf(Deal(stages, hand)) == hand
    ensures forall i :: 0 <= i < |stages| && !Movable(stages[i]) ==> Deal(stages, hand)[i] == stages[i]
    ensures forall i :: 0 <= i < |stages| && Movable(stages[i]) ==> Movable(Deal(stages, hand)[i])
  {
    if stages != [] {
      var d := Deal(stages, hand);
      if Movable(stages[0]) {
        assert hand[0] in hand;
        assert forall s :: s in hand[1..] ==> s in hand;
        DealKeeps(stages[1..], hand[1..]);
        assert d[1..] == Deal(stages[1..], hand[1..]);
      } else {
        DealKeeps(stages[1..], hand);
        assert d[1..] == Deal(stages[1..], hand);
      }
    }
  }

  lemma {:induction false} MultisetSplit(stages: seq<Stage>, s: Stage)
    requires Movable(s)
    ensures multiset(stages)[s] == multiset(MovableOf(stages))[s]
  {
    if stages != [] {
      assert stages == [stages[0]] + stages[1..];
      MultisetSplit(stages[1..], s);
    }
  }

  lemma {:induction false} SamePlacesSameFixed(a: seq<Stage>, b: seq<Stage>, s: Stage)
    requires |a| == |b| && !Movable(s)
    requires forall i :: 0 <= i < |a| ==> Movable(a[i]) == Movable(b[i]) && (Movable(a[i]) || a[i] == b[i])
    ensures multiset(a)[s] == multiset(b)[s]
  {
    if a != [] {
      assert a == [a[0]] + a[1..] && b == [b[0]] + b[1..];
      SamePlacesSameFixed(a[1..], b[1..], s);
    }
  }

  lemma {:induction false} PromotePermutes(movable: seq<Stage>, at: Option<Direction>)
    ensures multiset(Promote(movable, at)) == multiset(movable)
  {
    var k := FirstFrom(movable, at);
    if k < |movable| {
      assert movable == movable[..k] + [movable[k]] + movable[k + 1..];
    }
  }

  /** A permutation of the phase: fixed readings keep their place, and the movable ones keep
      the plan's order except for at most one, promoted because its run starts at `at`. */
  lemma {:induction false} OrderIsAPromotion(stages: seq<Stage>, at: Option<Direction>)
    ensures multiset(OrderOf(stages, at)) == multiset(stages)
    ensures forall i :: 0 <= i < |stages| && !Movable(stages[i]) ==> OrderOf(stages, at)[i] == stages[i]
    ensures forall i :: 0 <= i < |stages| && Movable(stages[i]) ==> Movable(OrderOf(stages, at)[i])
    ensures var m, k := MovableOf(stages), FirstFrom(MovableOf(stages), at);
            MovableOf(OrderOf(stages, at))
            == if k == |m| then m else [m[k]] + m[..k] + m[k + 1..]
  {
    hide Promote, Deal, MovableOf;
    var m := MovableOf(stages);
    AllMovable(stages);
    PromotePermutes(m, at);
    var hand := Promote(m, at);
    forall s | s in hand ensures Movable(s) { assert s in multiset(hand); assert s in multiset(m); }
    DealKeeps(stages, hand);
    PromoteIs(m, at);
    var r := OrderOf(stages, at);
    forall s: Stage ensures multiset(r)[s] == multiset(stages)[s] {
      if Movable(s) {
        MultisetSplit(r, s);
        MultisetSplit(stages, s);
      } else {
        SamePlacesSameFixed(r, stages, s);
      }
    }
  }

  // ---------------------------------------------------------------- how often the shutter is homed

  /** The homings a phase costs from `at`: one whenever the shutter is not already where the next
      stage starts. After a run to a percentage it is nowhere; after the travel it is at the top. */
  function Homings(phase: seq<Stage>, at: Option<Direction>): nat {
    if phase == [] then 0
    else (if at == Some(StartsFrom(phase[0])) then 0 else 1)
         + Homings(phase[1..], if phase[0] == HeightRead then Some(Open) else None)
  }

  predicate NoTravel(phase: seq<Stage>) {
    forall i :: 0 <= i < |phase| ==> phase[i] != HeightRead
  }

  /** `q` is another way of walking `phase` that leaves the fixed readings where they are. */
  ghost predicate Redealt(phase: seq<Stage>, q: seq<Stage>) {
    && |q| == |phase|
    && multiset(q) == multiset(phase)
    && forall i :: 0 <= i < |phase| && !Movable(phase[i]) ==> q[i] == phase[i]
  }

  lemma {:induction false} HomingsWithoutTravel(phase: seq<Stage>, at: Option<Direction>)
    requires NoTravel(phase)
    ensures Homings(phase, at)
            == if phase != [] && at == Some(StartsFrom(phase[0])) then |phase| - 1 else |phase|
  {
    if phase != [] {
      assert NoTravel(phase[1..]);
      HomingsWithoutTravel(phase[1..], None);
    }
  }

  lemma {:induction false} FirstMovable(stages: seq<Stage>)
    requires stages != [] && Movable(stages[0])
    ensures MovableOf(stages) != [] && MovableOf(stages)[0] == stages[0]
  {
  }

  lemma {:induction false} MovableMember(stages: seq<Stage>, s: Stage)
    requires Movable(s) && s in stages
    ensures s in MovableOf(stages)
  {
    MultisetSplit(stages, s);
    assert s in multiset(stages);
    assert s in multiset(MovableOf(stages));
  }

  /** Without the travel in it, no redealing of the phase homes the shutter less. */
  lemma {:induction false} OrderHomesLeast(phase: seq<Stage>, at: Option<Direction>, q: seq<Stage>)
    requires NoTravel(phase) && Redealt(phase, q)
    ensures Homings(OrderOf(phase, at), at) <= Homings(q, at)
  {
    var r := OrderOf(phase, at);
    OrderIsAPromotion(phase, at);
    forall i | 0 <= i < |phase| ensures r[i] != HeightRead && q[i] != HeightRead {
      assert r[i] in multiset(r) && q[i] in multiset(q);
      assert r[i] in multiset(phase) && q[i] in multiset(phase);
    }
    HomingsWithoutTravel(r, at);
    HomingsWithoutTravel(q, at);
    if phase != [] && at == Some(StartsFrom(q[0])) {
      if Movable(phase[0]) {
        FirstMovable(r);
        assert q[0] in multiset(q);
        assert q[0] in multiset(phase);
        if Movable(q[0]) {
          MovableMember(phase, q[0]);
        } else {
          OnlyMovedIsMovable(phase, q);
        }
      }
    }
  }

  /** A movable place of the phase holds a movable reading in every redealing of it. */
  lemma {:induction false} OnlyMovedIsMovable(phase: seq<Stage>, q: seq<Stage>)
    requires Redealt(phase, q)
    ensures forall i :: 0 <= i < |phase| && Movable(phase[i]) ==> Movable(q[i])
  {
    if i :| 0 <= i < |phase| && Movable(phase[i]) && !Movable(q[i]) {
      CountFixed(phase, q, q[i], i);
    }
  }

  lemma {:induction false} CountFixed(a: seq<Stage>, b: seq<Stage>, s: Stage, at: int)
    requires |a| == |b| && !Movable(s)
    requires forall i :: 0 <= i < |a| && !Movable(a[i]) ==> b[i] == a[i]
    ensures multiset(a)[s] <= multiset(b)[s]
    ensures 0 <= at < |a| && b[at] == s && a[at] != s ==> multiset(a)[s] < multiset(b)[s]
  {
    if a != [] {
      assert a == [a[0]] + a[1..] && b == [b[0]] + b[1..];
      CountFixed(a[1..], b[1..], s, at - 1);
    }
  }

  /** The readings that follow the travel can be walked from the top without waste, as the dealing walks them: the
      shutter stood at the top before; or none of them starts there; or the first of the plan does, and
      the end stop the shutter stood at calls no other one to the front; or there is nothing to deal. */
  predicate DealtWell(rest: seq<Stage>, at: Option<Direction>) {
    || rest == [] || !Movable(rest[0])
    || at == Some(Open)
    || (forall s :: s in MovableOf(rest) ==> StartsFrom(s) == Close)
    || (StartsFrom(rest[0]) == Open
        && !(at == Some(Close) && exists s :: s in MovableOf(rest) && StartsFrom(s) == Close))
  }

  /** With the travel read first the shutter is at the top afterwards, wherever it stood before, but the dealing
      still starts from where it stood. Whether it homes least can be told before it is made. */
  lemma {:induction false} OrderAfterTheTravel(rest: seq<Stage>, at: Option<Direction>)
    requires NoTravel(rest)
    ensures (forall q :: Redealt([HeightRead] + rest, q)
               ==> Homings(OrderOf([HeightRead] + rest, at), at) <= Homings(q, at))
        <==> DealtWell(rest, at)
  {
    hide OrderOf, Homings, MovableOf;
    if rest != [] && Movable(rest[0]) {
      LeastByItsFirst(rest, at);
      FirstOfTheDealing(rest, at);
      FirstMovable(rest);
    } else {
      NothingToDeal(rest, at);
    }
  }

  /** Where the first reading dealt starts: at the end stop the shutter stood at if one does, else as planned. */
  lemma {:induction false} FirstOfTheDealing(rest: seq<Stage>, at: Option<Direction>)
    requires rest != [] && Movable(rest[0])
    ensures Some(StartsFrom(OrderOf([HeightRead] + rest, at)[1]))
            == if exists s :: s in MovableOf(rest) && Some(StartsFrom(s)) == at then at else Some(StartsFrom(rest[0]))
  {
    hide OrderOf, MovableOf, StartsFrom;
    if exists s :: s in MovableOf(rest) && Some(StartsFrom(s)) == at {
      FirstDealt([HeightRead] + rest, rest, at);
    } else {
      FirstAsPlanned(rest, at);
    }
  }

  lemma {:induction false} FirstAsPlanned(rest: seq<Stage>, at: Option<Direction>)
    requires rest != [] && Movable(rest[0])
    requires forall s :: s in MovableOf(rest) ==> Some(StartsFrom(s)) != at
    ensures OrderOf([HeightRead] + rest, at)[1] == rest[0]
  {
    hide OrderOf, FirstFrom, StartsFrom, Movable;
    var phase := [HeightRead] + rest;
    var r := OrderOf(phase, at);
    OrderIsAPromotion(phase, at);
    assert phase[1..] == rest && phase[1] == rest[0];
    MovableAfterTheTravel(phase);
    assert r[0] == phase[0] by { TravelIsFixed(); }
    MovableAfterTheTravel(r);
    NoneComesFirst(MovableOf(rest), at);
    FirstMovable(rest);
    FirstMovable(r[1..]);
  }

  lemma TravelIsFixed()
    ensures !Movable(HeightRead)
  {
  }

  lemma {:induction false} MovableAfterTheTravel(phase: seq<Stage>)
    requires phase != [] && phase[0] == HeightRead
    ensures MovableOf(phase) == MovableOf(phase[1..])
  {
  }

  lemma {:induction false} NoneComesFirst(movable: seq<Stage>, at: Option<Direction>)
    requires forall s :: s in movable ==> Some(StartsFrom(s)) != at
    ensures FirstFrom(movable, at) == |movable|
  {
    hide StartsFrom;
    if movable != [] {
      assert movable[0] in movable;
      assert forall s :: s in movable[1..] ==> s in movable;
      NoneComesFirst(movable[1..], at);
    }
  }

  /** A phase whose first place after the travel is fixed costs the same however it is dealt. */
  lemma {:induction false} NothingToDeal(rest: seq<Stage>, at: Option<Direction>)
    requires NoTravel(rest) && (rest == [] || !Movable(rest[0]))
    ensures forall q :: Redealt([HeightRead] + rest, q)
              ==> Homings(OrderOf([HeightRead] + rest, at), at) <= Homings(q, at)
  {
    var phase := [HeightRead] + rest;
    var r := OrderOf(phase, at);
    OrderIsAPromotion(phase, at);
    hide OrderOf, Homings, MovableOf;
    forall q | Redealt(phase, q) ensures Homings(r, at) <= Homings(q, at) {
      if rest == [] {
        assert q[0] == r[0] == phase[0];
        assert q == r;
      } else {
        assert phase[1..] == rest && phase[1] == rest[0];
        assert q[1] == r[1];
        HomingsOfTravelFirst(phase, r, at);
        HomingsOfTravelFirst(phase, q, at);
      }
    }
  }

  /** The same told from the reading the dealing puts first. */
  lemma {:induction false} LeastByItsFirst(rest: seq<Stage>, at: Option<Direction>)
    requires NoTravel(rest) && rest != [] && Movable(rest[0])
    ensures (forall q :: Redealt([HeightRead] + rest, q)
               ==> Homings(OrderOf([HeightRead] + rest, at), at) <= Homings(q, at))
        <==> (StartsFrom(OrderOf([HeightRead] + rest, at)[1]) == Open
              || forall s :: s in MovableOf(rest) ==> StartsFrom(s) == Close)
  {
    var phase := [HeightRead] + rest;
    var r := OrderOf(phase, at);
    if StartsFrom(r[1]) == Close && exists s :: s in MovableOf(rest) && StartsFrom(s) == Open {
      var better := CheaperAfterTheTravel(rest, at);
    } else {
      forall q | Redealt(phase, q) ensures Homings(r, at) <= Homings(q, at) {
        LeastAfterTheTravel(rest, at, q);
      }
    }
  }

  lemma {:induction false} LeastAfterTheTravel(rest: seq<Stage>, at: Option<Direction>, q: seq<Stage>)
    requires NoTravel(rest) && rest != [] && Movable(rest[0])
    requires Redealt([HeightRead] + rest, q)
    requires StartsFrom(OrderOf([HeightRead] + rest, at)[1]) == Open
             || forall s :: s in MovableOf(rest) ==> StartsFrom(s) == Close
    ensures Homings(OrderOf([HeightRead] + rest, at), at) <= Homings(q, at)
  {
    var phase := [HeightRead] + rest;
    assert phase[1..] == rest;
    OrderIsAPromotion(phase, at);
    HomingsOfTravelFirst(phase, OrderOf(phase, at), at);
    HomingsOfTravelFirst(phase, q, at);
    if StartsFrom(q[1]) == Open {
      OnlyMovedIsMovable(phase, q);
      assert phase[1] == rest[0];
      assert q[1] in multiset(q);
      assert q[1] in multiset(phase);
      MovableMember(phase, q[1]);
    }
  }

  /** The same readings dealt as if the shutter stood at the top, where it does stand: one homing less. */
  lemma {:induction false} CheaperAfterTheTravel(rest: seq<Stage>, at: Option<Direction>) returns (better: seq<Stage>)
    requires NoTravel(rest) && rest != [] && Movable(rest[0])
    requires StartsFrom(OrderOf([HeightRead] + rest, at)[1]) == Close
    requires exists s :: s in MovableOf(rest) && StartsFrom(s) == Open
    ensures Redealt([HeightRead] + rest, better)
    ensures Homings(better, at) < Homings(OrderOf([HeightRead] + rest, at), at)
  {
    hide OrderOf, Homings;
    var phase := [HeightRead] + rest;
    assert phase[1..] == rest;
    OrderIsAPromotion(phase, at);
    HomingsOfTravelFirst(phase, OrderOf(phase, at), at);
    better := OrderOf(phase, Some(Open));
    OrderIsAPromotion(phase, Some(Open));
    HomingsOfTravelFirst(phase, better, at);
    FirstDealt(phase, rest, Some(Open));
  }

  lemma {:induction false} HomingsOfTravelFirst(phase: seq<Stage>, q: seq<Stage>, at: Option<Direction>)
    requires |phase| >= 2 && phase[0] == HeightRead && NoTravel(phase[1..]) && Redealt(phase, q)
    ensures q[0] == HeightRead
    ensures Homings(q, at) == (if at == Some(Open) then 0 else 1)
                              + if StartsFrom(q[1]) == Open then |q| - 2 else |q| - 1
  {
    TravelIsFixed();
    assert q[0] == phase[0];
    NoTravelAfter(phase, q);
    HomingsWithoutTravel(q[1..], Some(Open));
    hide Redealt, NoTravel;
  }

  lemma NoTravelAfter(phase: seq<Stage>, q: seq<Stage>)
    requires |phase| >= 1 && |q| == |phase| && multiset(q) == multiset(phase) && q[0] == phase[0]
    requires NoTravel(phase[1..])
    ensures NoTravel(q[1..])
  {
    SameTail(phase, q);
    forall i | 0 <= i < |q[1..]| ensures q[1..][i] != HeightRead {
      assert q[1..][i] in multiset(q[1..]);
      assert q[1..][i] in multiset(phase[1..]);
    }
  }

  lemma SameTail(a: seq<Stage>, b: seq<Stage>)
    requires a != [] && b != [] && a[0] == b[0] && multiset(a) == multiset(b)
    ensures multiset(a[1..]) == multiset(b[1..])
  {
    assert a == [a[0]] + a[1..] && b == [b[0]] + b[1..];
    assert multiset(a[1..]) == multiset(a) - multiset{a[0]};
    assert multiset(b[1..]) == multiset(b) - multiset{b[0]};
  }

  /** The thorough plan with the travel first, walked from the closed end stop: some other dealing
      of the same readings homes the shutter less often. */
  lemma {:induction false} ThoroughTravelHomesTooOften(phase: seq<Stage>, at: Option<Direction>)
    requires phase == PLAN_PRECISE_TRAVEL[1..7] && at == Some(Close)
    ensures exists q :: Redealt(phase, q) && Homings(q, at) < Homings(OrderOf(phase, at), at)
  {
    hide OrderOf, Homings, MovableOf;
    var rest := phase[1..];
    assert phase == [HeightRead] + rest && |rest| == 5;
    assert Movable(rest[0]) && rest[0] == QuarterDown && rest[2] == QuarterUp;
    MovableMember(rest, QuarterDown);
    MovableMember(rest, QuarterUp);
    assert StartsFrom(QuarterDown) == Open && StartsFrom(QuarterUp) == Close;
    FirstDealt(phase, rest, at);
    var better := CheaperAfterTheTravel(rest, at);
  }

  /** Where a reading starting at `at` exists, the first one dealt starts there. */
  lemma {:induction false} FirstDealt(phase: seq<Stage>, rest: seq<Stage>, at: Option<Direction>)
    requires phase == [HeightRead] + rest && rest != [] && Movable(rest[0])
    requires exists s :: s in MovableOf(rest) && Some(StartsFrom(s)) == at
    ensures Some(StartsFrom(OrderOf(phase, at)[1])) == at
  {
    assert phase[1..] == rest;
    OrderIsAPromotion(phase, at);
    var r := OrderOf(phase, at);
    assert phase[1] == rest[0];
    assert r[0] == phase[0];
    assert r == [r[0]] + r[1..];
    FirstMovable(r[1..]);
    assert MovableOf(r) == MovableOf(r[1..]);
    assert MovableOf(phase) == MovableOf(rest);
    var s :| s in MovableOf(phase) && Some(StartsFrom(s)) == at;
    assert FirstFrom(MovableOf(phase), at) < |MovableOf(phase)|;
  }
}
