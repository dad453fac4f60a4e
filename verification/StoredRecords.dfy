/** What a `.storage` file may hold, and how a record is written into it and read back out
    (calibration_store.py). */
module StoredRecords {
  import opened Wrappers

  /** The keys of a record; `Other` is one that somebody wrote by hand. */
  datatype Key =
    | CoverUniqueId | ProfileKey | ProfileWins | HeightKey | Overrides | SourceKey | MeasuredAt | Raw
    | NameKey | ReferenceHeight | ReferenceCover | MeasuredOn
    | OpeningTime | ClosingTime | SlatTime | Roll | OpeningRoll | ClosingRoll | StopLatency | StartDelay
    | Other(name: string)

  /** A value of the file. A text carries the number `float` would read in it, if it reads one. */
  datatype Json =
    | JNull | JBool(b: bool) | JNumber(n: real) | JText(text: string, number: Option<real>)
    | JList(items: seq<Json>) | JObject(fields: map<Key, Json>)

  type Record = map<Key, Json>

  /** COVER_CALIBRATION_KEYS, in their order. */
  const TRAVEL_KEYS: seq<Key> :=
    [OpeningTime, ClosingTime, SlatTime, Roll, OpeningRoll, ClosingRoll, StopLatency, StartDelay]

  predicate IsTravelKey(k: Key) {
    k.OpeningTime? || k.ClosingTime? || k.SlatTime? || k.Roll? || k.OpeningRoll? || k.ClosingRoll? || k.StopLatency?
    || k.StartDelay?
  }

  lemma TravelKeysAre(k: Key)
    ensures k in TRAVEL_KEYS <==> IsTravelKey(k)
  {
    assert TRAVEL_KEYS[0] == OpeningTime && TRAVEL_KEYS[1] == ClosingTime && TRAVEL_KEYS[2] == SlatTime
           && TRAVEL_KEYS[3] == Roll && TRAVEL_KEYS[4] == OpeningRoll && TRAVEL_KEYS[5] == ClosingRoll
           && TRAVEL_KEYS[6] == StopLatency && TRAVEL_KEYS[7] == StartDelay;
  }

  function Get(r: Record, k: Key): Option<Json> { if k in r then Some(r[k]) else None }

  /** `r` with that key written, if there is something to write. */
  function With(r: Record, k: Key, v: Option<Json>): (r1: Record)
    ensures Get(r1, k) == if v.Some? then v else Get(r, k)
    ensures forall j :: j != k ==> Get(r1, j) == Get(r, j)
  {
    if v.Some? then r[k := v.value] else r
  }

  /** A JSON value as a real: numbers as they are, anything else as nothing. */
  function StoredNumber(v: Option<Json>): Option<real> {
    match v
    case Some(JNumber(n)) => Some(n)
    case Some(JText(_, number)) => number
    case _ => None
  }

  predicate Truthy(v: Option<Json>) {
    match v
    case None => false
    case Some(JNull) => false
    case Some(JBool(b)) => b
    case Some(JNumber(n)) => n != 0.0
    case Some(JText(t, _)) => t != ""
    case Some(JList(items)) => items != []
    case Some(JObject(fields)) => fields != map[]
  }

  datatype StoredCalibration = StoredCalibration(
    cover: string, profile: Option<string>, profileWins: bool, height: Option<real>,
    overrides: map<Key, real>, source: Json, measuredAt: Option<Json>)

  predicate SaysAnything(c: StoredCalibration) { c.overrides != map[] || c.profile.Some? || c.height.Some? }

  predicate FollowsAProfile(c: StoredCalibration) { c.profile.Some? && c.profileWins }

  predicate IsAMeasurement(c: StoredCalibration) { c.overrides != map[] }

  const GUIDED: Json := JText("guided", None)

  /** The part of an overrides object that is kept: numbers, under travel keys. */
  function NumbersOf(v: Option<Json>): map<Key, real> {
    match v
    case Some(JObject(fields)) =>
      map k | k in fields && IsTravelKey(k) && StoredNumber(Some(fields[k])).Some? ::
        StoredNumber(Some(fields[k])).value
    case _ => map[]
  }

  function TextOf(v: Option<Json>): string {
    match v
    case Some(JText(t, _)) => t
    case _ => ""
  }

  /** A record as the resolution reads it. Total: a field of the wrong kind reads as absent. */
  function ReadCalibration(data: Record): StoredCalibration {
    StoredCalibration(
      TextOf(Get(data, CoverUniqueId)),
      match Get(data, ProfileKey) case Some(JText(t, _)) => Some(t) case _ => None,
      Truthy(Get(data, ProfileWins)),
      StoredNumber(Get(data, HeightKey)),
      NumbersOf(Get(data, Overrides)),
      Get(data, SourceKey).GetOr(GUIDED),
      Get(data, MeasuredAt))
  }

  function JsonNumbers(m: map<Key, real>): map<Key, Json> { map k | k in m :: JNumber(m[k]) }

  function TravelOnly(m: map<Key, real>): map<Key, real> { map k | k in m && IsTravelKey(k) :: m[k] }

  /** `cover_calibration_data`: the record a save builds. */
  function CalibrationData(cover: string, profile: Option<string>, profileWins: bool, height: Option<real>,
                           overrides: map<Key, real>, source: Json, measuredAt: Json, raw: map<Key, Json>): Record
  {
    var kept := TravelOnly(overrides);
    var r0: Record := map[CoverUniqueId := JText(cover, None), SourceKey := source, MeasuredAt := measuredAt];
    var r1 := With(r0, ProfileKey, if profile.Some? then Some(JText(profile.value, None)) else None);
    var r2 := With(r1, ProfileWins, if profile.Some? && profileWins then Some(JBool(true)) else None);
    var r3 := With(r2, HeightKey, if height.Some? then Some(JNumber(height.value)) else None);
    var r4 := With(r3, Overrides, if kept != map[] then Some(JObject(JsonNumbers(kept))) else None);
    With(r4, Raw, if raw != map[] then Some(JObject(raw)) else None)
  }

  /** What a record says when it is read back is what the caller said: only keys outside the travel model
      are gone, and `profile_wins` without a profile. */
  lemma CalibrationReadsBack(cover: string, profile: Option<string>, profileWins: bool, height: Option<real>,
                             overrides: map<Key, real>, source: Json, measuredAt: Json, raw: map<Key, Json>)
    ensures ReadCalibration(CalibrationData(cover, profile, profileWins, height, overrides, source, measuredAt, raw))
            == StoredCalibration(cover, profile, profileWins && profile.Some?, height, TravelOnly(overrides), source,
                                 Some(measuredAt))
  {
    var kept := TravelOnly(overrides);
    var data := CalibrationData(cover, profile, profileWins, height, overrides, source, measuredAt, raw);
    CalibrationFields(cover, profile, profileWins, height, overrides, source, measuredAt, raw);
    hide CalibrationData;
    NumbersReadBack(kept);
    if kept == map[] { assert NumbersOf(Get(data, Overrides)) == map[]; }
  }

  lemma CalibrationFields(cover: string, profile: Option<string>, profileWins: bool, height: Option<real>,
                          overrides: map<Key, real>, source: Json, measuredAt: Json, raw: map<Key, Json>)
    ensures var d := CalibrationData(cover, profile, profileWins, height, overrides, source, measuredAt, raw);
            var kept := TravelOnly(overrides);
            && Get(d, CoverUniqueId) == Some(JText(cover, None))
            && Get(d, ProfileKey) == (if profile.Some? then Some(JText(profile.value, None)) else None)
            && Get(d, ProfileWins) == (if profile.Some? && profileWins then Some(JBool(true)) else None)
            && Get(d, HeightKey) == (if height.Some? then Some(JNumber(height.value)) else None)
            && Get(d, Overrides) == (if kept != map[] then Some(JObject(JsonNumbers(kept))) else None)
            && Get(d, SourceKey) == Some(source) && Get(d, MeasuredAt) == Some(measuredAt)
  {
    hide TravelOnly, JsonNumbers, With, Get;
    var kept := TravelOnly(overrides);
    var r: Record := map[CoverUniqueId := JText(cover, None), SourceKey := source, MeasuredAt := measuredAt];
    FirstFields(cover, source, measuredAt);
    FieldsWith(r, if profile.Some? then Some(JText(profile.value, None)) else None,
               if profile.Some? && profileWins then Some(JBool(true)) else None,
               if height.Some? then Some(JNumber(height.value)) else None,
               if kept != map[] then Some(JObject(JsonNumbers(kept))) else None,
               if raw != map[] then Some(JObject(raw)) else None);
  }

  lemma FieldsWith(r: Record, profile: Option<Json>, wins: Option<Json>, height: Option<Json>, overrides: Option<Json>,
                   raw: Option<Json>)
    ensures var d := With(With(With(With(With(r, ProfileKey, profile), ProfileWins, wins), HeightKey, height),
                               Overrides, overrides), Raw, raw);
            && Get(d, ProfileKey) == (if profile.Some? then profile else Get(r, ProfileKey))
            && Get(d, ProfileWins) == (if wins.Some? then wins else Get(r, ProfileWins))
            && Get(d, HeightKey) == (if height.Some? then height else Get(r, HeightKey))
            && Get(d, Overrides) == (if overrides.Some? then overrides else Get(r, Overrides))
            && Get(d, CoverUniqueId) == Get(r, CoverUniqueId) && Get(d, SourceKey) == Get(r, SourceKey)
            && Get(d, MeasuredAt) == Get(r, MeasuredAt)
  {
    hide With, Get;
  }

  lemma FirstFields(cover: string, source: Json, measuredAt: Json)
    ensures var r: Record := map[CoverUniqueId := JText(cover, None), SourceKey := source, MeasuredAt := measuredAt];
            && Get(r, CoverUniqueId) == Some(JText(cover, None)) && Get(r, SourceKey) == Some(source)
            && Get(r, MeasuredAt) == Some(measuredAt) && Get(r, ProfileKey) == Get(r, ProfileWins) == None
            && Get(r, HeightKey) == Get(r, Overrides) == None
  {
  }

  lemma NumbersReadBack(kept: map<Key, real>)
    requires forall k :: k in kept ==> IsTravelKey(k)
    ensures NumbersOf(Some(JObject(JsonNumbers(kept)))) == kept
  {
    var j := JsonNumbers(kept);
    assert forall k :: k in kept ==> k in j && j[k] == JNumber(kept[k]);
  }

  // ---------------------------------------------------------------- profiles

  /** A profile as a configuration states it. */
  datatype ProfileConfig = ProfileConfig(
    referenceHeight: real, opening: real, closing: real, slat: real, roll: real,
    openingRoll: real, closingRoll: real, stopLatency: real, startDelay: real)

  /** The six numbers a guided calibration measures for a profile. */
  datatype ProfileNumbers = ProfileNumbers(
    referenceHeight: real, opening: real, closing: real, slat: real, openingRoll: real, closingRoll: real)

  /** `cover_profile_data`: what is kept besides the numbers is read by nothing here. */
  function ProfileData(name: string, p: ProfileNumbers, source: Json, measuredAt: Json,
                       referenceCover: Option<Json>, measuredOn: Option<Json>, raw: Option<Json>): Record
  {
    With(With(With(ProfileBase(name, p, source, measuredAt), ReferenceCover, referenceCover), MeasuredOn, measuredOn),
         Raw, raw)
  }

  function ProfileBase(name: string, p: ProfileNumbers, source: Json, measuredAt: Json): Record {
    map[NameKey := JText(name, None), ReferenceHeight := JNumber(p.referenceHeight), OpeningTime := JNumber(p.opening),
        ClosingTime := JNumber(p.closing), SlatTime := JNumber(p.slat), OpeningRoll := JNumber(p.openingRoll),
        ClosingRoll := JNumber(p.closingRoll), SourceKey := source, MeasuredAt := measuredAt]
  }

  /** A stored profile read as the file's own; None for what is not one. */
  function ProfileAsConfig(name: string, data: Record): Option<ProfileConfig> {
    var opening := StoredNumber(Get(data, OpeningTime));
    var reference := StoredNumber(Get(data, ReferenceHeight));
    if name == "" || opening.None? || reference.None? || reference.value == 0.0 then None
    else
      var closingRoll := StoredNumber(Get(data, ClosingRoll)).GetOr(StoredNumber(Get(data, Roll)).GetOr(1.0));
      Some(ProfileConfig(reference.value, opening.value,
                         StoredNumber(Get(data, ClosingTime)).GetOr(opening.value),
                         StoredNumber(Get(data, SlatTime)).GetOr(0.0),
                         closingRoll,
                         StoredNumber(Get(data, OpeningRoll)).GetOr(closingRoll),
                         closingRoll,
                         StoredNumber(Get(data, StopLatency)).GetOr(0.1),
                         StoredNumber(Get(data, StartDelay)).GetOr(0.5)))
  }

  /** A profile that was written reads back as its own numbers, whatever is kept beside them, if and only
      if it has a name and a reference height. */
  lemma ProfileReadsBack(name: string, p: ProfileNumbers, source: Json, measuredAt: Json,
                         referenceCover: Option<Json>, measuredOn: Option<Json>, raw: Option<Json>)
    ensures ProfileAsConfig(name, ProfileData(name, p, source, measuredAt, referenceCover, measuredOn, raw))
            == if name == "" || p.referenceHeight == 0.0 then None
               else Some(ProfileConfig(p.referenceHeight, p.opening, p.closing, p.slat, p.closingRoll, p.openingRoll,
                                       p.closingRoll, 0.1, 0.5))
  {
    hide ProfileBase, With, ProfileAsConfig;
    var base := ProfileBase(name, p, source, measuredAt);
    BesidesTheNumbers(base, referenceCover, measuredOn, raw);
    SameNumbersSameProfile(name, base, With(With(With(base, ReferenceCover, referenceCover), MeasuredOn, measuredOn),
                                            Raw, raw));
    BaseReadsBack(name, p, source, measuredAt);
  }

  lemma SameNumbersSameProfile(name: string, a: Record, b: Record)
    requires forall k :: IsTravelKey(k) || k == ReferenceHeight ==> Get(b, k) == Get(a, k)
    ensures ProfileAsConfig(name, a) == ProfileAsConfig(name, b)
  {
    hide Get;
  }

  lemma BaseReadsBack(name: string, p: ProfileNumbers, source: Json, measuredAt: Json)
    ensures ProfileAsConfig(name, ProfileBase(name, p, source, measuredAt))
            == if name == "" || p.referenceHeight == 0.0 then None
               else Some(ProfileConfig(p.referenceHeight, p.opening, p.closing, p.slat, p.closingRoll, p.openingRoll,
                                       p.closingRoll, 0.1, 0.5))
  {
    ProfileFields(name, p, source, measuredAt);
    hide ProfileBase, Get;
  }

  lemma BesidesTheNumbers(base: Record, referenceCover: Option<Json>, measuredOn: Option<Json>, raw: Option<Json>)
    ensures forall k :: IsTravelKey(k) || k == ReferenceHeight ==>
              Get(With(With(With(base, ReferenceCover, referenceCover), MeasuredOn, measuredOn), Raw, raw), k)
              == Get(base, k)
  {
    hide With, Get;
  }

  lemma ProfileFields(name: string, p: ProfileNumbers, source: Json, measuredAt: Json)
    ensures var d := ProfileBase(name, p, source, measuredAt);
            && Get(d, ReferenceHeight) == Some(JNumber(p.referenceHeight))
            && Get(d, OpeningTime) == Some(JNumber(p.opening))
            && Get(d, ClosingTime) == Some(JNumber(p.closing)) && Get(d, SlatTime) == Some(JNumber(p.slat))
            && Get(d, OpeningRoll) == Some(JNumber(p.openingRoll))
            && Get(d, ClosingRoll) == Some(JNumber(p.closingRoll))
            && Get(d, Roll) == None && Get(d, StopLatency) == None && Get(d, StartDelay) == None
  {
  }
}
