/** Which number a cover moves on and who said it, and the review that shows it before it is written
    (calibration_store.py, resolve_cover; calibration_measure.py; calibration_session.py, the review and
    the save). Scaling a profile to a window is a function handed in. */
module Resolution {
  import opened Wrappers
  import opened Screens
  import S = Session
  import opened StoredRecords
  import opened CalibrationStores

  /** A cover as the file configures it: every travel key filled in, and which of them it really wrote. */
  datatype Device = Device(values: map<Key, real>, fromFile: set<Key>, profile: Option<string>, height: Option<real>)

  /** The keys the file settles: those it writes, both rolls with a common one, the closing time with the
      opening time. */
  function Written(device: Device): set<Key> {
    device.fromFile
    + (if Roll in device.fromFile then {OpeningRoll, ClosingRoll} else {})
    + (if OpeningTime in device.fromFile then {ClosingTime} else {})
  }

  /** What the validator guarantees: a travel key the file states, or implies, has a value. */
  ghost predicate Validated(device: Device) {
    forall k :: k in Written(device) && IsTravelKey(k) ==> k in device.values
  }

  datatype Origin = Own | FromProfile | FromFile | Default

  datatype ResolvedKey = ResolvedKey(value: real, origin: Origin)

  /** The number of one key with its origin, by precedence: own, winning profile, file, profile, default. */
  function KeyOf(device: Device, overrides: map<Key, real>, derived: map<Key, real>, written: set<Key>, wins: bool,
                 k: Key)
      : Option<ResolvedKey>
    requires k in written ==> k in device.values
  {
    if k in overrides then Some(ResolvedKey(overrides[k], Own))
    else if wins && k in derived then Some(ResolvedKey(derived[k], FromProfile))
    else if k in written then Some(ResolvedKey(device.values[k], FromFile))
    else if k in derived then Some(ResolvedKey(derived[k], FromProfile))
    else if k in device.values then Some(ResolvedKey(device.values[k], Default))
    else None
  }

  function KeysOf(device: Device, overrides: map<Key, real>, derived: map<Key, real>, written: set<Key>, wins: bool)
      : map<Key, ResolvedKey>
    requires forall k :: k in written && IsTravelKey(k) ==> k in device.values
  {
    map k | k in overrides.Keys + derived.Keys + device.values.Keys && IsTravelKey(k)
            && KeyOf(device, overrides, derived, written, wins, k).Some?
        :: KeyOf(device, overrides, derived, written, wins, k).value
  }

  /** The loop of the source over the keys of the travel model. */
  method ResolveCoverKeys(device: Device, overrides: map<Key, real>, derived: map<Key, real>, written: set<Key>,
                          wins: bool)
      returns (resolved: map<Key, ResolvedKey>)
    requires forall k :: k in written && IsTravelKey(k) ==> k in device.values
    ensures resolved == KeysOf(device, overrides, derived, written, wins)
  {
    resolved := map[];
    for i := 0 to |TRAVEL_KEYS|
      invariant forall k ::
                  k in resolved <==> k in TRAVEL_KEYS[..i] && IsTravelKey(k)
                                     && KeyOf(device, overrides, derived, written, wins, k).Some?
      invariant forall k :: k in resolved ==>
                  IsTravelKey(k) && Some(resolved[k]) == KeyOf(device, overrides, derived, written, wins, k)
    {
      var k := TRAVEL_KEYS[i];
      TravelKeysAre(k);
      assert TRAVEL_KEYS[..i + 1] == TRAVEL_KEYS[..i] + [k];
      if k in overrides { resolved := resolved[k := ResolvedKey(overrides[k], Own)]; }
      else if wins && k in derived { resolved := resolved[k := ResolvedKey(derived[k], FromProfile)]; }
      else if k in written { resolved := resolved[k := ResolvedKey(device.values[k], FromFile)]; }
      else if k in derived { resolved := resolved[k := ResolvedKey(derived[k], FromProfile)]; }
      else if k in device.values { resolved := resolved[k := ResolvedKey(device.values[k], Default)]; }
    }
    assert TRAVEL_KEYS[..|TRAVEL_KEYS|] == TRAVEL_KEYS;
    forall k ensures k in TRAVEL_KEYS <==> IsTravelKey(k) { TravelKeysAre(k); }
    assert resolved == KeysOf(device, overrides, derived, written, wins);
  }

  datatype CoverOrigin = Measured | Inherited | Adjusted | OfTheFile | Defaults

  datatype ResolvedCover = ResolvedCover(
    keys: map<Key, ResolvedKey>, inherited: map<Key, ResolvedKey>, origin: CoverOrigin, source: string,
    profile: Option<string>, height: Option<real>)

  /** The keys whose origin makes the origin of the cover. */
  predicate Measurable(k: Key) { k.OpeningTime? || k.ClosingTime? || k.SlatTime? || k.OpeningRoll? || k.ClosingRoll? }

  predicate Said(keys: map<Key, ResolvedKey>, origin: Origin) {
    exists k :: k in keys && keys[k].origin == origin && Measurable(k)
  }

  function OrElse(a: Option<string>, b: Option<string>): Option<string> { if a.Some? && a.value != "" then a else b }

  function HeightOr(a: Option<real>, b: Option<real>): Option<real> { if a.Some? && a.value != 0.0 then a else b }

  type Scaling = (ProfileConfig, Option<real>) -> map<Key, real>

  function ResolveCover(device: Device, profiles: map<string, ProfileConfig>, c: Option<StoredCalibration>,
                        scale: Scaling): ResolvedCover
    requires Validated(device)
  {
    var overrides := if c.Some? then c.value.overrides else map[];
    var name := OrElse(if c.Some? then c.value.profile else None, device.profile);
    var height := HeightOr(if c.Some? then c.value.height else None, device.height);
    var named := name.Some? && name.value in profiles;
    var derived := if named then scale(profiles[name.value], height) else map[];
    var wins := c.Some? && FollowsAProfile(c.value);
    var keys := KeysOf(device, overrides, derived, Written(device), wins);
    var inherited := KeysOf(device, map[], derived, Written(device), wins);
    var origin :=
      if c.Some? && IsAMeasurement(c.value) then
        if named && Said(keys, FromProfile) && Said(keys, Own) then Adjusted else Measured
      else if named then Inherited
      else if Said(keys, FromFile) then OfTheFile
      else Defaults;
    var source :=
      match origin
      case Measured => "guided"
      case Adjusted => "profile " + name.GetOr("") + ", adjusted"
      case Inherited => "profile " + name.GetOr("")
      case _ => "yaml";
    ResolvedCover(keys, inherited, origin, source, name, height)
  }

  /** The fallback shown beside each key is no rule of its own: it is the resolution of the same record without
      overrides. */
  lemma InheritedIsWhatRemains(device: Device, profiles: map<string, ProfileConfig>, c: StoredCalibration,
                               scale: Scaling)
    requires Validated(device)
    ensures ResolveCover(device, profiles, Some(c.(overrides := map[])), scale).keys
            == ResolveCover(device, profiles, Some(c), scale).inherited
  {
  }

  /** The file states the key, or another one that stands for it. */
  predicate FileStates(device: Device, k: Key) {
    || k in device.fromFile
    || (k.ClosingTime? && OpeningTime in device.fromFile)
    || ((k.OpeningRoll? || k.ClosingRoll?) && Roll in device.fromFile)
  }

  function At<T>(m: map<Key, T>, k: Key): Option<T> { if k in m then Some(m[k]) else None }

  /** What the profile `name` states for the key once it is scaled to a window of that height, if it exists. */
  function ProfileStates(profiles: map<string, ProfileConfig>, name: Option<string>, height: Option<real>,
                         scale: Scaling, k: Key): Option<real> {
    if name.Some? && name.value in profiles then At(scale(profiles[name.value], height), k) else None
  }

  /** Exactly when each of the four sources answers, and with what: an own number always; the profile where it
      states the key and wins or the file is silent; the file where it states the key and no winning profile
      does; the defaults where none of the three says anything. */
  predicate Answers(answer: Option<ResolvedKey>, own: Option<real>, profile: Option<real>, wins: bool, file: bool,
                    default: Option<real>) {
    && (answer.Some? <==> own.Some? || profile.Some? || default.Some?)
    && (answer.Some? ==>
          && (answer.value.origin == Own <==> own.Some?)
          && (answer.value.origin == FromProfile <==> own.None? && profile.Some? && (wins || !file))
          && (answer.value.origin == FromFile <==> own.None? && file && !(profile.Some? && wins))
          && (answer.value.origin == Default <==> own.None? && profile.None? && !file)
          && Some(answer.value.value)
             == match answer.value.origin case Own => own case FromProfile => profile case _ => default)
  }

  /** The precedence of the resolution, key by key, from the file, the profiles and the record alone. The profile
      and the height are those of the record, and of the file where it has none. */
  lemma Precedence(device: Device, profiles: map<string, ProfileConfig>, c: Option<StoredCalibration>, scale: Scaling,
                   k: Key)
    requires Validated(device) && IsTravelKey(k)
    ensures var r := ResolveCover(device, profiles, c, scale);
            && r.profile == (if c.Some? && c.value.profile.Some? && c.value.profile.value != "" then c.value.profile
                             else device.profile)
            && r.height == (if c.Some? && c.value.height.Some? && c.value.height.value != 0.0 then c.value.height
                            else device.height)
            && Answers(At(r.keys, k), if c.Some? then At(c.value.overrides, k) else None,
                       ProfileStates(profiles, r.profile, r.height, scale, k),
                       c.Some? && c.value.profile.Some? && c.value.profileWins, FileStates(device, k),
                       At(device.values, k))
  {
    hide ResolveCover, KeysOf, Written, FileStates, Answers;
    var r := ResolveCover(device, profiles, c, scale);
    WrittenIsStated(device, k);
    var overrides := if c.Some? then c.value.overrides else map[];
    var derived := if r.profile.Some? && r.profile.value in profiles then scale(profiles[r.profile.value], r.height)
                   else map[];
    ResolvedFrom(device, profiles, c, scale);
    KeysAnswer(device, overrides, derived, Written(device), c.Some? && FollowsAProfile(c.value), k);
  }

  lemma WrittenIsStated(device: Device, k: Key)
    ensures k in Written(device) <==> FileStates(device, k)
  {
  }

  lemma KeysAnswer(device: Device, overrides: map<Key, real>, derived: map<Key, real>, written: set<Key>, wins: bool,
                   k: Key)
    requires forall k :: k in written && IsTravelKey(k) ==> k in device.values
    requires IsTravelKey(k)
    ensures Answers(At(KeysOf(device, overrides, derived, written, wins), k), At(overrides, k), At(derived, k), wins,
                    k in written, At(device.values, k))
  {
  }

  lemma ResolvedFrom(device: Device, profiles: map<string, ProfileConfig>, c: Option<StoredCalibration>, scale: Scaling)
    requires Validated(device)
    ensures var r := ResolveCover(device, profiles, c, scale);
            var overrides := if c.Some? then c.value.overrides else map[];
            var derived := if r.profile.Some? && r.profile.value in profiles
                           then scale(profiles[r.profile.value], r.height) else map[];
            && r.profile == (if c.Some? && c.value.profile.Some? && c.value.profile.value != "" then c.value.profile
                             else device.profile)
            && r.height == (if c.Some? && c.value.height.Some? && c.value.height.value != 0.0 then c.value.height
                            else device.height)
            && r.keys == KeysOf(device, overrides, derived, Written(device), c.Some? && FollowsAProfile(c.value))
  {
    hide KeysOf, Written, Said;
  }

  /** What a cover says it runs on. A window with numbers of its own was measured, and adjusted where its
      profile still answers for a key that is measured while one of its own does too; one without inherits
      its profile if there is one; else it is the file's as soon as the file states one measured key. */
  lemma OriginOfTheCover(device: Device, profiles: map<string, ProfileConfig>, c: Option<StoredCalibration>,
                         scale: Scaling)
    requires Validated(device)
    ensures var r := ResolveCover(device, profiles, c, scale);
            var measured := c.Some? && c.value.overrides != map[];
            var there := r.profile.Some? && r.profile.value in profiles;
            && (r.origin.Measured? || r.origin.Adjusted? <==> measured)
            && (r.origin.Adjusted? <==> measured && there && (exists k :: Measurable(k) && k in c.value.overrides)
                                        && exists k :: Measurable(k) && k in r.keys && r.keys[k].origin == FromProfile)
            && (r.origin.Inherited? <==> !measured && there)
            && (r.origin.OfTheFile? <==> !measured && !there && exists k :: Measurable(k) && FileStates(device, k))
            && r.source == (match r.origin
                            case Measured => "guided"
                            case Adjusted => "profile " + r.profile.value + ", adjusted"
                            case Inherited => "profile " + r.profile.value
                            case _ => "yaml")
  {
    var r := ResolveCover(device, profiles, c, scale);
    var measured := c.Some? && c.value.overrides != map[];
    forall k | Measurable(k)
      ensures k in r.keys && r.keys[k].origin == Own <==> c.Some? && k in c.value.overrides
      ensures !measured && !(r.profile.Some? && r.profile.value in profiles) ==>
                (k in r.keys && r.keys[k].origin == FromFile <==> FileStates(device, k))
    {
      Precedence(device, profiles, c, scale, k);
    }
    hide KeysOf, FileStates, Written;
    if measured {
      assert Said(r.keys, Own) <==> exists k :: Measurable(k) && k in c.value.overrides;
    }
    assert Said(r.keys, FromProfile) <==> exists k :: Measurable(k) && k in r.keys && r.keys[k].origin == FromProfile;
  }

  // ---------------------------------------------------------------- both namespaces

  function StoreProfiles(stored: map<string, Record>): map<string, ProfileConfig> {
    map name | name in stored && ProfileAsConfig(name, stored[name]).Some? :: ProfileAsConfig(name, stored[name]).value
  }

  /** The profiles of the file overlaid by those of the store. */
  function MergedProfiles(file: map<string, ProfileConfig>, stored: map<string, ProfileConfig>)
    : map<string, ProfileConfig>
  {
    file + stored
  }

  function StoredFor(c: Contents, cover: string): Option<StoredCalibration> {
    if cover in c.covers then Some(ReadCalibration(Identified(cover, c.covers[cover]))) else None
  }

  // ---------------------------------------------------------------- what a save would write

  datatype Result = Result(profile: Option<ProfileNumbers>, overrides: map<Key, real>, followsProfile: bool)

  /** The overrides and the height of the record to write. A cover that follows its profile says nothing older any more;
      elsewhere only the keys in the result, and a height read by tape, replace the stored ones. */
  function MergedWith(record: Option<StoredCalibration>, result: Result, m: S.Measured)
    : (map<Key, real>, Option<real>)
  {
    if result.followsProfile then (result.overrides, m.height)
    else
      var kept := if record.Some? then record.value.overrides else map[];
      (kept + result.overrides,
       if m.heightMeasured then m.height else if record.Some? then record.value.height else None)
  }

  predicate ProfileStillWins(record: Option<StoredCalibration>, result: Result, path: Route, profile: Option<string>) {
    result.followsProfile || (path.Refine? && (profile.Some? || (record.Some? && record.value.profileWins)))
  }

  /** What the conversation holds when it comes to its summary. */
  datatype Conclusion = Conclusion(path: Route, measuredName: Option<string>, profile: Option<string>,
                                   measured: S.Measured, result: Result)

  /** `measured_name or profile`. */
  function NameOf(s: Conclusion): Option<string> { OrElse(s.measuredName, s.profile) }

  datatype Written5 = Written5(overrides: map<Key, real>, height: Option<real>, profile: Option<string>, wins: bool,
                               source: string)

  function RecordToWrite(s: Conclusion, record: Option<StoredCalibration>, target: S.Target): Written5 {
    if target.ProfileTarget? && s.path.First? then Written5(map[], s.measured.height, NameOf(s), true, "profile")
    else
      var (overrides, height) := MergedWith(record, s.result, s.measured);
      Written5(overrides, height,
               if s.path.First? then (if record.Some? then record.value.profile else None) else s.profile,
               if s.path.First? then record.Some? && record.value.profileWins
               else ProfileStillWins(record, s.result, s.path, s.profile),
               if s.result.followsProfile then "profile" else "guided")
  }

  function MainTarget(path: Route): S.Target { if path.Refine? then S.CoverOnly else S.ProfileTarget }

  /** A profile with a name, for the write and for the review alike. */
  predicate WritesProfile(s: Conclusion, target: S.Target, name: Option<string>) {
    target.ProfileTarget? && s.result.profile.Some? && name.Some? && name.value != ""
  }

  // ---------------------------------------------------------------- the review

  /** What the cover would use after Save, as the review resolves it: nothing is written. */
  function Reviewed(s: Conclusion, c: Contents, cover: string, file: map<string, ProfileConfig>, device: Device,
                    scale: Scaling): ResolvedCover
    requires Validated(device)
  {
    var target := MainTarget(s.path);
    var name := if s.path.First? then s.measuredName else s.profile;
    var profiles := MergedProfiles(file, StoreProfiles(c.profiles));
    var writing := WritesProfile(s, target, name) && s.path.First?;
    var shaped := if writing
                  then ProfileAsConfig(name.value, ProfileData(name.value, s.result.profile.value, GUIDED, JNull,
                                                               None, None, None))
                  else None;
    var after := if shaped.Some? then profiles[name.value := shaped.value] else profiles;
    var record := StoredFor(c, cover);
    var w := RecordToWrite(s, record, target);
    ResolveCover(device, after,
                 Some(StoredCalibration(cover, w.profile, w.wins, w.height, w.overrides, JText(w.source, None),
                                        None)), scale)
  }

  // ---------------------------------------------------------------- the save

  /** The provenance a save adds, which nothing reads when a cover is resolved. */
  datatype Kept = Kept(coverName: string, now: Json, raw: map<Key, Json>)

  /** The store once the save has written it. */
  function Saved(s: Conclusion, c: Contents, cover: string, target: S.Target, kept: Kept): Contents {
    var name := NameOf(s);
    var c1 := if WritesProfile(s, target, name) then
                Apply(c, SetProfile(name.value, ProfileData(name.value, s.result.profile.value, GUIDED, kept.now,
                                                            Some(JText(kept.coverName, None)), Some(JText(cover, None)),
                                                            Some(JObject(kept.raw)))), kept.now)
              else c;
    var w := RecordToWrite(s, StoredFor(c1, cover), target);
    Apply(c1, SetCalibration(cover, CalibrationData(cover, w.profile, w.wins, w.height, w.overrides,
                                                    JText(w.source, None),
                                                    kept.now, kept.raw)), kept.now)
  }

  function Committed(s: Conclusion, c: Contents, cover: string, target: S.Target, kept: Kept,
                     file: map<string, ProfileConfig>,
                     device: Device, scale: Scaling): ResolvedCover
    requires Validated(device)
  {
    var c1 := Saved(s, c, cover, target, kept);
    ResolveCover(device, MergedProfiles(file, StoreProfiles(c1.profiles)), StoredFor(c1, cover), scale)
  }

  /** What every conversation at its summary satisfies: only path A builds a profile, and of a height other than 0;
      path A follows no stored profile; and the overrides are travel keys. */
  predicate Sound(s: Conclusion) {
    && (s.result.profile.Some? ==> s.path.First? && s.result.profile.value.referenceHeight != 0.0)
    && (s.path.First? ==> s.profile.None?)
    && (forall k :: k in s.result.overrides ==> IsTravelKey(k))
  }

  lemma OverridesAreTravel(c: Contents, cover: string)
    ensures StoredFor(c, cover).Some? ==> forall k :: k in StoredFor(c, cover).value.overrides ==> IsTravelKey(k)
  {
  }

  /** Two records that say the same resolve the same, whatever else is kept in them. */
  lemma SameSayingSameCover(device: Device, profiles: map<string, ProfileConfig>, a: StoredCalibration,
                            b: StoredCalibration, scale: Scaling)
    requires Validated(device)
    requires a.profile == b.profile && a.height == b.height && a.overrides == b.overrides
    requires FollowsAProfile(a) == FollowsAProfile(b)
    ensures ResolveCover(device, profiles, Some(a), scale) == ResolveCover(device, profiles, Some(b), scale)
  {
    hide KeysOf, Said, Written;
  }

  lemma TravelOnlyIsAll(m: map<Key, real>)
    requires forall k :: k in m ==> IsTravelKey(k)
    ensures TravelOnly(m) == m
  {
  }

  /** The profiles after the write are the ones the review resolved against. */
  lemma SameProfilesAfter(s: Conclusion, c: Contents, cover: string, kept: Kept, file: map<string, ProfileConfig>,
                          name: string)
    requires s.result.profile.Some? && name != "" && s.result.profile.value.referenceHeight != 0.0
    ensures var shaped := ProfileAsConfig(name, ProfileData(name, s.result.profile.value, GUIDED, JNull, None, None,
                                                            None));
            var data := ProfileData(name, s.result.profile.value, GUIDED, kept.now, Some(JText(kept.coverName, None)),
                                    Some(JText(cover, None)), Some(JObject(kept.raw)));
            shaped.Some?
            && MergedProfiles(file, StoreProfiles(c.profiles[name := data]))
               == MergedProfiles(file, StoreProfiles(c.profiles))[name := shaped.value]
  {
    hide ProfileData, ProfileAsConfig, StoreProfiles;
    ProfileReadsBack(name, s.result.profile.value, GUIDED, JNull, None, None, None);
    ProfileReadsBack(name, s.result.profile.value, GUIDED, kept.now, Some(JText(kept.coverName, None)),
                     Some(JText(cover, None)), Some(JObject(kept.raw)));
    var data := ProfileData(name, s.result.profile.value, GUIDED, kept.now, Some(JText(kept.coverName, None)),
                            Some(JText(cover, None)), Some(JObject(kept.raw)));
    var shaped := ProfileAsConfig(name, data).value;
    OneMoreProfile(c, name, data, shaped);
  }

  lemma OneMoreProfile(c: Contents, name: string, data: Record, shaped: ProfileConfig)
    requires ProfileAsConfig(name, data) == Some(shaped)
    ensures StoreProfiles(c.profiles[name := data]) == StoreProfiles(c.profiles)[name := shaped]
  {
    hide ProfileAsConfig;
    var a, b := StoreProfiles(c.profiles[name := data]), StoreProfiles(c.profiles)[name := shaped];
    forall k ensures (k in a <==> k in b) && (k in a ==> a[k] == b[k]) {}
  }

  /** What the review shows is what the save makes: if the store has not changed in between, the numbers, the
      origin and the source resolved for the main exit are exactly the ones the cover resolves to once the
      profile and the record have been written and read back; and so they are the numbers just measured, the ones
      that are kept, and the profile measured on it. */
  lemma PreviewIsCommit(s: Conclusion, c: Contents, cover: string, kept: Kept, file: map<string, ProfileConfig>,
                        device: Device, scale: Scaling)
    requires Validated(device) && Sound(s)
    ensures Reviewed(s, c, cover, file, device, scale)
            == Committed(s, c, cover, MainTarget(s.path), kept, file, device, scale)
    ensures RunsOn(s, MainTarget(s.path), StoredFor(c, cover), device, scale,
                   Reviewed(s, c, cover, file, device, scale))
  {
    hide ResolveCover, Saved, RecordToWrite, Reviewed, Committed, RunsOn;
    var w := RecordToWrite(s, StoredFor(c, cover), MainTarget(s.path));
    ReviewedIs(s, c, cover, kept, file, device, scale);
    CommittedIs(s, c, cover, kept, file, device, scale);
    SameSayingSameCover(device, ProfilesAfter(s, c, cover, kept, file),
                        StoredCalibration(cover, w.profile, w.wins, w.height, w.overrides, JText(w.source, None), None),
                        StoredCalibration(cover, w.profile, w.wins && w.profile.Some?, w.height, w.overrides,
                                          JText(w.source, None), Some(kept.now)), scale);
    SavedCoverRuns(s, c, cover, MainTarget(s.path), kept, file, device, scale);
  }

  function SavedProfile(s: Conclusion, cover: string, kept: Kept): Record
    requires s.result.profile.Some? && NameOf(s).Some?
  {
    ProfileData(NameOf(s).value, s.result.profile.value, GUIDED, kept.now, Some(JText(kept.coverName, None)),
                Some(JText(cover, None)), Some(JObject(kept.raw)))
  }

  /** The contents once the profile is written, before the record is. */
  function WithProfile(s: Conclusion, c: Contents, cover: string, target: S.Target, kept: Kept): Contents {
    if WritesProfile(s, target, NameOf(s))
    then c.(profiles := c.profiles[NameOf(s).value := SavedProfile(s, cover, kept)])
    else c
  }

  function ProfilesAfter(s: Conclusion, c: Contents, cover: string, kept: Kept, file: map<string, ProfileConfig>)
    : map<string, ProfileConfig>
  {
    MergedProfiles(file, StoreProfiles(WithProfile(s, c, cover, MainTarget(s.path), kept).profiles))
  }

  lemma ReviewedIs(s: Conclusion, c: Contents, cover: string, kept: Kept, file: map<string, ProfileConfig>,
                   device: Device, scale: Scaling)
    requires Validated(device) && Sound(s)
    ensures var w := RecordToWrite(s, StoredFor(c, cover), MainTarget(s.path));
            Reviewed(s, c, cover, file, device, scale)
            == ResolveCover(device, ProfilesAfter(s, c, cover, kept, file),
                            Some(StoredCalibration(cover, w.profile, w.wins, w.height, w.overrides,
                                                   JText(w.source, None), None)), scale)
  {
    hide ResolveCover, RecordToWrite, StoreProfiles, MergedProfiles, ProfileAsConfig, ProfileData;
    if WritesProfile(s, MainTarget(s.path), NameOf(s)) { SameProfilesAfter(s, c, cover, kept, file, NameOf(s).value); }
  }

  lemma CommittedIs(s: Conclusion, c: Contents, cover: string, kept: Kept, file: map<string, ProfileConfig>,
                    device: Device, scale: Scaling)
    requires Validated(device) && Sound(s)
    ensures var w := RecordToWrite(s, StoredFor(c, cover), MainTarget(s.path));
            Committed(s, c, cover, MainTarget(s.path), kept, file, device, scale)
            == ResolveCover(device, ProfilesAfter(s, c, cover, kept, file),
                            Some(StoredCalibration(cover, w.profile, w.wins && w.profile.Some?, w.height, w.overrides,
                                                   JText(w.source, None), Some(kept.now))), scale)
  {
    hide ResolveCover, StoreProfiles, MergedProfiles, ReadCalibration, CalibrationData, ProfileData, Identified,
      RecordToWrite;
    var target := MainTarget(s.path);
    var c1 := WithProfile(s, c, cover, MainTarget(s.path), kept);
    assert StoredFor(c1, cover) == StoredFor(c, cover);
    var w := RecordToWrite(s, StoredFor(c, cover), target);
    WrittenCalibrationReadsBack(c1, cover, w.profile, w.wins, w.height, w.overrides, JText(w.source, None), kept.now,
                                kept.raw, kept.now);
    MergedIsTravel(s, c, cover, target);
    TravelOnlyIsAll(w.overrides);
    hide TravelOnly;
  }

  lemma MergedIsTravel(s: Conclusion, c: Contents, cover: string, target: S.Target)
    requires Sound(s)
    ensures forall k :: k in RecordToWrite(s, StoredFor(c, cover), target).overrides ==> IsTravelKey(k)
  {
    OverridesAreTravel(c, cover);
    hide StoredFor;
  }

  // ---------------------------------------------------------------- what a save leaves

  /** The exit of path A that puts the profile it measured in the place of the window's own numbers. */
  predicate GivesTheProfile(s: Conclusion, target: S.Target) { s.path.First? && target.ProfileTarget? }

  /** A number the window had and still has: one the save says nothing about, of a path that does not take the
      window back to its profile. */
  predicate Keeps(s: Conclusion, target: S.Target, before: Option<StoredCalibration>, k: Key) {
    && !GivesTheProfile(s, target) && !s.result.followsProfile
    && before.Some? && k in before.value.overrides && k !in s.result.overrides
  }

  /** What the record of a saved cover says: the numbers just measured, whatever was stored under their keys, and
      the ones that are kept; the height the tape read, or else the stored one; and the profile of the
      conversation, which wins whenever there is one. Path A's two exits are their own: the first leaves no
      number and names its profile, the second leaves the assignment as it was. */
  ghost predicate IsSaved(s: Conclusion, target: S.Target, before: Option<StoredCalibration>,
                          after: StoredCalibration) {
    && (forall k :: k in after.overrides <==>
          (k in s.result.overrides && !GivesTheProfile(s, target)) || Keeps(s, target, before, k))
    && (forall k :: k in after.overrides && k in s.result.overrides ==> after.overrides[k] == s.result.overrides[k])
    && (forall k :: Keeps(s, target, before, k) && k in after.overrides ==>
          after.overrides[k] == before.value.overrides[k])
    && after.height == (if GivesTheProfile(s, target) || s.result.followsProfile || s.measured.heightMeasured
                        then s.measured.height
                        else if before.Some? then before.value.height else None)
    && after.profile == (if GivesTheProfile(s, target) && s.measuredName.Some? && s.measuredName.value != ""
                         then s.measuredName
                         else if s.path.First? && target.CoverOnly?
                         then (if before.Some? then before.value.profile else None)
                         else s.profile)
    && (after.profileWins <==>
          after.profile.Some?
          && (s.path.First? && target.CoverOnly? ==> before.Some? && before.value.profileWins)
          && (s.path.Profile? ==> s.result.followsProfile))
    && after.source == (if GivesTheProfile(s, target) || s.result.followsProfile then JText("profile", None)
                        else JText("guided", None))
  }

  /** A save read back: the record of the cover is the one it promises, and no other cover's is another. */
  lemma SaveReadsBack(s: Conclusion, c: Contents, cover: string, target: S.Target, kept: Kept)
    requires Sound(s)
    ensures var after := Saved(s, c, cover, target, kept);
            && StoredFor(after, cover).Some?
            && IsSaved(s, target, StoredFor(c, cover), StoredFor(after, cover).value)
            && StoredFor(after, cover).value.measuredAt == Some(kept.now)
            && (forall other :: other != cover ==> StoredFor(after, other) == StoredFor(c, other))
            && after.order == c.order
  {
    hide ReadCalibration, CalibrationData, ProfileData, Identified, RecordToWrite, WritesProfile, IsSaved, TravelOnly;
    var c1 := WithProfile(s, c, cover, target, kept);
    var record := StoredFor(c, cover);
    var w := RecordToWrite(s, record, target);
    WrittenCalibrationReadsBack(c1, cover, w.profile, w.wins, w.height, w.overrides, JText(w.source, None), kept.now,
                                kept.raw, kept.now);
    MergedIsTravel(s, c, cover, target);
    TravelOnlyIsAll(w.overrides);
    WriteIsSaved(s, record, target, StoredFor(Saved(s, c, cover, target, kept), cover).value);
  }

  lemma WriteIsSaved(s: Conclusion, before: Option<StoredCalibration>, target: S.Target, after: StoredCalibration)
    requires var w := RecordToWrite(s, before, target);
             && after.overrides == w.overrides && after.height == w.height && after.profile == w.profile
             && after.profileWins == (w.wins && w.profile.Some?) && after.source == JText(w.source, None)
    ensures IsSaved(s, target, before, after)
  {
  }

  /** A profile as the configuration states it once its six numbers have been stored. */
  function AsMeasured(p: ProfileNumbers): ProfileConfig {
    ProfileConfig(p.referenceHeight, p.opening, p.closing, p.slat, p.closingRoll, p.openingRoll, p.closingRoll,
                  0.1, 0.5)
  }

  /** The profiles a save leaves: exactly the exit that gives a profile with a name to it writes one, under that name
      and with the numbers that were measured, over whatever it was; every other profile is the one it was. */
  lemma SaveLeavesTheProfiles(s: Conclusion, c: Contents, cover: string, target: S.Target, kept: Kept, name: string)
    requires Sound(s)
    ensures var before, after := StoreProfiles(c.profiles), StoreProfiles(Saved(s, c, cover, target, kept).profiles);
            if GivesTheProfile(s, target) && s.result.profile.Some? && s.measuredName == Some(name) && name != ""
            then name in after && after[name] == AsMeasured(s.result.profile.value)
            else (name in after <==> name in before) && (name in after ==> after[name] == before[name])
  {
    hide ProfileData, CalibrationData, ProfileAsConfig, RecordToWrite, StoredFor;
    if WritesProfile(s, target, NameOf(s)) {
      var p := s.result.profile.value;
      ProfileReadsBack(NameOf(s).value, p, GUIDED, kept.now, Some(JText(kept.coverName, None)),
                       Some(JText(cover, None)), Some(JObject(kept.raw)));
      OneMoreProfile(c, NameOf(s).value, SavedProfile(s, cover, kept), AsMeasured(p));
      hide StoreProfiles;
    }
  }

  /** What a cover runs on for one key after a save: the number just measured, or one that was kept, and no other of
      its own. */
  predicate RunsOnItsOwn(s: Conclusion, target: S.Target, before: Option<StoredCalibration>, r: ResolvedCover, k: Key) {
    && (k in s.result.overrides && !GivesTheProfile(s, target)
        ==> At(r.keys, k) == Some(ResolvedKey(s.result.overrides[k], Own)))
    && (Keeps(s, target, before, k) ==> At(r.keys, k) == Some(ResolvedKey(before.value.overrides[k], Own)))
    && (k in r.keys && r.keys[k].origin == Own ==>
          (k in s.result.overrides && !GivesTheProfile(s, target)) || Keeps(s, target, before, k))
  }

  /** After the exit that gives it its profile it runs on that profile as it was measured, scaled to the height the tape
      read, for every key the profile states, whatever the file says. */
  predicate RunsOnItsProfile(s: Conclusion, target: S.Target, device: Device, scale: Scaling, r: ResolvedCover,
                             k: Key) {
    GivesTheProfile(s, target) && s.result.profile.Some? && s.measuredName.GetOr("") != "" ==>
      var numbers := scale(AsMeasured(s.result.profile.value), HeightOr(s.measured.height, device.height));
      k in numbers ==> At(r.keys, k) == Some(ResolvedKey(numbers[k], FromProfile))
  }

  ghost predicate RunsOn(s: Conclusion, target: S.Target, before: Option<StoredCalibration>, device: Device,
                         scale: Scaling, r: ResolvedCover) {
    forall k :: IsTravelKey(k) ==>
      RunsOnItsOwn(s, target, before, r, k) && RunsOnItsProfile(s, target, device, scale, r, k)
  }

  /** What the cover runs on once a save has come through, key by key, whichever exit was saved. */
  lemma SavedCoverRuns(s: Conclusion, c: Contents, cover: string, target: S.Target, kept: Kept,
                       file: map<string, ProfileConfig>, device: Device, scale: Scaling)
    requires Validated(device) && Sound(s)
    ensures RunsOn(s, target, StoredFor(c, cover), device, scale,
                   Committed(s, c, cover, target, kept, file, device, scale))
  {
    hide RunsOnItsOwn, RunsOnItsProfile, Committed, StoredFor;
    forall k | IsTravelKey(k)
      ensures var r := Committed(s, c, cover, target, kept, file, device, scale);
              RunsOnItsOwn(s, target, StoredFor(c, cover), r, k) && RunsOnItsProfile(s, target, device, scale, r, k)
    {
      SavedKeyRuns(s, c, cover, target, kept, file, device, scale, k);
    }
  }

  lemma SavedKeyRuns(s: Conclusion, c: Contents, cover: string, target: S.Target, kept: Kept,
                     file: map<string, ProfileConfig>, device: Device, scale: Scaling, k: Key)
    requires Validated(device) && Sound(s) && IsTravelKey(k)
    ensures var r := Committed(s, c, cover, target, kept, file, device, scale);
            RunsOnItsOwn(s, target, StoredFor(c, cover), r, k) && RunsOnItsProfile(s, target, device, scale, r, k)
  {
    hide Saved, ResolveCover, StoreProfiles, StoredFor, RunsOnItsOwn, RunsOnItsProfile, IsSaved, Answers;
    var c1 := Saved(s, c, cover, target, kept);
    var profiles := MergedProfiles(file, StoreProfiles(c1.profiles));
    SaveReadsBack(s, c, cover, target, kept);
    var after := StoredFor(c1, cover).value;
    Precedence(device, profiles, Some(after), scale, k);
    OwnAnswers(s, target, StoredFor(c, cover), after, device, profiles, scale, k);
    SaveLeavesTheProfiles(s, c, cover, target, kept, s.measuredName.GetOr(""));
    if GivesTheProfile(s, target) && s.result.profile.Some? && s.measuredName.GetOr("") != "" {
      ProfileAnswers(s, target, StoredFor(c, cover), after, device, profiles, scale, k);
    } else {
      NotGiven(s, target, device, scale, ResolveCover(device, profiles, Some(after), scale), k);
    }
  }

  lemma NotGiven(s: Conclusion, target: S.Target, device: Device, scale: Scaling, r: ResolvedCover, k: Key)
    requires !(GivesTheProfile(s, target) && s.result.profile.Some? && s.measuredName.GetOr("") != "")
    ensures RunsOnItsProfile(s, target, device, scale, r, k)
  {
  }

  lemma OwnAnswers(s: Conclusion, target: S.Target, before: Option<StoredCalibration>, after: StoredCalibration,
                   device: Device, profiles: map<string, ProfileConfig>, scale: Scaling, k: Key)
    requires Validated(device) && IsTravelKey(k) && IsSaved(s, target, before, after)
    ensures RunsOnItsOwn(s, target, before, ResolveCover(device, profiles, Some(after), scale), k)
  {
    hide ResolveCover, Keeps;
    Precedence(device, profiles, Some(after), scale, k);
  }

  lemma ProfileAnswers(s: Conclusion, target: S.Target, before: Option<StoredCalibration>, after: StoredCalibration,
                       device: Device, profiles: map<string, ProfileConfig>, scale: Scaling, k: Key)
    requires Validated(device) && IsTravelKey(k) && IsSaved(s, target, before, after)
    requires GivesTheProfile(s, target) && s.result.profile.Some? && s.measuredName.GetOr("") != ""
    requires s.measuredName.value in profiles && profiles[s.measuredName.value] == AsMeasured(s.result.profile.value)
    ensures RunsOnItsProfile(s, target, device, scale, ResolveCover(device, profiles, Some(after), scale), k)
  {
    hide ResolveCover;
    Precedence(device, profiles, Some(after), scale, k);
  }
}
