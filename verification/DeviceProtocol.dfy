/** What the agent learns about a scanner's protocol from its requests. */
module DeviceProtocol {
  import opened Identifiers
  import opened Text

  datatype Profile = UnknownProfile | TAPush | ACPush3

  type Capabilities = map<string, string>

  datatype State = State(
    profile: Profile,
    confidence: int,
    pushVersion: string,
    capabilities: Capabilities,
    evidence: seq<string>,
    observedAt: int)

  datatype Observation = Observation(path: string, pushVersion: string, capabilities: Capabilities)

  const INVALID := "invalid"
  const MAX_EVIDENCE := 16

  /** What the tracker knows of a scanner it hears from for the first time. */
  const FIRST := State(UnknownProfile, 0, "", map[], [], 0)

  // ---------- capability keys ----------

  function NormalKey(key: string): string { ToLower(TrimSpace(key)) }

  /** n holds each key of `done` in its normal form; keys that fall together lose their values. */
  ghost predicate Collapsed<K(!new), V>(m: map<K, V>, done: set<K>, n: map<K, V>, norm: K -> K, trim: V -> V, bad: V) {
    && done <= m.Keys
    && n.Keys == (set k | k in done :: norm(k))
    && forall k | k in done ::
         n[norm(k)] == if exists other | other in done :: other != k && norm(other) == norm(k) then bad else trim(m[k])
  }

  lemma CollapsedNone<K(!new), V>(m: map<K, V>, norm: K -> K, trim: V -> V, bad: V)
    ensures Collapsed(m, {}, map[], norm, trim, bad)
  {}

  lemma CollapsedMore<K(!new), V>(m: map<K, V>, todo: set<K>, n: map<K, V>, norm: K -> K, trim: V -> V, bad: V, key: K)
    requires todo <= m.Keys && key in todo && Collapsed(m, m.Keys - todo, n, norm, trim, bad)
    ensures Collapsed(m, m.Keys - (todo - {key}), n[norm(key) := if norm(key) in n then bad else trim(m[key])], norm,
      trim, bad)
  {
    var done := m.Keys - todo;
    var k := norm(key);
    assert m.Keys - (todo - {key}) == done + {key};
    if k in n { var other :| other in done && norm(other) == k; }
  }

  lemma CollapsedOnce<K(!new), V>(m: map<K, V>, a: map<K, V>, b: map<K, V>, norm: K -> K, trim: V -> V, bad: V)
    requires Collapsed(m, m.Keys, a, norm, trim, bad) && Collapsed(m, m.Keys, b, norm, trim, bad)
    ensures a == b
  {
    forall k | k in a ensures b[k] == a[k] {
      var key :| key in m && norm(key) == k;
    }
  }

  /** Each key in its normal form, in whatever order the keys are met. */
  ghost predicate IsNormalized(capabilities: Capabilities, normal: Capabilities) {
    Collapsed(capabilities, capabilities.Keys, normal, NormalKey, TrimSpace, INVALID)
  }

  lemma OneNormalization(capabilities: Capabilities, a: Capabilities, b: Capabilities)
    requires IsNormalized(capabilities, a) && IsNormalized(capabilities, b)
    ensures a == b
  {
    hide Collapsed;
    CollapsedOnce(capabilities, a, b, NormalKey, TrimSpace, INVALID);
  }

  /** normalizeCapabilities, over a map whose order of iteration is not fixed. */
  method NormalizeCapabilities(capabilities: Capabilities) returns (normal: Capabilities)
    ensures IsNormalized(capabilities, normal)
  {
    normal := map[];
    var todo := capabilities.Keys;
    CollapsedNone(capabilities, NormalKey, TrimSpace, INVALID);
    assert capabilities.Keys - todo == {};
    hide Collapsed;
    while todo != {}
      invariant todo <= capabilities.Keys
      invariant Collapsed(capabilities, capabilities.Keys - todo, normal, NormalKey, TrimSpace, INVALID)
      decreases |todo|
    {
      var key :| key in todo;
      CollapsedMore(capabilities, todo, normal, NormalKey, TrimSpace, INVALID, key);
      var k := NormalKey(key);
      normal := normal[k := if k in normal then INVALID else TrimSpace(capabilities[key])];
      todo := todo - {key};
    }
    assert capabilities.Keys - todo == capabilities.Keys;
  }

  // ---------- observations ----------

  /** appendEvidence: the newest sixteen. */
  function Noted(evidence: seq<string>, item: string): seq<string> {
    (if |evidence| >= MAX_EVIDENCE then evidence[|evidence| - (MAX_EVIDENCE - 1)..] else evidence) + [item]
  }

  /** A PUSH version 2.2 to 2.4. */
  predicate SpeaksTA(pushVersion: string) {
    var parts := Split(pushVersion, '.');
    && |parts| >= 2
    && Atoi(parts[0]) == Some(2)
    && Atoi(parts[1]).Some? && 2 <= Atoi(parts[1]).value <= 4
  }

  predicate ACRoute(path: string) { path == "/iclock/registry" || path == "/iclock/push" }

  /** ObserveProtocol, given the observed capabilities in normal form. */
  function Observed(current: State, seen: Observation, normal: Capabilities, now: int): State {
    var merged := current.capabilities + normal;
    if ACRoute(seen.path) then
      if current.profile.TAPush? && current.confidence >= 80 then
        State(UnknownProfile, 0, "", merged, Noted(current.evidence, "conflicting_ac_push_route"), now)
      else
        State(ACPush3, 95, "", merged, Noted(current.evidence, "ac_push_route"), now)
    else if SpeaksTA(seen.pushVersion) then
      if current.profile.ACPush3? && current.confidence >= 80 then
        State(UnknownProfile, 0, seen.pushVersion, merged, Noted(current.evidence, "conflicting_ta_push_version"), now)
      else
        State(TAPush, 90, seen.pushVersion, merged, ["push_version_2_x"], now)
    else if |normal| > 0 then current.(capabilities := merged, observedAt := now)
    else current
  }

  // ---------- over every run of observations ----------

  ghost predicate Observes(current: State, next: State) {
    exists seen: Observation, normal: Capabilities, now: int ::
      IsNormalized(seen.capabilities, normal) && next == Observed(current, seen, normal, now)
  }

  /** The states a tracker goes through, one observation at a time. */
  ghost predicate Tracked(history: seq<State>) {
    && history != [] && history[0] == FIRST
    && forall k | 0 < k < |history| :: Observes(history[k - 1], history[k])
  }

  function ConfidenceOf(profile: Profile): int {
    match profile
    case TAPush => 90
    case ACPush3 => 95
    case UnknownProfile => 0
  }

  /** Keys in normal form and trimmed values. */
  predicate AllNormal(capabilities: Capabilities) {
    forall k | k in capabilities :: NormalKey(k) == k && TrimSpace(capabilities[k]) == capabilities[k]
  }

  /** TA and AC profiles never follow each other directly. */
  predicate NoSwitch(before: State, after: State) {
    && !(before.profile.TAPush? && after.profile.ACPush3?)
    && !(before.profile.ACPush3? && after.profile.TAPush?)
  }

  ghost predicate WellKept(s: State) {
    && s.confidence == ConfidenceOf(s.profile)
    && |s.evidence| <= MAX_EVIDENCE
    && AllNormal(s.capabilities)
    && (s.profile.TAPush? ==> SpeaksTA(s.pushVersion))
    && (s.profile.ACPush3? ==> s.pushVersion == "")
  }

  lemma LowerTwice(c: char)
    ensures LowerChar(LowerChar(c)) == LowerChar(c)
    ensures IsSpace(LowerChar(c)) == IsSpace(c)
  {}

  lemma {:induction false} TrimmedEnds(s: string)
    ensures var t := TrimSpace(s); t == "" || (!IsSpace(t[0]) && !IsSpace(t[|t| - 1]))
  {
    TrimLeftEnd(s);
    TrimRightEnds(TrimLeft(s));
  }

  lemma {:induction false} TrimLeftEnd(s: string)
    ensures var t := TrimLeft(s); t == "" || !IsSpace(t[0])
  {
    if s != "" && IsSpace(s[0]) { TrimLeftEnd(s[1..]); }
  }

  lemma {:induction false} TrimRightEnds(s: string)
    requires s == "" || !IsSpace(s[0])
    ensures var t := TrimRight(s); t == "" || (!IsSpace(t[0]) && !IsSpace(t[|t| - 1]))
  {
    if s != "" && IsSpace(s[|s| - 1]) { TrimRightEnds(s[..|s| - 1]); }
  }

  lemma NormalOnce(key: string)
    ensures NormalKey(NormalKey(key)) == NormalKey(key)
  {
    var t := TrimSpace(key);
    var k := ToLower(t);
    TrimmedEnds(key);
    if t != "" {
      LowerTwice(t[0]);
      LowerTwice(t[|t| - 1]);
    }
    hide TrimLeft, TrimRight;
    TrimNothing(k);
    var kk := ToLower(k);
    forall i | 0 <= i < |k| ensures kk[i] == k[i] { LowerTwice(t[i]); }
    assert kk == k;
  }

  lemma ObservationKeeps(current: State, next: State)
    requires WellKept(current) && Observes(current, next)
    ensures WellKept(next)
    ensures NoSwitch(current, next)
  {
    var seen: Observation, normal: Capabilities, now: int :| IsNormalized(seen.capabilities, normal)
      && next == Observed(current, seen, normal, now);
    NormalizedIsNormal(seen.capabilities, normal);
    MergedIsNormal(current.capabilities, normal);
    hide AllNormal, IsNormalized;
    ObservedKeeps(current, seen, normal, now);
  }

  lemma ObservedKeeps(current: State, seen: Observation, normal: Capabilities, now: int)
    requires WellKept(current) && AllNormal(current.capabilities + normal)
    ensures var next := Observed(current, seen, normal, now);
      WellKept(next) && NoSwitch(current, next)
  {
    hide AllNormal, SpeaksTA, ACRoute;
    NotedIsShort(current.evidence, "conflicting_ac_push_route");
    NotedIsShort(current.evidence, "ac_push_route");
    NotedIsShort(current.evidence, "conflicting_ta_push_version");
    hide Noted;
  }

  lemma NotedIsShort(evidence: seq<string>, item: string)
    requires |evidence| <= MAX_EVIDENCE
    ensures |Noted(evidence, item)| <= MAX_EVIDENCE
  {}

  lemma NormalizedIsNormal(capabilities: Capabilities, normal: Capabilities)
    requires IsNormalized(capabilities, normal)
    ensures AllNormal(normal)
  {
    TrimNothing(INVALID);
    forall k | k in normal ensures NormalKey(k) == k && TrimSpace(normal[k]) == normal[k] {
      var key :| key in capabilities && NormalKey(key) == k;
      NormalOnce(key);
      TrimmedOnce(capabilities[key]);
    }
  }

  lemma TrimmedOnce(s: string)
    ensures TrimSpace(TrimSpace(s)) == TrimSpace(s)
  {
    TrimmedEnds(s);
    TrimNothing(TrimSpace(s));
  }

  lemma NormalIsFixed<K(!new), V>(m: map<K, V>, norm: K -> K, trim: V -> V, bad: V)
    requires forall k | k in m :: norm(k) == k && trim(m[k]) == m[k]
    ensures Collapsed(m, m.Keys, m, norm, trim, bad)
  {}

  /** What a tracker stores is its own normal form, and the only one. */
  lemma StoredIsItsNormalForm(history: seq<State>, k: nat, normal: Capabilities)
    requires Tracked(history) && k < |history|
    ensures IsNormalized(history[k].capabilities, normal) <==> normal == history[k].capabilities
  {
    TrackedIsKept(history, k);
    var stored := history[k].capabilities;
    NormalIsFixed(stored, NormalKey, TrimSpace, INVALID);
    if IsNormalized(stored, normal) { OneNormalization(stored, normal, stored); }
  }

  lemma MergedIsNormal(a: Capabilities, b: Capabilities)
    requires AllNormal(a) && AllNormal(b)
    ensures AllNormal(a + b)
  {
    hide NormalKey;
  }

  lemma ObservedMerges(current: State, seen: Observation, normal: Capabilities, now: int)
    ensures var next := Observed(current, seen, normal, now);
      next.capabilities == current.capabilities + normal && (next == current || next.observedAt == now)
  {
    hide SpeaksTA, ACRoute, Noted;
    if |normal| == 0 { MergeNothing(current.capabilities, normal); }
  }

  lemma MergeNothing<K, V>(m: map<K, V>, n: map<K, V>)
    requires |n| == 0
    ensures m + n == m
  {}

  /** ObserveProtocol. The newly reported capabilities overwrite what was stored under their normal keys. */
  method ObserveProtocol(current: State, seen: Observation, now: int) returns (next: State)
    ensures Observes(current, next)
    ensures WellKept(current) ==> WellKept(next) && NoSwitch(current, next)
    ensures forall normal | IsNormalized(seen.capabilities, normal) ::
      next.capabilities == current.capabilities + normal
    ensures next == current || next.observedAt == now
  {
    var normal := NormalizeCapabilities(seen.capabilities);
    next := ObserveNormal(current, seen, normal, now);
    forall other | IsNormalized(seen.capabilities, other) ensures other == normal {
      OneNormalization(seen.capabilities, other, normal);
    }
    ObservedMerges(current, seen, normal, now);
    hide Observed, IsNormalized, WellKept, NoSwitch;
    assert Observes(current, next);
    if WellKept(current) { ObservationKeeps(current, next); }
  }

  /** The branches of ObserveProtocol. */
  method ObserveNormal(current: State, seen: Observation, normal: Capabilities, now: int) returns (next: State)
    ensures next == Observed(current, seen, normal, now)
  {
    var merged := current.capabilities + normal;
    if seen.path == "/iclock/registry" || seen.path == "/iclock/push" {
      if current.profile == TAPush && current.confidence >= 80 {
        var evidence := AppendEvidence(current.evidence, "conflicting_ac_push_route");
        return State(UnknownProfile, 0, "", merged, evidence, now);
      }
      var evidence := AppendEvidence(current.evidence, "ac_push_route");
      return State(ACPush3, 95, "", merged, evidence, now);
    }
    hide Noted, Split, Atoi;
    var parts := Split(seen.pushVersion, '.');
    if |parts| >= 2 {
      var major, minor := Atoi(parts[0]), Atoi(parts[1]);
      if major.Some? && minor.Some? && major.value == 2 && 2 <= minor.value <= 4 {
        if current.profile == ACPush3 && current.confidence >= 80 {
          var evidence := AppendEvidence(current.evidence, "conflicting_ta_push_version");
          return State(UnknownProfile, 0, seen.pushVersion, merged, evidence, now);
        }
        return State(TAPush, 90, seen.pushVersion, merged, ["push_version_2_x"], now);
      }
    }
    next := current;
    if |normal| > 0 {
      next := next.(capabilities := merged, observedAt := now);
    }
  }

  method AppendEvidence(evidence: seq<string>, item: string) returns (noted: seq<string>)
    ensures noted == Noted(evidence, item)
    ensures |noted| <= |evidence| + 1 && (|evidence| <= MAX_EVIDENCE ==> |noted| <= MAX_EVIDENCE)
  {
    noted := evidence;
    if |noted| >= MAX_EVIDENCE {
      noted := noted[|noted| - (MAX_EVIDENCE - 1)..];
    }
    noted := noted + [item];
  }

  lemma {:induction false} TrackedIsKept(history: seq<State>, k: nat)
    requires Tracked(history) && k < |history|
    ensures WellKept(history[k])
  {
    hide WellKept, Observes;
    if k == 0 {
      FirstIsKept();
    } else {
      TrackedIsKept(history, k - 1);
      ObservationKeeps(history[k - 1], history[k]);
    }
  }

  lemma FirstIsKept()
    ensures WellKept(FIRST)
  {}

  /** Over every run of observations: confidence is a function of the profile, evidence is bounded, keys
      stay normalized, a TA profile has a TA version, and TA and AC never follow each other directly. */
  lemma TrackersStayWellKept(history: seq<State>)
    requires Tracked(history)
    ensures forall k | 0 <= k < |history| :: WellKept(history[k])
    ensures forall k | 0 < k < |history| :: NoSwitch(history[k - 1], history[k])
  {
    forall k | 0 <= k < |history| ensures WellKept(history[k]) { TrackedIsKept(history, k); }
    hide WellKept, Observes, NoSwitch;
    forall k | 0 < k < |history| ensures NoSwitch(history[k - 1], history[k]) {
      ObservationKeeps(history[k - 1], history[k]);
    }
  }

  /** The newest items, the last of which is new. */
  predicate Notes(before: seq<string>, after: seq<string>, item: string) {
    if |before| < 16 then after == before + [item]
    else |after| == 16 && after[15] == item && after[..15] == before[|before| - 15..]
  }

  /** What an observation makes of the profile: a route of AC PUSH makes a scanner an AC one, a TA version makes
      it a TA one, one on top of the other makes it unknown, and anything else leaves it as it is. */
  predicate Turns(before: State, after: State, acRoute: bool, speaksTA: bool, version: string) {
    if acRoute && before.profile.TAPush? then
      after.profile.UnknownProfile? && after.confidence == 0 && after.pushVersion == ""
      && Notes(before.evidence, after.evidence, "conflicting_ac_push_route")
    else if acRoute then
      after.profile.ACPush3? && after.confidence == 95 && after.pushVersion == ""
      && Notes(before.evidence, after.evidence, "ac_push_route")
    else if speaksTA && before.profile.ACPush3? then
      after.profile.UnknownProfile? && after.confidence == 0 && after.pushVersion == version
      && Notes(before.evidence, after.evidence, "conflicting_ta_push_version")
    else if speaksTA then
      after.profile.TAPush? && after.confidence == 90 && after.pushVersion == version
      && after.evidence == ["push_version_2_x"]
    else after == before.(capabilities := after.capabilities, observedAt := after.observedAt)
  }

  lemma NotedNotes(evidence: seq<string>, item: string)
    ensures Notes(evidence, Noted(evidence, item), item)
  {}

  /** Every observation of a tracked scanner turns its profile by the route and the version it came with, and
      keeps of each capability what was reported last. */
  lemma ProfilesTurn(history: seq<State>, k: nat, seen: Observation, normal: Capabilities, now: int)
    requires Tracked(history) && k < |history|
    ensures var next := Observed(history[k], seen, normal, now);
      && Turns(history[k], next, seen.path == "/iclock/registry" || seen.path == "/iclock/push",
               SpeaksTA(seen.pushVersion), seen.pushVersion)
      && next.capabilities.Keys == history[k].capabilities.Keys + normal.Keys
      && (forall key | key in next.capabilities ::
            next.capabilities[key] == if key in normal then normal[key] else history[k].capabilities[key])
  {
    TrackedIsKept(history, k);
    ObservedMerges(history[k], seen, normal, now);
    NotedNotes(history[k].evidence, "conflicting_ac_push_route");
    NotedNotes(history[k].evidence, "ac_push_route");
    NotedNotes(history[k].evidence, "conflicting_ta_push_version");
    hide Tracked, Noted, Notes, SpeaksTA, AllNormal;
  }
}
