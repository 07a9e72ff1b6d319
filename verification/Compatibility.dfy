/** Whether a scanner, as it presents itself now, takes a deployment or a deletion. */
module Compatibility {
  import opened Identifiers
  import opened Text
  import opened Claims
  import opened DeviceProtocol

  type Version = (int, int, int)

  const FP_LIMIT: Version := (2, 2, 14)

  datatype Template = Template(
    renderer: string,
    personnelID: string,
    kind: string,
    bioType: int,
    slotIndex: int,
    algorithmFamily: string,
    algorithmMajor: int,
    algorithmMinor: int,
    format: string)

  datatype DeletionTarget = DeletionTarget(personnelID: string, kind: string, bioType: int, slotIndex: int)

  // ---------- versions ----------

  function Compare(a: Version, b: Version): int {
    if a.0 != b.0 then if a.0 < b.0 then -1 else 1
    else if a.1 != b.1 then if a.1 < b.1 then -1 else 1
    else if a.2 != b.2 then if a.2 < b.2 then -1 else 1
    else 0
  }

  function Component(parts: seq<string>, k: nat): Option<int>
    requires k < |parts|
  {
    var n := Atoi(parts[k]);
    if n.Some? && n.value >= 0 then n else None
  }

  /** approvedTAPushVersion: exactly three components, from 2.2.0 to 2.4.1. */
  function ApprovedVersion(value: string): Option<Version> {
    var parts := Split(value, '.');
    if |parts| != 3 || Component(parts, 0).None? || Component(parts, 1).None? || Component(parts, 2).None? then None
    else
      var v := (Component(parts, 0).value, Component(parts, 1).value, Component(parts, 2).value);
      if Compare(v, (2, 2, 0)) >= 0 && Compare(v, (2, 4, 1)) <= 0 then Some(v) else None
  }

  /** pushVersionBefore: at least three numbers, of which the first three are lower. */
  method PushVersionBefore(value: string, required: Version) returns (before: bool)
    ensures before == VersionBefore(value, required)
  {
    var parts := Split(value, '.');
    if |parts| < 3 {
      return false;
    }
    hide Split;
    var actual := new int[3];
    for index := 0 to 3
      invariant forall k | 0 <= k < index :: Atoi(parts[k]) == Some(actual[k])
    {
      var number := Atoi(parts[index]);
      if number.None? {
        return false;
      }
      actual[index] := number.value;
    }
    var limits := new int[] [required.0, required.1, required.2];
    for index := 0 to 3
      invariant forall k | 0 <= k < index :: actual[k] == limits[k]
      invariant limits[..] == [required.0, required.1, required.2]
    {
      if actual[index] != limits[index] {
        return actual[index] < limits[index];
      }
    }
    before := false;
  }

  function VersionBefore(value: string, required: Version): bool {
    var parts := Split(value, '.');
    |parts| >= 3 && Atoi(parts[0]).Some? && Atoi(parts[1]).Some? && Atoi(parts[2]).Some?
    && Compare((Atoi(parts[0]).value, Atoi(parts[1]).value, Atoi(parts[2]).value), required) < 0
  }

  /** The two ways to ask for an old version agree on approved versions. */
  lemma VersionsAgree(value: string, limit: Version)
    requires ApprovedVersion(value).Some?
    ensures VersionBefore(value, limit) <==> Compare(ApprovedVersion(value).value, limit) < 0
  {
    hide Split, Atoi;
  }

  /** algorithmVersion: a positive major and a minor number, behind an optional prefix. */
  function AlgorithmVersion(value: string): Option<(int, int)> {
    var version := match Cut(value, ':') { case Some((_, rest)) => rest case None => value };
    match Cut(TrimSpace(version), '.')
    case None => None
    case Some((majorText, minorText)) =>
      var major, minor := Atoi(TrimSpace(majorText)), Atoi(TrimSpace(minorText));
      if major.Some? && minor.Some? && major.value > 0 && minor.value >= 0 then Some((major.value, minor.value))
      else None
  }

  function Capability(capabilities: Capabilities, key: string): string {
    if key in capabilities then capabilities[key] else ""
  }

  // ---------- the validators; capabilities are in normal form ----------

  predicate Trusted(state: State) { 80 <= state.confidence <= 100 }

  /** exactLiveTemplateAlgorithm */
  function AlgorithmCode(t: Template, capabilities: Capabilities, modality: string): string {
    match AlgorithmVersion(Capability(capabilities, modality + "algorithmversion"))
    case None => "algorithm_unknown"
    case Some((major, minor)) =>
      if || t.algorithmFamily != "zk" + modality + "-v" + Itoa(major)
         || t.algorithmMajor != major || t.algorithmMinor != minor
      then "algorithm_mismatch" else ""
  }

  function FormatCode(t: Template, capabilities: Capabilities, modality: string, prefix: string): string {
    var code := AlgorithmCode(t, capabilities, modality);
    if code != "" then code else if t.format != prefix + Itoa(t.algorithmMajor) then "algorithm_mismatch" else ""
  }

  function LegacyCode(state: State, capabilities: Capabilities, t: Template): string {
    if !state.profile.TAPush? || t.kind != FINGERPRINT || t.bioType != 1 || t.algorithmMajor > 10
       || Capability(capabilities, "fingerfunon") != "1" then "record_type_unsupported"
    else FormatCode(t, capabilities, "finger", "templatev")
  }

  function BiodataCode(state: State, capabilities: Capabilities, version: Option<Version>, t: Template): string {
    if state.profile.TAPush? && (version.None? || Compare(version.value, FP_LIMIT) < 0) then "record_type_unsupported"
    else if Capability(capabilities, "biodatafun") != "1" then "record_type_unsupported"
    else if t.kind == FINGERPRINT then
      if t.bioType != 1 || Capability(capabilities, "fingerfunon") != "1" then "record_type_unsupported"
      else if state.profile.TAPush? && t.algorithmMajor <= 10 then "record_type_unsupported"
      else FormatCode(t, capabilities, "finger", "templatev")
    else if t.kind == FACE then
      if t.bioType != 9 || Capability(capabilities, "facefunon") != "1" then "record_type_unsupported"
      else FormatCode(t, capabilities, "face", "facev")
    else "record_type_unsupported"
  }

  function PhotoCode(state: State, capabilities: Capabilities, t: Template): string {
    if !state.profile.ACPush3? || t.kind != PHOTO || t.bioType != 9 || t.algorithmFamily != "portable_photo"
       || t.algorithmMajor != 0 || t.algorithmMinor != 0 || (t.format != "jpeg" && t.format != "png")
       || Capability(capabilities, "facefunon") != "1" || Capability(capabilities, "biophotofun") != "1"
    then "record_type_unsupported" else ""
  }

  /** validateLiveBiometricRenderer */
  function RendererCode(state: State, capabilities: Capabilities, t: Template): string {
    var version := ApprovedVersion(state.pushVersion);
    if !Trusted(state) then "target_profile_untrusted"
    else if !ValidIdentifier(t.personnelID) then "invalid_deployment_claim"
    else if state.profile.UnknownProfile? || (state.profile.TAPush? && version.None?) then "target_profile_untrusted"
    else if t.renderer == "finger_legacy" then LegacyCode(state, capabilities, t)
    else if t.renderer == "biodata" then BiodataCode(state, capabilities, version, t)
    else if t.renderer == "face_photo" then PhotoCode(state, capabilities, t)
    else "record_type_unsupported"
  }

  datatype Deleter = FingerFP | FingerLegacy | Biodata | Biophoto

  datatype DeletionCheck = Deletes(deleter: Deleter) | Refuses(code: string)

  predicate ValidTarget(d: DeletionTarget) {
    && ValidIdentifier(d.personnelID)
    && 0 <= d.slotIndex <= 9
    && ((d.kind == FINGERPRINT && d.bioType == 1) || ((d.kind == FACE || d.kind == PHOTO) && d.bioType == 9))
  }

  function TADeletion(capabilities: Capabilities, version: Option<Version>, d: DeletionTarget): DeletionCheck {
    if version.None? then Refuses("target_profile_untrusted")
    else if d.kind != FINGERPRINT || Capability(capabilities, "fingerfunon") != "1"
      then Refuses("record_type_unsupported")
    else
      match AlgorithmVersion(Capability(capabilities, "fingeralgorithmversion"))
      case None => Refuses("algorithm_unknown")
      case Some((major, _)) =>
        if major <= 10 then Deletes(if Compare(version.value, FP_LIMIT) < 0 then FingerFP else FingerLegacy)
        else if Capability(capabilities, "biodatafun") != "1" then Refuses("record_type_unsupported")
        else if Compare(version.value, FP_LIMIT) < 0 then Refuses("record_type_unsupported")
        else Deletes(Biodata)
  }

  function ACDeletion(capabilities: Capabilities, d: DeletionTarget): DeletionCheck {
    if d.kind == PHOTO then
      if Capability(capabilities, "facefunon") != "1" || Capability(capabilities, "biophotofun") != "1"
      then Refuses("record_type_unsupported") else Deletes(Biophoto)
    else
      var modality := if d.kind == FINGERPRINT then "finger" else "face";
      if Capability(capabilities, modality + "funon") != "1" || Capability(capabilities, "biodatafun") != "1"
      then Refuses("record_type_unsupported")
      else if AlgorithmVersion(Capability(capabilities, modality + "algorithmversion")).None?
        then Refuses("algorithm_unknown")
      else Deletes(Biodata)
  }

  /** validateLiveBiometricDeletion */
  function CheckDeletion(state: State, capabilities: Capabilities, d: DeletionTarget): DeletionCheck {
    if !Trusted(state) then Refuses("target_profile_untrusted")
    else if !ValidTarget(d) then Refuses("invalid_deployment_claim")
    else
      match state.profile
      case TAPush => TADeletion(capabilities, ApprovedVersion(state.pushVersion), d)
      case ACPush3 => ACDeletion(capabilities, d)
      case UnknownProfile => Refuses("target_profile_untrusted")
  }

  // ---------- deployable implies deletable ----------

  datatype Table = FP | FINGERTMP | BIODATA | BIOPHOTO

  /** The record table that the rendered deployment writes to. */
  function DeployTable(state: State, t: Template): Table {
    if t.renderer == "finger_legacy" then if VersionBefore(state.pushVersion, FP_LIMIT) then FP else FINGERTMP
    else if t.renderer == "biodata" then BIODATA
    else BIOPHOTO
  }

  function DeleteTable(d: Deleter): Table {
    match d
    case FingerFP => FP
    case FingerLegacy => FINGERTMP
    case Biodata => BIODATA
    case Biophoto => BIOPHOTO
  }

  function TargetOf(t: Template): DeletionTarget { DeletionTarget(t.personnelID, t.kind, t.bioType, t.slotIndex) }

  /** Claims carry a slot from 0 to 9. */
  predicate ClaimedSlot(t: Template) { 0 <= t.slotIndex <= 9 }

  lemma KindsDiffer()
    ensures FINGERPRINT != FACE && FACE != PHOTO && FINGERPRINT != PHOTO
    ensures "finger_legacy" != "biodata" && "biodata" != "face_photo" && "finger_legacy" != "face_photo"
    ensures "finger" + "funon" == "fingerfunon" && "face" + "funon" == "facefunon"
    ensures "finger" + "algorithmversion" == "fingeralgorithmversion"
  {
    assert FINGERPRINT[1] == 'i' && FACE[1] == 'a' && FACE[5] == 't' && PHOTO[5] == 'c';
    assert "finger_legacy"[0] == 'f' && "biodata"[0] == 'b' && "face_photo"[1] == 'a';
  }

  lemma LegacyDeletes(state: State, capabilities: Capabilities, t: Template)
    requires RendererCode(state, capabilities, t) == "" && ClaimedSlot(t) && t.renderer == "finger_legacy"
    ensures CheckDeletion(state, capabilities, TargetOf(t)).Deletes?
    ensures DeleteTable(CheckDeletion(state, capabilities, TargetOf(t)).deleter) == DeployTable(state, t)
  {
    KindsDiffer();
    VersionsAgree(state.pushVersion, FP_LIMIT);
    hide ValidIdentifier, ApprovedVersion, VersionBefore, AlgorithmVersion, Itoa, Compare;
  }

  lemma BiodataDeletes(state: State, capabilities: Capabilities, t: Template)
    requires RendererCode(state, capabilities, t) == "" && ClaimedSlot(t) && t.renderer == "biodata"
    ensures var check := CheckDeletion(state, capabilities, TargetOf(t));
      if state.profile.TAPush? && t.kind == FACE then check == Refuses("record_type_unsupported")
      else check == Deletes(Biodata)
  {
    KindsDiffer();
    hide ValidIdentifier, ApprovedVersion, VersionBefore, AlgorithmVersion, Itoa, Compare;
  }

  lemma PhotoDeletes(state: State, capabilities: Capabilities, t: Template)
    requires RendererCode(state, capabilities, t) == "" && ClaimedSlot(t) && t.renderer == "face_photo"
    ensures CheckDeletion(state, capabilities, TargetOf(t)) == Deletes(Biophoto)
  {
    KindsDiffer();
    hide ValidIdentifier, ApprovedVersion, VersionBefore, AlgorithmVersion, Itoa, Compare;
  }

  /** What a scanner accepts now it also lets go of, in the table it would be written to, on exactly all
      states and assets but face templates on TA PUSH. */
  lemma DeployableIsDeletable(state: State, capabilities: Capabilities, t: Template)
    requires RendererCode(state, capabilities, t) == "" && ClaimedSlot(t)
    ensures var check := CheckDeletion(state, capabilities, TargetOf(t));
      && (check.Deletes? <==> !(state.profile.TAPush? && t.kind == FACE))
      && (check.Deletes? ==> DeleteTable(check.deleter) == DeployTable(state, t))
  {
    KindsDiffer();
    hide RendererCode, CheckDeletion, ClaimedSlot, VersionBefore;
    if t.renderer == "finger_legacy" {
      LegacyDeletes(state, capabilities, t);
      LegacyIsFinger(state, capabilities, t);
    } else if t.renderer == "biodata" {
      BiodataDeletes(state, capabilities, t);
    } else {
      OnlyRenderers(state, capabilities, t);
      PhotoDeletes(state, capabilities, t);
    }
  }

  lemma LegacyIsFinger(state: State, capabilities: Capabilities, t: Template)
    requires RendererCode(state, capabilities, t) == "" && t.renderer == "finger_legacy"
    ensures t.kind == FINGERPRINT
  {
    hide ValidIdentifier, ApprovedVersion, FormatCode;
  }

  lemma OnlyRenderers(state: State, capabilities: Capabilities, t: Template)
    requires RendererCode(state, capabilities, t) == "" && t.renderer != "finger_legacy" && t.renderer != "biodata"
    ensures t.renderer == "face_photo" && t.kind == PHOTO
  {
    hide ValidIdentifier, ApprovedVersion, LegacyCode, BiodataCode;
  }

  // ---------- the exception is real ----------

  lemma SmallReads(s: string, n: nat)
    requires n < 10 && s == [('0' as int + n) as char]
    ensures Atoi(s) == Some(n)
  {
    assert s[..0] == "" && Value("") == 0;
  }

  lemma ThreeParts(a: string, b: string, c: string)
    requires '.' !in a && '.' !in b && '.' !in c
    ensures Split(a + "." + (b + "." + c), '.') == [a, b, c]
  {
    SplitAt(a, '.', b + "." + c);
    SplitAt(b, '.', c);
    SplitNone(c, '.');
    hide Split;
  }

  lemma ApprovedExample()
    ensures ApprovedVersion("2.3.0") == Some((2, 3, 0))
  {
    assert "2.3.0" == "2" + "." + ("3" + "." + "0");
    ThreeParts("2", "3", "0");
    SmallReads("2", 2);
    SmallReads("3", 3);
    SmallReads("0", 0);
    hide Split, Atoi;
  }

  lemma AlgorithmExample()
    ensures AlgorithmVersion("7.0") == Some((7, 0))
  {
    TrimNothing("7.0");
    TrimNothing("7");
    TrimNothing("0");
    assert "7.0" == "7" + "." + "0";
    CutIs("7", '.', "0");
    SmallReads("7", 7);
    SmallReads("0", 0);
    CutNone("7.0", ':');
    hide TrimSpace, Cut, Atoi;
  }

  const TA_CAPABILITIES: Capabilities := map["biodatafun" := "1", "facefunon" := "1", "facealgorithmversion" := "7.0"]
  const TA_SCANNER := State(TAPush, 90, "2.3.0", TA_CAPABILITIES, ["push_version_2_x"], 0)
  const TA_FACE := Template("biodata", "7", FACE, 9, 0, "zkface-v7", 7, 0, "facev7")

  lemma TACapabilities()
    ensures Capability(TA_SCANNER.capabilities, "biodatafun") == "1"
    ensures Capability(TA_SCANNER.capabilities, "facefunon") == "1"
    ensures Capability(TA_SCANNER.capabilities, "facealgorithmversion") == "7.0"
  {
    assert "biodatafun"[0] == 'b' && "facefunon"[4] == 'f' && "facealgorithmversion"[4] == 'a' && "facefunon"[0] == 'f';
  }

  lemma FaceAlgorithm()
    ensures "zk" + "face" + "-v" + Itoa(7) == "zkface-v7" && "facev" + Itoa(7) == "facev7"
    ensures "face" + "algorithmversion" == "facealgorithmversion"
  {
    assert Itoa(7) == "7";
  }

  lemma FaceFormat(capabilities: Capabilities)
    requires Capability(capabilities, "facealgorithmversion") == "7.0"
    ensures FormatCode(TA_FACE, capabilities, "face", "facev") == ""
  {
    FaceAlgorithm();
    AlgorithmExample();
    hide Capability, AlgorithmVersion, Itoa;
  }

  lemma FaceDeploys(state: State, capabilities: Capabilities, t: Template)
    requires state.profile.TAPush? && state.confidence == 90 && ApprovedVersion(state.pushVersion) == Some((2, 3, 0))
    requires ValidIdentifier(t.personnelID) && t.renderer == "biodata" && t.kind == FACE && t.bioType == 9
    requires Capability(capabilities, "biodatafun") == "1" && Capability(capabilities, "facefunon") == "1"
    requires FormatCode(t, capabilities, "face", "facev") == ""
    ensures RendererCode(state, capabilities, t) == ""
  {
    KindsDiffer();
    hide ValidIdentifier, ApprovedVersion, Capability, FormatCode;
  }

  lemma PlainIsNormal(key: string)
    requires key != "" && forall k | 0 <= k < |key| :: IsLower(key[k])
    ensures NormalKey(key) == key
  {
    TrimNothing(key);
    assert ToLower(key) == key;
  }

  lemma KeysAreNormal()
    ensures NormalKey("biodatafun") == "biodatafun" && NormalKey("facefunon") == "facefunon"
  {
    hide NormalKey;
    PlainIsNormal("biodatafun");
    PlainIsNormal("facefunon");
  }

  lemma LongKeyIsNormal()
    ensures NormalKey("facealgorithmversion") == "facealgorithmversion"
  {
    hide NormalKey;
    PlainIsNormal("facealgorithmversion");
  }

  lemma ThreeAreNormal(a: string, b: string, c: string, x: string, y: string)
    requires NormalKey(a) == a && NormalKey(b) == b && NormalKey(c) == c && TrimSpace(x) == x && TrimSpace(y) == y
    ensures var m: Capabilities := map[a := x, b := x, c := y]; IsNormalized(m, m)
  {
    hide NormalKey, TrimSpace;
    NormalIsFixed(map[a := x, b := x, c := y], NormalKey, TrimSpace, INVALID);
  }

  lemma TACapabilitiesAreNormal()
    ensures IsNormalized(TA_CAPABILITIES, TA_CAPABILITIES)
  {
    hide NormalKey, TrimSpace, IsNormalized;
    KeysAreNormal();
    LongKeyIsNormal();
    TrimNothing("1");
    TrimNothing("7.0");
    ThreeAreNormal("biodatafun", "facefunon", "facealgorithmversion", "1", "7.0");
  }

  lemma SpeaksTAExample()
    ensures SpeaksTA("2.3.0")
  {
    assert "2.3.0" == "2" + "." + ("3" + "." + "0");
    ThreeParts("2", "3", "0");
    SmallReads("2", 2);
    SmallReads("3", 3);
    hide Split, Atoi;
  }

  /** One request that reports a TA version and capabilities in normal form makes a tracker trust both. */
  lemma OneRequest(pushVersion: string, capabilities: Capabilities)
    requires SpeaksTA(pushVersion) && IsNormalized(capabilities, capabilities)
    ensures Tracked([FIRST, State(TAPush, 90, pushVersion, capabilities, ["push_version_2_x"], 0)])
  {
    var seen := Observation("", pushVersion, capabilities);
    hide SpeaksTA, IsNormalized;
    assert FIRST.capabilities + capabilities == capabilities;
    assert Observed(FIRST, seen, capabilities, 0)
      == State(TAPush, 90, pushVersion, capabilities, ["push_version_2_x"], 0);
    assert Observes(FIRST, State(TAPush, 90, pushVersion, capabilities, ["push_version_2_x"], 0));
  }

  lemma TheScannerExists()
    ensures Tracked([FIRST, TA_SCANNER])
  {
    TACapabilitiesAreNormal();
    SpeaksTAExample();
    hide SpeaksTA, IsNormalized, Tracked;
    OneRequest("2.3.0", TA_CAPABILITIES);
  }

  /** A TA PUSH scanner that a tracker gets to know takes this face template, and will not delete it. */
  lemma AFaceThatStays()
    ensures Tracked([FIRST, TA_SCANNER])
    ensures RendererCode(TA_SCANNER, TA_SCANNER.capabilities, TA_FACE) == ""
    ensures CheckDeletion(TA_SCANNER, TA_SCANNER.capabilities, TargetOf(TA_FACE)) == Refuses("record_type_unsupported")
  {
    TheScannerExists();
    assert ValidIdentifier("7");
    ApprovedExample();
    TACapabilities();
    hide Tracked;
    hide ValidIdentifier, ApprovedVersion, Capability, FormatCode, RendererCode, CheckDeletion;
    FaceFormat(TA_SCANNER.capabilities);
    FaceDeploys(TA_SCANNER, TA_SCANNER.capabilities, TA_FACE);
    BiodataDeletes(TA_SCANNER, TA_SCANNER.capabilities, TA_FACE);
  }
}
