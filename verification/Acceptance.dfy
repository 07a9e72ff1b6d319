/** Exactly which templates a scanner takes and which it lets go of, record type by record type. */
module Acceptance {
  import opened Identifiers
  import opened Text
  import opened Claims
  import opened DeviceProtocol
  import opened Compatibility

  // ---------- versions ----------

  /** Versions compare number by number, the first first. */
  lemma CompareIsLexicographic(a: Version, b: Version)
    ensures Compare(a, b) < 0 <==> a.0 < b.0 || (a.0 == b.0 && (a.1 < b.1 || (a.1 == b.1 && a.2 < b.2)))
    ensures Compare(a, b) > 0 <==> Compare(b, a) < 0
    ensures Compare(a, b) == 0 <==> a == b
  {}

  function Dotted(a: nat, b: nat, c: nat): string { Itoa(a) + "." + (Itoa(b) + "." + Itoa(c)) }

  lemma NumberHas(n: nat, c: char)
    requires !IsDigit(c)
    ensures c !in Itoa(n)
  {
    DecimalReads(n);
    hide Decimal, Value;
  }

  lemma DottedParts(a: nat, b: nat, c: nat)
    requires a <= MAX_INT && b <= MAX_INT && c <= MAX_INT
    ensures Split(Dotted(a, b, c), '.') == [Itoa(a), Itoa(b), Itoa(c)]
    ensures Atoi(Itoa(a)) == Some(a) && Atoi(Itoa(b)) == Some(b) && Atoi(Itoa(c)) == Some(c)
  {
    NumberHas(a, '.');
    NumberHas(b, '.');
    NumberHas(c, '.');
    AtoiReads(a);
    AtoiReads(b);
    AtoiReads(c);
    hide Split, Itoa, Atoi;
    ThreeParts(Itoa(a), Itoa(b), Itoa(c));
  }

  /** From 2.2.0 to 2.4.1. */
  predicate Approved(a: int, b: int, c: int) { a == 2 && (2 <= b <= 3 || (b == 4 && c <= 1)) }

  /** The approved versions are 2.2.x, 2.3.x, 2.4.0 and 2.4.1, and nothing else is. */
  lemma ApprovedVersions(a: nat, b: nat, c: nat)
    requires a <= MAX_INT && b <= MAX_INT && c <= MAX_INT
    ensures ApprovedVersion(Dotted(a, b, c)) == if Approved(a, b, c) then Some((a, b, c)) else None
    ensures VersionBefore(Dotted(a, b, c), FP_LIMIT) <==> a < 2 || (a == 2 && (b < 2 || (b == 2 && c < 14)))
  {
    DottedParts(a, b, c);
    hide Split, Itoa, Atoi, Dotted;
  }

  /** A scanner speaks TA PUSH exactly with a version 2.2, 2.3 or 2.4, whatever follows a second dot. */
  lemma TAVersions(a: nat, b: nat, rest: string)
    requires a <= MAX_INT && b <= MAX_INT
    ensures SpeaksTA(Itoa(a) + "." + Itoa(b)) <==> a == 2 && 2 <= b <= 4
    ensures SpeaksTA(Itoa(a) + "." + (Itoa(b) + "." + rest)) <==> a == 2 && 2 <= b <= 4
    ensures !SpeaksTA(Itoa(a))
  {
    NumberHas(a, '.');
    NumberHas(b, '.');
    AtoiReads(a);
    AtoiReads(b);
    hide Itoa, Atoi;
    SplitAt(Itoa(a), '.', Itoa(b));
    SplitNone(Itoa(b), '.');
    SplitNone(Itoa(a), '.');
    SplitAt(Itoa(a), '.', Itoa(b) + "." + rest);
    SplitAt(Itoa(b), '.', rest);
    hide Split;
  }

  lemma ApprovedParts(value: string)
    ensures ApprovedVersion(value).Some? ==> var v := ApprovedVersion(value).value;
      var parts := Split(value, '.');
      && Approved(v.0, v.1, v.2) && v.1 >= 0 && v.2 >= 0
      && |parts| == 3 && Atoi(parts[0]) == Some(v.0) && Atoi(parts[1]) == Some(v.1) && Atoi(parts[2]) == Some(v.2)
  {
    hide Split, Atoi;
  }

  /** A scanner's algorithm version may carry a prefix that ends at the first colon; the major number counts
      from 1. */
  lemma AlgorithmVersions(prefix: string, major: nat, minor: nat)
    requires ':' !in prefix && major <= MAX_INT && minor <= MAX_INT
    ensures var version := Itoa(major) + "." + Itoa(minor);
      AlgorithmVersion(version) == AlgorithmVersion(prefix + ":" + version)
        == if major > 0 then Some((major, minor)) else None
  {
    var version := Itoa(major) + "." + Itoa(minor);
    NumberHas(major, '.');
    NumberHas(major, ':');
    NumberHas(minor, ':');
    NumberTrims(major);
    NumberTrims(minor);
    VersionTrims(major, minor);
    AtoiReads(major);
    AtoiReads(minor);
    hide Itoa, Atoi, TrimSpace, Cut;
    CutIs(Itoa(major), '.', Itoa(minor));
    CutIs(prefix, ':', version);
    CutNone(version, ':');
  }

  lemma DigitsTrim(s: string)
    requires s != "" && IsDigit(s[0]) && IsDigit(s[|s| - 1])
    ensures TrimSpace(s) == s
  {
    TrimNothing(s);
  }

  lemma NumberEnds(n: nat)
    ensures Itoa(n) != "" && IsDigit(Itoa(n)[0]) && IsDigit(Itoa(n)[|Itoa(n)| - 1])
  {
    DecimalReads(n);
    assert Decimal(n)[0] in Decimal(n) && Decimal(n)[|Decimal(n)| - 1] in Decimal(n);
    hide Decimal, Value;
  }

  lemma NumberTrims(n: nat)
    ensures TrimSpace(Itoa(n)) == Itoa(n)
  {
    NumberEnds(n);
    hide Itoa;
    DigitsTrim(Itoa(n));
  }

  lemma VersionTrims(major: nat, minor: nat)
    ensures TrimSpace(Itoa(major) + "." + Itoa(minor)) == Itoa(major) + "." + Itoa(minor)
  {
    NumberEnds(major);
    NumberEnds(minor);
    hide Itoa;
    DigitsTrim(Itoa(major) + "." + Itoa(minor));
  }

  // ---------- what is taken ----------

  /** The version the scanner reports for an algorithm, if it can be read. */
  function Runs(capabilities: Capabilities, key: string): Option<(int, int)> {
    AlgorithmVersion(if key in capabilities then capabilities[key] else "")
  }

  predicate On(capabilities: Capabilities, key: string) { key in capabilities && capabilities[key] == "1" }

  /** A TA PUSH scanner with an approved version, or an AC PUSH scanner. */
  predicate KnownTarget(state: State) {
    state.profile.ACPush3? || (state.profile.TAPush? && ApprovedVersion(state.pushVersion).Some?)
  }

  /** TA PUSH writes BIODATA records from 2.2.14 on. */
  predicate WritesBiodata(state: State) {
    state.profile.TAPush? ==>
      && ApprovedVersion(state.pushVersion).Some?
      && var v := ApprovedVersion(state.pushVersion).value; v.1 > 2 || v.2 >= 14
  }

  predicate TakesLegacyFinger(state: State, capabilities: Capabilities, t: Template) {
    && t.renderer == "finger_legacy" && t.kind == FINGERPRINT && t.bioType == 1 && t.algorithmMajor <= 10
    && state.profile.TAPush? && On(capabilities, "fingerfunon")
  }

  predicate TakesFinger(state: State, capabilities: Capabilities, t: Template) {
    && t.renderer == "biodata" && t.kind == FINGERPRINT && t.bioType == 1
    && WritesBiodata(state) && (state.profile.TAPush? ==> t.algorithmMajor > 10)
    && On(capabilities, "biodatafun") && On(capabilities, "fingerfunon")
  }

  predicate TakesFace(state: State, capabilities: Capabilities, t: Template) {
    && t.renderer == "biodata" && t.kind == FACE && t.bioType == 9 && WritesBiodata(state)
    && On(capabilities, "biodatafun") && On(capabilities, "facefunon")
  }

  predicate TakesPhoto(state: State, capabilities: Capabilities, t: Template) {
    && t.renderer == "face_photo" && t.kind == PHOTO && t.bioType == 9 && state.profile.ACPush3?
    && t.algorithmFamily == "portable_photo" && t.algorithmMajor == 0 && t.algorithmMinor == 0
    && (t.format == "jpeg" || t.format == "png")
    && On(capabilities, "facefunon") && On(capabilities, "biophotofun")
  }

  predicate TakesAnyFinger(state: State, capabilities: Capabilities, t: Template) {
    TakesLegacyFinger(state, capabilities, t) || TakesFinger(state, capabilities, t)
  }

  /** The template was made by the algorithm that the scanner runs, in that algorithm's format. */
  predicate MadeBy(t: Template, ran: (int, int), family: string, format: string) {
    && (t.algorithmMajor, t.algorithmMinor) == ran
    && t.algorithmFamily == family + Itoa(ran.0)
    && t.format == format + Itoa(ran.0)
  }

  function Verdict(t: Template, ran: Option<(int, int)>, family: string, format: string): string {
    if ran.None? then "algorithm_unknown"
    else if !MadeBy(t, ran.value, family, format) then "algorithm_mismatch"
    else ""
  }

  lemma CapabilityOn(capabilities: Capabilities, key: string)
    ensures Capability(capabilities, key) == "1" <==> On(capabilities, key)
  {}

  lemma FormatVerdict(t: Template, capabilities: Capabilities, modality: string, prefix: string, key: string,
                      family: string)
    requires modality + "algorithmversion" == key && "zk" + modality + "-v" == family
    ensures FormatCode(t, capabilities, modality, prefix) == Verdict(t, Runs(capabilities, key), family, prefix)
  {
    hide AlgorithmVersion, Itoa;
  }

  lemma FingerNames()
    ensures "finger" + "algorithmversion" == "fingeralgorithmversion" && "zk" + "finger" + "-v" == "zkfinger-v"
  {}

  lemma FaceNames()
    ensures "face" + "algorithmversion" == "facealgorithmversion" && "zk" + "face" + "-v" == "zkface-v"
  {}

  lemma FingerVerdict(t: Template, capabilities: Capabilities)
    ensures FormatCode(t, capabilities, "finger", "templatev") ==
      Verdict(t, Runs(capabilities, "fingeralgorithmversion"), "zkfinger-v", "templatev")
  {
    hide FormatCode, Verdict, Runs;
    FingerNames();
    FormatVerdict(t, capabilities, "finger", "templatev", "fingeralgorithmversion", "zkfinger-v");
  }

  lemma FaceVerdict(t: Template, capabilities: Capabilities)
    ensures FormatCode(t, capabilities, "face", "facev") ==
      Verdict(t, Runs(capabilities, "facealgorithmversion"), "zkface-v", "facev")
  {
    hide FormatCode, Verdict, Runs;
    FaceNames();
    FormatVerdict(t, capabilities, "face", "facev", "facealgorithmversion", "zkface-v");
  }

  lemma LegacyVerdict(state: State, capabilities: Capabilities, t: Template)
    requires t.renderer == "finger_legacy"
    ensures LegacyCode(state, capabilities, t) ==
      if TakesLegacyFinger(state, capabilities, t) then FormatCode(t, capabilities, "finger", "templatev")
      else "record_type_unsupported"
  {
    CapabilityOn(capabilities, "fingerfunon");
    hide FormatCode, Capability, On;
  }

  lemma BiodataVerdict(state: State, capabilities: Capabilities, t: Template)
    requires t.renderer == "biodata"
    ensures BiodataCode(state, capabilities, ApprovedVersion(state.pushVersion), t) ==
      if TakesFinger(state, capabilities, t) then FormatCode(t, capabilities, "finger", "templatev")
      else if TakesFace(state, capabilities, t) then FormatCode(t, capabilities, "face", "facev")
      else "record_type_unsupported"
  {
    KindsDiffer();
    ApprovedParts(state.pushVersion);
    CapabilityOn(capabilities, "biodatafun");
    CapabilityOn(capabilities, "fingerfunon");
    CapabilityOn(capabilities, "facefunon");
    hide FormatCode, Capability, On, ApprovedVersion, Split, Atoi;
  }

  lemma PhotoVerdict(state: State, capabilities: Capabilities, t: Template)
    requires t.renderer == "face_photo"
    ensures PhotoCode(state, capabilities, t) ==
      if TakesPhoto(state, capabilities, t) then "" else "record_type_unsupported"
  {
    CapabilityOn(capabilities, "facefunon");
    CapabilityOn(capabilities, "biophotofun");
    hide Capability, On;
  }

  /** Trust, identity and target come first; then each record type names the scanners and claims that may use it,
      and the algorithm of a template has to be the one that runs. */
  function Judged(state: State, capabilities: Capabilities, t: Template): string {
    if !(80 <= state.confidence <= 100) then "target_profile_untrusted"
    else if !ValidIdentifier(t.personnelID) then "invalid_deployment_claim"
    else if !KnownTarget(state) then "target_profile_untrusted"
    else if TakesPhoto(state, capabilities, t) then ""
    else if TakesAnyFinger(state, capabilities, t) then
      Verdict(t, Runs(capabilities, "fingeralgorithmversion"), "zkfinger-v", "templatev")
    else if TakesFace(state, capabilities, t) then
      Verdict(t, Runs(capabilities, "facealgorithmversion"), "zkface-v", "facev")
    else "record_type_unsupported"
  }

  lemma RendererIsJudged(state: State, capabilities: Capabilities, t: Template)
    ensures RendererCode(state, capabilities, t) == Judged(state, capabilities, t)
  {
    KindsDiffer();
    FingerVerdict(t, capabilities);
    FaceVerdict(t, capabilities);
    hide LegacyCode, BiodataCode, PhotoCode, FormatCode, Verdict, Runs, ValidIdentifier, ApprovedVersion, WritesBiodata;
    hide On;
    if t.renderer == "finger_legacy" {
      LegacyVerdict(state, capabilities, t);
    } else if t.renderer == "biodata" {
      BiodataVerdict(state, capabilities, t);
    } else if t.renderer == "face_photo" {
      PhotoVerdict(state, capabilities, t);
    }
  }

  /** A template is rendered exactly if the scanner is trusted and known, the person is identified, and one of
      the record types takes it; a template of an algorithm has to be of the family, version and format that
      the scanner runs. */
  lemma DeploysExactly(state: State, capabilities: Capabilities, t: Template)
    ensures RendererCode(state, capabilities, t) == "" <==>
      && 80 <= state.confidence <= 100 && ValidIdentifier(t.personnelID) && KnownTarget(state)
      && (|| TakesPhoto(state, capabilities, t)
          || (TakesAnyFinger(state, capabilities, t)
              && Runs(capabilities, "fingeralgorithmversion") == Some((t.algorithmMajor, t.algorithmMinor))
              && t.algorithmFamily == "zkfinger-v" + Itoa(t.algorithmMajor)
              && t.format == "templatev" + Itoa(t.algorithmMajor))
          || (TakesFace(state, capabilities, t)
              && Runs(capabilities, "facealgorithmversion") == Some((t.algorithmMajor, t.algorithmMinor))
              && t.algorithmFamily == "zkface-v" + Itoa(t.algorithmMajor)
              && t.format == "facev" + Itoa(t.algorithmMajor)))
  {
    RendererIsJudged(state, capabilities, t);
    TakesOne(state, capabilities, t);
    VerdictPasses(t, Runs(capabilities, "fingeralgorithmversion"), "zkfinger-v", "templatev");
    VerdictPasses(t, Runs(capabilities, "facealgorithmversion"), "zkface-v", "facev");
    hide RendererCode, Verdict, Runs, ValidIdentifier, KnownTarget, TakesPhoto, TakesAnyFinger, TakesFace, Itoa;
  }

  lemma TakesOne(state: State, capabilities: Capabilities, t: Template)
    ensures !(TakesAnyFinger(state, capabilities, t) && TakesFace(state, capabilities, t))
    ensures !(TakesPhoto(state, capabilities, t) && TakesAnyFinger(state, capabilities, t))
    ensures !(TakesPhoto(state, capabilities, t) && TakesFace(state, capabilities, t))
  {
    KindsDiffer();
    hide WritesBiodata, On;
  }

  lemma VerdictPasses(t: Template, ran: Option<(int, int)>, family: string, format: string)
    ensures Verdict(t, ran, family, format) == "" <==>
      && ran == Some((t.algorithmMajor, t.algorithmMinor))
      && t.algorithmFamily == family + Itoa(t.algorithmMajor) && t.format == format + Itoa(t.algorithmMajor)
  {
    hide Itoa;
  }

  // ---------- what is deleted ----------

  predicate SlotOf(d: DeletionTarget, kind: string, bioType: int) { d.kind == kind && d.bioType == bioType }

  /** What the table of deletions says about one target: the record the deletion goes to, or why there is none. */
  function DeletionJudged(state: State, capabilities: Capabilities, d: DeletionTarget): DeletionCheck {
    var finger := On(capabilities, "fingerfunon");
    var face := On(capabilities, "facefunon");
    var biodata := On(capabilities, "biodatafun");
    var ranFinger := Runs(capabilities, "fingeralgorithmversion");
    var ranFace := Runs(capabilities, "facealgorithmversion");
    if !(80 <= state.confidence <= 100) then Refuses("target_profile_untrusted")
    else if !(ValidIdentifier(d.personnelID) && 0 <= d.slotIndex <= 9
              && (SlotOf(d, FINGERPRINT, 1) || SlotOf(d, FACE, 9) || SlotOf(d, PHOTO, 9)))
      then Refuses("invalid_deployment_claim")
    else if !KnownTarget(state) then Refuses("target_profile_untrusted")
    else if state.profile.ACPush3? && d.kind == PHOTO && face && On(capabilities, "biophotofun") then Deletes(Biophoto)
    else if state.profile.ACPush3? && d.kind == FACE && face && biodata then
      if ranFace.Some? then Deletes(Biodata) else Refuses("algorithm_unknown")
    else if state.profile.ACPush3? && d.kind == FINGERPRINT && finger && biodata then
      if ranFinger.Some? then Deletes(Biodata) else Refuses("algorithm_unknown")
    else if state.profile.TAPush? && d.kind == FINGERPRINT && finger then
      if ranFinger.None? then Refuses("algorithm_unknown")
      else if ranFinger.value.0 <= 10 then Deletes(if WritesBiodata(state) then FingerLegacy else FingerFP)
      else if biodata && WritesBiodata(state) then Deletes(Biodata)
      else Refuses("record_type_unsupported")
    else Refuses("record_type_unsupported")
  }

  lemma ACIsJudged(state: State, capabilities: Capabilities, d: DeletionTarget)
    requires state.profile.ACPush3?
    ensures CheckDeletion(state, capabilities, d) == DeletionJudged(state, capabilities, d)
  {
    KindsDiffer();
    CapabilityOn(capabilities, "biodatafun");
    CapabilityOn(capabilities, "biophotofun");
    CapabilityOn(capabilities, "fingerfunon");
    CapabilityOn(capabilities, "facefunon");
    FingerNames();
    FaceNames();
    hide On, ApprovedVersion, ValidIdentifier, AlgorithmVersion;
  }

  lemma TAIsJudged(state: State, capabilities: Capabilities, d: DeletionTarget)
    requires state.profile.TAPush?
    ensures CheckDeletion(state, capabilities, d) == DeletionJudged(state, capabilities, d)
  {
    KindsDiffer();
    ApprovedParts(state.pushVersion);
    CapabilityOn(capabilities, "biodatafun");
    CapabilityOn(capabilities, "fingerfunon");
    hide On, ApprovedVersion, ValidIdentifier, AlgorithmVersion, Split, Atoi, ACDeletion;
  }

  /** The deletion check agrees with the table on every scanner and target. */
  lemma DeletionIsJudged(state: State, capabilities: Capabilities, d: DeletionTarget)
    ensures CheckDeletion(state, capabilities, d) == DeletionJudged(state, capabilities, d)
  {
    hide TADeletion, ACDeletion, ApprovedVersion, ValidIdentifier, AlgorithmVersion, On;
    match state.profile
    case ACPush3 => ACIsJudged(state, capabilities, d);
    case TAPush => TAIsJudged(state, capabilities, d);
    case UnknownProfile =>
  }
}
