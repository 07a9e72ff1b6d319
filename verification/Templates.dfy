/** Template commands printed for a scanner, and template rows read from one. */
module Templates {
  import opened Identifiers
  import opened Text
  import opened Claims
  import opened DeviceProtocol
  import opened Compatibility
  import opened Base64

  const MAX_FINGERPRINT := 64 * 1024
  const MAX_FACE := 1024 * 1024

  // ---------- printing ----------

  function Pair(key: string, value: string): string { key + "=" + value }

  function LegacyVerb(pushVersion: string): string {
    if VersionBefore(pushVersion, FP_LIMIT) then "DATA FP PIN" else "DATA UPDATE FINGERTMP PIN"
  }

  /** The fields of a rendered command, the verb with the first of them. */
  function LegacyPairs(verb: string, pin: string, slot: string, size: string, text: string): seq<string> {
    [Pair(verb, pin), Pair("FID", slot), Pair("Size", size), Pair("Valid", "1"), Pair("TMP", text)]
  }

  function BiodataPairs(pin: string, slot: string, bioType: string, major: string, minor: string,
    text: string): seq<string> {
    [Pair("DATA UPDATE BIODATA Pin", pin), Pair("No", slot), Pair("Type", bioType), Pair("MajorVer", major),
     Pair("MinorVer", minor), Pair("Tmp", text)]
  }

  function PhotoPairs(pin: string, slot: string, size: string, text: string): seq<string> {
    [Pair("DATA UPDATE BIOPHOTO PIN", pin), Pair("No", slot), Pair("Type", "9"), Pair("Size", size),
     Pair("Photo", text)]
  }

  function RenderedPairs(pushVersion: string, t: Template, payload: seq<Byte>): seq<string> {
    if t.renderer == "finger_legacy" then
      LegacyPairs(LegacyVerb(pushVersion), t.personnelID, Itoa(t.slotIndex), Itoa(|payload|), Encode(payload))
    else if t.renderer == "face_photo" then
      PhotoPairs(t.personnelID, Itoa(t.slotIndex), Itoa(|payload|), Encode(payload))
    else
      BiodataPairs(t.personnelID, Itoa(t.slotIndex), Itoa(t.bioType), Itoa(t.algorithmMajor), Itoa(t.algorithmMinor),
        Encode(payload))
  }

  lemma {:induction false} JoinMore(parts: seq<string>, last: string, sep: char)
    requires parts != []
    ensures Join(parts + [last], sep) == Join(parts, sep) + [sep] + last
    decreases |parts|
  {
    var all := parts + [last];
    assert all[1..] == parts[1..] + [last];
    if |parts| > 1 {
      JoinMore(parts[1..], last, sep);
      assert Join(all, sep) == parts[0] + [sep] + (Join(parts[1..], sep) + [sep] + last);
    } else {
      assert all[1..] == [last];
    }
  }

  lemma JoinOne(part: string, sep: char)
    ensures Join([part], sep) == part
  {}

  method AppendField(command: string, key: string, value: string, ghost parts: seq<string>) returns (longer: string)
    requires parts != [] && command == Join(parts, '\t')
    ensures longer == Join(parts + [Pair(key, value)], '\t')
  {
    JoinMore(parts, Pair(key, value), '\t');
    hide Join;
    longer := command + "\t";
    longer := longer + key + "=" + value;
    assert longer == command + "\t" + Pair(key, value);
  }

  method RenderLegacy(verb: string, pin: string, slot: string, size: string, text: string) returns (command: string)
    ensures command == Join(LegacyPairs(verb, pin, slot, size, text), '\t')
  {
    ghost var all := LegacyPairs(verb, pin, slot, size, text);
    command := verb + "=" + pin;
    JoinOne(command, '\t');
    assert all[..1] == [command];
    hide Join;
    command := AppendField(command, "FID", slot, all[..1]);
    assert all[..2] == all[..1] + [all[1]];
    command := AppendField(command, "Size", size, all[..2]);
    assert all[..3] == all[..2] + [all[2]];
    command := AppendField(command, "Valid", "1", all[..3]);
    assert all[..4] == all[..3] + [all[3]];
    command := AppendField(command, "TMP", text, all[..4]);
    assert all == all[..4] + [all[4]];
  }

  method RenderBiodata(pin: string, slot: string, bioType: string, major: string, minor: string, text: string)
    returns (command: string)
    ensures command == Join(BiodataPairs(pin, slot, bioType, major, minor, text), '\t')
  {
    ghost var all := BiodataPairs(pin, slot, bioType, major, minor, text);
    command := "DATA UPDATE BIODATA Pin" + "=" + pin;
    JoinOne(command, '\t');
    assert all[..1] == [command];
    hide Join;
    command := AppendField(command, "No", slot, all[..1]);
    assert all[..2] == all[..1] + [all[1]];
    command := AppendField(command, "Type", bioType, all[..2]);
    assert all[..3] == all[..2] + [all[2]];
    command := AppendField(command, "MajorVer", major, all[..3]);
    assert all[..4] == all[..3] + [all[3]];
    command := AppendField(command, "MinorVer", minor, all[..4]);
    assert all[..5] == all[..4] + [all[4]];
    command := AppendField(command, "Tmp", text, all[..5]);
    assert all == all[..5] + [all[5]];
  }

  method RenderPhoto(pin: string, slot: string, size: string, text: string) returns (command: string)
    ensures command == Join(PhotoPairs(pin, slot, size, text), '\t')
  {
    ghost var all := PhotoPairs(pin, slot, size, text);
    command := "DATA UPDATE BIOPHOTO PIN" + "=" + pin;
    JoinOne(command, '\t');
    assert all[..1] == [command];
    hide Join;
    command := AppendField(command, "No", slot, all[..1]);
    assert all[..2] == all[..1] + [all[1]];
    command := AppendField(command, "Type", "9", all[..2]);
    assert all[..3] == all[..2] + [all[2]];
    command := AppendField(command, "Size", size, all[..3]);
    assert all[..4] == all[..3] + [all[3]];
    command := AppendField(command, "Photo", text, all[..4]);
    assert all == all[..4] + [all[4]];
  }

  /** renderBiometricDeploymentCommand: a buffer that grows field by field. */
  method RenderTemplate(state: State, capabilities: Capabilities, t: Template, payload: seq<Byte>)
    returns (command: string, code: string)
    ensures code == RendererCode(state, capabilities, t)
    ensures command == if code == "" then Join(RenderedPairs(state.pushVersion, t, payload), '\t') else ""
  {
    code := RendererCode(state, capabilities, t);
    if code != "" {
      return "", code;
    }
    RendererIsKnown(state, capabilities, t);
    hide RendererCode, Encode, Itoa, Join, VersionBefore, LegacyPairs, BiodataPairs, PhotoPairs;
    if t.renderer == "finger_legacy" {
      var record := "DATA UPDATE FINGERTMP PIN";
      var early := PushVersionBefore(state.pushVersion, FP_LIMIT);
      if early {
        record := "DATA FP PIN";
      }
      command := RenderLegacy(record, t.personnelID, Itoa(t.slotIndex), Itoa(|payload|), Encode(payload));
    } else if t.renderer == "face_photo" {
      command := RenderPhoto(t.personnelID, Itoa(t.slotIndex), Itoa(|payload|), Encode(payload));
    } else {
      command := RenderBiodata(t.personnelID, Itoa(t.slotIndex), Itoa(t.bioType), Itoa(t.algorithmMajor),
                               Itoa(t.algorithmMinor), Encode(payload));
    }
  }

  lemma RendererIsKnown(state: State, capabilities: Capabilities, t: Template)
    requires RendererCode(state, capabilities, t) == ""
    ensures t.renderer == "finger_legacy" || t.renderer == "biodata" || t.renderer == "face_photo"
  {
    hide ValidIdentifier, ApprovedVersion, LegacyCode, BiodataCode, PhotoCode;
  }

  // ---------- reading fields ----------

  type Fields = seq<(string, string)>

  function AfterLastSpace(s: string): string {
    if s == "" then "" else if s[|s| - 1] == ' ' then "" else AfterLastSpace(s[..|s| - 1]) + [s[|s| - 1]]
  }

  /** One field of a row; the first one comes after the verb. */
  function ReadPair(index: nat, pair: string): Option<(string, string)> {
    match Cut(pair, '=')
    case None => None
    case Some((key, value)) =>
      Some((ToLower(TrimSpace(if index == 0 then AfterLastSpace(key) else key)), TrimSpace(value)))
  }

  function ReadPairs(pairs: seq<string>): Fields {
    if pairs == [] then []
    else
      ReadPairs(pairs[..|pairs| - 1]) + Listed(ReadPair(|pairs| - 1, pairs[|pairs| - 1]))
  }

  function Listed<T>(o: Option<T>): seq<T> { if o.Some? then [o.value] else [] }

  lemma ReadNext(pairs: seq<string>, index: nat)
    requires index < |pairs|
    ensures ReadPairs(pairs[..index + 1])
            == if ReadPair(index, pairs[index]).Some?
              then ReadPairs(pairs[..index]) + [ReadPair(index, pairs[index]).value]
               else ReadPairs(pairs[..index])
  {
    assert pairs[..index + 1][..index] == pairs[..index];
    hide ReadPair;
  }

  function Row(line: string): Fields { ReadPairs(Split(TrimSpace(line), '\t')) }

  /** The values of a key, in the order of the row. */
  function Occurrences(fields: Fields, key: string): seq<string> {
    if fields == [] then []
    else
      Occurrences(fields[..|fields| - 1], key)
      + if fields[|fields| - 1].0 == key then [fields[|fields| - 1].1] else []
  }

  function OccurrencesOfAny(fields: Fields, keys: seq<string>): seq<string> {
    if keys == [] then [] else Occurrences(fields, keys[0]) + OccurrencesOfAny(fields, keys[1..])
  }

  function At(m: map<string, seq<string>>, key: string): seq<string> { if key in m then m[key] else [] }

  ghost predicate Tabulates(occurrences: map<string, seq<string>>, fields: Fields) {
    forall key :: At(occurrences, key) == Occurrences(fields, key)
  }

  lemma TabulatesMore(occurrences: map<string, seq<string>>, fields: Fields, key: string, value: string)
    requires Tabulates(occurrences, fields)
    ensures Tabulates(occurrences[key := At(occurrences, key) + [value]], fields + [(key, value)])
  {
    forall k ensures Occurrences(fields + [(key, value)], k) == Occurrences(fields, k)
      + (if key == k then [value] else []) {
      assert (fields + [(key, value)])[..|fields|] == fields;
    }
    hide Occurrences;
  }

  /** values has the last occurrence of each key. */
  ghost predicate HoldsLast<K, V>(values: map<K, V>, occurrences: map<K, seq<V>>) {
    && values.Keys == occurrences.Keys
    && forall k | k in values :: occurrences[k] != [] && values[k] == occurrences[k][|occurrences[k]| - 1]
  }

  lemma HoldsLastMore<K, V>(values: map<K, V>, occurrences: map<K, seq<V>>, key: K, value: V)
    requires HoldsLast(values, occurrences)
    ensures HoldsLast(values[key := value],
      occurrences[key := (if key in occurrences then occurrences[key] else []) + [value]])
  {}

  /** parseBiometricFields: for every key its values in the order of the row, and the last of them. */
  method ParseFields(line: string) returns (values: map<string, string>, occurrences: map<string, seq<string>>)
    ensures Tabulates(occurrences, Row(line)) && HoldsLast(values, occurrences)
  {
    values, occurrences := map[], map[];
    var pairs := Split(TrimSpace(line), '\t');
    assert Tabulates(occurrences, ReadPairs(pairs[..0]));
    assert HoldsLast(values, occurrences);
    hide Split, TrimSpace, Tabulates, ReadPair, ReadPairs, Occurrences, HoldsLast;
    for index := 0 to |pairs|
      invariant Tabulates(occurrences, ReadPairs(pairs[..index])) && HoldsLast(values, occurrences)
    {
      ReadNext(pairs, index);
      var field := ReadField(index, pairs[index]);
      if field.None? {
        continue;
      }
      var (key, value) := field.value;
      TabulatesMore(occurrences, ReadPairs(pairs[..index]), key, value);
      HoldsLastMore(values, occurrences, key, value);
      values := values[key := value];
      occurrences := occurrences[key := At(occurrences, key) + [value]];
    }
    assert pairs[..|pairs|] == pairs;
  }

  method ReadField(index: nat, pair: string) returns (field: Option<(string, string)>)
    ensures field == ReadPair(index, pair)
  {
    hide TrimSpace, Cut, AfterLastSpace, ToLower;
    var cut := Cut(pair, '=');
    if cut.None? {
      return None;
    }
    var (key, value) := cut.value;
    if index == 0 {
      key := AfterLastSpace(key);
    }
    field := Some((ToLower(TrimSpace(key)), TrimSpace(value)));
  }

  // ---------- reading an asset ----------

  datatype Captured = Captured(
    pin: string,
    bioType: int,
    slotIndex: int,
    kind: string,
    algorithmFamily: string,
    algorithmMajor: int,
    algorithmMinor: int,
    format: string,
    bytes: seq<Byte>)

  datatype RowTable = FINGERTMP_ROW | BIODATA_ROW

  /** canonicalBiometricIdentifier */
  function Canonical(value: string): Option<string> {
    if ValidIdentifier(TrimSpace(value)) then Some(TrimSpace(value)) else None
  }

  /** biometricField: the last value of the first key that has one. */
  function LastOf(fields: Fields, keys: seq<string>): string {
    if keys == [] then ""
    else
      var values := Occurrences(fields, keys[0]);
      var value := if values == [] then "" else TrimSpace(values[|values| - 1]);
      if value != "" then value else LastOf(fields, keys[1..])
  }

  function OnlyNumber(values: seq<string>, minimum: int, maximum: int): Option<int> {
    if |values| != 1 then None
    else
      var n := Atoi(TrimSpace(values[0]));
      if n.Some? && minimum <= n.value <= maximum then n else None
  }

  /** requiredBiometricInt: exactly one value, a number within bounds. */
  function RequiredInt(fields: Fields, minimum: int, maximum: int, keys: seq<string>): Option<int> {
    OnlyNumber(OccurrencesOfAny(fields, keys), minimum, maximum)
  }

  /** biometricSlot: `no` is the slot, and then `index` has to be part 0. */
  function Slot(fields: Fields): Option<int> {
    if Occurrences(fields, "no") == [] then RequiredInt(fields, 0, 9, ["index"])
    else if Occurrences(fields, "index") == [] || RequiredInt(fields, 0, 99, ["index"]) == Some(0)
      then RequiredInt(fields, 0, 9, ["no"])
    else None
  }

  datatype VersionField = VersionField(value: int, present: bool, ok: bool)

  function ReadVersion(fields: Fields, minimum: int, keys: seq<string>): VersionField {
    VersionOf(OccurrencesOfAny(fields, keys), minimum)
  }

  function VersionOf(values: seq<string>, minimum: int): VersionField {
    if |values| == 0 then VersionField(0, false, false)
    else if |values| != 1 then VersionField(0, true, false)
    else
      var n := Atoi(TrimSpace(values[0]));
      if n.None? then VersionField(0, true, false)
      else VersionField(n.value, true, minimum <= n.value <= MAX_ALGORITHM_VERSION)
  }

  const UNKNOWN_ALGORITHM := ("unknown", -1, -1)

  function BoundedAlgorithm(value: string): Option<(int, int)> {
    var v := AlgorithmVersion(value);
    if v.Some? && v.value.0 <= MAX_ALGORITHM_VERSION && v.value.1 <= MAX_ALGORITHM_VERSION then v else None
  }

  /** biometricAlgorithm: what the row says has to agree with what the scanner reported. */
  function Algorithm(modality: string, fields: Fields, capabilities: Capabilities): (string, int, int) {
    var major := ReadVersion(fields, 1, ["majorver", "algorithmmajor"]);
    var minor := ReadVersion(fields, 0, ["minorver", "algorithmminor"]);
    var key := modality + "algorithmversion";
    var reported := BoundedAlgorithm(Capability(capabilities, key));
    if !major.present && !minor.present then
      if key !in capabilities || reported.None? then UNKNOWN_ALGORITHM
      else ("zk" + modality + "-v" + Itoa(reported.value.0), reported.value.0, reported.value.1)
    else if !major.present || !minor.present || !major.ok || !minor.ok then UNKNOWN_ALGORITHM
    else if key in capabilities && reported != Some((major.value, minor.value)) then UNKNOWN_ALGORITHM
    else ("zk" + modality + "-v" + Itoa(major.value), major.value, minor.value)
  }

  function CanonicalFormat(prefix: string, major: int): string {
    if major < 1 || major > MAX_ALGORITHM_VERSION then "unknown" else prefix + Itoa(major)
  }

  function TypeAndSlot(table: RowTable, fields: Fields): Option<(int, int)> {
    match table
    case FINGERTMP_ROW =>
      var slot := RequiredInt(fields, 0, 9, ["fid", "no"]);
      if slot.Some? then Some((1, slot.value)) else None
    case BIODATA_ROW =>
      var bioType, slot := RequiredInt(fields, 1, 9, ["type"]), Slot(fields);
      if bioType.Some? && (bioType.value == 1 || bioType.value == 9) && slot.Some?
        then Some((bioType.value, slot.value)) else None
  }

  /** extractBiometricAsset for the two template tables. */
  function Extract(table: RowTable, fields: Fields, capabilities: Capabilities): Option<Captured> {
    var pins := OccurrencesOfAny(fields, ["pin", "userid", "uid"]);
    if |pins| != 1 || Canonical(pins[0]).None? || TypeAndSlot(table, fields).None? then None
    else
      var (bioType, slot) := TypeAndSlot(table, fields).value;
      var finger := bioType == 1;
      var (family, major, minor) := Algorithm(if finger then "finger" else "face", fields, capabilities);
      var encoded := LastOf(fields, ["tmp", "template"]);
      var decoded := Bounded(encoded, if finger then MAX_FINGERPRINT else MAX_FACE);
      if encoded == "" || !decoded.Bytes? then None
      else
        Some(Captured(Canonical(pins[0]).value, bioType, slot, if finger then FINGERPRINT else FACE, family, major,
                      minor, CanonicalFormat(if finger then "templatev" else "facev", major), decoded.bytes))
  }

  // ---------- a printed row reads back ----------

  /** Fields that a row printed by the agent can have. */
  predicate Plain(s: string) {
    s != "" && forall c | c in s :: !IsSpace(c)
  }

  lemma PlainTrims(s: string)
    requires Plain(s)
    ensures TrimSpace(s) == s
  {
    assert s[0] in s && s[|s| - 1] in s;
    TrimNothing(s);
  }

  lemma NumbersArePlain(n: nat)
    ensures Plain(Itoa(n))
  {
    DecimalReads(n);
    hide Decimal;
  }

  lemma IdentifiersArePlain(s: string)
    requires ValidIdentifier(s)
    ensures Plain(s) && Canonical(s) == Some(s)
  {
    forall c | c in s ensures !IsSpace(c) {}
    PlainTrims(s);
  }

  lemma PayloadIsPlain(p: seq<Byte>)
    requires p != []
    ensures Plain(Encode(p))
  {
    EncodedIsText(p);
    hide Encode;
    assert |Encode(p)| > 0;
  }

  /** A pair whose key is written with letters only. */
  lemma PairReads(index: nat, written: string, value: string, key: string)
    requires '=' !in written && Plain(value) && Plain(if index == 0 then AfterLastSpace(written) else written)
    requires ToLower(if index == 0 then AfterLastSpace(written) else written) == key
    ensures ReadPair(index, Pair(written, value)) == Some((key, value))
  {
    CutIs(written, '=', value);
    PlainTrims(value);
    PlainTrims(if index == 0 then AfterLastSpace(written) else written);
    hide Cut, TrimSpace;
  }

  lemma {:induction false} LastWord(a: string, b: string)
    requires ' ' !in b
    ensures AfterLastSpace(a + " " + b) == b
  {
    var s := a + " " + b;
    if b == "" {
      assert s[|s| - 1] == ' ';
    } else {
      assert s[|s| - 1] == b[|b| - 1] && s[..|s| - 1] == a + " " + b[..|b| - 1];
      LastWord(a, b[..|b| - 1]);
      assert b == b[..|b| - 1] + [b[|b| - 1]];
    }
  }

  lemma SameLetters(s: string, key: string)
    requires |s| == |key| && forall k | 0 <= k < |s| :: LowerChar(s[k]) == key[k]
    ensures ToLower(s) == key
  {}

  lemma LegacyKeys()
    ensures ToLower("PIN") == "pin" && ToLower("FID") == "fid" && ToLower("Size") == "size"
    ensures ToLower("Valid") == "valid" && ToLower("TMP") == "tmp"
    ensures AfterLastSpace("DATA FP PIN") == "PIN" && AfterLastSpace("DATA UPDATE FINGERTMP PIN") == "PIN"
  {
    SameLetters("PIN", "pin");
    SameLetters("FID", "fid");
    SameLetters("Size", "size");
    SameLetters("Valid", "valid");
    SameLetters("TMP", "tmp");
    assert "DATA FP PIN" == "DATA FP" + " " + "PIN"
      && "DATA UPDATE FINGERTMP PIN" == "DATA UPDATE FINGERTMP" + " " + "PIN";
    LastWord("DATA FP", "PIN");
    LastWord("DATA UPDATE FINGERTMP", "PIN");
  }

  lemma BiodataKeys()
    ensures ToLower("Pin") == "pin" && ToLower("No") == "no" && ToLower("Type") == "type"
    ensures AfterLastSpace("DATA UPDATE BIODATA Pin") == "Pin"
  {
    SameLetters("Pin", "pin");
    SameLetters("No", "no");
    SameLetters("Type", "type");
    hide ToLower;
    assert "DATA UPDATE BIODATA Pin" == "DATA UPDATE BIODATA" + " " + "Pin";
    LastWord("DATA UPDATE BIODATA", "Pin");
  }

  lemma MajorKey()
    ensures ToLower("MajorVer") == "majorver"
  {
    SameLetters("MajorVer", "majorver");
    hide ToLower;
  }

  lemma MinorKey()
    ensures ToLower("MinorVer") == "minorver"
  {
    SameLetters("MinorVer", "minorver");
    hide ToLower;
  }

  lemma VersionKeys()
    ensures ToLower("MajorVer") == "majorver" && ToLower("MinorVer") == "minorver" && ToLower("Tmp") == "tmp"
  {
    MajorKey();
    MinorKey();
    SameLetters("Tmp", "tmp");
    hide ToLower;
  }

  function LegacyFields(pin: string, slot: string, size: string, text: string): Fields {
    [("pin", pin), ("fid", slot), ("size", size), ("valid", "1"), ("tmp", text)]
  }

  function BiodataFields(pin: string, slot: string, bioType: string, major: string, minor: string,
    text: string): Fields {
    [("pin", pin), ("no", slot), ("type", bioType), ("majorver", major), ("minorver", minor), ("tmp", text)]
  }

  lemma {:induction false} ReadAll(pairs: seq<string>, fields: Fields)
    requires |pairs| == |fields|
    requires forall k | 0 <= k < |pairs| :: ReadPair(k, pairs[k]) == Some(fields[k])
    ensures ReadPairs(pairs) == fields
  {
    hide ReadPair;
    if pairs != [] {
      ReadAll(pairs[..|pairs| - 1], fields[..|pairs| - 1]);
      assert fields == fields[..|pairs| - 1] + [fields[|pairs| - 1]];
    }
  }

  lemma ReadFive(a: string, b: string, c: string, d: string, e: string,
                 f: (string, string), g: (string, string), h: (string, string), i: (string, string),
                 j: (string, string))
    requires ReadPair(0, a) == Some(f) && ReadPair(1, b) == Some(g) && ReadPair(2, c) == Some(h)
    requires ReadPair(3, d) == Some(i) && ReadPair(4, e) == Some(j)
    ensures ReadPairs([a, b, c, d, e]) == [f, g, h, i, j]
  {
    hide ReadPair;
    var p, q := [a, b, c, d, e], [f, g, h, i, j];
    forall k | 0 <= k < 5 ensures ReadPair(k, p[k]) == Some(q[k]) {
      if k == 0 {} else if k == 1 {} else if k == 2 {} else if k == 3 {} else { assert k == 4; }
    }
    ReadAll(p, q);
  }

  lemma ReadSix(a: string, b: string, c: string, d: string, e: string, last: string,
                f: (string, string), g: (string, string), h: (string, string), i: (string, string), j: (string, string),
                k: (string, string))
    requires ReadPair(0, a) == Some(f) && ReadPair(1, b) == Some(g) && ReadPair(2, c) == Some(h)
    requires ReadPair(3, d) == Some(i) && ReadPair(4, e) == Some(j) && ReadPair(5, last) == Some(k)
    ensures ReadPairs([a, b, c, d, e, last]) == [f, g, h, i, j, k]
  {
    ReadFive(a, b, c, d, e, f, g, h, i, j);
    hide ReadPair;
    assert [a, b, c, d, e, last][..5] == [a, b, c, d, e];
  }

  lemma LegacyReads(verb: string, pin: string, slot: string, size: string, text: string)
    requires verb == "DATA FP PIN" || verb == "DATA UPDATE FINGERTMP PIN"
    requires Plain(pin) && Plain(slot) && Plain(size) && Plain(text)
    ensures ReadPairs(LegacyPairs(verb, pin, slot, size, text)) == LegacyFields(pin, slot, size, text)
  {
    FirstReads(verb, pin);
    FingerReads(slot, size, text);
    hide ReadPair, Pair, Plain, ReadPairs;
    ReadFive(Pair(verb, pin), Pair("FID", slot), Pair("Size", size), Pair("Valid", "1"), Pair("TMP", text),
             ("pin", pin), ("fid", slot), ("size", size), ("valid", "1"), ("tmp", text));
  }

  lemma FirstReads(verb: string, pin: string)
    requires verb == "DATA FP PIN" || verb == "DATA UPDATE FINGERTMP PIN"
    requires Plain(pin)
    ensures ReadPair(0, Pair(verb, pin)) == Some(("pin", pin))
  {
    LegacyKeys();
    hide AfterLastSpace, ToLower;
    PairReads(0, verb, pin, "pin");
  }

  lemma FingerReads(slot: string, size: string, text: string)
    requires Plain(slot) && Plain(size) && Plain(text)
    ensures ReadPair(1, Pair("FID", slot)) == Some(("fid", slot))
    ensures ReadPair(2, Pair("Size", size)) == Some(("size", size))
    ensures ReadPair(3, Pair("Valid", "1")) == Some(("valid", "1"))
    ensures ReadPair(4, Pair("TMP", text)) == Some(("tmp", text))
  {
    LegacyKeys();
    hide AfterLastSpace, ToLower, ReadPair, Pair;
    PairReads(1, "FID", slot, "fid");
    PairReads(2, "Size", size, "size");
    PairReads(3, "Valid", "1", "valid");
    PairReads(4, "TMP", text, "tmp");
  }

  lemma SlotReads(pin: string, slot: string, bioType: string)
    requires Plain(pin) && Plain(slot) && Plain(bioType)
    ensures ReadPair(0, Pair("DATA UPDATE BIODATA Pin", pin)) == Some(("pin", pin))
    ensures ReadPair(1, Pair("No", slot)) == Some(("no", slot))
    ensures ReadPair(2, Pair("Type", bioType)) == Some(("type", bioType))
  {
    BiodataKeys();
    hide AfterLastSpace, ToLower, ReadPair, Pair;
    PairReads(0, "DATA UPDATE BIODATA Pin", pin, "pin");
    PairReads(1, "No", slot, "no");
    PairReads(2, "Type", bioType, "type");
  }

  lemma VersionReads(major: string, minor: string, text: string)
    requires Plain(major) && Plain(minor) && Plain(text)
    ensures ReadPair(3, Pair("MajorVer", major)) == Some(("majorver", major))
    ensures ReadPair(4, Pair("MinorVer", minor)) == Some(("minorver", minor))
    ensures ReadPair(5, Pair("Tmp", text)) == Some(("tmp", text))
  {
    VersionKeys();
    hide AfterLastSpace, ToLower, ReadPair, Pair;
    PairReads(3, "MajorVer", major, "majorver");
    PairReads(4, "MinorVer", minor, "minorver");
    PairReads(5, "Tmp", text, "tmp");
  }

  lemma BiodataReads(pin: string, slot: string, bioType: string, major: string, minor: string, text: string)
    requires Plain(pin) && Plain(slot) && Plain(bioType) && Plain(major) && Plain(minor) && Plain(text)
    ensures ReadPairs(BiodataPairs(pin, slot, bioType, major, minor, text))
      == BiodataFields(pin, slot, bioType, major, minor, text)
  {
    SlotReads(pin, slot, bioType);
    VersionReads(major, minor, text);
    hide ReadPair, Pair, Plain, ReadPairs;
    ReadSix(Pair("DATA UPDATE BIODATA Pin", pin), Pair("No", slot), Pair("Type", bioType), Pair("MajorVer", major),
            Pair("MinorVer", minor), Pair("Tmp", text),
            ("pin", pin), ("no", slot), ("type", bioType), ("majorver", major), ("minorver", minor), ("tmp", text));
  }

  // ---------- looking fields up ----------

  function If(same: bool, value: string): seq<string> { if same then [value] else [] }

  lemma OccurrencesFive(a: (string, string), b: (string, string), c: (string, string), d: (string, string),
    e: (string, string), key: string)
    ensures Occurrences([a, b, c, d, e], key)
            == If(a.0 == key, a.1) + If(b.0 == key, b.1) + If(c.0 == key, c.1) + If(d.0 == key, d.1)
              + If(e.0 == key, e.1)
  {
    assert [a][..0] == [] && [a, b][..1] == [a] && [a, b, c][..2] == [a, b];
    assert [a, b, c, d][..3] == [a, b, c] && [a, b, c, d, e][..4] == [a, b, c, d];
    OccurrencesOne(a, key);
    assert Occurrences([a, b], key) == Occurrences([a], key) + If(b.0 == key, b.1);
    assert Occurrences([a, b, c], key) == Occurrences([a, b], key) + If(c.0 == key, c.1);
    assert Occurrences([a, b, c, d], key) == Occurrences([a, b, c], key) + If(d.0 == key, d.1);
  }

  lemma OccurrencesOne(a: (string, string), key: string)
    ensures Occurrences([a], key) == If(a.0 == key, a.1)
  {
    assert [a][..0] == [];
  }

  lemma OccurrencesSix(a: (string, string), b: (string, string), c: (string, string), d: (string, string),
                       e: (string, string), g: (string, string), key: string)
    ensures Occurrences([a, b, c, d, e, g], key)
            == If(a.0 == key, a.1) + If(b.0 == key, b.1) + If(c.0 == key, c.1) + If(d.0 == key, d.1)
               + If(e.0 == key, e.1) + If(g.0 == key, g.1)
  {
    OccurrencesFive(a, b, c, d, e, key);
    assert [a, b, c, d, e, g][..5] == [a, b, c, d, e];
    hide If;
  }

  lemma KeysApart()
    ensures "pin" != "fid" && "pin" != "tmp" && "pin" != "uid" && "fid" != "tmp" && "fid" != "uid" && "tmp" != "uid"
    ensures "size" != "type" && "valid" != "index"
    ensures "majorver" != "minorver" && "majorver" != "template" && "minorver" != "template"
  {
    assert "pin"[0] == 'p' && "fid"[0] == 'f' && "tmp"[0] == 't' && "uid"[0] == 'u';
    assert "size"[0] == 's' && "type"[0] == 't' && "valid"[0] == 'v' && "index"[0] == 'i';
    assert "majorver"[1] == 'a' && "minorver"[1] == 'i' && "template"[1] == 'e';
  }

  lemma LegacyPins(pin: string, slot: string, size: string, text: string)
    ensures var f := LegacyFields(pin, slot, size, text);
      Occurrences(f, "pin") == [pin] && Occurrences(f, "userid") == [] && Occurrences(f, "uid") == []
  {
    KeysApart();
    var a, b, c, d, e := ("pin", pin), ("fid", slot), ("size", size), ("valid", "1"), ("tmp", text);
    OccurrencesFive(a, b, c, d, e, "pin");
    OccurrencesFive(a, b, c, d, e, "userid");
    OccurrencesFive(a, b, c, d, e, "uid");
    hide Occurrences;
  }

  lemma LegacyRest(pin: string, slot: string, size: string, text: string)
    ensures var f := LegacyFields(pin, slot, size, text);
      Occurrences(f, "fid") == [slot] && Occurrences(f, "no") == [] && Occurrences(f, "tmp") == [text]
  {
    KeysApart();
    var a, b, c, d, e := ("pin", pin), ("fid", slot), ("size", size), ("valid", "1"), ("tmp", text);
    OccurrencesFive(a, b, c, d, e, "fid");
    OccurrencesFive(a, b, c, d, e, "no");
    OccurrencesFive(a, b, c, d, e, "tmp");
    hide Occurrences;
  }

  lemma LegacyLookup(pin: string, slot: string, size: string, text: string)
    ensures var f := LegacyFields(pin, slot, size, text);
      && Occurrences(f, "pin") == [pin] && Occurrences(f, "userid") == [] && Occurrences(f, "uid") == []
      && Occurrences(f, "fid") == [slot] && Occurrences(f, "no") == [] && Occurrences(f, "tmp") == [text]
  {
    LegacyPins(pin, slot, size, text);
    LegacyRest(pin, slot, size, text);
    hide Occurrences, LegacyFields;
  }

  lemma LegacyNoVersions(pin: string, slot: string, size: string, text: string)
    ensures var f := LegacyFields(pin, slot, size, text);
      && Occurrences(f, "majorver") == [] && Occurrences(f, "algorithmmajor") == []
      && Occurrences(f, "minorver") == [] && Occurrences(f, "algorithmminor") == []
  {
    var a, b, c, d, e := ("pin", pin), ("fid", slot), ("size", size), ("valid", "1"), ("tmp", text);
    OccurrencesFive(a, b, c, d, e, "majorver");
    OccurrencesFive(a, b, c, d, e, "algorithmmajor");
    OccurrencesFive(a, b, c, d, e, "minorver");
    OccurrencesFive(a, b, c, d, e, "algorithmminor");
    hide Occurrences;
  }

  lemma BiodataLookup(pin: string, slot: string, bioType: string, major: string, minor: string, text: string)
    ensures var f := BiodataFields(pin, slot, bioType, major, minor, text);
      && Occurrences(f, "pin") == [pin] && Occurrences(f, "userid") == [] && Occurrences(f, "uid") == []
      && Occurrences(f, "no") == [slot] && Occurrences(f, "index") == [] && Occurrences(f, "type") == [bioType]
      && Occurrences(f, "tmp") == [text]
  {
    KeysApart();
    var a, b, c, d, e, g :=
      ("pin", pin), ("no", slot), ("type", bioType), ("majorver", major), ("minorver", minor), ("tmp", text);
    OccurrencesSix(a, b, c, d, e, g, "pin");
    OccurrencesSix(a, b, c, d, e, g, "userid");
    OccurrencesSix(a, b, c, d, e, g, "uid");
    OccurrencesSix(a, b, c, d, e, g, "no");
    OccurrencesSix(a, b, c, d, e, g, "index");
    OccurrencesSix(a, b, c, d, e, g, "type");
    OccurrencesSix(a, b, c, d, e, g, "tmp");
    hide Occurrences;
  }

  lemma BiodataVersions(pin: string, slot: string, bioType: string, major: string, minor: string, text: string)
    ensures var f := BiodataFields(pin, slot, bioType, major, minor, text);
      && Occurrences(f, "majorver") == [major] && Occurrences(f, "algorithmmajor") == []
      && Occurrences(f, "minorver") == [minor] && Occurrences(f, "algorithmminor") == []
  {
    KeysApart();
    var a, b, c, d, e, g :=
      ("pin", pin), ("no", slot), ("type", bioType), ("majorver", major), ("minorver", minor), ("tmp", text);
    OccurrencesSix(a, b, c, d, e, g, "majorver");
    OccurrencesSix(a, b, c, d, e, g, "algorithmmajor");
    OccurrencesSix(a, b, c, d, e, g, "minorver");
    OccurrencesSix(a, b, c, d, e, g, "algorithmminor");
    hide Occurrences;
  }

  // ---------- a whole upload ----------

  const MAX_ROWS := 64

  /** Rows in order, blank ones skipped; one bad row rejects the upload. */
  function ExtractRows(table: RowTable, lines: seq<string>, capabilities: Capabilities): Option<seq<Captured>> {
    if lines == [] then Some([])
    else
      var before := ExtractRows(table, lines[..|lines| - 1], capabilities);
      var line := lines[|lines| - 1];
      if before.None? then None
      else if TrimSpace(line) == "" then before
      else
        match Extract(table, Row(line), capabilities)
        case None => None
        case Some(asset) => Some(before.value + [asset])
  }

  function ExtractAll(table: RowTable, body: string, capabilities: Capabilities): Option<seq<Captured>> {
    var lines := Split(TrimSpace(body), '\n');
    if |lines| > MAX_ROWS then None else ExtractRows(table, lines, capabilities)
  }

  lemma {:induction false} BadRowRejects(table: RowTable, lines: seq<string>, k: nat, capabilities: Capabilities)
    requires k <= |lines| && ExtractRows(table, lines[..k], capabilities).None?
    ensures ExtractRows(table, lines, capabilities).None?
    decreases |lines|
  {
    hide Extract, Row, TrimSpace;
    if k < |lines| {
      assert lines[..|lines| - 1][..k] == lines[..k];
      BadRowRejects(table, lines[..|lines| - 1], k, capabilities);
    } else {
      assert lines[..k] == lines;
    }
  }

  /** ExtractBiometricAssets for the template tables. */
  method ExtractAssets(table: RowTable, body: string, capabilities: Capabilities)
    returns (assets: Option<seq<Captured>>)
    ensures assets == ExtractAll(table, body, capabilities)
  {
    hide Split, TrimSpace, Extract, Row;
    var lines := Split(TrimSpace(body), '\n');
    if |lines| > MAX_ROWS {
      return None;
    }
    var found := [];
    for k := 0 to |lines|
      invariant ExtractRows(table, lines[..k], capabilities) == Some(found)
    {
      assert lines[..k + 1][..k] == lines[..k];
      if TrimSpace(lines[k]) == "" {
        continue;
      }
      var asset := Extract(table, Row(lines[k]), capabilities);
      if asset.None? {
        BadRowRejects(table, lines, k + 1, capabilities);
        return None;
      }
      found := found + [asset.value];
    }
    assert lines[..|lines|] == lines;
    assets := Some(found);
  }

  // ---------- the round trip ----------

  lemma OneNumber(fields: Fields, minimum: int, maximum: int, keys: seq<string>, n: int)
    requires OccurrencesOfAny(fields, keys) == [Itoa(n)] && 0 <= n && minimum <= n <= maximum && maximum <= 255
    ensures RequiredInt(fields, minimum, maximum, keys) == Some(n)
    ensures ReadVersion(fields, minimum, keys) == VersionField(n, true, true)
  {
    hide OccurrencesOfAny, Itoa, OnlyNumber, VersionOf;
    NumberReads(n, minimum, maximum);
  }

  lemma NumberReads(n: int, minimum: int, maximum: int)
    requires 0 <= n && minimum <= n <= maximum && maximum <= 255
    ensures OnlyNumber([Itoa(n)], minimum, maximum) == Some(n)
    ensures VersionOf([Itoa(n)], minimum) == VersionField(n, true, true)
  {
    NumbersArePlain(n);
    PlainTrims(Itoa(n));
    AtoiReads(n);
    hide TrimSpace, Atoi, Itoa, Plain;
  }

  lemma AnyOfOne(fields: Fields, a: string)
    ensures OccurrencesOfAny(fields, [a]) == Occurrences(fields, a)
  {
    assert [a][1..] == [];
    hide Occurrences;
  }

  lemma AnyOfTwo(fields: Fields, a: string, b: string)
    ensures OccurrencesOfAny(fields, [a, b]) == Occurrences(fields, a) + Occurrences(fields, b)
  {
    assert [a, b][1..] == [b];
    AnyOfOne(fields, b);
    hide Occurrences;
  }

  lemma AnyOfThree(fields: Fields, a: string, b: string, c: string)
    ensures OccurrencesOfAny(fields, [a, b, c]) == Occurrences(fields, a)
      + (Occurrences(fields, b) + Occurrences(fields, c))
  {
    assert [a, b, c][1..] == [b, c];
    AnyOfTwo(fields, b, c);
    hide Occurrences;
  }

  /** A row with one PIN and one payload. */
  lemma PinAndPayload(fields: Fields, pin: string, text: string, payload: seq<Byte>)
    requires ValidIdentifier(pin) && payload != [] && text == Encode(payload)
    requires Occurrences(fields, "pin") == [pin] && Occurrences(fields, "userid") == []
      && Occurrences(fields, "uid") == []
    requires Occurrences(fields, "tmp") == [text]
    ensures OccurrencesOfAny(fields, ["pin", "userid", "uid"]) == [pin] && Canonical(pin) == Some(pin)
    ensures LastOf(fields, ["tmp", "template"]) == text && text != ""
  {
    AnyOfThree(fields, "pin", "userid", "uid");
    IdentifiersArePlain(pin);
    PayloadIsPlain(payload);
    PlainTrims(text);
    hide Occurrences, OccurrencesOfAny, ValidIdentifier, Encode, TrimSpace, Canonical;
    assert ["tmp", "template"][0] == "tmp";
  }

  function Expected(t: Template, payload: seq<Byte>): Captured {
    Captured(t.personnelID, t.bioType, t.slotIndex, t.kind, t.algorithmFamily, t.algorithmMajor, t.algorithmMinor,
      t.format, payload)
  }

  /** The claim has passed validClaimedBiometricDeployment, and the payload its limit. */
  predicate WithinLimits(t: Template, payload: seq<Byte>) {
    && 0 <= t.slotIndex <= 9
    && 0 <= t.algorithmMajor <= MAX_ALGORITHM_VERSION && 0 <= t.algorithmMinor <= MAX_ALGORITHM_VERSION
    && 0 < |payload| <= (if t.kind == FINGERPRINT then MAX_FINGERPRINT else MAX_FACE)
  }

  /** What acceptance says about the algorithm of a template. */
  predicate AlgorithmAgrees(capabilities: Capabilities, t: Template, modality: string, prefix: string) {
    && AlgorithmVersion(Capability(capabilities, modality + "algorithmversion"))
         == Some((t.algorithmMajor, t.algorithmMinor))
    && t.algorithmMajor > 0
    && t.algorithmFamily == "zk" + modality + "-v" + Itoa(t.algorithmMajor)
    && t.format == prefix + Itoa(t.algorithmMajor)
  }

  lemma FormatAgrees(t: Template, capabilities: Capabilities, modality: string, prefix: string)
    requires FormatCode(t, capabilities, modality, prefix) == ""
    ensures AlgorithmAgrees(capabilities, t, modality, prefix)
  {
    AlgorithmIsPositive(Capability(capabilities, modality + "algorithmversion"));
    hide Capability, AlgorithmVersion, Itoa;
  }

  lemma AlgorithmIsPositive(value: string)
    ensures AlgorithmVersion(value).Some? ==> AlgorithmVersion(value).value.0 > 0
  {
    hide Cut, TrimSpace, Atoi;
  }

  lemma ReportedAlgorithm(capabilities: Capabilities, t: Template, modality: string, prefix: string)
    requires AlgorithmAgrees(capabilities, t, modality, prefix)
    requires t.algorithmMajor <= MAX_ALGORITHM_VERSION && t.algorithmMinor <= MAX_ALGORITHM_VERSION
    ensures modality + "algorithmversion" in capabilities
    ensures BoundedAlgorithm(Capability(capabilities, modality + "algorithmversion"))
      == Some((t.algorithmMajor, t.algorithmMinor))
    ensures CanonicalFormat(prefix, t.algorithmMajor) == t.format
  {
    if modality + "algorithmversion" !in capabilities {
      EmptyHasNoAlgorithm();
      assert false;
    }
    hide AlgorithmVersion, Itoa;
  }

  lemma EmptyHasNoAlgorithm()
    ensures AlgorithmVersion("").None?
  {
    CutNone("", ':');
    CutNone("", '.');
    assert TrimSpace("") == "";
  }

  lemma LegacyAlgorithm(fields: Fields, capabilities: Capabilities, t: Template)
    requires AlgorithmAgrees(capabilities, t, "finger", "templatev")
    requires t.algorithmMajor <= MAX_ALGORITHM_VERSION && t.algorithmMinor <= MAX_ALGORITHM_VERSION
    requires Occurrences(fields, "majorver") == [] && Occurrences(fields, "algorithmmajor") == []
    requires Occurrences(fields, "minorver") == [] && Occurrences(fields, "algorithmminor") == []
    ensures Algorithm("finger", fields, capabilities) == (t.algorithmFamily, t.algorithmMajor, t.algorithmMinor)
  {
    ReportedAlgorithm(capabilities, t, "finger", "templatev");
    AnyOfTwo(fields, "majorver", "algorithmmajor");
    AnyOfTwo(fields, "minorver", "algorithmminor");
    hide Occurrences, OccurrencesOfAny, BoundedAlgorithm, Capability, Itoa, AlgorithmVersion;
  }

  lemma BiodataAlgorithm(fields: Fields, capabilities: Capabilities, t: Template, modality: string, prefix: string)
    requires AlgorithmAgrees(capabilities, t, modality, prefix)
    requires 0 <= t.algorithmMajor <= MAX_ALGORITHM_VERSION && 0 <= t.algorithmMinor <= MAX_ALGORITHM_VERSION
    requires Occurrences(fields, "majorver") == [Itoa(t.algorithmMajor)] && Occurrences(fields, "algorithmmajor") == []
    requires Occurrences(fields, "minorver") == [Itoa(t.algorithmMinor)] && Occurrences(fields, "algorithmminor") == []
    ensures Algorithm(modality, fields, capabilities) == (t.algorithmFamily, t.algorithmMajor, t.algorithmMinor)
  {
    ReportedAlgorithm(capabilities, t, modality, prefix);
    AnyOfTwo(fields, "majorver", "algorithmmajor");
    AnyOfTwo(fields, "minorver", "algorithmminor");
    OneNumber(fields, 1, 255, ["majorver", "algorithmmajor"], t.algorithmMajor);
    OneNumber(fields, 0, 255, ["minorver", "algorithmminor"], t.algorithmMinor);
    hide Occurrences, OccurrencesOfAny, BoundedAlgorithm, Capability, Itoa, AlgorithmVersion, ReadVersion, RequiredInt;
  }

  /** The parts of an asset, put together. */
  lemma Assembled(table: RowTable, fields: Fields, capabilities: Capabilities, t: Template, payload: seq<Byte>)
    requires OccurrencesOfAny(fields, ["pin", "userid", "uid"]) == [t.personnelID]
      && Canonical(t.personnelID) == Some(t.personnelID)
    requires LastOf(fields, ["tmp", "template"]) == Encode(payload) && Encode(payload) != ""
    requires TypeAndSlot(table, fields) == Some((t.bioType, t.slotIndex)) && WithinLimits(t, payload)
    requires (t.kind == FINGERPRINT && t.bioType == 1) || (t.kind == FACE && t.bioType == 9)
    requires Algorithm(if t.bioType == 1 then "finger" else "face", fields, capabilities)
             == (t.algorithmFamily, t.algorithmMajor, t.algorithmMinor)
    requires CanonicalFormat(if t.bioType == 1 then "templatev" else "facev", t.algorithmMajor) == t.format
    ensures Extract(table, fields, capabilities) == Some(Expected(t, payload))
  {
    KindsDiffer();
    BoundedReads(payload, if t.bioType == 1 then MAX_FINGERPRINT else MAX_FACE);
    hide OccurrencesOfAny, Canonical, LastOf, Encode, TypeAndSlot, Algorithm, CanonicalFormat, Bounded;
  }

  lemma LegacyTypeAndSlot(f: Fields, slot: int)
    requires Occurrences(f, "fid") == [Itoa(slot)] && Occurrences(f, "no") == [] && 0 <= slot <= 9
    ensures TypeAndSlot(FINGERTMP_ROW, f) == Some((1, slot))
  {
    AnyOfTwo(f, "fid", "no");
    hide Occurrences, OccurrencesOfAny, RequiredInt, Itoa;
    OneNumber(f, 0, 9, ["fid", "no"], slot);
  }

  lemma BiodataTypeAndSlot(f: Fields, bioType: int, slot: int)
    requires Occurrences(f, "no") == [Itoa(slot)] && Occurrences(f, "index") == [] && 0 <= slot <= 9
    requires Occurrences(f, "type") == [Itoa(bioType)] && (bioType == 1 || bioType == 9)
    ensures TypeAndSlot(BIODATA_ROW, f) == Some((bioType, slot))
  {
    AnyOfOne(f, "no");
    AnyOfOne(f, "type");
    hide Occurrences, OccurrencesOfAny, RequiredInt, Itoa;
    OneNumber(f, 0, 9, ["no"], slot);
    OneNumber(f, 1, 9, ["type"], bioType);
  }

  lemma LegacyExtracts(capabilities: Capabilities, t: Template, size: string, payload: seq<Byte>)
    requires AlgorithmAgrees(capabilities, t, "finger", "templatev") && WithinLimits(t, payload)
    requires ValidIdentifier(t.personnelID) && t.kind == FINGERPRINT && t.bioType == 1
    ensures Extract(FINGERTMP_ROW, LegacyFields(t.personnelID, Itoa(t.slotIndex), size, Encode(payload)), capabilities)
            == Some(Expected(t, payload))
  {
    var f := LegacyFields(t.personnelID, Itoa(t.slotIndex), size, Encode(payload));
    LegacyLookup(t.personnelID, Itoa(t.slotIndex), size, Encode(payload));
    LegacyNoVersions(t.personnelID, Itoa(t.slotIndex), size, Encode(payload));
    hide LegacyFields, Occurrences, OccurrencesOfAny, Encode, Itoa, Algorithm, LastOf, Canonical, CanonicalFormat;
    hide AlgorithmAgrees, ValidIdentifier, TypeAndSlot, Extract;
    PinAndPayload(f, t.personnelID, Encode(payload), payload);
    LegacyTypeAndSlot(f, t.slotIndex);
    LegacyAlgorithm(f, capabilities, t);
    ReportedAlgorithm(capabilities, t, "finger", "templatev");
    Assembled(FINGERTMP_ROW, f, capabilities, t, payload);
  }

  lemma BiodataExtracts(capabilities: Capabilities, t: Template, modality: string, prefix: string, payload: seq<Byte>)
    requires AlgorithmAgrees(capabilities, t, modality, prefix) && WithinLimits(t, payload)
    requires ValidIdentifier(t.personnelID)
    requires (t.kind == FINGERPRINT && t.bioType == 1) || (t.kind == FACE && t.bioType == 9)
    requires modality == (if t.bioType == 1 then "finger" else "face")
      && prefix == (if t.bioType == 1 then "templatev" else "facev")
    ensures Extract(BIODATA_ROW,
                    BiodataFields(t.personnelID, Itoa(t.slotIndex), Itoa(t.bioType), Itoa(t.algorithmMajor),
                                  Itoa(t.algorithmMinor), Encode(payload)), capabilities)
            == Some(Expected(t, payload))
  {
    var slot, bioType, major, minor :=
      Itoa(t.slotIndex), Itoa(t.bioType), Itoa(t.algorithmMajor), Itoa(t.algorithmMinor);
    var f := BiodataFields(t.personnelID, slot, bioType, major, minor, Encode(payload));
    BiodataLookup(t.personnelID, slot, bioType, major, minor, Encode(payload));
    BiodataVersions(t.personnelID, slot, bioType, major, minor, Encode(payload));
    hide BiodataFields, Occurrences, OccurrencesOfAny, Encode, Itoa, Algorithm, LastOf, Canonical, CanonicalFormat;
    hide AlgorithmAgrees, ValidIdentifier, TypeAndSlot, Extract;
    PinAndPayload(f, t.personnelID, Encode(payload), payload);
    BiodataTypeAndSlot(f, t.bioType, t.slotIndex);
    BiodataAlgorithm(f, capabilities, t, modality, prefix);
    ReportedAlgorithm(capabilities, t, modality, prefix);
    Assembled(BIODATA_ROW, f, capabilities, t, payload);
  }

  /** No field of a rendered command holds a separator. */
  predicate Unbroken(part: string) { '\t' !in part && '\n' !in part }

  lemma PairUnbroken(key: string, value: string)
    requires Unbroken(key) && Plain(value)
    ensures Unbroken(Pair(key, value))
  {}

  function LastChar(s: string): char
    requires s != ""
  {
    s[|s| - 1]
  }

  lemma {:induction false} JoinEnds(parts: seq<string>, sep: char)
    requires parts != [] && parts[0] != "" && parts[|parts| - 1] != ""
    ensures Join(parts, sep) != "" && Join(parts, sep)[0] == parts[0][0]
    ensures LastChar(Join(parts, sep)) == LastChar(parts[|parts| - 1])
  {
    if |parts| > 1 {
      var rest := parts[1..];
      if rest[0] == "" {
        JoinLast(rest, sep);
      } else {
        JoinEnds(rest, sep);
      }
    }
  }

  lemma {:induction false} JoinLast(parts: seq<string>, sep: char)
    requires parts != [] && parts[|parts| - 1] != ""
    ensures Join(parts, sep) != "" && LastChar(Join(parts, sep)) == LastChar(parts[|parts| - 1])
  {
    if |parts| > 1 { JoinLast(parts[1..], sep); }
  }

  /** A row of unbroken fields is one line, and splits into them. */
  lemma RowOfJoined(parts: seq<string>)
    requires parts != [] && forall p | p in parts :: Unbroken(p)
    requires parts[0] != "" && !IsSpace(parts[0][0])
    requires parts[|parts| - 1] != "" && !IsSpace(LastChar(parts[|parts| - 1]))
    ensures var line := Join(parts, '\t');
      Row(line) == ReadPairs(parts) && TrimSpace(line) == line && line != "" && Split(line, '\n') == [line]
  {
    var line := Join(parts, '\t');
    JoinEnds(parts, '\t');
    JoinSplits(parts, '\t');
    JoinHasNo(parts, '\t', '\n');
    TrimNothing(line);
    SplitNone(line, '\n');
    hide Join, Split, TrimSpace;
  }

  lemma OneLine(table: RowTable, line: string, capabilities: Capabilities, asset: Captured)
    requires TrimSpace(line) == line && line != "" && Split(line, '\n') == [line]
    requires Extract(table, Row(line), capabilities) == Some(asset)
    ensures ExtractAll(table, line, capabilities) == Some([asset])
  {
    hide Split, TrimSpace, Extract, Row;
    assert [line][..0] == [];
    assert ExtractRows(table, [], capabilities) == Some([]) && [] + [asset] == [asset];
    assert ExtractRows(table, [line], capabilities) == Some([asset]);
  }

  lemma OneRow(table: RowTable, parts: seq<string>, capabilities: Capabilities, asset: Captured)
    requires parts != [] && forall p | p in parts :: Unbroken(p)
    requires parts[0] != "" && !IsSpace(parts[0][0])
    requires parts[|parts| - 1] != "" && !IsSpace(LastChar(parts[|parts| - 1]))
    requires Extract(table, ReadPairs(parts), capabilities) == Some(asset)
    ensures ExtractAll(table, Join(parts, '\t'), capabilities) == Some([asset])
  {
    hide Join, Split, TrimSpace, Extract, ExtractAll, Row, ReadPairs;
    RowOfJoined(parts);
    OneLine(table, Join(parts, '\t'), capabilities, asset);
  }

  lemma PairEnds(key: string, value: string)
    requires key != "" && !IsSpace(key[0]) && Plain(value)
    ensures Pair(key, value) != "" && !IsSpace(Pair(key, value)[0]) && !IsSpace(LastChar(Pair(key, value)))
  {
    assert value[|value| - 1] in value && LastChar(Pair(key, value)) == value[|value| - 1];
  }

  lemma LegacyUnbroken(verb: string, pin: string, slot: string, size: string, text: string)
    requires verb == "DATA FP PIN" || verb == "DATA UPDATE FINGERTMP PIN"
    requires Plain(pin) && Plain(slot) && Plain(size) && Plain(text)
    ensures var parts := LegacyPairs(verb, pin, slot, size, text);
      && (forall p | p in parts :: Unbroken(p))
      && |parts| == 5 && parts[0] != "" && !IsSpace(parts[0][0]) && parts[4] != "" && !IsSpace(LastChar(parts[4]))
  {
    assert Plain("1");
    assert Unbroken(verb) && Unbroken("FID") && Unbroken("Size") && Unbroken("Valid") && Unbroken("TMP");
    PairUnbroken(verb, pin);
    PairUnbroken("FID", slot);
    PairUnbroken("Size", size);
    PairUnbroken("Valid", "1");
    PairUnbroken("TMP", text);
    PairEnds(verb, pin);
    PairEnds("TMP", text);
    hide Unbroken, Plain, Pair;
  }

  lemma BiodataUnbroken(pin: string, slot: string, bioType: string, major: string, minor: string, text: string)
    requires Plain(pin) && Plain(slot) && Plain(bioType) && Plain(major) && Plain(minor) && Plain(text)
    ensures var parts := BiodataPairs(pin, slot, bioType, major, minor, text);
      && (forall p | p in parts :: Unbroken(p))
      && |parts| == 6 && parts[0] != "" && !IsSpace(parts[0][0]) && parts[5] != "" && !IsSpace(LastChar(parts[5]))
  {
    var verb := "DATA UPDATE BIODATA Pin";
    assert Unbroken(verb) && Unbroken("No") && Unbroken("Type") && Unbroken("MajorVer") && Unbroken("MinorVer")
      && Unbroken("Tmp");
    PairUnbroken(verb, pin);
    PairUnbroken("No", slot);
    PairUnbroken("Type", bioType);
    PairUnbroken("MajorVer", major);
    PairUnbroken("MinorVer", minor);
    PairUnbroken("Tmp", text);
    PairEnds(verb, pin);
    PairEnds("Tmp", text);
    hide Unbroken, Plain, Pair;
  }

  lemma LegacyRoundTrip(verb: string, capabilities: Capabilities, t: Template, payload: seq<Byte>)
    requires verb == "DATA FP PIN" || verb == "DATA UPDATE FINGERTMP PIN"
    requires AlgorithmAgrees(capabilities, t, "finger", "templatev") && WithinLimits(t, payload)
    requires ValidIdentifier(t.personnelID) && t.kind == FINGERPRINT && t.bioType == 1
    ensures ExtractAll(FINGERTMP_ROW,
              Join(LegacyPairs(verb, t.personnelID, Itoa(t.slotIndex), Itoa(|payload|), Encode(payload)), '\t'),
                capabilities)
            == Some([Expected(t, payload)])
  {
    var pin, slot, size, text := t.personnelID, Itoa(t.slotIndex), Itoa(|payload|), Encode(payload);
    IdentifiersArePlain(pin);
    NumbersArePlain(t.slotIndex);
    NumbersArePlain(|payload|);
    PayloadIsPlain(payload);
    LegacyExtracts(capabilities, t, size, payload);
    hide Plain, Encode, Itoa, Extract, AlgorithmAgrees, ValidIdentifier, ReadPairs, LegacyFields, Unbroken, ExtractAll;
    hide IsSpace, Join, LegacyPairs, LastChar;
    LegacyReads(verb, pin, slot, size, text);
    LegacyUnbroken(verb, pin, slot, size, text);
    OneRow(FINGERTMP_ROW, LegacyPairs(verb, pin, slot, size, text), capabilities, Expected(t, payload));
  }

  lemma BiodataRoundTrip(capabilities: Capabilities, t: Template, modality: string, prefix: string, payload: seq<Byte>)
    requires AlgorithmAgrees(capabilities, t, modality, prefix) && WithinLimits(t, payload)
      && ValidIdentifier(t.personnelID)
    requires (t.kind == FINGERPRINT && t.bioType == 1) || (t.kind == FACE && t.bioType == 9)
    requires modality == (if t.bioType == 1 then "finger" else "face")
      && prefix == (if t.bioType == 1 then "templatev" else "facev")
    ensures ExtractAll(BIODATA_ROW,
              Join(BiodataPairs(t.personnelID, Itoa(t.slotIndex), Itoa(t.bioType), Itoa(t.algorithmMajor),
                Itoa(t.algorithmMinor), Encode(payload)), '\t'),
              capabilities)
            == Some([Expected(t, payload)])
  {
    var pin, slot, bioType, major, minor :=
      t.personnelID, Itoa(t.slotIndex), Itoa(t.bioType), Itoa(t.algorithmMajor), Itoa(t.algorithmMinor);
    var text := Encode(payload);
    IdentifiersArePlain(pin);
    NumbersArePlain(t.slotIndex);
    NumbersArePlain(t.bioType);
    NumbersArePlain(t.algorithmMajor);
    NumbersArePlain(t.algorithmMinor);
    PayloadIsPlain(payload);
    BiodataExtracts(capabilities, t, modality, prefix, payload);
    hide Plain, Encode, Itoa, Extract, AlgorithmAgrees, ValidIdentifier, ReadPairs, BiodataFields, Unbroken, ExtractAll;
    hide IsSpace, Join, BiodataPairs, LastChar;
    BiodataReads(pin, slot, bioType, major, minor, text);
    BiodataUnbroken(pin, slot, bioType, major, minor, text);
    OneRow(BIODATA_ROW, BiodataPairs(pin, slot, bioType, major, minor, text), capabilities, Expected(t, payload));
  }

  /** What acceptance says about a template command. */
  lemma AcceptedLegacy(state: State, capabilities: Capabilities, t: Template)
    requires RendererCode(state, capabilities, t) == "" && t.renderer == "finger_legacy"
    ensures ValidIdentifier(t.personnelID) && t.kind == FINGERPRINT && t.bioType == 1
    ensures AlgorithmAgrees(capabilities, t, "finger", "templatev")
  {
    KindsDiffer();
    assert FormatCode(t, capabilities, "finger", "templatev") == "" by {
      hide ValidIdentifier, ApprovedVersion, FormatCode;
    }
    FormatAgrees(t, capabilities, "finger", "templatev");
    hide ValidIdentifier, ApprovedVersion, FormatCode, AlgorithmAgrees;
  }

  lemma AcceptedBiodata(state: State, capabilities: Capabilities, t: Template)
    requires RendererCode(state, capabilities, t) == "" && t.renderer == "biodata"
    ensures ValidIdentifier(t.personnelID)
    ensures (t.kind == FINGERPRINT && t.bioType == 1 && FormatCode(t, capabilities, "finger", "templatev") == "")
            || (t.kind == FACE && t.bioType == 9 && FormatCode(t, capabilities, "face", "facev") == "")
  {
    KindsDiffer();
    hide ValidIdentifier, ApprovedVersion, FormatCode, Compare;
  }

  function TableOf(t: Template): RowTable { if t.renderer == "finger_legacy" then FINGERTMP_ROW else BIODATA_ROW }

  /** Every accepted fingerprint or face template, printed for a scanner in normal form, reads back as the
      same PIN, slot, type, kind, algorithm, format and bytes. */
  lemma RenderedTemplatesReadBack(state: State, t: Template, payload: seq<Byte>)
    requires RendererCode(state, state.capabilities, t) == "" && t.renderer != "face_photo" && WithinLimits(t, payload)
    ensures ExtractAll(TableOf(t), Join(RenderedPairs(state.pushVersion, t, payload), '\t'), state.capabilities)
            == Some([Expected(t, payload)])
  {
    RendererIsKnown(state, state.capabilities, t);
    KindsDiffer();
    hide RendererCode, WithinLimits, Expected, ExtractAll, Join, LegacyPairs, BiodataPairs, AlgorithmAgrees, FormatCode;
    hide Encode, Itoa, ValidIdentifier, VersionBefore;
    if t.renderer == "finger_legacy" {
      AcceptedLegacy(state, state.capabilities, t);
      LegacyRoundTrip(LegacyVerb(state.pushVersion), state.capabilities, t, payload);
    } else {
      AcceptedBiodata(state, state.capabilities, t);
      if t.kind == FINGERPRINT {
        FormatAgrees(t, state.capabilities, "finger", "templatev");
        BiodataRoundTrip(state.capabilities, t, "finger", "templatev", payload);
      } else {
        FormatAgrees(t, state.capabilities, "face", "facev");
        BiodataRoundTrip(state.capabilities, t, "face", "facev", payload);
      }
    }
  }

  /** A tracker's state is its own normal form, so for any state a tracker comes to, whatever normal form the
      renderer's check works with, the accepted template reads back with the capabilities as they are stored. */
  lemma TrackedTemplatesReadBack(history: seq<State>, normal: Capabilities, t: Template, payload: seq<Byte>)
    requires Tracked(history)
    requires var state := history[|history| - 1];
      && IsNormalized(state.capabilities, normal) && RendererCode(state, normal, t) == ""
      && t.renderer != "face_photo" && WithinLimits(t, payload)
    ensures var state := history[|history| - 1];
      ExtractAll(TableOf(t), Join(RenderedPairs(state.pushVersion, t, payload), '\t'), state.capabilities)
      == Some([Expected(t, payload)])
  {
    StoredIsItsNormalForm(history, |history| - 1, normal);
    hide Tracked, IsNormalized, RendererCode, WithinLimits, ExtractAll, Join, RenderedPairs, Expected;
    RenderedTemplatesReadBack(history[|history| - 1], t, payload);
  }
}
