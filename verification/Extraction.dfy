/** Exactly which assets an upload yields: what a row has to say, and how it has to agree with the scanner. */
module Extraction {
  import opened Identifiers
  import opened Text
  import opened Claims
  import opened DeviceProtocol
  import opened Compatibility
  import opened Base64
  import opened Templates
  import opened Acceptance

  /** There is one value, and it is the number. */
  predicate SaysOnly(values: seq<string>, n: int) { |values| == 1 && Atoi(TrimSpace(values[0])) == Some(n) }

  lemma OnlyNumberSays(values: seq<string>, minimum: int, maximum: int, n: int)
    ensures OnlyNumber(values, minimum, maximum) == Some(n) <==> SaysOnly(values, n) && minimum <= n <= maximum
  {
    hide Atoi, TrimSpace;
  }

  lemma OneKey(fields: Fields, key: string)
    ensures OccurrencesOfAny(fields, [key]) == Occurrences(fields, key)
  {
    assert [key][1..] == [];
    hide Occurrences;
  }

  predicate InSlot(table: RowTable, fields: Fields, n: int) {
    var no, index := Occurrences(fields, "no"), Occurrences(fields, "index");
    && 0 <= n <= 9
    && if table.FINGERTMP_ROW? then SaysOnly(OccurrencesOfAny(fields, ["fid", "no"]), n)
       else if no == [] then SaysOnly(index, n)
       else SaysOnly(no, n) && (index == [] || SaysOnly(index, 0))
  }

  predicate OfType(table: RowTable, fields: Fields, bioType: int) {
    if table.FINGERTMP_ROW? then bioType == 1
    else (bioType == 1 || bioType == 9) && SaysOnly(Occurrences(fields, "type"), bioType)
  }

  lemma SlotIs(fields: Fields, n: int)
    ensures Slot(fields) == Some(n) <==> InSlot(BIODATA_ROW, fields, n)
  {
    OneKey(fields, "no");
    OneKey(fields, "index");
    OnlyNumberSays(Occurrences(fields, "no"), 0, 9, n);
    OnlyNumberSays(Occurrences(fields, "index"), 0, 9, n);
    OnlyNumberSays(Occurrences(fields, "index"), 0, 99, 0);
    hide Occurrences, OccurrencesOfAny, OnlyNumber, SaysOnly;
  }

  lemma TypeAndSlotAre(table: RowTable, fields: Fields, bioType: int, n: int)
    ensures TypeAndSlot(table, fields) == Some((bioType, n)) <==>
      OfType(table, fields, bioType) && InSlot(table, fields, n)
  {
    SlotIs(fields, n);
    OneKey(fields, "type");
    OnlyNumberSays(Occurrences(fields, "type"), 1, 9, bioType);
    OnlyNumberSays(OccurrencesOfAny(fields, ["fid", "no"]), 0, 9, n);
    hide Occurrences, OccurrencesOfAny, OnlyNumber, SaysOnly, Slot;
  }

  /** The row says the version, or says none and the scanner reports it; and no report contradicts it. */
  predicate KnownVersion(fields: Fields, capabilities: Capabilities, key: string, major: int, minor: int) {
    var majors := OccurrencesOfAny(fields, ["majorver", "algorithmmajor"]);
    var minors := OccurrencesOfAny(fields, ["minorver", "algorithmminor"]);
    && 1 <= major <= 255 && 0 <= minor <= 255
    && (majors == [] && minors == [] ==> key in capabilities)
    && (majors != [] || minors != [] ==> SaysOnly(majors, major) && SaysOnly(minors, minor))
    && (key in capabilities ==> Runs(capabilities, key) == Some((major, minor)))
  }

  lemma VersionSays(values: seq<string>, minimum: int, n: int)
    requires minimum >= 0
    ensures var v := VersionOf(values, minimum);
      && (v.present <==> values != [])
      && (v.ok && v.value == n <==> SaysOnly(values, n) && minimum <= n <= 255)
  {
    hide Atoi, TrimSpace;
  }

  lemma AlgorithmIs(modality: string, fields: Fields, capabilities: Capabilities, key: string, major: int, minor: int)
    requires key == modality + "algorithmversion"
    ensures KnownVersion(fields, capabilities, key, major, minor) <==>
      major >= 1 && Algorithm(modality, fields, capabilities)
        == ("zk" + modality + "-v" + Itoa(major), major, minor)
    ensures Algorithm(modality, fields, capabilities) == UNKNOWN_ALGORITHM
      || Algorithm(modality, fields, capabilities).1 >= 1
  {
    var majors := OccurrencesOfAny(fields, ["majorver", "algorithmmajor"]);
    var minors := OccurrencesOfAny(fields, ["minorver", "algorithmminor"]);
    VersionSays(majors, 1, major);
    VersionSays(minors, 0, minor);
    var reported := if key in capabilities then capabilities[key] else "";
    AlgorithmIsPositive(reported);
    AlgorithmIsNatural(reported);
    hide OccurrencesOfAny, SaysOnly, Itoa, AlgorithmVersion, VersionOf;
  }

  lemma AlgorithmIsNatural(value: string)
    ensures AlgorithmVersion(value).Some? ==> AlgorithmVersion(value).value.1 >= 0
  {
    hide Cut, TrimSpace, Atoi;
  }

  /** The last value of a key, if it is not blank. */
  function LastValue(fields: Fields, key: string): string {
    var values := Occurrences(fields, key);
    if values == [] then "" else TrimSpace(values[|values| - 1])
  }

  lemma LastOfOne(fields: Fields, key: string)
    ensures LastOf(fields, [key]) == LastValue(fields, key)
  {
    assert [key][1..] == [] && LastOf(fields, []) == "";
    hide Occurrences, TrimSpace;
  }

  lemma LastOfTwo(fields: Fields, a: string, b: string)
    ensures LastOf(fields, [a, b]) ==
      if LastValue(fields, a) != "" then LastValue(fields, a) else LastValue(fields, b)
  {
    assert [a, b][1..] == [b];
    LastOfOne(fields, b);
    hide Occurrences, TrimSpace;
  }

  predicate KindOf(bioType: int, kind: string) { kind == if bioType == 1 then FINGERPRINT else FACE }

  /** The algorithm and the format of an asset: those of the version, or unknown without one. */
  ghost predicate MadeAs(fields: Fields, capabilities: Capabilities, modality: string, prefix: string, key: string,
                         family: string, major: int, minor: int, format: string) {
    if KnownVersion(fields, capabilities, key, major, minor) then
      family == "zk" + modality + "-v" + Itoa(major) && format == prefix + Itoa(major)
    else
      && (family, major, minor, format) == ("unknown", -1, -1, "unknown")
      && forall a, b :: !KnownVersion(fields, capabilities, key, a, b)
  }

  lemma MadeAsAlgorithm(fields: Fields, capabilities: Capabilities, modality: string, prefix: string, key: string,
                        family: string, major: int, minor: int, format: string)
    requires key == modality + "algorithmversion"
    ensures MadeAs(fields, capabilities, modality, prefix, key, family, major, minor, format) <==>
      Algorithm(modality, fields, capabilities) == (family, major, minor) && format == CanonicalFormat(prefix, major)
  {
    var made := Algorithm(modality, fields, capabilities);
    AlgorithmIs(modality, fields, capabilities, key, major, minor);
    AlgorithmIs(modality, fields, capabilities, key, made.1, made.2);
    FamilyIs(modality, fields, capabilities);
    assert KnownVersion(fields, capabilities, key, major, minor) ==> 1 <= major <= 255;
    if made == UNKNOWN_ALGORITHM {
      forall a, b ensures !KnownVersion(fields, capabilities, key, a, b) {
        AlgorithmIs(modality, fields, capabilities, key, a, b);
      }
    }
    hide Algorithm, KnownVersion, Itoa;
  }

  lemma FamilyIs(modality: string, fields: Fields, capabilities: Capabilities)
    ensures var made := Algorithm(modality, fields, capabilities);
      made == UNKNOWN_ALGORITHM || made.0 == "zk" + modality + "-v" + Itoa(made.1)
  {
    hide ReadVersion, BoundedAlgorithm, Itoa;
  }

  /** A row yields an asset exactly if it has one valid person, one type and slot of its table, and a payload that
      decodes within the limit of its kind. */
  lemma CapturedExactly(table: RowTable, fields: Fields, capabilities: Capabilities, asset: Captured)
    ensures Extract(table, fields, capabilities) == Some(asset) <==>
      var pins := OccurrencesOfAny(fields, ["pin", "userid", "uid"]);
      var finger := asset.bioType == 1;
      var encoded :=
        if LastValue(fields, "tmp") != "" then LastValue(fields, "tmp") else LastValue(fields, "template");
      && |pins| == 1 && asset.pin == TrimSpace(pins[0]) && ValidIdentifier(asset.pin)
      && OfType(table, fields, asset.bioType) && InSlot(table, fields, asset.slotIndex)
      && KindOf(asset.bioType, asset.kind)
      && encoded != "" && Bounded(encoded, if finger then 65_536 else 1_048_576) == Bytes(asset.bytes)
      && MadeAs(fields, capabilities, if finger then "finger" else "face", if finger then "templatev" else "facev",
                if finger then "fingeralgorithmversion" else "facealgorithmversion", asset.algorithmFamily,
                asset.algorithmMajor, asset.algorithmMinor, asset.format)
  {
    var finger := asset.bioType == 1;
    LastOfTwo(fields, "tmp", "template");
    TypeAndSlotAre(table, fields, asset.bioType, asset.slotIndex);
    FingerNames();
    FaceNames();
    MadeAsAlgorithm(fields, capabilities, if finger then "finger" else "face", if finger then "templatev" else "facev",
      if finger then "fingeralgorithmversion" else "facealgorithmversion", asset.algorithmFamily,
      asset.algorithmMajor, asset.algorithmMinor, asset.format);
    hide LastValue, LastOf, TypeAndSlot, OccurrencesOfAny, OfType, InSlot, Algorithm, CanonicalFormat, MadeAs, Bounded;
    hide ValidIdentifier, TrimSpace;
  }

  // ---------- a whole upload ----------

  /** Both, one after the other; nothing if there is nothing of one. */
  function Both<T>(a: Option<seq<T>>, b: Option<seq<T>>): Option<seq<T>> {
    if a.Some? && b.Some? then Some(a.value + b.value) else None
  }

  lemma BothAssociates<T>(a: Option<seq<T>>, b: Option<seq<T>>, c: Option<seq<T>>)
    ensures Both(Both(a, b), c) == Both(a, Both(b, c))
  {
    if a.Some? && b.Some? && c.Some? { assert a.value + b.value + c.value == a.value + (b.value + c.value); }
  }

  lemma BothNothing<T>(a: Option<seq<T>>)
    ensures Both(a, Some([])) == a && Both(Some([]), a) == a
  {
    if a.Some? { assert a.value + [] == a.value && [] + a.value == a.value; }
  }

  /** What one line adds to an upload. */
  function Adds(table: RowTable, line: string, capabilities: Capabilities): Option<seq<Captured>> {
    if TrimSpace(line) == "" then Some([])
    else
      var asset := Extract(table, Row(line), capabilities);
      if asset.Some? then Some([asset.value]) else None
  }

  lemma LastRow(table: RowTable, lines: seq<string>, capabilities: Capabilities)
    requires lines != []
    ensures ExtractRows(table, lines, capabilities)
      == Both(ExtractRows(table, lines[..|lines| - 1], capabilities), Adds(table, lines[|lines| - 1], capabilities))
  {
    var before := ExtractRows(table, lines[..|lines| - 1], capabilities);
    if before.Some? { BothNothing(before); }
    hide Extract, Row, TrimSpace;
  }

  lemma {:induction false} RowsAppend(table: RowTable, a: seq<string>, b: seq<string>, capabilities: Capabilities)
    ensures ExtractRows(table, a + b, capabilities)
      == Both(ExtractRows(table, a, capabilities), ExtractRows(table, b, capabilities))
    decreases |b|
  {
    if b == [] {
      assert a + b == a && ExtractRows(table, b, capabilities) == Some([]);
      BothNothing(ExtractRows(table, a, capabilities));
    } else {
      var front, last := b[..|b| - 1], b[|b| - 1];
      assert (a + b)[..|a + b| - 1] == a + front && (a + b)[|a + b| - 1] == last;
      RowsAppend(table, a, front, capabilities);
      LastRow(table, b, capabilities);
      LastRow(table, a + b, capabilities);
      hide ExtractRows, Both, Adds;
      BothAssociates(ExtractRows(table, a, capabilities), ExtractRows(table, front, capabilities),
        Adds(table, last, capabilities));
    }
  }

  lemma OneRowRead(table: RowTable, line: string, capabilities: Capabilities)
    ensures ExtractRows(table, [line], capabilities) == Adds(table, line, capabilities)
  {
    LastRow(table, [line], capabilities);
    assert [line][..0] == [] && ExtractRows(table, [], capabilities) == Some([]);
    BothNothing(Adds(table, line, capabilities));
    hide Both, Adds;
  }

  /** An upload of up to 64 lines yields the asset of each line that is not blank, in order; one line without an
      asset spoils it, and so does a line too many. */
  lemma UploadsAreRead(table: RowTable, body: string, capabilities: Capabilities, front: seq<string>, line: string,
                       back: seq<string>)
    requires Split(TrimSpace(body), '\n') == front + [line] + back
    ensures ExtractAll(table, body, capabilities) ==
      if |front| + |back| >= 64 then None
      else Both(Both(ExtractRows(table, front, capabilities), Adds(table, line, capabilities)),
                ExtractRows(table, back, capabilities))
  {
    RowsAppend(table, front + [line], back, capabilities);
    RowsAppend(table, front, [line], capabilities);
    OneRowRead(table, line, capabilities);
    hide ExtractRows, Both, Adds, TrimSpace, Split;
  }

  // ---------- what is printed ----------

  lemma PairText(key: string, start: string, value: string)
    requires start == key + "="
    ensures Pair(key, value) == start + value
  {}

  /** The fields of a fingerprint command; scanners before 2.2.14 have another table for them. */
  lemma LegacyText(pushVersion: string, t: Template, payload: seq<Byte>)
    requires t.renderer == "finger_legacy"
    ensures LegacyVerb(pushVersion) ==
      if VersionBefore(pushVersion, (2, 2, 14)) then "DATA FP PIN" else "DATA UPDATE FINGERTMP PIN"
    ensures RenderedPairs(pushVersion, t, payload) ==
      [LegacyVerb(pushVersion) + "=" + t.personnelID, "FID=" + Itoa(t.slotIndex), "Size=" + Itoa(|payload|),
       "Valid=" + "1", "TMP=" + Encode(payload)]
  {
    hide VersionBefore, Itoa, Encode;
    var verb := LegacyVerb(pushVersion);
    PairText("FID", "FID=", Itoa(t.slotIndex));
    PairText("Size", "Size=", Itoa(|payload|));
    PairText("Valid", "Valid=", "1");
    PairText("TMP", "TMP=", Encode(payload));
    PairText(verb, verb + "=", t.personnelID);
    hide Pair;
  }

  lemma BiodataText(pushVersion: string, t: Template, payload: seq<Byte>)
    requires t.renderer == "biodata"
    ensures RenderedPairs(pushVersion, t, payload) ==
      ["DATA UPDATE BIODATA Pin=" + t.personnelID, "No=" + Itoa(t.slotIndex), "Type=" + Itoa(t.bioType),
       "MajorVer=" + Itoa(t.algorithmMajor), "MinorVer=" + Itoa(t.algorithmMinor), "Tmp=" + Encode(payload)]
  {
    KindsDiffer();
    BiodataFieldsAre(t.personnelID, Itoa(t.slotIndex), Itoa(t.bioType), Itoa(t.algorithmMajor),
      Itoa(t.algorithmMinor), Encode(payload));
    hide BiodataPairs, Itoa, Encode;
  }

  lemma BiodataFieldsAre(pin: string, slot: string, bioType: string, major: string, minor: string, text: string)
    ensures BiodataPairs(pin, slot, bioType, major, minor, text) ==
      ["DATA UPDATE BIODATA Pin=" + pin, "No=" + slot, "Type=" + bioType, "MajorVer=" + major, "MinorVer=" + minor,
       "Tmp=" + text]
  {
    PairText("DATA UPDATE BIODATA Pin", "DATA UPDATE BIODATA Pin=", pin);
    PairText("No", "No=", slot);
    PairText("Type", "Type=", bioType);
    PairText("MajorVer", "MajorVer=", major);
    PairText("MinorVer", "MinorVer=", minor);
    PairText("Tmp", "Tmp=", text);
    hide Pair;
  }

  lemma PhotoFields(pin: string, slot: string, size: string, text: string)
    ensures PhotoPairs(pin, slot, size, text) ==
      ["DATA UPDATE BIOPHOTO PIN=" + pin, "No=" + slot, "Type=" + "9", "Size=" + size, "Photo=" + text]
  {
    PairText("DATA UPDATE BIOPHOTO PIN", "DATA UPDATE BIOPHOTO PIN=", pin);
    PairText("No", "No=", slot);
    PairText("Type", "Type=", "9");
    PairText("Size", "Size=", size);
    PairText("Photo", "Photo=", text);
    hide Pair;
  }

  lemma PhotoText(pushVersion: string, t: Template, payload: seq<Byte>)
    requires t.renderer == "face_photo"
    ensures RenderedPairs(pushVersion, t, payload) ==
      ["DATA UPDATE BIOPHOTO PIN=" + t.personnelID, "No=" + Itoa(t.slotIndex), "Type=" + "9", "Size=" + Itoa(|payload|),
       "Photo=" + Encode(payload)]
  {
    KindsDiffer();
    PhotoFields(t.personnelID, Itoa(t.slotIndex), Itoa(|payload|), Encode(payload));
    hide PhotoPairs, Itoa, Encode;
  }
}
