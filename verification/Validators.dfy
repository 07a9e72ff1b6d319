/** What the validators let through, in the terms of a caller. */
module Validators {
  import opened Identifiers
  import opened Claims
  import opened ResultOutbox
  import opened Lifecycle

  // ---------- strings ----------

  predicate Hex(g: string, length: nat) {
    |g| == length && forall k | 0 <= k < |g| :: '0' <= g[k] <= '9' || 'a' <= g[k] <= 'f'
  }

  /** The five groups of a UUID: the version leads the third and the variant the fourth. */
  predicate Groups(a: string, b: string, c: string, d: string, e: string) {
    && Hex(a, 8) && Hex(b, 4) && Hex(c, 4) && Hex(d, 4) && Hex(e, 12)
    && '1' <= c[0] <= '5' && (d[0] == '8' || d[0] == '9' || d[0] == 'a' || d[0] == 'b')
  }

  function Dashed(a: string, b: string, c: string, d: string, e: string): string {
    a + ['-'] + b + ['-'] + c + ['-'] + d + ['-'] + e
  }

  lemma GroupsAreValid(a: string, b: string, c: string, d: string, e: string)
    requires Groups(a, b, c, d, e)
    ensures ValidUUID(Dashed(a, b, c, d, e))
  {
    var s := Dashed(a, b, c, d, e);
    forall i | 0 <= i < 36 ensures UUIDCharAt(i, s[i]) {
      if i < 8 { assert s[i] == a[i]; }
      else if 9 <= i < 13 { assert s[i] == b[i - 9]; }
      else if 14 <= i < 18 { assert s[i] == c[i - 14]; }
      else if 19 <= i < 23 { assert s[i] == d[i - 19]; }
      else if 24 <= i { assert s[i] == e[i - 24]; }
    }
  }

  lemma ValidHasGroups(s: string)
    requires ValidUUID(s)
    ensures Groups(s[..8], s[9..13], s[14..18], s[19..23], s[24..])
    ensures s == Dashed(s[..8], s[9..13], s[14..18], s[19..23], s[24..])
  {
    assert forall i | 0 <= i < 36 :: UUIDCharAt(i, s[i]);
    assert s[8] == '-' && s[13] == '-' && s[18] == '-' && s[23] == '-';
  }

  /** The valid ids are exactly the lower-case UUIDs of version 1 to 5. */
  lemma UUIDsAre(s: string)
    ensures ValidUUID(s) <==> exists a, b, c, d, e :: Groups(a, b, c, d, e) && s == Dashed(a, b, c, d, e)
  {
    if ValidUUID(s) {
      ValidHasGroups(s);
      hide Groups, Dashed, ValidUUID;
    } else {
      forall a, b, c, d, e | Groups(a, b, c, d, e) ensures s != Dashed(a, b, c, d, e) { GroupsAreValid(a, b, c, d, e); }
      hide Groups, Dashed, ValidUUID;
    }
  }

  /** Identifiers have 1 to 64 letters, digits, dots, underscores and dashes; digests are 64 lower-case hexadecimal
      digits; error codes have 1 to 64 lower-case letters, digits and underscores. */
  lemma NamesAre(s: string)
    ensures ValidIdentifier(s) <==> 1 <= |s| <= 64 && forall c | c in s ::
      '0' <= c <= '9' || 'a' <= c <= 'z' || 'A' <= c <= 'Z' || c == '.' || c == '_' || c == '-'
    ensures ValidDigest(s) <==> Hex(s, 64)
    ensures ValidErrorCode(s) <==> 1 <= |s| <= 64 && forall c | c in s :: 'a' <= c <= 'z' || '0' <= c <= '9' || c == '_'
  {
    assert forall k | 0 <= k < |s| :: s[k] in s;
  }

  // ---------- claims ----------

  /** A process takes exactly the claims for its own command, on a valid device and deployment: an asset with a
      known renderer, kind, slot and version, or a deletion whose lease still runs. */
  lemma ClaimsAreTakenExactly(s: System, c: string, claim: CloudClaim)
    requires InStage(s, c) && s.owner[c].stage.Started?
    ensures ProcessEnabled(s, c, CloudClaims(claim)) <==>
      match claim
      case ToDeploy(d) =>
        && d.commandID == c && ValidUUID(c) && ValidUUID(d.deploymentID)
        && ValidIdentifier(d.deviceSN) && ValidIdentifier(d.personnelID)
        && (d.renderer == "finger_legacy" || d.renderer == "biodata" || d.renderer == "face_photo")
        && (d.asset.kind == "fingerprint_template" || d.asset.kind == "face_template"
            || d.asset.kind == "face_comparison_photo")
        && (d.asset.bioType == 1 || d.asset.bioType == 9) && 0 <= d.asset.slotIndex <= 9
        && 0 <= d.asset.algorithmMajor <= 255 && 0 <= d.asset.algorithmMinor <= 255 && d.asset.byteCount > 0
        && ValidIdentifier(d.asset.algorithmFamily) && ValidIdentifier(d.asset.format) && ValidDigest(d.asset.sha256)
      case ToDelete(d) =>
        && d.commandID == c && ValidUUID(c) && ValidUUID(d.deploymentID) && ValidUUID(d.vaultAssetID)
        && ValidIdentifier(d.deviceSN) && ValidIdentifier(d.personnelID)
        && d.operation == "delete" && 1 <= d.attempt <= 5 && 0 <= d.slotIndex <= 9
        && d.leaseExpiresAt > 0 && d.leaseExpiresAt > s.now
        && ((d.kind == "fingerprint_template" && d.bioType == 1)
            || ((d.kind == "face_template" || d.kind == "face_comparison_photo") && d.bioType == 9))
  {
    hide ValidUUID, ValidIdentifier, ValidDigest;
  }

  // ---------- results ----------

  /** The four shapes of a result that the outbox stores: a deployment or a deletion, applied or failed. */
  lemma ResultsAre(r: Result)
    ensures ValidResult(r) <==>
      && ValidUUID(r.commandID) && ValidIdentifier(r.deviceSN) && -0x8000_0000 <= r.returnCode <= 0x7fff_ffff
      && (|| (r.operation == "" && r.attempt == 0 && r.vaultAssetID == "" && r.status == "applied"
              && r.errorCode == "" && ValidDigest(r.sha256))
          || (r.operation == "" && r.attempt == 0 && r.vaultAssetID == "" && r.status == "failed"
              && ValidErrorCode(r.errorCode) && (r.sha256 == "" || ValidDigest(r.sha256)))
          || (r.operation == "delete" && 1 <= r.attempt <= 5 && ValidUUID(r.vaultAssetID) && r.sha256 == ""
              && r.status == "applied" && r.returnCode == 0 && r.errorCode == "")
          || (r.operation == "delete" && 1 <= r.attempt <= 5 && ValidUUID(r.vaultAssetID) && r.sha256 == ""
              && r.status == "failed" && (ValidErrorCode(r.errorCode) || (r.errorCode == "" && r.returnCode != 0))))
  {
    assert "applied"[0] == 'a' && "failed"[0] == 'f' && |"delete"| == 6;
    if r.errorCode == "" { assert !ValidErrorCode(r.errorCode); }
    hide ValidUUID, ValidIdentifier, ValidDigest, ValidErrorCode;
  }
}
