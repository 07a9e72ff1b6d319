/** What the cloud answers to a claim, and the checks made before anything is done with it. */
module Claims {
  import opened Identifiers

  const MAX_ALGORITHM_VERSION := 255

  const FINGERPRINT := "fingerprint_template"
  const FACE := "face_template"
  const PHOTO := "face_comparison_photo"

  /** The asset and renderer of a deployment; the delivery token is not part of this model. */
  datatype Deployment = Deployment(
    deploymentID: string,
    deviceSN: string,
    personnelID: string,
    commandID: string,
    renderer: string,
    asset: Asset)

  datatype Asset = Asset(
    kind: string,
    bioType: int,
    slotIndex: int,
    algorithmFamily: string,
    algorithmMajor: int,
    algorithmMinor: int,
    format: string,
    byteCount: int,
    sha256: string)

  datatype Deletion = Deletion(
    operation: string,
    deploymentID: string,
    commandID: string,
    attempt: int,
    leaseExpiresAt: int,
    deviceSN: string,
    personnelID: string,
    vaultAssetID: string,
    kind: string,
    bioType: int,
    slotIndex: int)

  predicate ValidDeployment(claim: Deployment, deploymentID: string, deviceSN: string) {
    && claim.deploymentID == deploymentID
    && claim.deviceSN == deviceSN
    && ValidIdentifier(claim.personnelID)
    && ValidUUID(claim.commandID)
    && claim.renderer in {"finger_legacy", "biodata", "face_photo"}
    && ValidAsset(claim.asset)
  }

  predicate ValidAsset(asset: Asset) {
    && asset.kind in {FINGERPRINT, FACE, PHOTO}
    && (asset.bioType == 1 || asset.bioType == 9)
    && 0 <= asset.slotIndex <= 9
    && 0 <= asset.algorithmMajor <= MAX_ALGORITHM_VERSION
    && 0 <= asset.algorithmMinor <= MAX_ALGORITHM_VERSION
    && asset.byteCount > 0
    && ValidIdentifier(asset.algorithmFamily)
    && ValidIdentifier(asset.format)
    && ValidDigest(asset.sha256)
  }

  predicate ValidDeletion(claim: Deletion, deploymentID: string, deviceSN: string) {
    && claim.operation == "delete"
    && claim.deploymentID == deploymentID
    && claim.deviceSN == deviceSN
    && ValidUUID(claim.commandID)
    && ValidUUID(claim.vaultAssetID)
    && 1 <= claim.attempt <= 5
    && claim.leaseExpiresAt > 0
    && ValidIdentifier(claim.personnelID)
    && 0 <= claim.slotIndex <= 9
    && (if claim.kind == FINGERPRINT then claim.bioType == 1
        else (claim.kind == FACE || claim.kind == PHOTO) && claim.bioType == 9)
  }

  /** sameClaimedBiometricDeletion: everything but the lease. */
  predicate SameDeletion(left: Deletion, right: Deletion) {
    left.(leaseExpiresAt := right.leaseExpiresAt) == right
  }
}
