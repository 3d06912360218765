/** Which bundles the scan can recompute a hash for, and which hash that is. */
module ScanHashes {
  import opened Options
  import opened Tables
  import opened TurnWrites
  import opened LeaseQueue
  import opened Steps
  import opened Runs
  import opened Scan
  import opened ReachableScan

  /** The schemas other than the reservation relay's, with their hash domains. */
  const DOMAINS: map<string, string> := map[
    "phase8-settlement-relay-bundle" := "phase8-settlement-relay-bundle-v1",
    "phase8-handoff-relay-bundle" := "phase8-handoff-relay-bundle-v1",
    "phase8-learning-proposal" := "phase8-learning-proposal-v1",
    "phase8-boundary-internal-job" := "phase8-boundary-internal-job-v1"]

  const RESERVATION := "phase8-reservation-relay-bundle"

  /** The relay bundle `b` is scanned under the hash `h`: a reservation under the
      digest of its body, which it must carry itself, everything else under the
      digest of its whole text, if its schema is known. */
  predicate RelayScans(b: BundleJson, h: Digest) {
    match b
    case ReservationJson(body, claimed) => claimed == h == BundlePreimageDigest("reservation", body)
    case HandoffJson(_, _) => h == BundleTextDigest("phase8-handoff-relay-bundle-v1", b)
    case SchemaJson(schema, _) => schema in DOMAINS && h == BundleTextDigest(DOMAINS[schema], b)
    case NoncanonicalJson(_) => false
  }

  /** An internal job is always scanned under the digest of its whole text. */
  predicate JobScans(b: BundleJson, h: Digest) {
    match b
    case ReservationJson(_, _) => h == BundleTextDigest("phase8-reservation-relay-bundle-v1", b)
    case HandoffJson(_, _) => h == BundleTextDigest("phase8-handoff-relay-bundle-v1", b)
    case SchemaJson(schema, _) =>
      || (schema == RESERVATION && h == BundleTextDigest("phase8-reservation-relay-bundle-v1", b))
      || (schema in DOMAINS && h == BundleTextDigest(DOMAINS[schema], b))
    case NoncanonicalJson(_) => false
  }

  lemma DomainsAre(schema: string)
    ensures schema in SCHEMAS <==> schema == RESERVATION || schema in DOMAINS
    ensures RESERVATION !in DOMAINS && RESERVATION_SCHEMA == RESERVATION
    ensures schema in DOMAINS ==> schema + "-v1" == DOMAINS[schema]
    ensures RESERVATION + "-v1" == "phase8-reservation-relay-bundle-v1"
    ensures HANDOFF_SCHEMA in DOMAINS && HANDOFF_SCHEMA + "-v1" == "phase8-handoff-relay-bundle-v1"
  {
    assert RESERVATION[7] == 'r' && "phase8-settlement-relay-bundle"[7] == 's' && "phase8-handoff-relay-bundle"[7] == 'h'
           && "phase8-learning-proposal"[7] == 'l' && "phase8-boundary-internal-job"[7] == 'b';
  }

  /** What the scan recomputes, for every bundle. */
  lemma RelayHashIs(b: BundleJson, h: Digest)
    ensures RelayScanHash(b) == Some(h) <==> RelayScans(b, h)
  {
    DomainsAre(if b.SchemaJson? then b.schema else "");
  }

  lemma JobHashIs(b: BundleJson, h: Digest)
    ensures JobScanHash(b) == Some(h) <==> JobScans(b, h)
  {
    DomainsAre(if b.SchemaJson? then b.schema else "");
  }

  /** Every relay that a worker can claim scans, under the hash it was claimed with;
      and of the reservation bundles no other does. */
  lemma ClaimableRelayScans(b: BundleJson, h: Digest)
    ensures HashRefusal(ReservationBundleHash(b), h).None? ==> RelayScanHash(b) == Some(h)
    ensures b.ReservationJson? && RelayScanHash(b) == Some(h) ==> HashRefusal(ReservationBundleHash(b), h).None?
  {
    RelayHashIs(b, h);
  }

  /** The hash of a bundle identifies it: the scan notices every change of its text. */
  lemma ScannedHashIdentifies(b: BundleJson, d: BundleJson, h: Digest)
    ensures RelayScanHash(b) == Some(h) && RelayScanHash(d) == Some(h) ==> b == d
    ensures JobScanHash(b) == Some(h) && JobScanHash(d) == Some(h) ==> b == d
  {
    RelayHashIs(b, h);
    RelayHashIs(d, h);
    JobHashIs(b, h);
    JobHashIs(d, h);
  }

  predicate BundlesScan(w: TurnWrite) {
    && (forall i: nat :: i < |w.relays| ==> RelayScans(w.relays[i].bundle, w.relays[i].bundleHash))
    && (forall i: nat :: i < |w.jobs| ==> JobScans(w.jobs[i].bundle, w.jobs[i].artifactHash))
  }

  lemma HashesScanIs(w: TurnWrite)
    ensures HashesScan(w) <==> BundlesScan(w)
  {
    forall i: nat | i < |w.relays|
      ensures RelayScanHash(w.relays[i].bundle) == Some(w.relays[i].bundleHash) <==>
                RelayScans(w.relays[i].bundle, w.relays[i].bundleHash)
    {
      RelayHashIs(w.relays[i].bundle, w.relays[i].bundleHash);
    }
    forall i: nat | i < |w.jobs|
      ensures JobScanHash(w.jobs[i].bundle) == Some(w.jobs[i].artifactHash) <==>
                JobScans(w.jobs[i].bundle, w.jobs[i].artifactHash)
    {
      JobHashIs(w.jobs[i].bundle, w.jobs[i].artifactHash);
    }
  }

  /** The store a run reaches is well formed exactly when each of its commits carried,
      for every relay and job, the digest stated above. */
  lemma ReachableStoreScansByHash(ws: seq<World>, steps: seq<Step>, j: nat)
    requires Run(ws, steps) && j < |ws|
    ensures WellFormed(ws[j].db) <==> forall i: nat, w :: i < j && Happens(ws, i, Advanced(w)) ==> BundlesScan(w)
  {
    ReachableStoreScans(ws, steps, j);
    forall i: nat, w | i < j && Happens(ws, i, Advanced(w)) ensures HashesScan(w) <==> BundlesScan(w) { HashesScanIs(w); }
  }
}
