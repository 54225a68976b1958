/**
 The evidence gates of a replay run: which upstream tasks may be taken over from
 the parent run without executing them (`_init_replay_tasks_with_gating`).
*/
module ReplayGate {
  import opened KeyOrder
  import opened Wrappers

  /**
   What the gate reads besides the parent's task rows. `artifact`, `checksum` and
   `manifest` hold the keys for which the parent run has artifact evidence, a
   checksummed output, and a manifest that verifies and fits the task.
  */
  datatype GateInputs = GateInputs(
    requireEvidence: bool,
    requireChecksum: bool,
    requireSigned: bool,
    artifact: set<Key>,
    checksum: set<Key>,
    manifest: set<Key>)

  datatype GateReason =
    | MissingParentSuccess
    | MissingArtifactEvidence
    | MissingChecksumEvidence
    | MissingOrInvalidManifest

  /** The reason a skipped task is refused, or None when it may be skipped. */
  function GateFailure(g: GateInputs, parentSuccess: set<Key>, key: Key): Option<GateReason> {
    var successOk := key in parentSuccess;
    var artifactOk := !g.requireEvidence || key in g.artifact;
    var checksumOk := !g.requireChecksum || key in g.checksum;
    var manifestOk := !g.requireSigned || key in g.manifest;
    if successOk && artifactOk && checksumOk && manifestOk then None
    else if successOk && g.requireEvidence && !artifactOk then Some(MissingArtifactEvidence)
    else if successOk && artifactOk && g.requireChecksum && !checksumOk then Some(MissingChecksumEvidence)
    else if successOk && artifactOk && checksumOk && g.requireSigned && !manifestOk then Some(MissingOrInvalidManifest)
    else Some(MissingParentSuccess)
  }

  // ----- reference definition: four gates in a row -----

  const GATES: seq<GateReason> :=
    [MissingParentSuccess, MissingArtifactEvidence, MissingChecksumEvidence, MissingOrInvalidManifest]

  predicate Passes(g: GateInputs, parentSuccess: set<Key>, key: Key, gate: GateReason) {
    match gate
    case MissingParentSuccess => key in parentSuccess
    case MissingArtifactEvidence => g.requireEvidence ==> key in g.artifact
    case MissingChecksumEvidence => g.requireChecksum ==> key in g.checksum
    case MissingOrInvalidManifest => g.requireSigned ==> key in g.manifest
  }

  ghost predicate FirstFailing(g: GateInputs, parentSuccess: set<Key>, key: Key, i: nat) {
    && i < |GATES|
    && !Passes(g, parentSuccess, key, GATES[i])
    && forall j :: 0 <= j < i ==> Passes(g, parentSuccess, key, GATES[j])
  }

  /** The reason recorded is the first gate, in order, that the task does not pass. */
  lemma GateFailureIsFirst(g: GateInputs, parentSuccess: set<Key>, key: Key)
    ensures GateFailure(g, parentSuccess, key).None?
            <==> forall i :: 0 <= i < |GATES| ==> Passes(g, parentSuccess, key, GATES[i])
    ensures forall i :: 0 <= i < |GATES| ==>
              (GateFailure(g, parentSuccess, key) == Some(GATES[i]) <==> FirstFailing(g, parentSuccess, key, i))
    ensures Passes(g, parentSuccess, key, MissingParentSuccess) <==> key in parentSuccess
    ensures Passes(g, parentSuccess, key, MissingArtifactEvidence) <==> !g.requireEvidence || key in g.artifact
    ensures Passes(g, parentSuccess, key, MissingChecksumEvidence) <==> !g.requireChecksum || key in g.checksum
    ensures Passes(g, parentSuccess, key, MissingOrInvalidManifest) <==> !g.requireSigned || key in g.manifest
    ensures GATES == [MissingParentSuccess, MissingArtifactEvidence, MissingChecksumEvidence, MissingOrInvalidManifest]
  {
    var failed := GateFailure(g, parentSuccess, key);
    assert GATES[0] == MissingParentSuccess && GATES[1] == MissingArtifactEvidence;
    assert GATES[2] == MissingChecksumEvidence && GATES[3] == MissingOrInvalidManifest;
  }
}
