/**
 The manifest gate of a replay: what an executor signs about a finished task, and what
 the scheduler demands of it before it skips that task in a replay.
*/
module ManifestEvidence {
  import opened KeyOrder
  import opened ManifestKeys
  import opened ReplayGate
  import opened TaskPlan
  import opened Text
  import opened Wrappers

  /** An entry of a manifest's artifact list; path and URI are the empty text where they are missing. */
  datatype Artifact = Artifact(path: string, uri: string) | NotAnObject

  datatype Artifacts = ArtifactList(items: seq<Artifact>) | NotAList

  datatype Attempt = Count(n: int) | NotAnInteger

  /** The payload as the scheduler reads it; each of its entries may be missing. */
  datatype Payload = Payload(
    runId: Option<JsonVal>,
    taskId: Option<JsonVal>,
    status: Option<JsonVal>,
    pipelineId: Option<JsonVal>,
    attempt: Option<Attempt>,
    artifacts: Option<Artifacts>,
    lineageIsObject: Option<bool>,
    finishedAt: Option<JsonVal>)

  datatype Stored = Stored(algorithm: string, signature: Signature, payload: Payload)

  /** The canonical text that is signed. */
  type Canonical = Payload -> string

  function FullId(run: string, key: Key): string {
    run + ":" + key
  }

  function Upper(s: string): string {
    if s == "" then "" else [if 'a' <= s[0] <= 'z' then s[0] - 'a' + 'A' else s[0]] + Upper(s[1..])
  }

  // ----- the executor -----

  /** `_build_manifest_payload`; `artifacts` and `lineageIsObject` are what the plugin reported. */
  function BuildPayload(run: string, taskId: string, pipelineId: JsonVal, attempt: int, ok: bool, artifacts: Artifacts, now: string): Payload {
    Payload(Some(JText(run)), Some(JText(taskId)), Some(JText(if ok then "SUCCESS" else "FAILED")), Some(pipelineId), Some(Count(attempt)),
            Some(if artifacts.NotAList? then ArtifactList([]) else artifacts), Some(true), Some(JText(now)))
  }

  /** `_post_manifest`: nothing is posted when signing fails. */
  function PostManifest(signer: Env, hmac: Hmac, canonical: Canonical, p: Payload): Option<Stored> {
    var sig := Sign(signer, hmac, canonical(p));
    if sig.Err? then None else Some(Stored("hmac-sha256", sig.value, p))
  }

  // ----- the scheduler -----

  predicate HasPath(item: Artifact) {
    item.Artifact? && Strip(item.path) != ""
  }

  /** `_manifest_payload_valid_for_task`. */
  method PayloadValidForTask(parent: string, key: Key, p: Payload) returns (valid: bool)
    ensures valid == PayloadValid(parent, key, p)
  {
    if p.runId.None? || p.taskId.None? || p.status.None? || p.pipelineId.None? || p.attempt.None? || p.artifacts.None?
       || p.lineageIsObject.None? || p.finishedAt.None?
    {
      return false;
    }
    if p.runId.value.Str() != parent || p.taskId.value.Str() != FullId(parent, key) || Upper(p.status.value.Str()) != "SUCCESS" {
      return false;
    }
    if p.attempt.value.NotAnInteger? || p.attempt.value.n < 1 || p.artifacts.value.NotAList? {
      return false;
    }
    var items := p.artifacts.value.items;
    for i := 0 to |items|
      invariant forall j :: 0 <= j < i ==> HasPath(items[j])
    {
      if items[i].NotAnObject? || Strip(items[i].path) == "" {
        assert items[i] in items;
        return false;
      }
    }
    valid := p.lineageIsObject.value && Strip(p.finishedAt.value.Str()) != "";
  }

  predicate PayloadValid(parent: string, key: Key, p: Payload) {
    && p.runId.Some? && p.taskId.Some? && p.status.Some? && p.pipelineId.Some? && p.attempt.Some?
    && p.artifacts.Some? && p.lineageIsObject.Some? && p.finishedAt.Some?
    && p.runId.value.Str() == parent
    && p.taskId.value.Str() == FullId(parent, key)
    && Upper(p.status.value.Str()) == "SUCCESS"
    && p.attempt.value.Count? && p.attempt.value.n >= 1
    && p.artifacts.value.ArtifactList? && (forall item :: item in p.artifacts.value.items ==> HasPath(item))
    && p.lineageIsObject.value
    && Strip(p.finishedAt.value.Str()) != ""
  }

  /** Python's `marker in blob` on strings. */
  predicate Within(marker: string, blob: string) {
    marker <= blob || (blob != "" && Within(marker, blob[1..]))
  }

  /** Some artifact names the marker in its path or its URI. */
  predicate Covers(items: seq<Artifact>, marker: string) {
    exists item :: item in items && item.Artifact? && (Within(marker, item.path) || Within(marker, item.uri))
  }

  predicate Satisfies(p: Payload, required: seq<string>) {
    required == [] ||
    (p.artifacts.Some? && p.artifacts.value.ArtifactList? && forall marker :: marker in required ==> Covers(p.artifacts.value.items, marker))
  }

  /** `_manifest_satisfies_required_artifacts`: first all paths and URIs are collected, then every marker is looked for. */
  method SatisfiesRequiredArtifacts(p: Payload, required: seq<string>) returns (ok: bool)
    ensures ok == Satisfies(p, required)
  {
    if required == [] {
      return true;
    }
    if p.artifacts.None? || p.artifacts.value.NotAList? {
      return false;
    }
    var blobs := CollectBlobs(p.artifacts.value.items);
    for i := 0 to |required|
      invariant forall j :: 0 <= j < i ==> Covers(p.artifacts.value.items, required[j])
    {
      if !exists blob :: blob in blobs && Within(required[i], blob) {
        assert required[i] in required && !Covers(p.artifacts.value.items, required[i]);
        return false;
      }
    }
    ok := true;
  }

  method CollectBlobs(items: seq<Artifact>) returns (blobs: seq<string>)
    ensures forall blob :: blob in blobs <==> exists item :: item in items && item.Artifact? && (blob == item.path || blob == item.uri)
  {
    blobs := [];
    for i := 0 to |items|
      invariant forall blob :: blob in blobs <==>
                  exists item :: item in items[..i] && item.Artifact? && (blob == item.path || blob == item.uri)
    {
      assert items[..i + 1] == items[..i] + [items[i]];
      if items[i].Artifact? {
        blobs := blobs + [items[i].path] + [items[i].uri];
      }
    }
    assert items[..|items|] == items;
  }

  /** `_required_artifacts_for_task`: the first entry with the task's id counts. */
  function RequiredArtifacts(items: seq<TaskItem>, key: Key): seq<string> {
    if items == [] then []
    else if items[0].TaskItem? && Strip(items[0].id) == key then CleanNames(items[0].requiredArtifacts)
    else RequiredArtifacts(items[1..], key)
  }

  /** The manifest part of the gate. */
  predicate ManifestOk(env: Env, hmac: Hmac, canonical: Canonical, parent: string, key: Key, stored: Option<Stored>, required: seq<string>) {
    && stored.Some?
    && stored.value.algorithm == "hmac-sha256"
    && Verify(env, hmac, stored.value.signature, canonical(stored.value.payload))
    && PayloadValid(parent, key, stored.value.payload)
    && Satisfies(stored.value.payload, required)
  }

  /** What the protocol's gate is given: the keys whose manifests pass. */
  function WithManifests(g: GateInputs, env: Env, hmac: Hmac, canonical: Canonical, parent: string,
                         manifests: map<Key, Stored>, items: seq<TaskItem>): GateInputs {
    g.(manifest := set k | k in manifests &&
         ManifestOk(env, hmac, canonical, parent, k, Some(manifests[k]), RequiredArtifacts(items, k)))
  }

  /** The fourth gate is the manifest: a task that passes the other three is skipped iff its manifest passes. */
  lemma GateChecksManifest(g: GateInputs, env: Env, hmac: Hmac, canonical: Canonical, parent: string,
                           manifests: map<Key, Stored>, items: seq<TaskItem>, parentSuccess: set<Key>, key: Key)
    requires g.requireSigned && forall i :: 0 <= i < 3 ==> Passes(g, parentSuccess, key, GATES[i])
    ensures var gate := WithManifests(g, env, hmac, canonical, parent, manifests, items);
      var stored := if key in manifests then Some(manifests[key]) else None;
      GateFailure(gate, parentSuccess, key).None?
      <==> ManifestOk(env, hmac, canonical, parent, key, stored, RequiredArtifacts(items, key))
  {
    hide Verify, PayloadValid, Satisfies, RequiredArtifacts;
    var gate := WithManifests(g, env, hmac, canonical, parent, manifests, items);
    assert GATES[0] == MissingParentSuccess && GATES[1] == MissingArtifactEvidence;
    assert GATES[2] == MissingChecksumEvidence;
    assert Passes(g, parentSuccess, key, GATES[0]) && Passes(g, parentSuccess, key, GATES[1]) && Passes(g, parentSuccess, key, GATES[2]);
  }

  // ----- from the executor to the gate -----

  lemma UpperOfStatus()
    ensures Upper("SUCCESS") == "SUCCESS" && Upper("FAILED") != "SUCCESS"
  {
    assert Upper("FAILED")[0] == 'F';
    assert Upper("S") == "S" && "SS"[1..] == "S" && "ESS"[1..] == "SS" && "CESS"[1..] == "ESS";
    assert "CCESS"[1..] == "CESS" && "UCCESS"[1..] == "CCESS" && "SUCCESS"[1..] == "UCCESS";
    assert Upper("SS") == "SS" && Upper("ESS") == "ESS" && Upper("CESS") == "CESS" && Upper("CCESS") == "CCESS";
  }

  /** A manifest is evidence for one task only. */
  lemma PayloadNamesOneTask(p: Payload, run: string, key: Key, other: string, otherKey: Key)
    requires PayloadValid(run, key, p) && PayloadValid(other, otherKey, p)
    ensures run == other && key == otherKey
  {
    assert FullId(run, key)[|run| + 1..] == key && FullId(run, otherKey)[|run| + 1..] == otherKey;
  }

  /** The marker is a part of the text. */
  ghost predicate IsPart(marker: string, blob: string) {
    exists a, b :: blob == a + marker + b
  }

  lemma {:induction false} WithinIsPart(marker: string, blob: string)
    requires Within(marker, blob)
    ensures IsPart(marker, blob)
    decreases |blob|
  {
    if marker <= blob {
      assert blob == "" + marker + blob[|marker|..];
    } else {
      WithinIsPart(marker, blob[1..]);
      var a, b :| blob[1..] == a + marker + b;
      assert blob == ([blob[0]] + a) + marker + b;
    }
  }

  lemma {:induction false} PartIsWithin(a: string, marker: string, b: string)
    ensures Within(marker, a + marker + b)
    decreases |a|
  {
    if a == "" {
      assert (a + marker + b)[..|marker|] == marker;
    } else {
      PartIsWithin(a[1..], marker, b);
      assert (a + marker + b)[1..] == a[1..] + marker + b;
    }
  }

  lemma WithinIff(marker: string, blob: string)
    ensures Within(marker, blob) <==> IsPart(marker, blob)
  {
    hide Within;
    if Within(marker, blob) {
      WithinIsPart(marker, blob);
    }
    if a, b :| blob == a + marker + b {
      PartIsWithin(a, marker, b);
    }
  }

  /** The marker is part of the path or URI of an artifact. */
  ghost predicate IsNamed(items: seq<Artifact>, marker: string) {
    exists item :: item in items && item.Artifact? && (IsPart(marker, item.path) || IsPart(marker, item.uri))
  }

  lemma CoversIff(items: seq<Artifact>, marker: string)
    ensures Covers(items, marker) <==> IsNamed(items, marker)
  {
    hide Within, IsPart;
    forall item | item in items && item.Artifact?
      ensures Within(marker, item.path) <==> IsPart(marker, item.path)
      ensures Within(marker, item.uri) <==> IsPart(marker, item.uri)
    {
      WithinIff(marker, item.path);
      WithinIff(marker, item.uri);
    }
  }

  /**
   The manifest that an executor builds, signs and posts for a task of some run passes the
   gate of a replay for a task of a parent run, whatever HMAC is, exactly when it could be
   signed, is about that very task, the task succeeded, every artifact it reported has a
   path, the required markers occur among them, and the key it was signed with is still
   allowed and known.
  */
  lemma ExecutorManifestPassesIff(
      signer: Env, env: Env, canonical: Canonical, run: string, key: Key, parent: string, asked: Key, pipelineId: JsonVal,
      attempt: int, ok: bool, artifacts: Artifacts, now: string, required: seq<string>)
    ensures var p := BuildPayload(run, run + ":" + key, pipelineId, attempt, ok, artifacts, now);
      var items := if artifacts.NotAList? then [] else artifacts.items;
      (forall hmac: Hmac :: ManifestOk(env, hmac, canonical, parent, asked, PostManifest(signer, hmac, canonical, p), required))
      <==>
        && SigningKey(signer).Ok?
        && run == parent && key == asked
        && ok && attempt >= 1 && Strip(now) != ""
        && (forall item :: item in items ==> item.Artifact? && Strip(item.path) != "")
        && (forall marker :: marker in required ==> IsNamed(items, marker))
        && Allowed(env, ActiveKeyId(signer))
        && KeepsKey(env, ActiveKeyId(signer), SigningKey(signer).value)
  {
    hide Covers, IsNamed, KeepsKey, Verify, SigningKey, ActiveKeyId, AllowedKeyIds, Strip, Upper, BuildPayload;
    var p := BuildPayload(run, FullId(run, key), pipelineId, attempt, ok, artifacts, now);
    PayloadPassesIff(run, key, parent, asked, pipelineId, attempt, ok, artifacts, now, required);
    PostedPassesIff(signer, env, canonical, parent, asked, p, required);
    if SigningKey(signer).Ok? {
      AcceptedLaterIff(signer, env, canonical(p));
    }
  }

  lemma PayloadPassesIff(run: string, key: Key, parent: string, asked: Key, pipelineId: JsonVal, attempt: int, ok: bool,
                         artifacts: Artifacts, now: string, required: seq<string>)
    ensures var p := BuildPayload(run, FullId(run, key), pipelineId, attempt, ok, artifacts, now);
      var items := if artifacts.NotAList? then [] else artifacts.items;
      && (PayloadValid(parent, asked, p) <==>
           && run == parent && key == asked && ok && attempt >= 1 && Strip(now) != ""
           && forall item :: item in items ==> item.Artifact? && Strip(item.path) != "")
      && (Satisfies(p, required) <==> forall marker :: marker in required ==> IsNamed(items, marker))
  {
    hide Covers, IsNamed, Strip, Upper;
    UpperOfStatus();
    SameTask(run, key, asked);
    forall items, marker {
      CoversIff(items, marker);
    }
  }

  lemma SameTask(run: string, key: Key, asked: Key)
    ensures FullId(run, key) == FullId(run, asked) <==> key == asked
  {
    assert FullId(run, key)[|run| + 1..] == key && FullId(run, asked)[|run| + 1..] == asked;
  }

  /** Whatever else it says, a manifest is refused if it is missing, of another algorithm, incomplete, or malformed. */
  lemma DefectsAreRefused(env: Env, hmac: Hmac, canonical: Canonical, parent: string, key: Key, stored: Option<Stored>,
                          required: seq<string>)
    requires ManifestOk(env, hmac, canonical, parent, key, stored, required)
    ensures stored.Some? && stored.value.algorithm == "hmac-sha256"
    ensures var p := stored.value.payload;
      && p.runId.Some? && p.taskId.Some? && p.status.Some? && p.pipelineId.Some? && p.attempt.Some?
      && p.artifacts.Some? && p.lineageIsObject == Some(true) && p.finishedAt.Some?
      && p.attempt.value.Count? && p.artifacts.value.ArtifactList?
  {
    hide Verify, Satisfies;
  }

  lemma UpperIs(s: string)
    ensures |Upper(s)| == |s|
    ensures forall i :: 0 <= i < |s| ==> Upper(s)[i] == if 'a' <= s[i] <= 'z' then s[i] - 'a' + 'A' else s[i]
  {
  }

  /** The reported status may be written in any case, and must be SUCCESS. */
  lemma StatusInAnyCase(parent: string, key: Key, p: Payload, status: string)
    requires p.status == Some(JText(status))
    ensures PayloadValid(parent, key, p) <==>
      && PayloadValid(parent, key, p.(status := Some(JText("SUCCESS"))))
      && |status| == 7 && forall i :: 0 <= i < 7 ==> status[i] in {"SUCCESS"[i], "success"[i]}
  {
    UpperOfStatus();
    UpperIs(status);
    hide Upper, Strip;
    if |status| == 7 && forall i :: 0 <= i < 7 ==> status[i] in {"SUCCESS"[i], "success"[i]} {
      assert Upper(status) == "SUCCESS";
    }
  }

  /** The markers required of a task are those of the first entry that names it, cleaned. */
  lemma {:induction false} RequiredByFirst(items: seq<TaskItem>, key: Key, i: nat)
    requires i <= |items| && forall j :: 0 <= j < i ==> items[j].NotAnObject? || Strip(items[j].id) != key
    requires i < |items| ==> items[i].TaskItem? && Strip(items[i].id) == key
    ensures i == |items| ==> RequiredArtifacts(items, key) == []
    ensures i < |items| ==> AreCleaned(items[i].requiredArtifacts, RequiredArtifacts(items, key))
    decreases i
  {
    hide Strip, AreCleaned;
    if i > 0 {
      RequiredByFirst(items[1..], key, i - 1);
    } else if items != [] {
      CleanNamesAre(items[0].requiredArtifacts);
    }
  }

  /** What HMAC contributes to the gate, apart from what the payload says. */
  lemma PostedPassesIff(signer: Env, env: Env, canonical: Canonical, run: string, key: Key, p: Payload, required: seq<string>)
    ensures (forall hmac: Hmac :: ManifestOk(env, hmac, canonical, run, key, PostManifest(signer, hmac, canonical, p), required))
      <==>
        && SigningKey(signer).Ok?
        && (forall hmac: Hmac :: Verify(env, hmac, Sign(signer, hmac, canonical(p)).value, canonical(p)))
        && PayloadValid(run, key, p) && Satisfies(p, required)
  {
    hide Verify, SigningKey, ActiveKeyId, PayloadValid, Satisfies;
    forall hmac: Hmac
      ensures ManifestOk(env, hmac, canonical, run, key, PostManifest(signer, hmac, canonical, p), required)
              <==> SigningKey(signer).Ok? && Verify(env, hmac, Sign(signer, hmac, canonical(p)).value, canonical(p))
                   && PayloadValid(run, key, p) && Satisfies(p, required)
    {
    }
    var some := (k: string, m: string) => k;
    assert ManifestOk(env, some, canonical, run, key, PostManifest(signer, some, canonical, p), required) ==>
             SigningKey(signer).Ok? && PayloadValid(run, key, p) && Satisfies(p, required);
  }

  /** Under one strict and clean configuration only the task's own report counts. */
  lemma UnchangedKeysSuffice(env: Env, hmac: Hmac, canonical: Canonical, run: string, key: Key, pipelineId: JsonVal,
                             attempt: int, artifacts: seq<Artifact>, now: string, required: seq<string>)
    requires env.strict && Clean(env) && SigningKey(env).Ok? && attempt >= 1 && Strip(now) != ""
    requires forall item :: item in artifacts ==> item.Artifact? && Strip(item.path) != ""
    requires forall marker :: marker in required ==> IsNamed(artifacts, marker)
    ensures var p := BuildPayload(run, run + ":" + key, pipelineId, attempt, true, ArtifactList(artifacts), now);
      ManifestOk(env, hmac, canonical, run, key, PostManifest(env, hmac, canonical, p), required)
  {
    hide Covers, IsNamed, Verify, SigningKey, ActiveKeyId, Strip, Clean, BuildPayload;
    var p := BuildPayload(run, FullId(run, key), pipelineId, attempt, true, ArtifactList(artifacts), now);
    CleanIsAccepted(env, hmac, canonical(p));
    PayloadPassesIff(run, key, run, key, pipelineId, attempt, true, ArtifactList(artifacts), now, required);
  }
}
