/**
 The Certificate kept for a publication: the spec a publication maps to, the
 check that an existing Certificate has drifted from it, and what repairing the
 drift by a JSON Merge Patch (RFC 7396) comes to.
 */
module CertManager {
  import opened Wrappers

  datatype Json =
    | Null
    | Bool(bit: bool)
    | Number(number: real)
    | Text(text: string)
    | Array(items: seq<Json>)
    | Obj(members: map<string, Json>)

  /** A dictionary's `get`: Python's None and JSON's null are one value. */
  function Get(members: map<string, Json>, key: string): Json {
    if key in members then members[key] else Null
  }

  // -- The desired spec -----------------------------------------------------------------

  const PASSTHROUGH: seq<string> := ["commonName", "duration", "renewBefore", "usages", "privateKey"]

  /** Every managed field, and where its value comes from. */
  function CertificateSpec(spec: map<string, Json>, secretName: string): map<string, Json>
    requires "dnsNames" in spec && "issuerRef" in spec
  {
    map key | key in {"secretName", "dnsNames", "issuerRef"} + (set k | k in PASSTHROUGH && k in spec) ::
      if key == "secretName" then Text(secretName) else spec[key]
  }

  /** The field of the publication is one the Certificate takes over as it is. */
  predicate PassedOn(spec: map<string, Json>, key: string) {
    && key in spec
    && (key == "commonName" || key == "duration" || key == "renewBefore" || key == "usages" || key == "privateKey")
  }

  method BuildCertificateSpec(spec: map<string, Json>, secretName: string) returns (cert: map<string, Json>)
    requires "dnsNames" in spec && "issuerRef" in spec
    ensures cert == CertificateSpec(spec, secretName)
  {
    cert := map["secretName" := Text(secretName), "dnsNames" := spec["dnsNames"], "issuerRef" := spec["issuerRef"]];
    for i := 0 to |PASSTHROUGH|
      invariant forall key :: key in cert <==>
        key in {"secretName", "dnsNames", "issuerRef"} || (key in PASSTHROUGH[..i] && key in spec)
      invariant forall key | key in cert :: cert[key] == if key == "secretName" then Text(secretName) else spec[key]
    {
      var key := PASSTHROUGH[i];
      if key in spec {
        cert := cert[key := spec[key]];
      }
    }
  }

  /** The fields of a Certificate's spec, one by one. */
  lemma SpecFields(spec: map<string, Json>, secretName: string)
    requires "dnsNames" in spec && "issuerRef" in spec
    ensures var cert := CertificateSpec(spec, secretName);
      && (forall key :: key in cert <==> key == "secretName" || key == "dnsNames" || key == "issuerRef" || PassedOn(spec, key))
      && cert["secretName"] == Text(secretName) && cert["dnsNames"] == spec["dnsNames"] && cert["issuerRef"] == spec["issuerRef"]
      && (forall key | PassedOn(spec, key) :: cert[key] == spec[key])
  {
  }

  /** The desired spec if some managed field of the existing one differs. */
  function Drift(current: map<string, Json>, desired: map<string, Json>): Option<map<string, Json>> {
    if forall key | key in desired :: Get(current, key) == desired[key] then None else Some(desired)
  }

  /**
   An edited publication over the Certificate built before the edit: drift is found
   exactly when a name or the issuer changed, or a field that is passed on has a
   value, not null, that it did not have. A field the edit took out is not missed.
   */
  lemma EditIsDriftExactly(spec: map<string, Json>, edited: map<string, Json>, secretName: string)
    requires "dnsNames" in spec && "issuerRef" in spec && "dnsNames" in edited && "issuerRef" in edited
    ensures var drift := Drift(CertificateSpec(spec, secretName), CertificateSpec(edited, secretName));
      && (drift.Some? <==>
            || edited["dnsNames"] != spec["dnsNames"] || edited["issuerRef"] != spec["issuerRef"]
            || exists key :: PassedOn(edited, key) && edited[key] != if key in spec then spec[key] else Null)
      && (drift.Some? ==> drift.value == CertificateSpec(edited, secretName))
  {
    var built, desired := CertificateSpec(spec, secretName), CertificateSpec(edited, secretName);
    SpecFields(spec, secretName);
    SpecFields(edited, secretName);
    if Drift(built, desired).Some? {
      var key :| key in desired && Get(built, key) != desired[key];
      assert key == "dnsNames" || key == "issuerRef" || PassedOn(edited, key);
    }
  }

  // -- Merge patch ------------------------------------------------------------------------

  /** Section 2 of RFC 7396. */
  function MergePatch(target: Json, patch: Json): Json
    decreases patch
  {
    if patch.Obj? then
      var before := if target.Obj? then target.members else map[];
      Obj(map key | key in before.Keys + patch.members.Keys && (key in patch.members ==> patch.members[key] != Null) ::
            if key in patch.members then MergePatch(Get(before, key), patch.members[key]) else before[key])
    else patch
  }

  /** No member of an object is null, at any depth an object patch reaches. */
  predicate NullFree(value: Json)
    decreases value
  {
    value.Obj? ==> forall key | key in value.members :: value.members[key] != Null && NullFree(value.members[key])
  }

  /** At every depth where both are objects, the existing value has no key the wanted one lacks. */
  predicate NoExtraKeys(existing: Json, wanted: Json)
    decreases wanted
  {
    existing.Obj? && wanted.Obj? ==>
      && (forall key | key in existing.members :: key in wanted.members)
      && (forall key | key in wanted.members :: NoExtraKeys(Get(existing.members, key), wanted.members[key]))
  }

  /** Merging a value in makes it so exactly when it asks for no null and nothing extra was there. */
  lemma {:induction false} MergeReachesExactly(existing: Json, wanted: Json)
    ensures MergePatch(existing, wanted) == wanted <==> NullFree(wanted) && NoExtraKeys(existing, wanted)
    decreases wanted
  {
    if wanted.Obj? {
      var before := if existing.Obj? then existing.members else map[];
      var merged := MergePatch(existing, wanted).members;
      forall key | key in wanted.members && wanted.members[key] != Null
        ensures merged[key] == wanted.members[key] <==>
                NullFree(wanted.members[key]) && NoExtraKeys(Get(before, key), wanted.members[key])
      {
        MergeReachesExactly(Get(before, key), wanted.members[key]);
      }
      if NullFree(wanted) {
        assert merged.Keys == before.Keys + wanted.members.Keys;
        if NoExtraKeys(existing, wanted) {
          assert merged == wanted.members;
        }
      } else {
        var key :| key in wanted.members && !(wanted.members[key] != Null && NullFree(wanted.members[key]));
        assert wanted.members[key] == Null ==> key !in merged;
      }
    }
  }

  /** Merging the same patch a second time changes nothing. */
  lemma {:induction false} MergeTwiceIsOnce(target: Json, patch: Json)
    ensures MergePatch(MergePatch(target, patch), patch) == MergePatch(target, patch)
    decreases patch
  {
    if patch.Obj? {
      var before := if target.Obj? then target.members else map[];
      var once := MergePatch(target, patch).members;
      var twice := MergePatch(Obj(once), patch).members;
      forall key | key in once ensures key in twice && twice[key] == once[key] {
        if key in patch.members {
          MergeTwiceIsOnce(Get(before, key), patch.members[key]);
        }
      }
      assert twice == once;
    }
  }

  // -- Repairing drift -----------------------------------------------------------------------

  /** `patch_certificate`: the desired fields are merged into the existing spec. */
  function Patched(current: map<string, Json>, drift: map<string, Json>): map<string, Json> {
    MergePatch(Obj(current), Obj(drift)).members
  }

  /** One pass over an existing Certificate: repair it if it has drifted. */
  function Repaired(current: map<string, Json>, desired: map<string, Json>): map<string, Json> {
    match Drift(current, desired)
    case None => current
    case Some(drift) => Patched(current, drift)
  }

  function RepairedTimes(current: map<string, Json>, desired: map<string, Json>, passes: nat): map<string, Json> {
    if passes == 0 then current else Repaired(RepairedTimes(current, desired, passes - 1), desired)
  }

  /** No managed field asks for a null inside an object, or holds a key the desired value lacks. */
  predicate CanSettle(current: map<string, Json>, desired: map<string, Json>) {
    forall key | key in desired :: NullFree(desired[key]) && NoExtraKeys(Get(current, key), desired[key])
  }

  /** What a field is after a patch. */
  lemma PatchedField(current: map<string, Json>, desired: map<string, Json>, key: string)
    ensures var patched := Patched(current, desired);
            if key in desired then Get(patched, key) == MergePatch(Get(current, key), desired[key])
            else Get(patched, key) == Get(current, key) && (key in patched <==> key in current)
  {
  }

  /** A repair leaves every field the operator does not manage as it was. */
  lemma RepairLeavesTheRest(current: map<string, Json>, desired: map<string, Json>, key: string)
    requires key !in desired
    ensures var repaired := Repaired(current, desired);
            (key in repaired <==> key in current) && Get(repaired, key) == Get(current, key)
  {
    PatchedField(current, desired, key);
  }

  lemma RepairSettlesExactly(current: map<string, Json>, desired: map<string, Json>)
    requires Drift(current, desired).Some?
    ensures Drift(Repaired(current, desired), desired).None? <==> CanSettle(current, desired)
  {
    var repaired := Repaired(current, desired);
    forall key | key in desired
      ensures Get(repaired, key) == desired[key] <==>
              NullFree(desired[key]) && NoExtraKeys(Get(current, key), desired[key])
    {
      PatchedField(current, desired, key);
      MergeReachesExactly(Get(current, key), desired[key]);
    }
  }

  lemma {:induction false} RepairsStopChanging(current: map<string, Json>, desired: map<string, Json>, passes: nat)
    requires passes > 0
    ensures RepairedTimes(current, desired, passes) == Repaired(current, desired)
  {
    if passes == 1 {
      assert RepairedTimes(current, desired, 0) == current;
    } else {
      RepairsStopChanging(current, desired, passes - 1);
      MergeTwiceIsOnce(Obj(current), Obj(desired));
    }
  }

  /**
   A Certificate that has drifted is settled by its first repair exactly when no
   managed field asks for a null inside an object or holds, at any depth, a key
   the desired value lacks. Otherwise every later pass finds the same drift.
   */
  lemma DriftSettlesAtOnceOrNever(current: map<string, Json>, desired: map<string, Json>, passes: nat)
    requires Drift(current, desired).Some? && passes > 0
    ensures Drift(RepairedTimes(current, desired, passes), desired).None? <==> CanSettle(current, desired)
  {
    RepairSettlesExactly(current, desired);
    RepairsStopChanging(current, desired, passes);
  }

  /** A live spec with an extra key inside a managed object: every pass finds drift again. */
  lemma ExtraKeyDriftsForever(passes: nat)
    ensures
      var desired := map["issuerRef" := Obj(map["name" := Text("ca")])];
      var current := map["issuerRef" := Obj(map["name" := Text("ca"), "group" := Text("cert-manager.io")])];
      Drift(RepairedTimes(current, desired, passes), desired).Some?
  {
    var wanted := Obj(map["name" := Text("ca")]);
    var issuer := Obj(map["name" := Text("ca"), "group" := Text("cert-manager.io")]);
    var desired, current := map["issuerRef" := wanted], map["issuerRef" := issuer];
    assert "group" in issuer.members && "group" !in wanted.members;
    assert Get(current, "issuerRef") == issuer && desired["issuerRef"] == wanted;
    if passes > 0 {
      assert !NoExtraKeys(issuer, wanted);
      DriftSettlesAtOnceOrNever(current, desired, passes);
    }
  }
}
