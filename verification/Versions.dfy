/** Admission of OperatingSystemProfiles and OperatingSystemConfigs, and the controller that keeps
    the default profiles: why comparing versions stands in for comparing specs. */
module Versions {
  import opened Names
  import opened Cluster
  import opened Protocol

  // ---------------------------------------------------------------- admission

  datatype Verdict = Allowed | Denied(reason: Reason)
  datatype Reason = UnitsNotSupported | Immutable

  /** Only Flatcar profiles may declare units. */
  function ValidateProfile(osp: OspSpec): Verdict {
    if osp.osName == "flatcar" || !osp.units then Allowed else Denied(UnitsNotSupported)
  }

  function ValidateProfileUpdate(osp: OspSpec, stored: OspSpec): Verdict {
    if ValidateProfile(osp).Denied? then ValidateProfile(osp)
    else if stored == osp then Allowed
    else if osp.version == stored.version then Denied(Immutable)
    else Allowed
  }

  function ValidateConfigUpdate(osc: OscSpec, stored: OscSpec): Verdict {
    if stored == osc then Allowed else Denied(Immutable)
  }

  // ---------------------------------------------------------------- the profile controller

  class OperatingSystemProfile {
    var spec: OspSpec

    constructor (spec: OspSpec)
      ensures this.spec == spec
    {
      this.spec := spec;
    }

    /** Ends at the shipped version, by the shipped spec or by no change at all. */
    method ReconcileSpec(source: OspSpec)
      modifies this
      ensures spec.version == source.version
      ensures spec == source || spec == old(spec)
      ensures spec == old(spec) <==> old(spec).version == source.version
      ensures spec == Reconciled(old(spec), source)
    {
      if spec.version != source.version {
        spec := source;
      }
    }
  }

  function Reconciled(stored: OspSpec, source: OspSpec): OspSpec {
    if stored.version != source.version then source else stored
  }

  const EMPTY_SPEC := OspSpec("", "", "", [], false, "")

  /** Writes to one profile name: by users, and by the controller with the spec it ships. */
  datatype Write = Create(osp: OspSpec) | Update(osp: OspSpec) | Delete | Sync(source: OspSpec)

  /** The profile after a write; None if there is none. A refused or impossible write does nothing. */
  function After(stored: Option<OspSpec>, write: Write): Option<OspSpec> {
    match write
    case Create(osp) => if stored.None? && ValidateProfile(osp).Allowed? then Some(osp) else stored
    case Update(osp) => if stored.Some? && ValidateProfileUpdate(osp, stored.value).Allowed? then Some(osp) else stored
    case Delete => None
    case Sync(source) =>
      match stored {
        case None =>
          var osp := Reconciled(EMPTY_SPEC, source);
          if ValidateProfile(osp).Allowed? then Some(osp) else None
        case Some(found) =>
          var osp := Reconciled(found, source);
          if ValidateProfileUpdate(osp, found).Allowed? then Some(osp) else stored
      }
  }

  type History = seq<Option<OspSpec>>

  /** All states of a profile along a sequence of writes, the first one included. */
  function States(stored: Option<OspSpec>, writes: seq<Write>): (h: History)
    ensures |h| == |writes| + 1 && h[0] == stored
    decreases |writes|
  {
    if writes == [] then [stored] else [stored] + States(After(stored, writes[0]), writes[1..])
  }

  lemma {:induction false} StatesStep(stored: Option<OspSpec>, writes: seq<Write>, i: nat)
    requires i < |writes|
    ensures States(stored, writes)[i + 1] == After(States(stored, writes)[i], writes[i])
    decreases |writes|
  {
    if i > 0 { StatesStep(After(stored, writes[0]), writes[1..], i - 1); }
  }

  // ---------------------------------------------------------------- whom admission refuses

  /** A profile is stored if and only if it is for Flatcar or declares no units. */
  lemma CreateStoresIff(osp: OspSpec)
    ensures After(None, Create(osp)) == Some(osp) <==> osp.osName == "flatcar" || !osp.units
    ensures After(None, Create(osp)) in {None, Some(osp)}
  {
  }

  /** An update to another spec is stored if and only if it is that and has another version; a refused
      one changes nothing. */
  lemma UpdateStoresIff(stored: OspSpec, osp: OspSpec)
    requires osp != stored
    ensures After(Some(stored), Update(osp)) == Some(osp)
       <==> (osp.osName == "flatcar" || !osp.units) && osp.version != stored.version
    ensures After(Some(stored), Update(osp)) in {Some(stored), Some(osp)}
  {
  }

  /** Only Flatcar profiles have units. */
  predicate UnitsOnFlatcar(stored: Option<OspSpec>) {
    stored.Some? && stored.value.units ==> stored.value.osName == "flatcar"
  }

  /** Along any history no other profile ever has units, shipped profiles included. */
  lemma {:induction false} NoForbiddenUnits(stored: Option<OspSpec>, writes: seq<Write>, i: nat)
    requires UnitsOnFlatcar(stored) && i <= |writes|
    ensures UnitsOnFlatcar(States(stored, writes)[i])
    decreases |writes|
  {
    if i > 0 { NoForbiddenUnits(After(stored, writes[0]), writes[1..], i - 1); }
  }

  // ---------------------------------------------------------------- versions tell specs apart

  /** A write that replaces one spec by another changes the version. */
  lemma ChangeBumpsVersion(stored: OspSpec, write: Write)
    requires After(Some(stored), write).Some?
    ensures var osp := After(Some(stored), write).value;
      osp != stored ==> osp.version != stored.version
  {
  }

  /** The controller's own write is never refused as an edit of an immutable profile, and takes
      effect exactly when the shipped profile has no forbidden units or nothing has to change. */
  lemma ControllerWriteAdmitted(stored: OspSpec, source: OspSpec)
    ensures var v := ValidateProfileUpdate(Reconciled(stored, source), stored);
      && v != Denied(Immutable)
      && (v.Allowed? <==> ValidateProfile(Reconciled(stored, source)).Allowed?)
    ensures ValidateProfile(source).Allowed? ==>
      After(Some(stored), Sync(source)).value.version == source.version
  {
  }

  /** Same version, same spec, over the whole history. */
  ghost predicate VersionsTellSpecs(h: History) {
    forall i, j :: 0 <= i < j < |h| && h[i].Some? && h[j].Some? && h[i].value.version == h[j].value.version ==>
      h[i] == h[j]
  }

  /** State `j` takes up a version its predecessor did not have. */
  predicate TakesUp(h: History, j: nat)
    requires 0 < j < |h|
  {
    h[j].Some? && (h[j - 1].None? || h[j - 1].value.version != h[j].value.version)
  }

  /** Whoever takes up a version that was used before brings back the spec it had. */
  ghost predicate Disciplined(h: History) {
    forall i, j :: 0 <= i < j < |h| && TakesUp(h, j) && h[i].Some? && h[i].value.version == h[j].value.version ==>
      h[i] == h[j]
  }

  /** No version is used again once it was left. */
  ghost predicate NotReused(h: History) {
    forall i, j :: 0 <= i < j < |h| && TakesUp(h, j) && h[i].Some? ==> h[i].value.version != h[j].value.version
  }

  lemma {:induction false} KeepsUntilTakenUp(stored: Option<OspSpec>, writes: seq<Write>, i: nat, j: nat)
    requires var h := States(stored, writes); i < j < |h| && Disciplined(h)
    requires var h := States(stored, writes);
      h[i].Some? && h[j].Some? && h[i].value.version == h[j].value.version
    ensures States(stored, writes)[i] == States(stored, writes)[j]
    decreases j - i
  {
    var h := States(stored, writes);
    if !TakesUp(h, j) {
      StatesStep(stored, writes, j - 1);
      ChangeBumpsVersion(h[j - 1].value, writes[j - 1]);
      if i < j - 1 { KeepsUntilTakenUp(stored, writes, i, j - 1); }
    }
  }

  /** Along any history of admitted updates, creations, deletions and controller writes, versions
      tell specs apart if and only if every write that takes up an old version restores its spec;
      in particular if no version is reused. */
  lemma VersionEqualityRefinesSpecEquality(stored: Option<OspSpec>, writes: seq<Write>)
    ensures var h := States(stored, writes);
      && (VersionsTellSpecs(h) <==> Disciplined(h))
      && (NotReused(h) ==> VersionsTellSpecs(h))
  {
    var h := States(stored, writes);
    if Disciplined(h) {
      forall i, j | 0 <= i < j < |h| && h[i].Some? && h[j].Some? && h[i].value.version == h[j].value.version
        ensures h[i] == h[j]
      {
        KeepsUntilTakenUp(stored, writes, i, j);
      }
    }
  }

  /** The condition is needed: through a detour over any other version, admission lets a profile
      come back under its old version with any other valid spec. */
  lemma DetourDrifts(osp: OspSpec, between: OspSpec, drifted: OspSpec)
    requires between.version != osp.version && drifted.version == osp.version && drifted != osp
    requires ValidateProfile(between).Allowed? && ValidateProfile(drifted).Allowed?
    ensures var h := States(Some(osp), [Update(between), Update(drifted)]);
      h == [Some(osp), Some(between), Some(drifted)] && !VersionsTellSpecs(h)
  {
    var writes := [Update(between), Update(drifted)];
    var h := States(Some(osp), writes);
    StatesStep(Some(osp), writes, 0);
    StatesStep(Some(osp), writes, 1);
    assert h[0].value.version == h[2].value.version && h[0] != h[2];
  }

  /** So the stamp comparison of the rotation check misses no change of profile or annotations: an
      OSC whose stamp is current was generated from the current profile spec and annotations. */
  lemma CurrentStampMeansCurrentInputs(stored: Option<OspSpec>, writes: seq<Write>, i: nat, j: nat,
                                       k: Key, before: MachineDeployment, now: MachineDeployment, text: string)
    requires var h := States(stored, writes); i <= j < |h| && Disciplined(h) && h[i].Some? && h[j].Some?
    requires var h := States(stored, writes); StampOf(before, h[i].value) == StampOf(now, h[j].value)
    ensures var h := States(stored, writes);
      && h[i] == h[j]
      && GenerateOsc(k, before, h[i].value, text)
      == GenerateOsc(k, now, h[j].value, text).(template := before.template)
  {
    if i < j { KeepsUntilTakenUp(stored, writes, i, j); }
  }

  // ---------------------------------------------------------------- configs

  /** The spec of an OSC after a sequence of update attempts. */
  function ConfigAfter(stored: OscSpec, attempts: seq<OscSpec>): OscSpec
    decreases |attempts|
  {
    if attempts == [] then stored
    else ConfigAfter(if ValidateConfigUpdate(attempts[0], stored).Allowed? then attempts[0] else stored, attempts[1..])
  }

  /** No sequence of admitted updates changes a stored OSC. */
  lemma {:induction false} ConfigNeverChanges(stored: OscSpec, attempts: seq<OscSpec>)
    ensures ConfigAfter(stored, attempts) == stored
    decreases |attempts|
  {
    if attempts != [] { ConfigNeverChanges(stored, attempts[1..]); }
  }

  /** An update of an OSC is allowed if and only if it leaves the spec as it is. */
  lemma ConfigUpdateAllowedIff(osc: OscSpec, stored: OscSpec)
    ensures ValidateConfigUpdate(osc, stored).Allowed? <==> osc == stored
    ensures ValidateConfigUpdate(stored, stored).Allowed?
  {
  }
}
