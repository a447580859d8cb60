/** StorePrenatalOutPatientImmunizationRequest: the validation rules of a combined
    prenatal-visit / immunization submission, and the two views the controller takes
    of the request — the prenatal-visit fields, and the vaccine fields grouped by
    vaccine with their group prefix removed.

    Whether the tracking is in its third trimester is an input (the source looks the
    tracking up by the request's pregnancy_tracking_id). */
module ImmunizationRequest {
  import opened Common

  /** A request field: JSON null or a string. */
  datatype Value = Null | Text(s: string)

  type Request = map<string, Value>

  /** PHP's `empty()` on a request field: null, "" and "0" are empty. */
  predicate IsEmpty(v: Value)
  {
    v.Null? || v.s == "" || v.s == "0"
  }

  /** The field is in the request and is not empty. */
  predicate Filled(req: Request, k: string)
  {
    k in req && !IsEmpty(req[k])
  }

  const PrenatalKeys: seq<string> := [
    "pregnancy_tracking_id", "date", "time", "height", "weight", "bp", "temp", "rr", "pr",
    "two_sat", "fht", "fh", "aog", "term", "preterm", "post_term", "living_children"]

  const TetanusKeys: seq<string> := [
    "tetanus_first_given", "tetanus_second_given", "tetanus_third_given",
    "tetanus_fourth_given", "tetanus_fifth_given",
    "tetanus_first_comeback", "tetanus_second_comeback", "tetanus_third_comeback",
    "tetanus_fourth_comeback", "tetanus_fifth_comeback"]

  const CovidKeys: seq<string> := [
    "covid_first_given", "covid_second_given", "covid_booster_given",
    "covid_first_comeback", "covid_second_comeback", "covid_booster_comeback"]

  const OtherKeys: seq<string> := [
    "other_vaccine_name",
    "other_first_given", "other_second_given", "other_third_given",
    "other_fourth_given", "other_fifth_given",
    "other_first_comeback", "other_second_comeback", "other_third_comeback",
    "other_fourth_comeback", "other_fifth_comeback"]

  const VaccineKeys: seq<string> := TetanusKeys + CovidKeys + OtherKeys

  /** The prenatal rule of each of the 17 prenatal fields. */
  function PrenatalRule(k: string): string
  {
    if k == "pregnancy_tracking_id" then "required|exists:pregnancy_trackings,id"
    else if k == "date" then "required|date"
    else if k == "time" then "required"
    else if k in ["bp", "fht", "aog"] then "required|string"
    else if k in ["rr", "pr", "term", "living_children"] then "required|integer|min:0"
    else if k == "two_sat" then "required|integer|min:0|max:100"
    else if k in ["preterm", "post_term"] then "nullable|integer|min:0"
    else "required|numeric|min:0"
  }

  /** Every vaccine field is an optional date, except the free-text vaccine name. */
  function VaccineRule(k: string): string
  {
    if k == "other_vaccine_name" then "nullable|string|max:255" else "nullable|date"
  }

  /** The vaccine fields are exactly those carrying a group prefix. */
  predicate HasVaccinePrefix(k: string)
  {
    "tetanus_" <= k || "covid_" <= k || "other_" <= k
  }

  lemma VaccineKeysPrefixed()
    ensures forall k :: k in VaccineKeys ==> HasVaccinePrefix(k)
    ensures forall k :: k in PrenatalKeys ==> !HasVaccinePrefix(k)
  {
    forall i | 0 <= i < |VaccineKeys| ensures HasVaccinePrefix(VaccineKeys[i]) {
      GroupsPrefixed();
    }
    forall i | 0 <= i < |PrenatalKeys| ensures !HasVaccinePrefix(PrenatalKeys[i]) {
      assert PrenatalKeys[i][0] != 'c' && PrenatalKeys[i][0] != 'o';
    }
  }

  /** rules(): the prenatal rules always, the vaccine rules only in the third trimester. */
  function Rules(thirdTrimester: bool): (r: map<string, string>)
    ensures forall k :: k in PrenatalKeys ==> k in r && r[k] == PrenatalRule(k)
    ensures forall k :: k in VaccineKeys ==> (k in r <==> thirdTrimester)
    ensures forall k :: k in VaccineKeys && k in r ==> r[k] == VaccineRule(k)
    ensures forall k :: k in r ==> k in PrenatalKeys || k in VaccineKeys
  {
    VaccineKeysPrefixed();
    map k | k in PrenatalKeys + VaccineKeys && (k in PrenatalKeys || thirdTrimester) ::
      if k in PrenatalKeys then PrenatalRule(k) else VaccineRule(k)
  }

  /** Laravel's `only`: the listed fields that are present, with their values. */
  function Only(req: Request, keys: seq<string>): (r: Request)
    ensures forall k :: k in r <==> k in keys && k in req
    ensures forall k :: k in r ==> r[k] == req[k]
  {
    map k | k in keys && k in req :: req[k]
  }

  /** getPrenatalData: the request restricted to the 17 prenatal fields. */
  function GetPrenatalData(req: Request): Request
  {
    Only(req, PrenatalKeys)
  }

  /** The prenatal data never carries a vaccine field. */
  lemma PrenatalDataHasNoVaccineField(req: Request)
    ensures forall k :: k in GetPrenatalData(req) ==> k in PrenatalKeys && k !in VaccineKeys
  {
    VaccineKeysPrefixed();
  }

  // ---------------------------------------------------------------------
  // getVaccineData

  /** The vaccine fields grouped by vaccine; None is an absent group. */
  datatype VaccineData = VaccineData(
    trackingId: Value,
    tetanus: Option<map<string, Value>>,
    covid: Option<map<string, Value>>,
    other: Option<map<string, Value>>)

  predicate AllPrefixed(keys: seq<string>, prefix: string)
  {
    forall i :: 0 <= i < |keys| ==> prefix <= keys[i]
  }

  /** What the foreach over one group builds: each non-empty field, re-keyed
      without its group prefix. */
  function FilterGroup(req: Request, keys: seq<string>, prefix: string): map<string, Value>
    requires AllPrefixed(keys, prefix)
  {
    if keys == [] then map[]
    else
      var m := FilterGroup(req, keys[..|keys| - 1], prefix);
      var k := keys[|keys| - 1];
      if Filled(req, k) then m[k[|prefix|..] := req[k]] else m
  }

  /** A kept entry is a non-empty field of the group, under its name without the
      prefix; every non-empty field of the group is kept. */
  lemma {:induction false} FilterGroupContents(req: Request, keys: seq<string>, prefix: string)
    requires AllPrefixed(keys, prefix)
    ensures forall nk :: nk in FilterGroup(req, keys, prefix) ==>
      prefix + nk in keys && Filled(req, prefix + nk) && FilterGroup(req, keys, prefix)[nk] == req[prefix + nk]
    ensures forall i :: 0 <= i < |keys| && Filled(req, keys[i]) ==>
      keys[i][|prefix|..] in FilterGroup(req, keys, prefix)
  {
    if keys != [] {
      var init := keys[..|keys| - 1];
      var k := keys[|keys| - 1];
      assert AllPrefixed(init, prefix);
      FilterGroupContents(req, init, prefix);
      assert k == prefix + k[|prefix|..];
      forall i | 0 <= i < |keys| - 1 ensures keys[i] == init[i] { }
    }
  }

  /** The group is non-empty exactly when one of its fields is filled. */
  lemma GroupNonEmpty(req: Request, keys: seq<string>, prefix: string)
    requires AllPrefixed(keys, prefix)
    ensures |FilterGroup(req, keys, prefix)| > 0 <==> exists i :: 0 <= i < |keys| && Filled(req, keys[i])
  {
    var m := FilterGroup(req, keys, prefix);
    FilterGroupContents(req, keys, prefix);
    if |m| > 0 {
      var nk :| nk in m;
      var i :| 0 <= i < |keys| && keys[i] == prefix + nk;
      assert Filled(req, keys[i]);
    }
    if exists i :: 0 <= i < |keys| && Filled(req, keys[i]) {
      var i :| 0 <= i < |keys| && Filled(req, keys[i]);
      assert keys[i][|prefix|..] in m;
    }
  }

  lemma TetanusPrefixed()
    ensures AllPrefixed(TetanusKeys, "tetanus_")
  {
  }

  lemma CovidPrefixed()
    ensures AllPrefixed(CovidKeys, "covid_")
  {
  }

  lemma OtherPrefixed()
    ensures AllPrefixed(OtherKeys, "other_")
  {
  }

  lemma GroupsPrefixed()
    ensures AllPrefixed(TetanusKeys, "tetanus_")
    ensures AllPrefixed(CovidKeys, "covid_")
    ensures AllPrefixed(OtherKeys, "other_")
  {
    TetanusPrefixed();
    CovidPrefixed();
    OtherPrefixed();
  }

  /** The specification of getVaccineData. */
  function VaccineDataOf(req: Request, thirdTrimester: bool): Option<VaccineData>
  {
    GroupsPrefixed();
    if !thirdTrimester then None
    else
      var tetanus := FilterGroup(req, TetanusKeys, "tetanus_");
      var covid := FilterGroup(req, CovidKeys, "covid_");
      var other := FilterGroup(req, OtherKeys, "other_");
      Some(VaccineData(
        if "pregnancy_tracking_id" in req then req["pregnancy_tracking_id"] else Null,
        if |tetanus| > 0 then Some(tetanus) else None,
        if |covid| > 0 then Some(covid) else None,
        if "vaccine_name" in other && !IsEmpty(other["vaccine_name"]) then Some(other) else None))
  }

  /** One group's foreach loop. */
  method FilterGroupLoop(req: Request, keys: seq<string>, prefix: string) returns (filtered: map<string, Value>)
    requires AllPrefixed(keys, prefix)
    ensures filtered == FilterGroup(req, keys, prefix)
  {
    filtered := map[];
    var i := 0;
    while i < |keys|
      invariant 0 <= i <= |keys|
      invariant AllPrefixed(keys[..i], prefix)
      invariant filtered == FilterGroup(req, keys[..i], prefix)
    {
      var key := keys[i];
      if Filled(req, key) {
        filtered := filtered[key[|prefix|..] := req[key]];
      }
      assert keys[..i + 1][..i] == keys[..i];
      i := i + 1;
    }
    assert keys[..|keys|] == keys;
  }

  /** getVaccineData. */
  method GetVaccineData(req: Request, thirdTrimester: bool) returns (data: Option<VaccineData>)
    ensures data == VaccineDataOf(req, thirdTrimester)
  {
    if !thirdTrimester {
      return None;
    }
    GroupsPrefixed();
    var trackingId := if "pregnancy_tracking_id" in req then req["pregnancy_tracking_id"] else Null;
    var tetanusFiltered := FilterGroupLoop(req, TetanusKeys, "tetanus_");
    var covidFiltered := FilterGroupLoop(req, CovidKeys, "covid_");
    var otherFiltered := FilterGroupLoop(req, OtherKeys, "other_");
    var tetanus := if |tetanusFiltered| > 0 then Some(tetanusFiltered) else None;
    var covid := if |covidFiltered| > 0 then Some(covidFiltered) else None;
    var other := if "vaccine_name" in otherFiltered && !IsEmpty(otherFiltered["vaccine_name"])
                 then Some(otherFiltered) else None;
    data := Some(VaccineData(trackingId, tetanus, covid, other));
  }

  /** hasVaccineData. */
  function HasVaccineData(req: Request, thirdTrimester: bool): bool
  {
    var d := VaccineDataOf(req, thirdTrimester);
    d.Some? && (d.value.tetanus.Some? || d.value.covid.Some? || d.value.other.Some?)
  }

  predicate AnyFilled(req: Request, keys: seq<string>)
  {
    exists i :: 0 <= i < |keys| && Filled(req, keys[i])
  }

  /** Outside the third trimester there is no vaccine data; inside, the tracking id
      is always there, and the tetanus and covid groups exist exactly when one of
      their fields is filled. */
  lemma VaccineDataGroups(req: Request, thirdTrimester: bool)
    ensures !thirdTrimester ==> VaccineDataOf(req, thirdTrimester).None?
    ensures thirdTrimester ==>
      var d := VaccineDataOf(req, thirdTrimester);
      && d.Some?
      && d.value.trackingId == (if "pregnancy_tracking_id" in req then req["pregnancy_tracking_id"] else Null)
      && (d.value.tetanus.Some? <==> AnyFilled(req, TetanusKeys))
      && (d.value.covid.Some? <==> AnyFilled(req, CovidKeys))
  {
    GroupsPrefixed();
    GroupNonEmpty(req, TetanusKeys, "tetanus_");
    GroupNonEmpty(req, CovidKeys, "covid_");
  }

  /** The other-vaccine group exists exactly when the vaccine name is filled. */
  lemma OtherGroupNeedsName(req: Request)
    ensures VaccineDataOf(req, true).Some?
    ensures VaccineDataOf(req, true).value.other.Some? <==> Filled(req, "other_vaccine_name")
  {
    OtherPrefixed();
    GroupsPrefixed();
    FilterGroupContents(req, OtherKeys, "other_");
    assert "other_" + "vaccine_name" == "other_vaccine_name";
    assert OtherKeys[0] == "other_vaccine_name";
    assert OtherKeys[0][|"other_"|..] == "vaccine_name";
  }

  /** Each kept vaccine field sits under its name without the group prefix and holds
      the non-empty request value of the prefixed field. */
  lemma VaccineFieldsRekeyed(req: Request)
    ensures var d := VaccineDataOf(req, true).value;
      && (d.tetanus.Some? ==> forall nk :: nk in d.tetanus.value ==>
            "tetanus_" + nk in TetanusKeys && Filled(req, "tetanus_" + nk) && d.tetanus.value[nk] == req["tetanus_" + nk])
      && (d.covid.Some? ==> forall nk :: nk in d.covid.value ==>
            "covid_" + nk in CovidKeys && Filled(req, "covid_" + nk) && d.covid.value[nk] == req["covid_" + nk])
      && (d.other.Some? ==> forall nk :: nk in d.other.value ==>
            "other_" + nk in OtherKeys && Filled(req, "other_" + nk) && d.other.value[nk] == req["other_" + nk])
  {
    GroupsPrefixed();
    FilterGroupContents(req, TetanusKeys, "tetanus_");
    FilterGroupContents(req, CovidKeys, "covid_");
    FilterGroupContents(req, OtherKeys, "other_");
  }

  /** hasVaccineData holds exactly in the third trimester with a tetanus or covid
      field filled or the other vaccine's name given. */
  lemma HasVaccineDataIff(req: Request, thirdTrimester: bool)
    ensures HasVaccineData(req, thirdTrimester) <==>
      thirdTrimester && (AnyFilled(req, TetanusKeys) || AnyFilled(req, CovidKeys) || Filled(req, "other_vaccine_name"))
  {
    VaccineDataGroups(req, thirdTrimester);
    OtherGroupNeedsName(req);
  }
}
