/** RiskCodes: the table of risk rows — which codes each row's selector offers,
    and adding, removing and editing rows. "Today" is an input. */
module RiskCodes {
  import opened Common
  import opened RiskEntries

  /** The codes of the selector, in display order. */
  const RiskCodeOptions: seq<string> := [
    "A", "B", "C", "D", "E (a)", "E (b)", "E (c)", "F (1)", "F (2)", "F (3)", "F (4)", "F (5)"]

  /** A row added by hand: everything blank, no auto flag. */
  const EmptyRow := RiskEntry("", "", "", false)

  // ---------------------------------------------------------------------
  // removeRisk and the codes of the other rows

  /** `rows.filter((_, i) => i !== index)`. */
  function RemoveRisk(rs: seq<RiskEntry>, index: int): seq<RiskEntry>
  {
    if rs == [] then []
    else RemoveRisk(rs[..|rs| - 1], index) + (if |rs| - 1 == index then [] else [rs[|rs| - 1]])
  }

  /** Removing drops exactly the row at `index` and keeps the others in order; an
      index outside the rows removes nothing. */
  lemma {:induction false} RemoveRiskSlices(rs: seq<RiskEntry>, index: int)
    ensures 0 <= index < |rs| ==> RemoveRisk(rs, index) == rs[..index] + rs[index + 1..]
    ensures !(0 <= index < |rs|) ==> RemoveRisk(rs, index) == rs
  {
    if rs != [] {
      var init := rs[..|rs| - 1];
      RemoveRiskSlices(init, index);
      if index == |rs| - 1 {
        assert rs[index + 1..] == [];
      } else if 0 <= index < |rs| - 1 {
        assert init[..index] == rs[..index];
        assert init[index + 1..] + [rs[|rs| - 1]] == rs[index + 1..];
      } else {
        assert init + [rs[|rs| - 1]] == rs;
      }
    }
  }

  function Codes(rs: seq<RiskEntry>): (r: seq<string>)
    ensures |r| == |rs| && forall i :: 0 <= i < |rs| ==> r[i] == rs[i].riskCode
  {
    if rs == [] then [] else [rs[0].riskCode] + Codes(rs[1..])
  }

  /** The codes chosen in the rows other than `index`. */
  function SelectedCodes(risks: seq<RiskEntry>, index: int): seq<string>
  {
    Codes(RemoveRisk(risks, index))
  }

  /** A code is selected elsewhere exactly when a row other than `index` holds it. */
  lemma SelectedCodesMembers(risks: seq<RiskEntry>, index: int, code: string)
    ensures code in SelectedCodes(risks, index) <==>
      exists i :: 0 <= i < |risks| && i != index && risks[i].riskCode == code
  {
    RemoveRiskSlices(risks, index);
    var rest := RemoveRisk(risks, index);
    if code in SelectedCodes(risks, index) {
      var k :| 0 <= k < |rest| && Codes(rest)[k] == code;
      if 0 <= index < |risks| {
        if k < index {
          assert rest[k] == risks[k];
        } else {
          assert rest[k] == risks[k + 1];
        }
      } else {
        assert rest[k] == risks[k];
      }
    }
    if exists i :: 0 <= i < |risks| && i != index && risks[i].riskCode == code {
      var i :| 0 <= i < |risks| && i != index && risks[i].riskCode == code;
      var k := if 0 <= index < |risks| && i > index then i - 1 else i;
      assert rest[k] == risks[i];
      assert Codes(rest)[k] == code;
    }
  }

  // ---------------------------------------------------------------------
  // getRiskCodeOptions

  /** The filter's test for one option. `age` is None without a birth date;
      `gravidity` is compared with 4 as JavaScript does, so a blank field hides D
      and an unset or non-numeric one does not. */
  predicate Offered(opt: string, selected: seq<string>, age: Option<int>, gravidity: FieldNumber)
  {
    && !("A" in selected && opt == "B")
    && !("B" in selected && opt == "A")
    && opt !in selected
    && !(age.Some? && age.value >= 18 && opt == "A")
    && !(age.Some? && age.value <= 35 && opt == "B")
    && !(Below(gravidity, 4) && opt == "D")
  }

  function FilterOptions(opts: seq<string>, selected: seq<string>, age: Option<int>, gravidity: FieldNumber)
    : seq<string>
  {
    if opts == [] then []
    else
      (if Offered(opts[0], selected, age, gravidity) then [opts[0]] else [])
      + FilterOptions(opts[1..], selected, age, gravidity)
  }

  /** getRiskCodeOptions for row `index`. */
  function RiskOptions(options: seq<string>, risks: seq<RiskEntry>, index: int,
                       birthDate: Option<Date>, today: Date, gravidity: FieldNumber): seq<string>
  {
    var age := if birthDate.Some? then Some(AgeOn(today, birthDate.value)) else None;
    FilterOptions(options, SelectedCodes(risks, index), age, gravidity)
  }

  predicate IsSubsequence(a: seq<string>, b: seq<string>)
    decreases |b|
  {
    if a == [] then true
    else if b == [] then false
    else (a[0] == b[0] && IsSubsequence(a[1..], b[1..])) || IsSubsequence(a, b[1..])
  }

  /** The options kept are exactly the offered ones, in the original order. */
  lemma {:induction false} FilterOptionsSpec(opts: seq<string>, selected: seq<string>, age: Option<int>, gravidity: FieldNumber)
    ensures forall x :: x in FilterOptions(opts, selected, age, gravidity) <==> x in opts && Offered(x, selected, age, gravidity)
    ensures IsSubsequence(FilterOptions(opts, selected, age, gravidity), opts)
  {
    if opts != [] {
      var r := FilterOptions(opts, selected, age, gravidity);
      var tail := FilterOptions(opts[1..], selected, age, gravidity);
      FilterOptionsSpec(opts[1..], selected, age, gravidity);
      assert opts == [opts[0]] + opts[1..];
      if Offered(opts[0], selected, age, gravidity) {
        assert r[0] == opts[0] && r[1..] == tail;
      } else {
        assert r == tail;
        if r != [] {
          assert IsSubsequence(r, opts[1..]);
        }
      }
    }
  }

  /** The options for row `index` are the offered codes of the option list, in its
      order: never a code another row holds, not B when another row holds A nor A
      when another holds B, not A at a known age of 18 or more, not B at a known age
      of 35 or less, and not D for a gravidity under 4 or a blank one. D is offered
      when it is an option, no other row holds it, and the gravidity is unset, not a
      number, or 4 or more. */
  lemma RiskOptionsSpec(options: seq<string>, risks: seq<RiskEntry>, index: int,
                        birthDate: Option<Date>, today: Date, gravidity: FieldNumber)
    ensures var r := RiskOptions(options, risks, index, birthDate, today, gravidity);
      && IsSubsequence(r, options)
      && (forall x :: x in r ==> x in options)
      && (forall i :: 0 <= i < |risks| && i != index ==> risks[i].riskCode !in r)
      && ((exists i :: 0 <= i < |risks| && i != index && risks[i].riskCode == "A") ==> "B" !in r)
      && ((exists i :: 0 <= i < |risks| && i != index && risks[i].riskCode == "B") ==> "A" !in r)
      && (birthDate.Some? && AgeOn(today, birthDate.value) >= 18 ==> "A" !in r)
      && (birthDate.Some? && AgeOn(today, birthDate.value) <= 35 ==> "B" !in r)
      && ((gravidity.Num? && gravidity.n < 4) || gravidity.Blank? ==> "D" !in r)
      && ("D" in options && (forall i :: 0 <= i < |risks| && i != index ==> risks[i].riskCode != "D")
          && (gravidity.Undefined? || gravidity.NotANumber? || (gravidity.Num? && gravidity.n >= 4))
          ==> "D" in r)
  {
    var age := if birthDate.Some? then Some(AgeOn(today, birthDate.value)) else None;
    var selected := SelectedCodes(risks, index);
    FilterOptionsSpec(options, selected, age, gravidity);
    SelectedCodesMembers(risks, index, "A");
    SelectedCodesMembers(risks, index, "B");
    SelectedCodesMembers(risks, index, "D");
    forall i | 0 <= i < |risks| && i != index
      ensures risks[i].riskCode !in RiskOptions(options, risks, index, birthDate, today, gravidity)
    {
      SelectedCodesMembers(risks, index, risks[i].riskCode);
    }
  }

  /** Without a birth date, with no code chosen in another row and a gravidity of
      4 or more, every option is offered: the filter only ever hides. */
  lemma {:induction false} AllOfferedWhenUnconstrained(opts: seq<string>, gravidity: int)
    requires gravidity >= 4
    ensures FilterOptions(opts, [], None, Num(gravidity)) == opts
  {
    if opts != [] {
      AllOfferedWhenUnconstrained(opts[1..], gravidity);
    }
  }

  // ---------------------------------------------------------------------
  // addRisk and handleChange

  /** addRisk: one blank row at the end. */
  function AddRisk(rs: seq<RiskEntry>): (r: seq<RiskEntry>)
    ensures |r| == |rs| + 1 && r[..|rs|] == rs && r[|rs|] == EmptyRow
  {
    rs + [EmptyRow]
  }

  /** Adding a row and removing it again restores the rows. */
  lemma RemoveAddedRisk(rs: seq<RiskEntry>)
    ensures RemoveRisk(AddRisk(rs), |rs|) == rs
  {
    RemoveRiskSlices(AddRisk(rs), |rs|);
  }

  /** The fields a row's inputs edit. */
  datatype RiskField = RiskCodeField | DateDetectedField | RiskStatusField

  function GetField(e: RiskEntry, field: RiskField): string
  {
    match field
    case RiskCodeField => e.riskCode
    case DateDetectedField => e.dateDetected
    case RiskStatusField => e.riskStatus
  }

  /** `entry[field] = value`. */
  function SetField(e: RiskEntry, field: RiskField, value: string): (r: RiskEntry)
    ensures GetField(r, field) == value
    ensures forall g :: g != field ==> GetField(r, g) == GetField(e, g)
    ensures r.auto == e.auto
  {
    match field
    case RiskCodeField => e.(riskCode := value)
    case DateDetectedField => e.(dateDetected := value)
    case RiskStatusField => e.(riskStatus := value)
  }

  /** handleChange: writes the field of the row in place; the caller's row index is
      one of the table's rows. */
  method HandleChange(risks: array<RiskEntry>, index: int, field: RiskField, value: string)
    requires 0 <= index < risks.Length
    modifies risks
    ensures risks[..] == old(risks[..])[index := SetField(old(risks[index]), field, value)]
    ensures GetField(risks[index], field) == value
    ensures forall j :: 0 <= j < risks.Length && j != index ==> risks[j] == old(risks[j])
  {
    risks[index] := SetField(risks[index], field, value);
  }
}
