/** The administrator's reports of the NeuroMed front end
    (healthcare-frontend/NeuroMed-2f/app/reports/page.tsx): the doctors per
    specialization, the count of active mappings and the pie chart's slice
    colours. */
module ReportsPage {
  import opened Js
  import opened Lists
  import opened AuthContext
  import opened NeuroRecords

  /** The page's effect: anyone but an administrator is sent to
      '/dashboard'. */
  function Redirect(user: Option<User>): (target: Option<string>)
    ensures target.None? <==> user.Some? && user.value.role == "admin"
    ensures target.Some? ==> target.value == DashboardPath
  {
    RoleRedirect(user, "admin")
  }

  /** One row of `specializationBreakdown`. */
  datatype Entry = Entry(name: string, count: nat)

  /** `mockDoctors.filter(d => d.specialization === spec).length`. */
  function SpecCount(doctors: seq<Doctor>, spec: string): nat {
    |Filter(doctors, (d: Doctor) => d.specialization == spec)|
  }

  /** The count of a specialization is how often it occurs among the
      doctors' specializations. */
  lemma {:induction false} SpecCountIsMultiplicity(doctors: seq<Doctor>, spec: string)
    ensures SpecCount(doctors, spec) == multiset(Specializations(doctors))[spec]
  {
    if doctors != [] {
      SpecCountIsMultiplicity(doctors[1..], spec);
      assert Specializations(doctors) == [doctors[0].specialization] + Specializations(doctors[1..]);
    }
  }

  /** `specializations.map(spec => ({name: spec, count: ...}))`. */
  function Entries(doctors: seq<Doctor>, specs: seq<string>): (r: seq<Entry>)
    ensures |r| == |specs|
  {
    seq(|specs|, i requires 0 <= i < |specs| => Entry(specs[i], SpecCount(doctors, specs[i])))
  }

  /** The breakdown the effect stores: one entry per distinct
      specialization, in order of first occurrence. */
  function Breakdown(doctors: seq<Doctor>): seq<Entry> {
    Entries(doctors, Distinct(Specializations(doctors)))
  }

  /** What the effect stores as the breakdown: nothing when it redirects. */
  function Report(user: Option<User>, doctors: seq<Doctor>): (r: seq<Entry>)
    ensures Redirect(user).Some? ==> r == []
    ensures Redirect(user).None? ==> r == Breakdown(doctors)
  {
    if Redirect(user).Some? then [] else Breakdown(doctors)
  }

  function SumCounts(entries: seq<Entry>): nat {
    if entries == [] then 0 else entries[0].count + SumCounts(entries[1..])
  }

  /** The names the breakdown lists, in order. */
  function Names(entries: seq<Entry>): (r: seq<string>)
    ensures |r| == |entries|
  {
    seq(|entries|, i requires 0 <= i < |entries| => entries[i].name)
  }

  /** Every specialization some doctor has is named once, and no other. */
  lemma BreakdownNames(doctors: seq<Doctor>)
    ensures NoDuplicates(Names(Breakdown(doctors)))
    ensures forall s :: s in Names(Breakdown(doctors)) <==> s in Specializations(doctors)
  {
    var specs := Specializations(doctors);
    DistinctMeaning(specs);
    assert Names(Breakdown(doctors)) == Distinct(specs);
  }

  /** Each entry counts the doctors of its specialization, and so at least
      one. */
  lemma BreakdownCounts(doctors: seq<Doctor>)
    ensures var r := Breakdown(doctors);
            forall i :: 0 <= i < |r| ==>
              r[i].count == multiset(Specializations(doctors))[r[i].name] && r[i].count >= 1
  {
    var specs := Specializations(doctors);
    DistinctMeaning(specs);
    var r := Breakdown(doctors);
    forall i | 0 <= i < |r|
      ensures r[i].count == multiset(specs)[r[i].name] && r[i].count >= 1
    {
      SpecCountIsMultiplicity(doctors, r[i].name);
      assert Distinct(specs)[i] in specs;
    }
  }

  lemma {:induction false} SumEntries(doctors: seq<Doctor>, specs: seq<string>)
    ensures SumCounts(Entries(doctors, specs)) == Total(specs, Specializations(doctors))
  {
    if specs != [] {
      SumEntries(doctors, specs[1..]);
      SpecCountIsMultiplicity(doctors, specs[0]);
      assert Entries(doctors, specs)[1..] == Entries(doctors, specs[1..]);
    }
  }

  /** The counts add up to the number of doctors: every doctor is counted
      under exactly one entry. */
  lemma BreakdownTotal(doctors: seq<Doctor>)
    ensures SumCounts(Breakdown(doctors)) == |doctors|
  {
    SumEntries(doctors, Distinct(Specializations(doctors)));
    DistinctTotal(Specializations(doctors));
  }

  /** The "Active Mappings" figure. */
  function ActiveMappings(mappings: seq<Mapping>): nat {
    |Filter(mappings, (m: Mapping) => m.status == ActiveStatus)|
  }

  /** The figure grows by one exactly for an appended active mapping and
      never exceeds the number of mappings. */
  lemma ActiveMappingsMeaning(mappings: seq<Mapping>, m: Mapping)
    ensures ActiveMappings(mappings + [m]) == ActiveMappings(mappings) + if m.status == ActiveStatus then 1 else 0
    ensures ActiveMappings(mappings) <= |mappings|
  {
    FilterSnoc(mappings, m, (x: Mapping) => x.status == ActiveStatus);
  }

  /** `COLORS`. */
  const Colors: seq<string> := ["#0088FE", "#00C49F", "#FFBB28", "#FF8042", "#8884D8"]

  /** `COLORS[index % COLORS.length]`: the fill of the pie slice at
      `index`. */
  function SliceColor(index: nat): string {
    Colors[index % |Colors|]
  }

  /** The colours repeat every five slices, and any five consecutive
      slices have different colours. In a pie of six or more slices the
      first and the sixth share one. */
  lemma SliceColors(i: nat, j: nat)
    ensures SliceColor(i + 5) == SliceColor(i)
    ensures i < j < i + 5 ==> SliceColor(i) != SliceColor(j)
  {
    assert Colors[0][1] == '0' && Colors[0][3] == '8';
    assert Colors[1][1] == '0' && Colors[1][3] == 'C';
    assert Colors[2][1] == 'F' && Colors[2][3] == 'B';
    assert Colors[3][1] == 'F' && Colors[3][3] == '8';
    assert Colors[4][1] == '8' && Colors[4][3] == '8';
    assert forall a, b :: 0 <= a < b < 5 ==> Colors[a][1] != Colors[b][1] || Colors[a][3] != Colors[b][3];
  }
}
