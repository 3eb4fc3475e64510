/** `build_clock_group_stats` and `distinct_group_count` of `sonda/src/main.rs`: scenario totals
    folded into one line per clock group. */
module ClockGroups {
  import opened Orders

  type Group = Option<string>

  /** One scenario: its clock group, whether that group was assigned automatically, and its
      final statistics. */
  datatype Scenario = Scenario(group: Group, isAuto: Option<bool>, events: nat, bytes: nat, errors: nat)

  datatype GroupStats = GroupStats(group: Group, isAuto: Option<bool>, scenarios: nat, events: nat, bytes: nat,
                                   errors: nat)

  // ---- What the report should say ----

  function Groups(runs: seq<Scenario>): set<Group>
  {
    set r | r in runs :: r.group
  }

  /** The groups in the order they first appear. */
  function FirstAppearances(runs: seq<Scenario>): seq<Group>
  {
    if runs == [] then []
    else
      var earlier := FirstAppearances(runs[..|runs| - 1]);
      var g := runs[|runs| - 1].group;
      if g in earlier then earlier else earlier + [g]
  }

  /** The scenarios of one group, in order. */
  function Of(runs: seq<Scenario>, g: Group): seq<Scenario>
  {
    if runs == [] then []
    else if runs[|runs| - 1].group == g then Of(runs[..|runs| - 1], g) + [runs[|runs| - 1]]
    else Of(runs[..|runs| - 1], g)
  }

  /** Events, bytes and errors together, so that one law covers the three. */
  datatype Totals = Totals(scenarios: nat, events: nat, bytes: nat, errors: nat)
  {
    function Plus(o: Totals): Totals
    {
      Totals(scenarios + o.scenarios, events + o.events, bytes + o.bytes, errors + o.errors)
    }
  }

  const NONE := Totals(0, 0, 0, 0)

  function Add(runs: seq<Scenario>): Totals
  {
    if runs == [] then NONE
    else
      var r := runs[|runs| - 1];
      Add(runs[..|runs| - 1]).Plus(Totals(1, r.events, r.bytes, r.errors))
  }

  /** A group's line: the flag of its first scenario, the totals of all of them. */
  predicate Line(runs: seq<Scenario>, g: Group, s: GroupStats)
  {
    && Of(runs, g) != [] && s.group == g && s.isAuto == Of(runs, g)[0].isAuto
    && Totals(s.scenarios, s.events, s.bytes, s.errors) == Add(Of(runs, g))
  }

  function AddLines(lines: seq<GroupStats>): Totals
  {
    if lines == [] then NONE
    else
      var l := lines[|lines| - 1];
      AddLines(lines[..|lines| - 1]).Plus(Totals(l.scenarios, l.events, l.bytes, l.errors))
  }

  // ---- Facts about the specification ----

  lemma {:induction false} OfSnoc(runs: seq<Scenario>, r: Scenario, g: Group)
    ensures Of(runs + [r], g) == if r.group == g then Of(runs, g) + [r] else Of(runs, g)
  {
    assert (runs + [r])[..|runs|] == runs;
  }

  lemma {:induction false} AddSnoc(runs: seq<Scenario>, r: Scenario)
    ensures Add(runs + [r]) == Add(runs).Plus(Totals(1, r.events, r.bytes, r.errors))
  {
    assert (runs + [r])[..|runs|] == runs;
  }

  lemma {:induction false} AppearancesSnoc(runs: seq<Scenario>, r: Scenario)
    ensures FirstAppearances(runs + [r]) ==
            if r.group in FirstAppearances(runs) then FirstAppearances(runs) else FirstAppearances(runs) + [r.group]
  {
    assert (runs + [r])[..|runs|] == runs;
  }

  lemma {:induction false} AppearancesAre(runs: seq<Scenario>)
    ensures NoDuplicates(FirstAppearances(runs))
    ensures forall g :: g in FirstAppearances(runs) <==> Of(runs, g) != []
    ensures forall g :: g in FirstAppearances(runs) <==> g in Groups(runs)
  {
    if runs != [] {
      var n := |runs| - 1;
      assert runs == runs[..n] + [runs[n]];
      AppearancesAre(runs[..n]);
      assert Groups(runs) == Groups(runs[..n]) + {runs[n].group};
    }
  }

  lemma {:induction false} CountDistinct<T>(s: seq<T>, elements: set<T>)
    requires NoDuplicates(s) && forall x :: x in s <==> x in elements
    ensures |s| == |elements|
    decreases |s|
  {
    if s == [] {
      assert elements == {};
    } else {
      var n := |s| - 1;
      assert s == s[..n] + [s[n]];
      CountDistinct(s[..n], elements - {s[n]});
    }
  }

  /** The first group to appear comes first: a group listed before another has a scenario before
      every scenario of the other. */
  lemma {:induction false} OrderedByAppearance(runs: seq<Scenario>, a: nat, b: nat, k: nat)
    requires a < b < |FirstAppearances(runs)| && k < |runs| && runs[k].group == FirstAppearances(runs)[b]
    ensures exists i :: 0 <= i < k && runs[i].group == FirstAppearances(runs)[a]
    decreases |runs|
  {
    var n := |runs| - 1;
    var earlier := FirstAppearances(runs[..n]);
    AppearancesAre(runs[..n]);
    if k < n {
      MemberAppears(runs[..n], k);
      OrderedByAppearance(runs[..n], a, b, k);
      var i :| 0 <= i < k && runs[..n][i].group == earlier[a];
      assert runs[i].group == FirstAppearances(runs)[a];
    } else {
      assert a < |earlier| && earlier[a] == FirstAppearances(runs)[a];
      var i := Appears(runs[..n], earlier[a]);
      assert runs[i].group == FirstAppearances(runs)[a];
    }
  }

  lemma {:induction false} MemberAppears(runs: seq<Scenario>, k: nat)
    requires k < |runs|
    ensures runs[k].group in FirstAppearances(runs)
  {
    AppearancesAre(runs);
    assert runs[k] in runs;
  }

  lemma {:induction false} Appears(runs: seq<Scenario>, g: Group) returns (i: nat)
    requires g in FirstAppearances(runs)
    ensures i < |runs| && runs[i].group == g
  {
    AppearancesAre(runs);
    var r :| r in runs && r.group == g;
    i :| i < |runs| && runs[i] == r;
  }

  // ---- The fold ----

  ghost predicate Binned(runs: seq<Scenario>, order: seq<Group>, bins: map<Group, GroupStats>)
  {
    && order == FirstAppearances(runs)
    && (forall g :: g in bins <==> g in order)
    && (forall g :: g in bins ==> Line(runs, g, bins[g]) && bins[g].scenarios > 0)
  }

  function Fresh(r: Scenario): GroupStats
  {
    GroupStats(r.group, r.isAuto, 0, 0, 0, 0)
  }

  function Counted(s: GroupStats, r: Scenario): GroupStats
  {
    s.(scenarios := s.scenarios + 1, events := s.events + r.events, bytes := s.bytes + r.bytes,
       errors := s.errors + r.errors)
  }

  lemma {:induction false} CountedLine(runs: seq<Scenario>, r: Scenario, s: GroupStats)
    requires if Of(runs, r.group) == [] then s == Fresh(r) else Line(runs, r.group, s)
    ensures Line(runs + [r], r.group, Counted(s, r))
  {
    OfSnoc(runs, r, r.group);
    AddSnoc(Of(runs, r.group), r);
  }

  lemma {:induction false} OtherLine(runs: seq<Scenario>, r: Scenario, g: Group, s: GroupStats)
    requires g != r.group && Line(runs, g, s)
    ensures Line(runs + [r], g, s)
  {
    OfSnoc(runs, r, g);
  }

  lemma {:induction false} BinnedSnoc(runs: seq<Scenario>, r: Scenario, all: seq<Scenario>, order: seq<Group>,
                                      bins: map<Group, GroupStats>)
    requires Binned(runs, order, bins) && all == runs + [r]
    ensures var s := if r.group in bins then bins[r.group] else Fresh(r);
            Binned(all, if s.scenarios == 0 then order + [r.group] else order, bins[r.group := Counted(s, r)])
  {
    var s := if r.group in bins then bins[r.group] else Fresh(r);
    var bins' := bins[r.group := Counted(s, r)];
    AppearancesAre(runs);
    AppearancesSnoc(runs, r);
    CountedLine(runs, r, s);
    forall g | g in bins' ensures Line(all, g, bins'[g]) && bins'[g].scenarios > 0 {
      if g != r.group {
        OtherLine(runs, r, g, bins[g]);
      }
    }
  }

  /** One line per group, in order of first appearance, each with its group's totals; looking up
      the bin of a listed group never fails. */
  method BuildClockGroupStats(runs: seq<Scenario>) returns (lines: seq<GroupStats>)
    ensures |lines| == |FirstAppearances(runs)|
    ensures forall i :: 0 <= i < |lines| ==> Line(runs, FirstAppearances(runs)[i], lines[i])
  {
    var order: seq<Group> := [];
    var bins: map<Group, GroupStats> := map[];
    assert runs[..0] == [];
    for k := 0 to |runs|
      invariant Binned(runs[..k], order, bins)
    {
      var r := runs[k];
      PrefixSnoc(runs, k);
      BinnedSnoc(runs[..k], r, runs[..k + 1], order, bins);
      var entry := if r.group in bins then bins[r.group] else Fresh(r);
      if entry.scenarios == 0 {
        order := order + [r.group];
      }
      bins := bins[r.group := Counted(entry, r)];
    }
    assert runs[..|runs|] == runs;
    lines := InOrder(runs, order, bins);
  }

  /** The bins, taken out in order: the lookup finds one each time. */
  method InOrder(ghost runs: seq<Scenario>, order: seq<Group>, bins: map<Group, GroupStats>)
      returns (lines: seq<GroupStats>)
    requires Binned(runs, order, bins)
    ensures |lines| == |order| && forall i :: 0 <= i < |lines| ==> Line(runs, order[i], lines[i])
  {
    AppearancesAre(runs);
    var bins := bins;
    lines := [];
    for i := 0 to |order|
      invariant |lines| == i && forall j :: 0 <= j < i ==> Line(runs, order[j], lines[j])
      invariant forall j :: i <= j < |order| ==> order[j] in bins && Line(runs, order[j], bins[order[j]])
    {
      lines := lines + [bins[order[i]]];
      bins := bins - {order[i]};
    }
  }

  /** `distinct_group_count` says how many lines there are. */
  method DistinctGroupCount(runs: seq<Scenario>) returns (n: nat)
    ensures n == |FirstAppearances(runs)| == |Groups(runs)|
  {
    var groups: set<Group> := {};
    for k := 0 to |runs|
      invariant groups == Groups(runs[..k])
    {
      assert runs[..k + 1] == runs[..k] + [runs[k]];
      assert Groups(runs[..k + 1]) == groups + {runs[k].group};
      groups := groups + {runs[k].group};
    }
    assert runs[..|runs|] == runs;
    AppearancesAre(runs);
    CountDistinct(FirstAppearances(runs), groups);
    n := |groups|;
  }

  // ---- Conservation ----

  /** The totals of the groups in `order`, one after another. */
  function AddGroups(runs: seq<Scenario>, order: seq<Group>): Totals
  {
    if order == [] then NONE else AddGroups(runs, order[..|order| - 1]).Plus(Add(Of(runs, order[|order| - 1])))
  }

  lemma {:induction false} AddGroupsSnoc(runs: seq<Scenario>, r: Scenario, order: seq<Group>)
    requires NoDuplicates(order)
    ensures AddGroups(runs + [r], order) ==
            if r.group in order then AddGroups(runs, order).Plus(Totals(1, r.events, r.bytes, r.errors))
            else AddGroups(runs, order)
    decreases |order|
  {
    if order != [] {
      var n := |order| - 1;
      AddGroupsSnoc(runs, r, order[..n]);
      OfSnoc(runs, r, order[n]);
      AddSnoc(Of(runs, order[n]), r);
      assert order == order[..n] + [order[n]];
    }
  }

  /** Listing one more group adds its totals; a group of one scenario adds that scenario. */
  lemma {:induction false} AddGroupsNew(runs: seq<Scenario>, r: Scenario, order: seq<Group>)
    requires Of(runs, r.group) == []
    ensures AddGroups(runs + [r], order + [r.group]) ==
            AddGroups(runs + [r], order).Plus(Totals(1, r.events, r.bytes, r.errors))
  {
    assert (order + [r.group])[..|order|] == order;
    OfSnoc(runs, r, r.group);
    AddSnoc([], r);
    assert [] + [r] == [r];
  }

  lemma {:induction false} GroupsConserveSnoc(runs: seq<Scenario>, r: Scenario, whole: seq<Scenario>)
    requires AddGroups(runs, FirstAppearances(runs)) == Add(runs) && whole == runs + [r]
    ensures AddGroups(whole, FirstAppearances(whole)) == Add(whole)
  {
    var order := FirstAppearances(runs);
    AppearancesAre(runs);
    AppearancesSnoc(runs, r);
    AddGroupsSnoc(runs, r, order);
    AddSnoc(runs, r);
    if r.group !in order {
      AddGroupsNew(runs, r, order);
    }
  }

  lemma {:induction false} GroupsConserve(runs: seq<Scenario>)
    ensures AddGroups(runs, FirstAppearances(runs)) == Add(runs)
  {
    if runs != [] {
      var n := |runs| - 1;
      GroupsConserve(runs[..n]);
      SplitLast(runs);
      GroupsConserveSnoc(runs[..n], runs[n], runs);
    }
  }

  lemma {:induction false} LinesAreGroups(runs: seq<Scenario>, order: seq<Group>, lines: seq<GroupStats>)
    requires |lines| == |order| && forall i :: 0 <= i < |lines| ==> Line(runs, order[i], lines[i])
    ensures AddLines(lines) == AddGroups(runs, order)
    decreases |order|
  {
    if order != [] {
      LinesAreGroups(runs, order[..|order| - 1], lines[..|order| - 1]);
    }
  }

  /** No scenario, event, byte or error is lost or counted twice. */
  lemma ReportConserves(runs: seq<Scenario>, lines: seq<GroupStats>)
    requires |lines| == |FirstAppearances(runs)|
    requires forall i :: 0 <= i < |lines| ==> Line(runs, FirstAppearances(runs)[i], lines[i])
    ensures AddLines(lines) == Add(runs) && AddLines(lines).scenarios == |runs|
  {
    LinesAreGroups(runs, FirstAppearances(runs), lines);
    GroupsConserve(runs);
    CountsRuns(runs);
  }

  lemma {:induction false} CountsRuns(runs: seq<Scenario>)
    ensures Add(runs).scenarios == |runs|
  {
    if runs != [] {
      CountsRuns(runs[..|runs| - 1]);
    }
  }
}
