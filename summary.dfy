/** The detailed plan of the predictions page and its summary table: the
    plan is the JSON bracketed cut out of the model's reply, one entry per
    phase with its subphase breakdown; the table has, per phase, a total
    row followed by one row per subphase. */
module Summary {
  import opened Wrappers
  import opened Text
  import opened Scrub

  /** A subphase as parsed: each field may be missing from the JSON. */
  datatype Subphase = Subphase(name: Option<string>, weeks: Option<real>, cost: Option<real>)

  /** A phase of the plan; a missing "Subphase Breakdown" is empty. */
  datatype PlanPhase = PlanPhase(name: string, subphases: seq<Subphase>)

  datatype SummaryRow = SummaryRow(caption: string, weeks: real, cost: real)

  // ---------------------------------------------------------------------
  // Parsing the plan

  /** The plan as the page reads it: the bracketed span is handed to the
      JSON parser `loads`; when it fails the error is shown together with
      the raw reply and the run stops. */
  function ParsePlan(reply: string, loads: string -> Option<seq<PlanPhase>>): (r: Result<seq<PlanPhase>, string>)
    ensures r.Failure? ==> r.error == reply
    ensures r.Success? <==> loads(BracketSpan(reply)).Some?
    ensures r.Success? ==> r.value == loads(BracketSpan(reply)).value
  {
    match loads(BracketSpan(reply))
    case None => Failure(reply)
    case Some(plan) => Success(plan)
  }

  /** The first occurrence is pinned down by its position. */
  lemma FindAt(s: string, c: char, i: nat)
    requires i < |s| && s[i] == c && c !in s[..i]
    ensures Find(s, c) == i
  {
    assert s[i] in s;
  }

  /** The last occurrence is pinned down by its position. */
  lemma RFindAt(s: string, c: char, i: nat)
    requires i < |s| && s[i] == c && c !in s[i + 1..]
    ensures RFind(s, c) == i
  {
    assert s[i] in s;
  }

  /** The span runs from the first '[' through the last ']'. */
  lemma BracketSpanAt(s: string, i: nat, j: nat)
    requires i <= j < |s|
    requires s[i] == '[' && '[' !in s[..i]
    requires s[j] == ']' && ']' !in s[j + 1..]
    ensures BracketSpan(s) == s[i..j + 1]
  {
    FindAt(s, '[', i);
    RFindAt(s, ']', j);
  }

  /** Whatever the model writes around the array, as long as no '[' comes
      before it and no ']' after it, the parser is handed exactly the
      array. */
  lemma ParsePlanSeesArray(pre: string, body: string, post: string)
    requires '[' !in pre && ']' !in post
    ensures BracketSpan(pre + "[" + body + "]" + post) == "[" + body + "]"
  {
    var bracketed := ['['] + body + [']'];
    assert bracketed == "[" + body + "]";
    var s := pre + bracketed + post;
    assert s == pre + "[" + body + "]" + post;
    var i, j := |pre|, |pre| + |body| + 1;
    assert s[i] == bracketed[0] == '[';
    assert s[j] == bracketed[|body| + 1] == ']';
    assert s[..i] == pre;
    assert s[j + 1..] == post;
    assert s[i..j + 1] == bracketed;
    BracketSpanAt(s, i, j);
  }

  // ---------------------------------------------------------------------
  // The summary table

  /** The prefix that marks a subphase row ("   ↳"). */
  const SubMarker: string := "   ↳"

  /** The label of a subphase row. */
  function SubLabel(name: string): string
  {
    SubMarker + " " + name
  }

  /** highlight_phase and the spreadsheet formatting: a row is a phase row
      exactly when its label does not start with the marker. */
  predicate IsPhaseRow(row: SummaryRow): (b: bool)
    ensures b <==> |row.caption| < |SubMarker| || row.caption[..|SubMarker|] != SubMarker
    ensures b ==> forall name :: row.caption != SubLabel(name)
  {
    !StartsWith(row.caption, SubMarker)
  }

  /** sum(sp.get("Duration (weeks)", 0) for sp in subphases) */
  function SumWeeks(subs: seq<Subphase>): real
  {
    if subs == [] then 0.0
    else SumWeeks(subs[..|subs| - 1]) + subs[|subs| - 1].weeks.GetOr(0.0)
  }

  /** sum(sp.get("Cost (USD)", 0) for sp in subphases) */
  function SumCost(subs: seq<Subphase>): real
  {
    if subs == [] then 0.0
    else SumCost(subs[..|subs| - 1]) + subs[|subs| - 1].cost.GetOr(0.0)
  }

  /** The total row of a phase. */
  function TotalRow(p: PlanPhase): (r: SummaryRow)
    ensures r.caption == p.name
    ensures IsPhaseRow(r) <==> !StartsWith(p.name, SubMarker)
    ensures r.weeks == SumWeeks(p.subphases) && r.cost == SumCost(p.subphases)
  {
    SummaryRow(p.name, SumWeeks(p.subphases), SumCost(p.subphases))
  }

  /** When no subphase carries a negative duration or cost, the phase totals
      are non-negative; missing fields count as 0. */
  lemma {:induction false} SumsNonNegative(subs: seq<Subphase>)
    requires forall k :: 0 <= k < |subs| ==> subs[k].weeks.GetOr(0.0) >= 0.0 && subs[k].cost.GetOr(0.0) >= 0.0
    ensures SumWeeks(subs) >= 0.0 && SumCost(subs) >= 0.0
  {
    if subs != [] {
      var init := subs[..|subs| - 1];
      assert forall k :: 0 <= k < |init| ==> init[k] == subs[k];
      SumsNonNegative(init);
    }
  }

  /** The row of one subphase, or the key whose lookup raises KeyError: the
      name is read first, then the duration, then the cost. */
  function SubRow(sp: Subphase): (r: Result<SummaryRow, string>)
    ensures r.Success? <==> sp.name.Some? && sp.weeks.Some? && sp.cost.Some?
    ensures r.Success? ==> !IsPhaseRow(r.value)
  {
    if sp.name.None? then Failure("Name")
    else if sp.weeks.None? then Failure("Duration (weeks)")
    else if sp.cost.None? then Failure("Cost (USD)")
    else
      assert (SubMarker + " " + sp.name.value)[..|SubMarker|] == SubMarker;
      Success(SummaryRow(SubLabel(sp.name.value), sp.weeks.value, sp.cost.value))
  }

  /** The subphase rows of one phase, in order, or the first KeyError. */
  function SubRows(subs: seq<Subphase>): (r: Result<seq<SummaryRow>, string>)
    ensures r.Success? ==> |r.value| == |subs|
  {
    if subs == [] then Success([])
    else
      match SubRows(subs[..|subs| - 1])
      case Failure(e) => Failure(e)
      case Success(rows) =>
        match SubRow(subs[|subs| - 1])
        case Failure(e) => Failure(e)
        case Success(row) => Success(rows + [row])
  }

  /** The rows of one phase: its total row, then its subphase rows. */
  function PhaseRows(p: PlanPhase): (r: Result<seq<SummaryRow>, string>)
    ensures r.Success? ==> |r.value| == 1 + |p.subphases|
  {
    match SubRows(p.subphases)
    case Failure(e) => Failure(e)
    case Success(rows) => Success([TotalRow(p)] + rows)
  }

  /** The whole table, phases in plan order, or the first KeyError. */
  function Table(phases: seq<PlanPhase>): (r: Result<seq<SummaryRow>, string>)
    ensures r.Success? ==> |r.value| == |phases| + SubphaseCount(phases)
  {
    if phases == [] then Success([])
    else
      match Table(phases[..|phases| - 1])
      case Failure(e) => Failure(e)
      case Success(rows) =>
        match PhaseRows(phases[|phases| - 1])
        case Failure(e) => Failure(e)
        case Success(more) => Success(rows + more)
  }

  /** Builds the summary rows with the page's nested append loops. */
  method BuildSummary(phases: seq<PlanPhase>) returns (res: Result<seq<SummaryRow>, string>)
    ensures res == Table(phases)
  {
    var rows: seq<SummaryRow> := [];
    var i := 0;
    while i < |phases|
      invariant 0 <= i <= |phases|
      invariant Table(phases[..i]) == Success(rows)
    {
      var p := phases[i];
      var done := rows;
      rows := rows + [TotalRow(p)];
      var j := 0;
      while j < |p.subphases|
        invariant 0 <= j <= |p.subphases|
        invariant SubRows(p.subphases[..j]).Success?
        invariant rows == done + [TotalRow(p)] + SubRows(p.subphases[..j]).value
      {
        var sp := p.subphases[j];
        if sp.name.None? || sp.weeks.None? || sp.cost.None? {
          TableStopsAt(phases, i, j);
          return Failure(SubRow(sp).error);
        }
        var row := SummaryRow(SubLabel(sp.name.value), sp.weeks.value, sp.cost.value);
        SubRowsStep(p.subphases, j, row);
        rows := rows + [row];
        j := j + 1;
      }
      assert p.subphases[..j] == p.subphases;
      TableStep(phases, i, done);
      assert rows == done + ([TotalRow(p)] + SubRows(p.subphases).value);
      i := i + 1;
    }
    assert phases[..i] == phases;
    res := Success(rows);
  }

  /** One more well-formed subphase adds its row to the subphase rows. */
  lemma SubRowsStep(subs: seq<Subphase>, j: nat, row: SummaryRow)
    requires j < |subs| && SubRows(subs[..j]).Success? && SubRow(subs[j]) == Success(row)
    ensures SubRows(subs[..j + 1]) == Success(SubRows(subs[..j]).value + [row])
  {
    assert subs[..j + 1][..j] == subs[..j];
  }

  /** One more phase whose subphases are well formed adds its rows to the table. */
  lemma TableStep(phases: seq<PlanPhase>, i: nat, done: seq<SummaryRow>)
    requires i < |phases| && Table(phases[..i]) == Success(done)
    requires SubRows(phases[i].subphases).Success?
    ensures Table(phases[..i + 1])
      == Success(done + ([TotalRow(phases[i])] + SubRows(phases[i].subphases).value))
  {
    assert phases[..i + 1][..i] == phases[..i];
  }

  /** A failure in an earlier phase is the failure of the whole table. */
  lemma {:induction false} TableKeepsFailure(phases: seq<PlanPhase>, k: nat)
    requires k <= |phases| && Table(phases[..k]).Failure?
    ensures Table(phases) == Table(phases[..k])
    decreases |phases| - k
  {
    if k < |phases| {
      assert phases[..k + 1][..k] == phases[..k];
      TableKeepsFailure(phases, k + 1);
    } else {
      assert phases[..k] == phases;
    }
  }

  /** When the subphase rows of a prefix of a phase succeed and the next
      subphase misses a key, the table fails with that key. */
  lemma TableStopsAt(phases: seq<PlanPhase>, i: nat, j: nat)
    requires i < |phases| && j < |phases[i].subphases|
    requires Table(phases[..i]).Success?
    requires SubRows(phases[i].subphases[..j]).Success?
    requires SubRow(phases[i].subphases[j]).Failure?
    ensures Table(phases) == Failure(SubRow(phases[i].subphases[j]).error)
  {
    var subs := phases[i].subphases;
    SubRowsKeepFailure(subs, j + 1);
    assert subs[..j + 1][..j] == subs[..j];
    assert phases[..i + 1][..i] == phases[..i];
    TableKeepsFailure(phases, i + 1);
  }

  lemma {:induction false} SubRowsKeepFailure(subs: seq<Subphase>, k: nat)
    requires k <= |subs| && SubRows(subs[..k]).Failure?
    ensures SubRows(subs) == SubRows(subs[..k])
    decreases |subs| - k
  {
    if k < |subs| {
      assert subs[..k + 1][..k] == subs[..k];
      SubRowsKeepFailure(subs, k + 1);
    } else {
      assert subs[..k] == subs;
    }
  }

  /** Every subphase has its three fields. */
  predicate Complete(subs: seq<Subphase>)
  {
    forall m :: 0 <= m < |subs| ==> subs[m].name.Some? && subs[m].weeks.Some? && subs[m].cost.Some?
  }

  /** The subphase rows fail exactly when some subphase misses a field;
      otherwise there is one row per subphase, in order, each labelled as a
      subphase row. */
  lemma {:induction false} SubRowsShape(subs: seq<Subphase>)
    ensures SubRows(subs).Success? <==> Complete(subs)
    ensures SubRows(subs).Success? ==> forall m :: 0 <= m < |subs| ==>
      && SubRows(subs).value[m].caption == SubLabel(subs[m].name.value)
      && SubRows(subs).value[m].weeks == subs[m].weeks.value
      && SubRows(subs).value[m].cost == subs[m].cost.value
      && !IsPhaseRow(SubRows(subs).value[m])
  {
    if subs != [] {
      var init := subs[..|subs| - 1];
      SubRowsShape(init);
      assert forall m :: 0 <= m < |init| ==> init[m] == subs[m];
    }
  }

  /** With every field present, a phase's total row adds up exactly the
      durations and the costs shown on its subphase rows. */
  lemma {:induction false} TotalsAddUp(subs: seq<Subphase>)
    requires Complete(subs)
    ensures SubRows(subs).Success?
    ensures SumWeeks(subs) == RowWeeks(SubRows(subs).value)
    ensures SumCost(subs) == RowCost(SubRows(subs).value)
  {
    SubRowsShape(subs);
    if subs != [] {
      var init := subs[..|subs| - 1];
      assert Complete(init) by {
        assert forall m :: 0 <= m < |init| ==> init[m] == subs[m];
      }
      TotalsAddUp(init);
      var rows := SubRows(subs).value;
      assert rows[..|rows| - 1] == SubRows(init).value;
    }
  }

  /** The sum of the durations of some rows. */
  function RowWeeks(rows: seq<SummaryRow>): real
  {
    if rows == [] then 0.0 else RowWeeks(rows[..|rows| - 1]) + rows[|rows| - 1].weeks
  }

  /** The sum of the costs of some rows. */
  function RowCost(rows: seq<SummaryRow>): real
  {
    if rows == [] then 0.0 else RowCost(rows[..|rows| - 1]) + rows[|rows| - 1].cost
  }

  /** The number of rows the styling treats as phase rows. */
  function CountPhaseRows(rows: seq<SummaryRow>): nat
  {
    if rows == [] then 0
    else CountPhaseRows(rows[..|rows| - 1]) + (if IsPhaseRow(rows[|rows| - 1]) then 1 else 0)
  }

  lemma {:induction false} CountPhaseRowsConcat(a: seq<SummaryRow>, b: seq<SummaryRow>)
    ensures CountPhaseRows(a + b) == CountPhaseRows(a) + CountPhaseRows(b)
    decreases |b|
  {
    if b != [] {
      assert (a + b)[..|a + b| - 1] == a + b[..|b| - 1];
      CountPhaseRowsConcat(a, b[..|b| - 1]);
    } else {
      assert a + b == a;
    }
  }

  /** When no phase name itself starts with the marker, the table has one
      row per phase plus one per subphase, and exactly one row per phase is
      styled as a phase row. */
  lemma {:induction false} TableRows(phases: seq<PlanPhase>)
    requires Table(phases).Success?
    requires forall k :: 0 <= k < |phases| ==> !StartsWith(phases[k].name, SubMarker)
    ensures |Table(phases).value| == |phases| + SubphaseCount(phases)
    ensures CountPhaseRows(Table(phases).value) == |phases|
  {
    if phases != [] {
      var init, p := phases[..|phases| - 1], phases[|phases| - 1];
      assert forall k :: 0 <= k < |init| ==> init[k] == phases[k];
      TableRows(init);
      var rows := SubRows(p.subphases).value;
      SubRowsShape(p.subphases);
      NoPhaseRows(rows);
      CountPhaseRowsConcat([TotalRow(p)], rows);
      assert CountPhaseRows([TotalRow(p)]) == 1 by {
        assert [TotalRow(p)][..0] == [];
      }
      CountPhaseRowsConcat(Table(init).value, [TotalRow(p)] + rows);
    }
  }

  /** Rows none of which is a phase row count for nothing. */
  lemma {:induction false} NoPhaseRows(rows: seq<SummaryRow>)
    requires forall m :: 0 <= m < |rows| ==> !IsPhaseRow(rows[m])
    ensures CountPhaseRows(rows) == 0
  {
    if rows != [] {
      NoPhaseRows(rows[..|rows| - 1]);
    }
  }

  /** The number of subphases over all phases. */
  function SubphaseCount(phases: seq<PlanPhase>): nat
  {
    if phases == [] then 0
    else SubphaseCount(phases[..|phases| - 1]) + |phases[|phases| - 1].subphases|
  }
}
