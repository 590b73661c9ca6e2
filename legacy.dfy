/** The original script: four parallel module-level lists (names, department
    labels, gross and net salaries) and a loop flag, changed by a menu loop
    whose add branches compute the net salary inline. */
module Legacy {
  import opened Payroll
  import opened Cli

  /** The script's module-level state at one moment. */
  datatype Snapshot = Snapshot(names: seq<string>, depts: seq<string>, grosses: seq<real>, nets: seq<real>, flag: int) {
    /** The four lists have equal length, so index j describes one employee in each. */
    predicate Aligned() {
      |depts| == |names| && |grosses| == |names| && |nets| == |names|
    }
  }

  /** The state after a pass (or a run), what it printed, and whether float() raised. */
  datatype Outcome = Outcome(state: Snapshot, output: seq<ReportLine>, raised: bool)

  /** Empty lists and the flag at 1, as the script starts. */
  const Initial: Snapshot := Snapshot([], [], [], [], 1)

  /** The flat cafeteria deduction written in each add branch. */
  const Discount: real := 50.0

  /** The department label, tax rate and confirmation message written into one add branch. */
  datatype Branch = Branch(deptLabel: string, rate: real, saved: string)

  /** The add branch an option selects, if any. */
  function AddBranch(option: string): (branch: Option<Branch>)
    ensures option == "1" <==> branch == Some(Branch("Ventas", 0.15, "Guardado Ventas."))
    ensures option == "2" <==> branch == Some(Branch("IT", 0.15, "Guardado IT."))
    ensures option == "3" <==> branch == Some(Branch("RRHH", 0.16, "Guardado RRHH."))
  {
    if option == "1" then Some(Branch("Ventas", 0.15, "Guardado Ventas."))
    else if option == "2" then Some(Branch("IT", 0.15, "Guardado IT."))
    else if option == "3" then Some(Branch("RRHH", 0.16, "Guardado RRHH."))
    else None
  }

  /** The net salary as an add branch computes it: gross minus tax minus the
      deduction, replaced by zero when negative. */
  function ClampedNet(gross: real, rate: real): (neto: real)
    ensures neto >= 0.0
    ensures neto >= gross - gross * rate - Discount
    ensures neto == 0.0 || neto == gross - gross * rate - Discount
  {
    var temp := gross * rate;
    var neto := gross - temp - Discount;
    if neto < 0.0 then 0.0 else neto
  }

  /** The report lines for indices 0 to j - 1. */
  function Rows(st: Snapshot, j: nat): (lines: seq<ReportLine>)
    requires st.Aligned() && j <= |st.names|
    ensures |lines| == 4 * j
  {
    if j == 0 then []
    else Rows(st, j - 1) + [Text("Emp: " + st.names[j - 1]), Text("Depto: " + st.depts[j - 1]),
                            Payment(st.nets[j - 1]), Text(Separator)]
  }

  /** What option "4" prints. */
  function LegacyReport(st: Snapshot): seq<ReportLine>
    requires st.Aligned()
  {
    if |st.names| > 0 then Rows(st, |st.names|) else [Text(EmptyReport)]
  }

  /** Row j of the report is four lines drawn from index j of the lists. */
  lemma {:induction false} RowsAt(st: Snapshot, n: nat, j: nat)
    requires st.Aligned() && j < n <= |st.names|
    ensures Rows(st, n)[4 * j] == Text("Emp: " + st.names[j])
    ensures Rows(st, n)[4 * j + 1] == Text("Depto: " + st.depts[j])
    ensures Rows(st, n)[4 * j + 2] == Payment(st.nets[j])
    ensures Rows(st, n)[4 * j + 3] == Text(Separator)
  {
    if j < n - 1 {
      RowsAt(st, n - 1, j);
    }
  }

  /** Option "4" prints only the sentinel for empty lists, and otherwise one
      four-line block per index j, in index order. */
  lemma LegacyReportContents(st: Snapshot)
    requires st.Aligned()
    ensures |st.names| == 0 ==> LegacyReport(st) == [Text(EmptyReport)]
    ensures |st.names| > 0 ==> |LegacyReport(st)| == 4 * |st.names|
    ensures |st.names| > 0 ==> forall j :: 0 <= j < |st.names| ==>
      LegacyReport(st)[4 * j] == Text("Emp: " + st.names[j]) &&
      LegacyReport(st)[4 * j + 1] == Text("Depto: " + st.depts[j]) &&
      LegacyReport(st)[4 * j + 2] == Payment(st.nets[j]) &&
      LegacyReport(st)[4 * j + 3] == Text(Separator)
  {
    forall j | 0 <= j < |st.names|
      ensures Rows(st, |st.names|)[4 * j] == Text("Emp: " + st.names[j])
      ensures Rows(st, |st.names|)[4 * j + 1] == Text("Depto: " + st.depts[j])
      ensures Rows(st, |st.names|)[4 * j + 2] == Payment(st.nets[j])
      ensures Rows(st, |st.names|)[4 * j + 3] == Text(Separator)
    {
      RowsAt(st, |st.names|, j);
    }
  }

  /** One pass of the loop. A non-numeric salary raises before anything is appended. */
  function LegacyStep(st: Snapshot, entry: Entry): (next: Outcome)
    requires st.Aligned()
    ensures next.state.Aligned()
    ensures next.raised <==> AddBranch(entry.option).Some? && entry.grossSalary.None?
    ensures next.state.flag == (if entry.option == "5" then 0 else st.flag)
    ensures AddBranch(entry.option).Some? && entry.grossSalary.Some? ==>
      var branch := AddBranch(entry.option).value;
      var gross := entry.grossSalary.value;
      next.state.names == st.names + [entry.name] && next.state.depts == st.depts + [branch.deptLabel] &&
      next.state.grosses == st.grosses + [gross] && next.state.nets == st.nets + [ClampedNet(gross, branch.rate)]
    ensures AddBranch(entry.option).None? || entry.grossSalary.None? ==>
      next.state.(flag := st.flag) == st
    ensures entry.option == "4" ==> next.output == LegacyReport(st)
    ensures AddBranch(entry.option).None? && entry.option != "4" && entry.option != "5" ==>
      next.output == [Text(UnknownOption)]
  {
    match AddBranch(entry.option)
    case Some(Branch(deptLabel, rate, saved)) =>
      (match entry.grossSalary
       case None => Outcome(st, [], true)
       case Some(gross) =>
         Outcome(st.(names := st.names + [entry.name], depts := st.depts + [deptLabel],
                     grosses := st.grosses + [gross], nets := st.nets + [ClampedNet(gross, rate)]),
                 [Text(saved)], false))
    case None =>
      if entry.option == "4" then Outcome(st, LegacyReport(st), false)
      else if entry.option == "5" then Outcome(st.(flag := 0), [], false)
      else Outcome(st, [Text(UnknownOption)], false)
  }

  /** Passes of the loop while the flag is 1, until float() raises or the input ends. */
  function LegacyRun(st: Snapshot, entries: seq<Entry>): (last: Outcome)
    requires st.Aligned()
    ensures last.state.Aligned()
    ensures st.names <= last.state.names && st.depts <= last.state.depts
    ensures st.grosses <= last.state.grosses && st.nets <= last.state.nets
    decreases |entries|
  {
    if st.flag != 1 || entries == [] then Outcome(st, [], false)
    else
      var first := LegacyStep(st, entries[0]);
      if first.raised then first
      else
        var rest := LegacyRun(first.state, entries[1..]);
        Outcome(rest.state, first.output + rest.output, rest.raised)
  }

  /** Option "5" sets the flag to 0, so the entries after it are never read. */
  lemma LegacyRunStopsAtFive(st: Snapshot, entry: Entry, rest: seq<Entry>)
    requires st.Aligned() && st.flag == 1 && entry.option == "5"
    ensures LegacyRun(st, [entry] + rest) == Outcome(st.(flag := 0), [], false)
  {
    assert ([entry] + rest)[0] == entry;
  }

  /** The script's globals, updated in place by the loop. */
  class App {
    var names: seq<string>
    var depts: seq<string>
    var grosses: seq<real>
    var nets: seq<real>
    var flag: int

    function State(): Snapshot
      reads this
    {
      Snapshot(names, depts, grosses, nets, flag)
    }

    constructor ()
      ensures State() == Initial
    {
      names, depts, grosses, nets := [], [], [], [];
      flag := 1;
    }

    /** The body shared by the three add branches: compute the net salary,
        clamp it, and append one element to each list. */
    method Append(name: string, deptLabel: string, gross: real, impuesto: real)
      requires State().Aligned()
      modifies this
      ensures State().Aligned() && flag == old(flag)
      ensures names == old(names) + [name] && depts == old(depts) + [deptLabel]
      ensures grosses == old(grosses) + [gross] && nets == old(nets) + [ClampedNet(gross, impuesto)]
    {
      var temp := gross * impuesto;
      var neto := gross - temp - Discount;
      if neto < 0.0 {
        neto := 0.0;
      }
      names := names + [name];
      depts := depts + [deptLabel];
      grosses := grosses + [gross];
      nets := nets + [neto];
    }

    /** Option "4": walks the names with an index j into the other lists. */
    method Report() returns (output: seq<ReportLine>)
      requires State().Aligned()
      ensures output == LegacyReport(State())
    {
      output := [];
      var j := 0;
      if |names| > 0 {
        while j < |names|
          invariant 0 <= j <= |names|
          invariant output == Rows(State(), j)
        {
          output := output + [Text("Emp: " + names[j]), Text("Depto: " + depts[j]),
                              Payment(nets[j]), Text(Separator)];
          j := j + 1;
        }
      } else {
        output := [Text(EmptyReport)];
      }
    }

    /** One pass of the loop; raised is true when float() rejects the salary. */
    method Step(entry: Entry) returns (output: seq<ReportLine>, raised: bool)
      requires State().Aligned()
      modifies this
      ensures Outcome(State(), output, raised) == LegacyStep(old(State()), entry)
    {
      output, raised := [], false;
      if entry.option == "1" {
        if entry.grossSalary.None? {
          raised := true;
          return;
        }
        Append(entry.name, "Ventas", entry.grossSalary.value, 0.15);
        output := [Text("Guardado Ventas.")];
      } else if entry.option == "2" {
        if entry.grossSalary.None? {
          raised := true;
          return;
        }
        Append(entry.name, "IT", entry.grossSalary.value, 0.15);
        output := [Text("Guardado IT.")];
      } else if entry.option == "3" {
        if entry.grossSalary.None? {
          raised := true;
          return;
        }
        Append(entry.name, "RRHH", entry.grossSalary.value, 0.16);
        output := [Text("Guardado RRHH.")];
      } else if entry.option == "4" {
        output := Report();
      } else if entry.option == "5" {
        flag := 0;
      } else {
        output := [Text(UnknownOption)];
      }
    }
  }

  /** The whole script over the given entries: loop while the flag is 1,
      stopping early when float() raises. */
  method RunApp(entries: seq<Entry>) returns (app: App, output: seq<ReportLine>, raised: bool)
    ensures fresh(app)
    ensures Outcome(app.State(), output, raised) == LegacyRun(Initial, entries)
  {
    app := new App();
    output, raised := [], false;
    var i := 0;
    while app.flag == 1 && !raised && i < |entries|
      invariant 0 <= i <= |entries|
      invariant app.State().Aligned()
      invariant !raised ==>
        var rest := LegacyRun(app.State(), entries[i..]);
        LegacyRun(Initial, entries) == Outcome(rest.state, output + rest.output, rest.raised)
      invariant raised ==> LegacyRun(Initial, entries) == Outcome(app.State(), output, raised)
    {
      assert entries[i..][0] == entries[i] && entries[i..][1..] == entries[i + 1..];
      var out;
      out, raised := app.Step(entries[i]);
      output := output + out;
      i := i + 1;
    }
  }
}
