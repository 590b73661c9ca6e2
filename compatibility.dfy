/** The refactored program keeps the behaviour of the original script: on the
    same entries, as long as every salary typed for an add option is a
    number, both print the same lines and store the same employees. */
module Compatibility {
  import opened Payroll
  import opened Cli
  import opened Legacy

  /** Index i of the four script lists describes the i-th stored record. */
  predicate Corresponds(st: Snapshot, employees: seq<Employee>) {
    st.Aligned() && |st.names| == |employees| &&
    forall i :: 0 <= i < |employees| ==>
      st.names[i] == employees[i].name &&
      st.depts[i] == employees[i].department.Label() &&
      st.grosses[i] == employees[i].grossSalary &&
      st.nets[i] == employees[i].netSalary
  }

  /** Every add option among the entries comes with a salary that parsed. */
  predicate SalariesParse(entries: seq<Entry>) {
    forall i :: 0 <= i < |entries| ==> DepartmentFor(entries[i].option).None? || entries[i].grossSalary.Some?
  }

  /** Each add branch of the script writes the department's label and
      confirmation, and its inline net salary equals the calculator's. */
  lemma BranchMatchesCalculator(option: string, gross: real)
    requires DepartmentFor(option).Some?
    ensures AddBranch(option).Some?
    ensures AddBranch(option).value.deptLabel == DepartmentFor(option).value.Label()
    ensures AddBranch(option).value.saved == Saved(DepartmentFor(option).value)
    ensures ClampedNet(gross, AddBranch(option).value.rate) == ComputeNetSalary(gross, DepartmentFor(option).value)
  {
    match DepartmentFor(option).value
    case Sales => assert Saved(Sales) == "Guardado Ventas.";
    case IT => assert Saved(IT) == "Guardado IT.";
    case HR => assert Saved(HR) == "Guardado RRHH.";
  }

  /** The script's first j report rows are the first j refactored blocks. */
  lemma {:induction false} RowsMatchBlocks(st: Snapshot, employees: seq<Employee>, j: nat)
    requires Corresponds(st, employees) && j <= |employees|
    ensures Rows(st, j) == Blocks(employees[..j])
  {
    if j > 0 {
      RowsMatchBlocks(st, employees, j - 1);
      assert employees[..j][..j - 1] == employees[..j - 1];
    }
  }

  /** Option "4" prints the same lines in both programs. */
  lemma ReportsMatch(st: Snapshot, employees: seq<Employee>)
    requires Corresponds(st, employees)
    ensures LegacyReport(st) == ReportOf(employees)
  {
    if employees != [] {
      RowsMatchBlocks(st, employees, |employees|);
      assert employees[..|employees|] == employees;
    }
  }

  /** One pass over the same entry keeps the two states in step and prints the same lines. */
  lemma StepsMatch(st: Snapshot, employees: seq<Employee>, entry: Entry)
    requires Corresponds(st, employees) && st.flag == 1
    requires DepartmentFor(entry.option).None? || entry.grossSalary.Some?
    ensures var legacy := LegacyStep(st, entry);
            var refactored := Step(employees, entry);
            !legacy.raised && Corresponds(legacy.state, refactored.employees) &&
            legacy.output == refactored.output && (legacy.state.flag == 1 <==> refactored.running)
  {
    var legacy := LegacyStep(st, entry);
    var refactored := Step(employees, entry);
    if DepartmentFor(entry.option).Some? {
      BranchMatchesCalculator(entry.option, entry.grossSalary.value);
      var n := |employees|;
      assert legacy.state.names[n] == refactored.employees[n].name;
    } else if entry.option == "4" {
      ReportsMatch(st, employees);
    }
  }

  /** Runs over the same entries stay in step until both stop. */
  lemma {:induction false} RunsMatch(st: Snapshot, employees: seq<Employee>, entries: seq<Entry>)
    requires Corresponds(st, employees) && st.flag == 1 && SalariesParse(entries)
    ensures var legacy := LegacyRun(st, entries);
            var refactored := Run(employees, entries);
            !legacy.raised && Corresponds(legacy.state, refactored.employees) &&
            legacy.output == refactored.output && (legacy.state.flag == 1 <==> refactored.running)
    decreases |entries|
  {
    if entries != [] {
      StepsMatch(st, employees, entries[0]);
      var legacy := LegacyStep(st, entries[0]);
      var refactored := Step(employees, entries[0]);
      if refactored.running {
        assert SalariesParse(entries[1..]) by {
          forall i | 0 <= i < |entries[1..]|
            ensures DepartmentFor(entries[1..][i].option).None? || entries[1..][i].grossSalary.Some?
          {
            assert entries[1..][i] == entries[i + 1];
          }
        }
        RunsMatch(legacy.state, refactored.employees, entries[1..]);
      }
    }
  }

  /** From the start, the script's (name, label, gross, net) at index i is the
      i-th refactored record, both print the same lines, and both stop together. */
  lemma Compatible(entries: seq<Entry>)
    requires SalariesParse(entries)
    ensures var legacy := LegacyRun(Initial, entries);
            var refactored := Run([], entries);
            !legacy.raised && legacy.output == refactored.output &&
            (legacy.state.flag == 1 <==> refactored.running) &&
            |legacy.state.names| == |refactored.employees| &&
            forall i :: 0 <= i < |refactored.employees| ==>
              legacy.state.names[i] == refactored.employees[i].name &&
              legacy.state.depts[i] == refactored.employees[i].department.Label() &&
              legacy.state.grosses[i] == refactored.employees[i].grossSalary &&
              legacy.state.nets[i] == refactored.employees[i].netSalary
  {
    RunsMatch(Initial, [], entries);
  }

  /** Without the parsed-salary condition the two differ: a non-numeric salary
      ends the script, while the refactored loop reports it and goes on. */
  lemma UnparsedSalaryDiverges()
    ensures var entries := [Entry("1", "Juan", None), Entry("1", "Ana", Some(1000.0))];
            LegacyRun(Initial, entries).raised && LegacyRun(Initial, entries).state.names == [] &&
            |Run([], entries).employees| == 1
  {
  }
}
