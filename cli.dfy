/** The menu loop of the refactored program, on input that has already been
    read: each pass takes one Entry and either adds a record, reports, stops
    or reports an error. */
module Cli {
  import opened Payroll

  datatype Option<T> = None | Some(value: T)

  /** One pass through the menu: the option typed, and for options "1" to "3"
      the name typed and the gross salary as parsed (None when the text is not
      a number). Name and salary are not read for the other options. */
  datatype Entry = Entry(option: string, name: string, grossSalary: Option<real>)

  /** The state after some passes, whether the loop goes on, and what was printed. */
  datatype Session = Session(employees: seq<Employee>, running: bool, output: seq<ReportLine>)

  const InvalidSalary: string := "Entrada inválida, ingrese un número para el sueldo."
  const UnknownOption: string := "Error"

  /** The department an option adds to, if it is one of the add options. */
  function DepartmentFor(option: string): (department: Option<Department>)
    ensures department == Some(Sales) <==> option == "1"
    ensures department == Some(IT) <==> option == "2"
    ensures department == Some(HR) <==> option == "3"
  {
    if option == "1" then Some(Sales)
    else if option == "2" then Some(IT)
    else if option == "3" then Some(HR)
    else None
  }

  /** The confirmation printed after a record is stored. */
  function Saved(department: Department): string {
    "Guardado " + department.Label() + "."
  }

  /** One pass of the loop. */
  function Step(employees: seq<Employee>, entry: Entry): (next: Session)
    ensures next.running <==> entry.option != "5"
    ensures DepartmentFor(entry.option).Some? && entry.grossSalary.Some? ==>
      next.employees == employees + [Employee(entry.name, DepartmentFor(entry.option).value, entry.grossSalary.value,
                                              ComputeNetSalary(entry.grossSalary.value, DepartmentFor(entry.option).value))]
    ensures DepartmentFor(entry.option).None? || entry.grossSalary.None? ==> next.employees == employees
    ensures DepartmentFor(entry.option).Some? && entry.grossSalary.None? ==> next.output == [Text(InvalidSalary)]
    ensures entry.option == "4" ==> next.output == ReportOf(employees)
    ensures DepartmentFor(entry.option).None? && entry.option != "4" && entry.option != "5" ==>
      next.output == [Text(UnknownOption)]
  {
    match DepartmentFor(entry.option)
    case Some(department) =>
      (match entry.grossSalary
       case None => Session(employees, true, [Text(InvalidSalary)])
       case Some(gross) =>
         Session(employees + [Employee(entry.name, department, gross, ComputeNetSalary(gross, department))],
                 true, [Text(Saved(department))]))
    case None =>
      if entry.option == "4" then Session(employees, true, ReportOf(employees))
      else if entry.option == "5" then Session(employees, false, [])
      else Session(employees, true, [Text(UnknownOption)])
  }

  /** Passes of the loop over the entries, until option "5" or the end of the input. */
  function Run(employees: seq<Employee>, entries: seq<Entry>): (last: Session)
    ensures employees <= last.employees
    ensures (forall e :: e in employees ==> e.WellFormed()) ==> forall e :: e in last.employees ==> e.WellFormed()
    decreases |entries|
  {
    if entries == [] then Session(employees, true, [])
    else
      var first := Step(employees, entries[0]);
      if !first.running then first
      else
        var rest := Run(first.employees, entries[1..]);
        Session(rest.employees, rest.running, first.output + rest.output)
  }

  /** Option "5" ends the loop: the entries after it are never read. */
  lemma RunStopsAtFive(employees: seq<Employee>, entry: Entry, rest: seq<Entry>)
    requires entry.option == "5"
    ensures Run(employees, [entry] + rest) == Session(employees, false, [])
  {
    assert ([entry] + rest)[0] == entry;
  }

  /** Nothing changes the stored list except an add option with a parsed salary. */
  lemma {:induction false} RunKeepsListWithoutAdds(employees: seq<Employee>, entries: seq<Entry>)
    requires forall i :: 0 <= i < |entries| ==>
      DepartmentFor(entries[i].option).None? || entries[i].grossSalary.None?
    ensures Run(employees, entries).employees == employees
    decreases |entries|
  {
    if entries != [] {
      RunKeepsListWithoutAdds(employees, entries[1..]);
    }
  }

  /** The body of the loop: reads one entry and acts on the system. */
  method HandleEntry(system: PayrollSystem, entry: Entry) returns (running: bool, output: seq<ReportLine>)
    requires system.Valid()
    modifies system
    ensures system.Valid()
    ensures Session(system.employees, running, output) == Step(old(system.employees), entry)
  {
    running := true;
    output := [];
    if entry.option == "1" || entry.option == "2" || entry.option == "3" {
      var department := if entry.option == "1" then Sales else if entry.option == "2" then IT else HR;
      if entry.grossSalary.None? {
        output := [Text(InvalidSalary)];
        return;
      }
      var _ := system.AddEmployee(entry.name, department, entry.grossSalary.value);
      output := [Text(Saved(department))];
    } else if entry.option == "4" {
      output := system.GenerateReportLines();
    } else if entry.option == "5" {
      running := false;
    } else {
      output := [Text(UnknownOption)];
    }
  }

  /** The menu loop on a fresh system over the given entries. */
  method RunCli(entries: seq<Entry>) returns (system: PayrollSystem, output: seq<ReportLine>)
    ensures fresh(system) && system.Valid()
    ensures system.employees == Run([], entries).employees
    ensures output == Run([], entries).output
  {
    system := new PayrollSystem();
    output := [];
    var running := true;
    var i := 0;
    while running && i < |entries|
      invariant 0 <= i <= |entries|
      invariant system.Valid()
      invariant running ==> Run([], entries).employees == Run(system.employees, entries[i..]).employees
      invariant running ==> Run([], entries).output == output + Run(system.employees, entries[i..]).output
      invariant !running ==> Run([], entries).employees == system.employees && Run([], entries).output == output
    {
      assert entries[i..][0] == entries[i] && entries[i..][1..] == entries[i + 1..];
      var out;
      running, out := HandleEntry(system, entries[i]);
      output := output + out;
      i := i + 1;
    }
  }
}
