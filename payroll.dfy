/** The payroll rules and the in-memory record store of the refactored
    payroll program: departments with their tax rates, the net-salary rule,
    the employee list and the report built from it. */
module Payroll {

  /** The closed set of departments; Label is the text shown to the user. */
  datatype Department = Sales | IT | HR {
    function Label(): string {
      match this
      case Sales => "Ventas"
      case IT => "IT"
      case HR => "RRHH"
    }
  }

  /** One payroll entry; created once by AddEmployee and never changed. */
  datatype Employee = Employee(name: string, department: Department, grossSalary: real, netSalary: real) {
    /** The stored net salary is the one the calculator gives for the stored gross and department. */
    predicate WellFormed() {
      netSalary == ComputeNetSalary(grossSalary, department)
    }
  }

  /** Flat cafeteria deduction taken from every salary. */
  const CafeteriaDiscount: real := 50.0

  /** Tax rate per department; the final fallback cannot be reached because the enumeration is closed. */
  function TaxRateFor(department: Department): (rate: real)
    ensures department == Sales || department == IT ==> rate == 0.15
    ensures department == HR ==> rate == 0.16
    ensures 0.0 < rate < 1.0
  {
    if department == Sales || department == IT then 0.15
    else if department == HR then 0.16
    else 0.15
  }

  /** Gross minus tax minus the cafeteria deduction, before the floor at zero. */
  function RawNet(grossSalary: real, department: Department): real {
    grossSalary - grossSalary * TaxRateFor(department) - CafeteriaDiscount
  }

  /** The net salary: the raw figure floored at zero, i.e. the least
      non-negative amount that is not below the raw figure. */
  function ComputeNetSalary(grossSalary: real, department: Department): (net: real)
    ensures net >= 0.0
    ensures net >= RawNet(grossSalary, department)
    ensures net == 0.0 || net == RawNet(grossSalary, department)
  {
    var tax := grossSalary * TaxRateFor(department);
    var net := grossSalary - tax - CafeteriaDiscount;
    if net < 0.0 then 0.0 else net
  }

  /** The worked examples: Sales 1000 gives 800, HR 1500 gives 1210, IT 100 gives 35, and a zero gross gives zero. */
  lemma NetSalaryExamples(department: Department)
    ensures ComputeNetSalary(1000.0, Sales) == 800.0
    ensures ComputeNetSalary(1500.0, HR) == 1210.0
    ensures ComputeNetSalary(100.0, IT) == 35.0
    ensures ComputeNetSalary(0.0, department) == 0.0
  {
  }

  /** A higher gross salary never yields a lower net salary in the same department. */
  lemma NetSalaryMonotone(lower: real, higher: real, department: Department)
    requires lower <= higher
    ensures ComputeNetSalary(lower, department) <= ComputeNetSalary(higher, department)
  {
    var rate := TaxRateFor(department);
    assert lower * rate <= higher * rate by {
      assert (higher - lower) * rate >= 0.0;
    }
  }

  /** For a non-negative gross salary the net salary never exceeds it, and it is
      positive exactly when the taxed gross exceeds the cafeteria deduction. */
  lemma NetSalaryBounds(grossSalary: real, department: Department)
    requires grossSalary >= 0.0
    ensures ComputeNetSalary(grossSalary, department) <= grossSalary
    ensures ComputeNetSalary(grossSalary, department) > 0.0
        <==> grossSalary * (1.0 - TaxRateFor(department)) > CafeteriaDiscount
  {
    var rate := TaxRateFor(department);
    assert grossSalary * rate >= 0.0;
    assert grossSalary * (1.0 - rate) == grossSalary - grossSalary * rate;
  }

  // ----- Report -----

  /** A report line. Payment(x) stands for "Pago Final: " followed by the
      printed form of the amount x; how the number is printed is not modelled. */
  datatype ReportLine = Text(text: string) | Payment(amount: real)

  const EmptyReport: string := "No hay nadie"
  const Separator: string := "----------------"

  /** The four lines printed for one employee. */
  function Block(employee: Employee): seq<ReportLine> {
    [Text("Emp: " + employee.name),
     Text("Depto: " + employee.department.Label()),
     Payment(employee.netSalary),
     Text(Separator)]
  }

  /** The blocks of all employees, in insertion order. */
  function Blocks(employees: seq<Employee>): (lines: seq<ReportLine>)
    ensures |lines| == 4 * |employees|
  {
    if employees == [] then []
    else Blocks(employees[..|employees| - 1]) + Block(employees[|employees| - 1])
  }

  /** The report: the sentinel line when nobody is stored, otherwise one block per employee. */
  function ReportOf(employees: seq<Employee>): seq<ReportLine> {
    if employees == [] then [Text(EmptyReport)] else Blocks(employees)
  }

  /** Line 4i+k of the blocks is line k of employee i's block. */
  lemma {:induction false} BlocksAt(employees: seq<Employee>, i: int, k: int)
    requires 0 <= i < |employees| && 0 <= k < 4
    ensures Blocks(employees)[4 * i + k] == Block(employees[i])[k]
  {
    var n := |employees| - 1;
    if i < n {
      BlocksAt(employees[..n], i, k);
      assert employees[..n][i] == employees[i];
    }
  }

  /** The report of an empty store is exactly the sentinel line; otherwise it has
      four lines per employee, block i describing employee i in insertion order. */
  lemma ReportContents(employees: seq<Employee>)
    ensures employees == [] ==> ReportOf(employees) == [Text(EmptyReport)]
    ensures employees != [] ==> |ReportOf(employees)| == 4 * |employees|
    ensures employees != [] ==> forall i :: 0 <= i < |employees| ==>
      ReportOf(employees)[4 * i] == Text("Emp: " + employees[i].name) &&
      ReportOf(employees)[4 * i + 1] == Text("Depto: " + employees[i].department.Label()) &&
      ReportOf(employees)[4 * i + 2] == Payment(employees[i].netSalary) &&
      ReportOf(employees)[4 * i + 3] == Text(Separator)
  {
    forall i | 0 <= i < |employees|
      ensures ReportOf(employees)[4 * i] == Text("Emp: " + employees[i].name)
      ensures ReportOf(employees)[4 * i + 1] == Text("Depto: " + employees[i].department.Label())
      ensures ReportOf(employees)[4 * i + 2] == Payment(employees[i].netSalary)
      ensures ReportOf(employees)[4 * i + 3] == Text(Separator)
    {
      BlocksAt(employees, i, 0);
      BlocksAt(employees, i, 1);
      BlocksAt(employees, i, 2);
      BlocksAt(employees, i, 3);
    }
  }

  /** Adding an employee and then reporting gives the earlier blocks unchanged,
      followed by the new employee's block. */
  lemma ReportAfterAdd(employees: seq<Employee>, employee: Employee)
    ensures ReportOf(employees + [employee]) == Blocks(employees) + Block(employee)
  {
    assert (employees + [employee])[..|employees|] == employees;
  }

  // ----- Record store -----

  /** The append-only, insertion-ordered list of employees. The rate table is
      stateless, so the calculator is the functions above rather than a field. */
  class PayrollSystem {
    var employees: seq<Employee>

    /** Every stored record carries the net salary computed from its own gross and department. */
    ghost predicate Valid()
      reads this
    {
      forall e :: e in employees ==> e.WellFormed()
    }

    constructor ()
      ensures Valid() && employees == []
    {
      employees := [];
    }

    /** Computes the net salary, appends the new record at the end and returns it. */
    method AddEmployee(name: string, department: Department, grossSalary: real) returns (employee: Employee)
      requires Valid()
      modifies this
      ensures Valid()
      ensures employees == old(employees) + [employee]
      ensures employee.name == name && employee.department == department
      ensures employee.grossSalary == grossSalary
      ensures employee.netSalary == ComputeNetSalary(grossSalary, department)
    {
      var netSalary := ComputeNetSalary(grossSalary, department);
      employee := Employee(name, department, grossSalary, netSalary);
      employees := employees + [employee];
    }

    /** Builds the report lines; reads the list and changes nothing. */
    method GenerateReportLines() returns (lines: seq<ReportLine>)
      ensures lines == ReportOf(employees)
    {
      if employees == [] {
        return [Text(EmptyReport)];
      }
      lines := [];
      for i := 0 to |employees|
        invariant lines == Blocks(employees[..i])
      {
        var emp := employees[i];
        lines := lines + [Text("Emp: " + emp.name)];
        lines := lines + [Text("Depto: " + emp.department.Label())];
        lines := lines + [Payment(emp.netSalary)];
        lines := lines + [Text(Separator)];
        assert employees[..i + 1][..i] == employees[..i];
      }
      assert employees[..|employees|] == employees;
    }
  }
}
