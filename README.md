# Payroll calculator — Dafny model

This project models a small console payroll calculator that exists in two
versions: a refactored one (`RefactoringSalvador.py`) and the original script
(`app.py`). Both read a menu option in a loop. Options 1, 2 and 3 add an
employee to Sales ("Ventas"), IT or HR ("RRHH"). Option 4 prints a report,
option 5 stops, and any other option prints "Error". The net salary is the gross salary minus a department tax
(15% for Sales and IT, 16% for HR) minus a flat cafeteria deduction of 50,
floored at zero.

Modules:

- `Payroll` (`payroll.dfy`): departments and their labels, the `Employee`
  record, the tax-rate table and the net-salary rule, the report as a function
  of the employee list, and the `PayrollSystem` class. The class holds the
  append-only employee list and its add and report methods.
- `Cli` (`cli.dfy`): the menu loop of the refactored program on input that has
  already been read. `Step` and `Run` specify one pass and a whole run, and
  `HandleEntry` and `RunCli` are the loop body and the loop on a
  `PayrollSystem`, proved against them.
- `Legacy` (`legacy.dfy`): the original script. The class `App` holds its four
  module-level lists (names, department labels, gross and net salaries) and
  its loop flag. Its methods append in place, clamp the net salary and walk
  the lists with an index for the report. `LegacyStep` and `LegacyRun` specify
  them, and they keep the four lists the same length.
- `Compatibility` (`compatibility.dfy`): the refactored module claims to behave
  like the original script. On the same entries, when every salary typed for
  an add option is a number, both print the same lines and stop together. The
  script's (name, label, gross, net) at each index is then the refactored
  record at that index.

Amounts are exact `real`s: rates `0.15` and `0.16`, deduction `50`. A printed
report line is a structured value. `Text(s)` is a literal line, and
`Payment(x)` is "Pago Final: " followed by the printed form of `x`. A salary
entry is given already parsed, as `Some(x)`, or as `None` when the text is not a
number.

The code accepts negative gross salaries, and so does the model. Nothing in
either program requires the gross salary to be non-negative.

## Model

| member | source | states |
|---|---|---|
| `Payroll.TaxRateFor` | RefactoringSalvador.py:64-77 | Sales and IT get 0.15 and HR gets 0.16; every rate is strictly between 0 and 1 (the fallback branch cannot be reached for the closed enumeration) |
| `Payroll.ComputeNetSalary` | RefactoringSalvador.py:79-93 | the net salary is never negative, is at least gross − gross·rate − 50, and equals either that amount or 0 (the floor at zero) |
| `Payroll.NetSalaryExamples` | RefactoringSalvador.py:91-93 | Sales 1000 gives 800, HR 1500 gives 1210, IT 100 gives 35, and a zero gross gives 0 in every department |
| `Payroll.NetSalaryMonotone` | RefactoringSalvador.py:91-93 | within one department a higher gross salary never gives a lower net salary |
| `Payroll.NetSalaryBounds` | RefactoringSalvador.py:91-93 | for a non-negative gross the net never exceeds the gross, and it is positive exactly when gross·(1 − rate) exceeds the deduction |
| `Payroll.Blocks` | RefactoringSalvador.py:127-133 | the per-employee part of the report has exactly four lines per employee |
| `Payroll.BlocksAt` | RefactoringSalvador.py:128-132 | line 4i+k of the report blocks is line k of employee i's block: name, department label, net salary, separator |
| `Payroll.ReportContents` | RefactoringSalvador.py:124-133 | with no employees the report is exactly ["No hay nadie"]; otherwise it has 4·n lines and block i is "Emp: name_i", "Depto: label_i", the net salary of i and the separator, in insertion order |
| `Payroll.ReportAfterAdd` | RefactoringSalvador.py:113-133 | after appending an employee the report is the earlier employees' blocks unchanged, followed by the new employee's block |
| `Payroll.PayrollSystem.constructor` | RefactoringSalvador.py:99-101 | a new system has an empty employee list |
| `Payroll.PayrollSystem.AddEmployee` | RefactoringSalvador.py:103-116 | the list grows by exactly the returned record at the end, earlier records are unchanged, the record carries the given name, department and gross, and its net is the calculator's; every stored record keeps net = ComputeNetSalary(gross, department) |
| `Payroll.PayrollSystem.GenerateReportLines` | RefactoringSalvador.py:118-133 | returns the report of the current list (sentinel or one block per employee) and changes nothing |
| `Cli.DepartmentFor` | RefactoringSalvador.py:160-190 | options "1", "2" and "3" select Sales, IT and HR, each exactly for its option; no other option selects a department |
| `Cli.Step` | RefactoringSalvador.py:156-201 | the loop continues exactly when the option is not "5"; an add option with a parsed salary appends exactly the computed record; a salary that does not parse prints the invalid-entry message and adds nothing; "4" prints the report; any other option prints "Error"; options other than an add with a parsed salary leave the list unchanged |
| `Cli.Run` | RefactoringSalvador.py:155-201 | a run only appends: the list before is a prefix of the list after, and records that all satisfy the net-salary rule stay that way |
| `Cli.RunStopsAtFive` | RefactoringSalvador.py:197-198 | option "5" stops the loop with the list unchanged and nothing printed; the entries after it are never read |
| `Cli.RunKeepsListWithoutAdds` | RefactoringSalvador.py:163-167 | a run in which no add option comes with a parsed salary leaves the list unchanged |
| `Cli.HandleEntry` | RefactoringSalvador.py:158-201 | one pass on a `PayrollSystem` leaves its list, the loop flag and the printed lines exactly as `Step` says |
| `Cli.RunCli` | RefactoringSalvador.py:147-201 | the loop over the entries on a new system ends with the list and output that `Run` gives from an empty list |
| `Legacy.AddBranch` | app.py:23-78 | option "1" writes label "Ventas" and rate 0.15, "2" writes "IT" and 0.15, "3" writes "RRHH" and 0.16, each exactly for its option |
| `Legacy.ClampedNet` | app.py:30-34 | the stored net is never below 0, is at least gross − gross·rate − 50, and equals that amount or 0 |
| `Legacy.Rows` | app.py:83-88 | the report walk over indices 0..j−1 prints exactly four lines per index |
| `Legacy.RowsAt` | app.py:84-87 | the four lines for index j are "Emp: " + names[j], "Depto: " + depts[j], the net at j and the separator |
| `Legacy.LegacyReportContents` | app.py:80-90 | with empty lists option "4" prints only "No hay nadie"; otherwise one four-line block per index j from 0 to n−1, in insertion order |
| `Legacy.LegacyStep` | app.py:21-96 | one pass keeps the four lists the same length; an add option with a parsed salary appends exactly one element to each list (name, label, gross, clamped net); a salary that does not parse raises, with nothing appended; "5" sets the flag to 0; "4" prints the report; any other option prints "Error"; only a successful add changes the lists |
| `Legacy.LegacyRun` | app.py:12-96 | a run keeps the lists the same length and only appends to each of them |
| `Legacy.LegacyRunStopsAtFive` | app.py:92-93 | option "5" sets the flag to 0 and ends the loop with the lists unchanged; the entries after it are never read |
| `Legacy.App.constructor` | app.py:2-6 | the script starts with four empty lists and the flag at 1 |
| `Legacy.App.Append` | app.py:27-39 | an add branch appends one element to each of the four lists (the clamped net to the net list), keeping them the same length, and leaves the flag alone |
| `Legacy.App.Report` | app.py:80-90 | option "4" prints exactly the legacy report and changes no list |
| `Legacy.App.Step` | app.py:21-96 | one pass leaves the globals, the output and whether float() raised exactly as `LegacyStep` says |
| `Legacy.RunApp` | app.py:12-96 | the `while flag_sistema == 1` loop from the initial state ends with the state, output and raise status that `LegacyRun` gives |
| `Compatibility.BranchMatchesCalculator` | RefactoringSalvador.py:54-59 | each add branch of the script uses its department's label and confirmation message, and its inline clamped net equals ComputeNetSalary for that department |
| `Compatibility.RowsMatchBlocks` | app.py:81-88 | on corresponding states the script's first j report rows are the refactored report's first j blocks |
| `Compatibility.ReportsMatch` | app.py:80-90 | on corresponding states option "4" prints the same lines in both programs |
| `Compatibility.StepsMatch` | RefactoringSalvador.py:6-7 | one pass over the same entry with a parsed salary keeps the two states corresponding, prints the same lines and stops both or neither |
| `Compatibility.RunsMatch` | RefactoringSalvador.py:6-7 | runs over the same entries, with every add salary parsed, keep the states corresponding, print the same lines, never raise, and stop together |
| `Compatibility.Compatible` | RefactoringSalvador.py:4-7 | from the start, with every add salary parsed, the script's (name, label, gross, net) at index i is the i-th refactored record, both print the same lines, and both stop together |
| `Compatibility.UnparsedSalaryDiverges` | RefactoringSalvador.py:163-167 | a non-numeric salary ends the script with nothing stored, while the refactored loop goes on and stores the next employee |

## Left out

- Console I/O: the banner, the menu, the prompts and the `print` calls are not modelled. Each pass takes an `Entry` holding the option, the name and the parsed salary, and the printed lines are returned as a sequence of `ReportLine`.
- Parsing: `float()` is not modelled. The salary comes already parsed, or as `None` when it is not a number. Inputs such as "nan" or "inf", which Python accepts, have no `real` counterpart.
- Floating point: amounts are exact reals. Python floats may differ from them in the last bit (`1500*0.16`, for example), and no float-exact equality is claimed.
- Number printing: `Payment(x)` stands for the printed amount. How Python prints a number is not modelled, so the script printing `0` where the refactored version prints `0.0` is not captured. The equivalence is stated on numeric values.
- End of input: when the entries run out the run just ends. The Python programs would raise `EOFError` at the next `input()`.
- The script's `ValueError`: a non-numeric salary in `app.py` is modelled as `raised` with the run ending and nothing appended. The traceback and the exit status are not modelled.
- `PayrollSystem.__init__`'s optional calculator argument: the rate table is stateless and modelled as module functions, so a substitute calculator is not modelled.
- The `if __name__ == "__main__"` entry point and the test harness in `app_test.py`, which runs the script as a subprocess.
