/** The command line the GUI hands to the external `luau-format` tool, and
    what the GUI learns back from running it. */
module Formatter {

  /** The five option checkboxes of the window, in declaration order. */
  datatype Options = Options(noSimplify: bool, minify: bool, luaCalls: bool,
                             solveRecordTable: bool, solveListTable: bool)

  /** The tool's flags, in the order in which `run_binary` tests the toggles. */
  const Flags: seq<string> :=
    ["--nosimplify", "--minify", "--lua_calls", "--solve_record_table", "--solve_list_table"]

  /** The toggles of `o`, position by position matching `Flags`. */
  function Toggles(o: Options): (on: seq<bool>)
    ensures |on| == |Flags|
  {
    [o.noSimplify, o.minify, o.luaCalls, o.solveRecordTable, o.solveListTable]
  }

  /** Reference definition: the flags whose toggle is set, in table order,
      built from the last table entry backwards. */
  function Selected(flags: seq<string>, on: seq<bool>): seq<string>
    requires |flags| == |on|
  {
    if flags == [] then []
    else
      var n := |flags| - 1;
      Selected(flags[..n], on[..n]) + Opt(on[n], flags[n])
  }

  /** The flag `f`, when its toggle `b` is set. */
  function Opt(b: bool, f: string): seq<string>
  {
    if b then [f] else []
  }

  /** The number of set toggles. */
  function Count(on: seq<bool>): nat
  {
    if on == [] then 0
    else
      var n := |on| - 1;
      Count(on[..n]) + (if on[n] then 1 else 0)
  }

  /** The argument list of one run: the input path, then the enabled flags. */
  function FormatterArgs(path: string, o: Options): seq<string>
  {
    [path] + Selected(Flags, Toggles(o))
  }

  /** `r` draws from the table `flags` and follows its order strictly. */
  predicate InTableOrder(flags: seq<string>, r: seq<string>)
  {
    (forall x :: x in r ==> x in flags) &&
    forall p, q :: 0 <= p < q < |r| ==> Position(flags, r[p]) < Position(flags, r[q])
  }

  predicate Distinct(s: seq<string>)
  {
    forall i, j :: 0 <= i < j < |s| ==> s[i] != s[j]
  }

  /** The index of the first occurrence of `x` in `flags`. */
  function Position(flags: seq<string>, x: string): (k: nat)
    requires x in flags
    ensures k < |flags| && flags[k] == x
  {
    if flags[0] == x then 0 else 1 + Position(flags[1..], x)
  }

  /** One process run as `Command::output` reports it: either the process could
      not be started (with the launch error's text), or it ran and exited.
      Standard output and standard error are taken as already decoded text. */
  datatype ProcessOutput =
    | Exited(success: bool, stdout: string, stderr: string)
    | LaunchFailed(message: string)

  /** A launch of a program with its argument list. */
  datatype Invocation = Invocation(program: string, args: seq<string>)

  /** Builds the command line by successive appends, as `run_binary` does with
      `cmd.arg`. */
  method BuildArgs(path: string, o: Options) returns (args: seq<string>)
    ensures args == FormatterArgs(path, o)
  {
    args := [path];
    if o.noSimplify {
      args := args + ["--nosimplify"];
    }
    ghost var upTo1 := args;
    if o.minify {
      args := args + ["--minify"];
    }
    ghost var upTo2 := args;
    if o.luaCalls {
      args := args + ["--lua_calls"];
    }
    ghost var upTo3 := args;
    if o.solveRecordTable {
      args := args + ["--solve_record_table"];
    }
    ghost var upTo4 := args;
    if o.solveListTable {
      args := args + ["--solve_list_table"];
    }
    assert upTo1 == [path] + Opt(o.noSimplify, "--nosimplify");
    assert upTo2 == upTo1 + Opt(o.minify, "--minify");
    assert upTo3 == upTo2 + Opt(o.luaCalls, "--lua_calls");
    assert upTo4 == upTo3 + Opt(o.solveRecordTable, "--solve_record_table");
    assert args == upTo4 + Opt(o.solveListTable, "--solve_list_table");
    ArgsSpelledOut(path, o);
  }

  /** The argument list of a run, option by option in the order the source
      tests them: each flag is present exactly when its toggle is set. */
  lemma ArgsSpelledOut(path: string, o: Options)
    ensures FormatterArgs(path, o) == [path] + Opt(o.noSimplify, "--nosimplify")
      + Opt(o.minify, "--minify") + Opt(o.luaCalls, "--lua_calls")
      + Opt(o.solveRecordTable, "--solve_record_table")
      + Opt(o.solveListTable, "--solve_list_table")
  {
    SelectedFlags(o);
    SequenceAfterPath(path, Selected(Flags, Toggles(o)), Opt(o.noSimplify, "--nosimplify"),
      Opt(o.minify, "--minify"), Opt(o.luaCalls, "--lua_calls"),
      Opt(o.solveRecordTable, "--solve_record_table"),
      Opt(o.solveListTable, "--solve_list_table"));
  }

  /** The selection over the window's table, flag by flag. */
  lemma SelectedFlags(o: Options)
    ensures Selected(Flags, Toggles(o)) == Opt(o.noSimplify, "--nosimplify")
      + Opt(o.minify, "--minify") + Opt(o.luaCalls, "--lua_calls")
      + Opt(o.solveRecordTable, "--solve_record_table")
      + Opt(o.solveListTable, "--solve_list_table")
  {
    SelectedOfTable(o);
  }

  lemma SelectedOfTable(o: Options)
    ensures Selected(Flags, Toggles(o)) == Opt(Toggles(o)[0], Flags[0]) + Opt(Toggles(o)[1], Flags[1])
      + Opt(Toggles(o)[2], Flags[2]) + Opt(Toggles(o)[3], Flags[3]) + Opt(Toggles(o)[4], Flags[4])
  {
    SelectedOfFive(Flags, Toggles(o));
  }

  /** Regrouping a five-part concatenation behind the path. Stated over
      plain variables, away from the literal flag table. */
  lemma SequenceAfterPath(path: string, s: seq<string>, a: seq<string>, b: seq<string>,
                          c: seq<string>, d: seq<string>, e: seq<string>)
    requires s == a + b + c + d + e
    ensures [path] + s == [path] + a + b + c + d + e
  {
  }

  /** The selection over a five-entry table, spelled out entry by entry. */
  lemma SelectedOfFive(flags: seq<string>, on: seq<bool>)
    requires |flags| == 5 && |on| == 5
    ensures Selected(flags, on) == Opt(on[0], flags[0]) + Opt(on[1], flags[1])
      + Opt(on[2], flags[2]) + Opt(on[3], flags[3]) + Opt(on[4], flags[4])
  {
    assert flags[..5] == flags && on[..5] == on;
    assert flags[..5][..4] == flags[..4] && on[..5][..4] == on[..4];
    assert flags[..4][..3] == flags[..3] && on[..4][..3] == on[..3];
    assert flags[..3][..2] == flags[..2] && on[..3][..2] == on[..2];
    assert flags[..2][..1] == flags[..1] && on[..2][..1] == on[..1];
    assert flags[..1][..0] == [] && on[..1][..0] == [];
    assert Selected(flags[..1], on[..1]) == Opt(on[0], flags[0]);
    assert Selected(flags[..2], on[..2]) == Selected(flags[..1], on[..1]) + Opt(on[1], flags[1]);
    assert Selected(flags[..3], on[..3]) == Selected(flags[..2], on[..2]) + Opt(on[2], flags[2]);
    assert Selected(flags[..4], on[..4]) == Selected(flags[..3], on[..3]) + Opt(on[3], flags[3]);
  }

  /** Every selected flag comes from the table. */
  lemma {:induction false} SelectedFromTable(flags: seq<string>, on: seq<bool>)
    requires |flags| == |on|
    ensures forall x :: x in Selected(flags, on) ==> x in flags
  {
    if flags != [] {
      var n := |flags| - 1;
      SelectedFromTable(flags[..n], on[..n]);
      assert forall x :: x in flags[..n] ==> x in flags;
    }
  }

  /** A flag of a table without repetitions is selected exactly when its toggle is set. */
  lemma {:induction false} SelectedMembership(flags: seq<string>, on: seq<bool>, i: nat)
    requires |flags| == |on| && Distinct(flags) && i < |flags|
    ensures flags[i] in Selected(flags, on) <==> on[i]
  {
    var n := |flags| - 1;
    var rest := Selected(flags[..n], on[..n]);
    SelectedFromTable(flags[..n], on[..n]);
    if i < n {
      assert flags[i] == flags[..n][i] && on[i] == on[..n][i];
      SelectedMembership(flags[..n], on[..n], i);
      assert flags[i] != flags[n];
    } else {
      assert flags[n] !in flags[..n];
    }
  }

  /** One flag is selected per set toggle. */
  lemma {:induction false} SelectedLength(flags: seq<string>, on: seq<bool>)
    requires |flags| == |on|
    ensures |Selected(flags, on)| == Count(on)
  {
    if flags != [] {
      var n := |flags| - 1;
      SelectedLength(flags[..n], on[..n]);
    }
  }

  /** Within the prefix of a table, a flag's position is the same as in the table. */
  lemma {:induction false} PositionInPrefix(flags: seq<string>, n: nat, x: string)
    requires n <= |flags| && x in flags[..n]
    ensures x in flags && Position(flags, x) == Position(flags[..n], x)
  {
    if flags[0] != x {
      assert flags[..n][1..] == flags[1..][..n - 1];
      PositionInPrefix(flags[1..], n - 1, x);
    }
  }

  /** The selected flags keep the table's order, strictly. */
  lemma {:induction false} SelectedInOrder(flags: seq<string>, on: seq<bool>)
    requires |flags| == |on| && Distinct(flags)
    ensures InTableOrder(flags, Selected(flags, on))
  {
    SelectedFromTable(flags, on);
    if flags != [] {
      var n := |flags| - 1;
      var rest := Selected(flags[..n], on[..n]);
      SelectedInOrder(flags[..n], on[..n]);
      var r := rest + Opt(on[n], flags[n]);
      forall x | x in rest
        ensures Position(flags, x) == Position(flags[..n], x) < n
      {
        PositionInPrefix(flags, n, x);
      }
      assert Position(flags, flags[n]) == n;
      forall p, q | 0 <= p < q < |r|
        ensures Position(flags, r[p]) < Position(flags, r[q])
      {
        assert r[p] == rest[p] && rest[p] in rest;
        if q < |rest| {
          assert r[q] == rest[q] && rest[q] in rest;
        } else {
          assert r[q] == flags[n];
        }
      }
    }
  }

  /** The argument list is exactly the input path followed by the flags whose
      toggles are set, in the fixed table order, none repeated. */
  lemma ArgsExact(path: string, o: Options)
    ensures var a := FormatterArgs(path, o); |a| == 1 + Count(Toggles(o)) && a[0] == path
    ensures var a := FormatterArgs(path, o);
      forall i :: 0 <= i < |Flags| ==> (Flags[i] in a[1..] <==> Toggles(o)[i])
    ensures InTableOrder(Flags, FormatterArgs(path, o)[1..])
    ensures Distinct(FormatterArgs(path, o)[1..])
  {
    var a := FormatterArgs(path, o);
    var r := Selected(Flags, Toggles(o));
    assert a[1..] == r;
    assert Distinct(Flags);
    SelectedLength(Flags, Toggles(o));
    forall i | 0 <= i < |Flags|
      ensures Flags[i] in r <==> Toggles(o)[i]
    {
      SelectedMembership(Flags, Toggles(o), i);
    }
    SelectedInOrder(Flags, Toggles(o));
  }
}
