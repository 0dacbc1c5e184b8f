/** The command line of the hub's `main`: two passes over the arguments that
    fill a map from each option to the argument after it and set the
    switches, and the start-up settings read from that map. */
module Cli {
  import opened Wrappers
  import Digits = Text
  import HubServer

  /** `-h`: the position of the first one, or the number of arguments. */
  function HelpIndex(args: seq<string>): (k: nat)
    ensures k <= |args|
    ensures k < |args| ==> args[k] == "-h"
    ensures forall j :: 0 <= j < k ==> args[j] != "-h"
    decreases |args|
  {
    if args == [] then 0
    else if args[0] == "-h" then 0
    else
      var k := HelpIndex(args[1..]);
      assert forall j :: 1 <= j < |args| ==> args[j] == args[1..][j - 1];
      1 + k
  }

  /** The map after the first pass has looked at the first `n` arguments:
      every argument that has one after it is stored with that one. */
  function FirstPass(args: seq<string>, n: nat): map<string, string>
    requires n <= |args|
  {
    if n == 0 then map[]
    else if n < |args| then FirstPass(args, n - 1)[args[n - 1] := args[n]]
    else FirstPass(args, n - 1)
  }

  /** The map after the second pass has looked at the first `n` arguments:
      the same, except at a `-gv`, whose `else` skips the store. */
  function SecondPass(m: map<string, string>, args: seq<string>, n: nat): map<string, string>
    requires n <= |args|
  {
    if n == 0 then m
    else if args[n - 1] != "-gv" && n < |args| then SecondPass(m, args, n - 1)[args[n - 1] := args[n]]
    else SecondPass(m, args, n - 1)
  }

  /** `cli_args` once both passes are done: the first stops at `-h`. */
  function CliMap(args: seq<string>): map<string, string>
  {
    SecondPass(FirstPass(args, HelpIndex(args)), args, |args|)
  }

  /** The switches the second pass sets. */
  datatype Switches = Switches(clientIdWarnings: bool, autoConnect: bool, offsetsMode: bool, gainsMode: bool)

  function SwitchesOf(args: seq<string>): Switches
  {
    Switches("-cw" in args, "-ac" in args, "-ov" in args, "-gv" in args)
  }

  /** Both loops of `main` over `argv[1..]`. */
  method ParseArguments(args: seq<string>) returns (cli: map<string, string>, showHelp: bool, switches: Switches)
    ensures cli == CliMap(args)
    ensures showHelp <==> "-h" in args
    ensures switches == SwitchesOf(args)
  {
    cli := map[];
    showHelp := false;
    var i := 0;
    while i < |args|
      invariant 0 <= i <= |args| && !showHelp
      invariant forall j :: 0 <= j < i ==> args[j] != "-h"
      invariant cli == FirstPass(args, i)
    {
      if args[i] == "-h" {
        showHelp := true;
        break;
      }
      if i + 1 < |args| {
        cli := cli[args[i] := args[i + 1]];
      }
      i := i + 1;
    }
    assert i == HelpIndex(args);
    var cw, ac, ov, gv := false, false, false, false;
    ghost var first := cli;
    i := 0;
    while i < |args|
      invariant 0 <= i <= |args|
      invariant cli == SecondPass(first, args, i)
      invariant cw == ("-cw" in args[..i]) && ac == ("-ac" in args[..i])
      invariant ov == ("-ov" in args[..i]) && gv == ("-gv" in args[..i])
    {
      assert args[..i + 1] == args[..i] + [args[i]];
      if args[i] == "-cw" {
        cw := true;
      }
      if args[i] == "-ac" {
        ac := true;
      }
      if args[i] == "-ov" {
        ov := true;
      }
      if args[i] == "-gv" {
        gv := true;
      } else if i + 1 < |args| {
        cli := cli[args[i] := args[i + 1]];
      }
      i := i + 1;
    }
    assert args[..i] == args;
    switches := Switches(cw, ac, ov, gv);
  }

  /** Option `k` is given with a value: some occurrence has an argument
      after it. */
  predicate GivenWithValue(args: seq<string>, k: string)
  {
    exists i :: 0 <= i < |args| - 1 && args[i] == k
  }

  /** A name the first pass stores comes from a position with an argument
      after it. */
  lemma {:induction false} FirstPassKeys(args: seq<string>, n: nat, k: string)
    requires n <= |args|
    ensures k in FirstPass(args, n) ==> exists i :: 0 <= i < n && i < |args| - 1 && args[i] == k
  {
    if n > 0 {
      FirstPassKeys(args, n - 1, k);
    }
  }

  /** For any name but `-gv`, the second pass stores it exactly at the
      positions with an argument after it. */
  lemma {:induction false} SecondPassKeys(m: map<string, string>, args: seq<string>, n: nat, k: string)
    requires n <= |args| && k != "-gv"
    ensures k in SecondPass(m, args, n) <==> k in m || exists i :: 0 <= i < n && i < |args| - 1 && args[i] == k
  {
    if n > 0 {
      SecondPassKeys(m, args, n - 1, k);
      if n < |args| && args[n - 1] == k {
        assert k in SecondPass(m, args, n);
      }
    }
  }

  /** The value stored by the second pass is the argument after the last
      position that stores that name. */
  lemma {:induction false} SecondPassLast(m: map<string, string>, args: seq<string>, n: nat, i: nat)
    requires n <= |args| && i < n && i < |args| - 1 && args[i] != "-gv"
    requires forall j :: i < j < n && j < |args| - 1 ==> args[j] != args[i]
    ensures args[i] in SecondPass(m, args, n) && SecondPass(m, args, n)[args[i]] == args[i + 1]
  {
    if i < n - 1 {
      SecondPassLast(m, args, n - 1, i);
    }
  }

  /** Every option but `-gv` maps to the argument after its last occurrence
      that has one, and is absent when no occurrence has one. */
  lemma CliLookup(args: seq<string>, k: string)
    requires k != "-gv"
    ensures k in CliMap(args) <==> GivenWithValue(args, k)
  {
    FirstPassKeys(args, HelpIndex(args), k);
    SecondPassKeys(FirstPass(args, HelpIndex(args)), args, |args|, k);
  }

  lemma CliLookupValue(args: seq<string>, i: nat)
    requires i < |args| - 1 && args[i] != "-gv"
    requires forall j :: i < j < |args| - 1 ==> args[j] != args[i]
    ensures args[i] in CliMap(args) && CliMap(args)[args[i]] == args[i + 1]
  {
    SecondPassLast(FirstPass(args, HelpIndex(args)), args, |args|, i);
  }

  /** spdlog's levels as the hub uses them. */
  datatype Level = Info | Debug | Trace

  /** What `main` starts with once the command line is read. */
  datatype Options = Options(
    switches: Switches,
    coreLevel: Level,
    httpLevel: Option<Level>,
    threadPoolSize: int,
    runDiscovery: bool)

  /** `main` prints the help and returns, fails on a thread count that is
      not an `int`, or starts the hub. */
  datatype Startup = ShowHelp | BadThreadCount | Run(options: Options)

  /** `-l`: the level of the main logger and the one the HTTP logger is
      set to, if any; an unknown level changes neither. */
  function Levels(cli: map<string, string>): (Level, Option<Level>)
  {
    if "-l" !in cli then (Info, None)
    else if cli["-l"] == "1" then (Info, Some(Info))
    else if cli["-l"] == "2" then (Debug, Some(Debug))
    else if cli["-l"] == "3" then (Trace, Some(Debug))
    else if cli["-l"] == "4" then (Trace, Some(Trace))
    else (Info, None)
  }

  /** As written: discovery is switched off only when `-d` is in the map,
      that is, only when another argument follows it. */
  predicate RunDiscoveryAsWritten(args: seq<string>)
  {
    "-d" !in CliMap(args)
  }

  /** As documented: `-d` anywhere switches discovery off. */
  predicate RunDiscovery(args: seq<string>)
  {
    "-d" !in args
  }

  /** `-d` given last, or followed by nothing, leaves discovery running
      as written. */
  lemma DiscoveryFlagIgnored()
    ensures RunDiscoveryAsWritten(["-d"]) && !RunDiscovery(["-d"])
    ensures RunDiscoveryAsWritten(["-ac", "-d"]) && !RunDiscovery(["-ac", "-d"])
  {
    CliLookup(["-d"], "-d");
    CliLookup(["-ac", "-d"], "-d");
  }

  /** The two agree whenever `-d` is absent or has an argument after it. */
  lemma DiscoveryAgrees(args: seq<string>)
    requires "-d" !in args || GivenWithValue(args, "-d")
    ensures RunDiscoveryAsWritten(args) == RunDiscovery(args)
  {
    CliLookup(args, "-d");
  }

  /** The start-up of `main` for `argv[1..]`, with discovery decided as
      documented. */
  function StartupOf(args: seq<string>): (r: Startup)
    ensures r == ShowHelp <==> "-h" in args
    ensures r == BadThreadCount <==>
              "-h" !in args && "-t" in CliMap(args) && HubServer.ParseInt(CliMap(args)["-t"]).None?
    ensures r.Run? ==> r.options.switches == SwitchesOf(args) && r.options.runDiscovery == RunDiscovery(args)
                       && (r.options.coreLevel, r.options.httpLevel) == Levels(CliMap(args))
    ensures r.Run? && "-t" !in CliMap(args) ==> r.options.threadPoolSize == 4
  {
    if "-h" in args then ShowHelp
    else
      var cli := CliMap(args);
      var threads := if "-t" in cli then HubServer.ParseInt(cli["-t"]) else Some(4);
      if threads.None? then BadThreadCount
      else
        var (core, http) := Levels(cli);
        Run(Options(SwitchesOf(args), core, http, threads.value, RunDiscovery(args)))
  }

  /** Without arguments the hub starts with discovery, four threads, the
      info level and no switch set. */
  lemma DefaultStartup()
    ensures StartupOf([]) == Run(Options(Switches(false, false, false, false), Info, None, 4, true))
  {
  }

  /** `-h` anywhere prints the help, whatever else is given. */
  lemma HelpWins(args: seq<string>)
    requires "-h" in args
    ensures StartupOf(args) == ShowHelp
  {
  }

  /** The last `-t` with an argument after it sets the thread count when
      that argument is a decimal `int`; without one the count stays 4. */
  lemma ThreadCount(args: seq<string>, i: nat, n: int)
    requires "-h" !in args
    requires i < |args| - 1 && args[i] == "-t" && args[i + 1] == Digits.Signed(n)
    requires forall j :: i < j < |args| - 1 ==> args[j] != "-t"
    requires -0x8000_0000 <= n < 0x8000_0000
    ensures StartupOf(args).Run? && StartupOf(args).options.threadPoolSize == n
  {
    CliLookupValue(args, i);
    HubServer.ParseIntOfSigned(n);
  }

  lemma ThreadCountDefault(args: seq<string>)
    requires "-h" !in args && !GivenWithValue(args, "-t")
    ensures StartupOf(args).Run? && StartupOf(args).options.threadPoolSize == 4
  {
    CliLookup(args, "-t");
  }

  /** The last `-l` with an argument after it picks the levels. */
  lemma LogLevel(args: seq<string>, i: nat)
    requires "-h" !in args && "-t" !in args
    requires i < |args| - 1 && args[i] == "-l"
    requires forall j :: i < j < |args| - 1 ==> args[j] != "-l"
    ensures StartupOf(args).Run?
    ensures args[i + 1] == "2" ==> StartupOf(args).options.coreLevel == Debug
    ensures args[i + 1] == "3" ==> StartupOf(args).options.coreLevel == Trace
                                   && StartupOf(args).options.httpLevel == Some(Debug)
    ensures args[i + 1] == "4" ==> StartupOf(args).options.httpLevel == Some(Trace)
  {
    CliLookupValue(args, i);
    CliLookup(args, "-t");
  }
}
