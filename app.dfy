/**
 * Program start-up: the command-line switches, read once from left to right,
 * and the choice between a console server, the window, or no start at all.
 * Attaching to or allocating a console, printing the usage text and probing
 * the sensor libraries are outside this model; whether a console could be
 * reached is a parameter.
 */
module App {

  /** The switches after the loop over the arguments. */
  datatype CommandLine = CommandLine(
    parentCommandLine: bool,
    newCommandLine: bool,
    help: bool,
    verbose: bool,
    autoStart: bool,
    startupFile: string)

  /**
   * Lower-casing as far as the switches are concerned: only `A`..`Z` change.
   * No other character lower-cases to one of the switch letters, `-`, `/` or
   * `?`, so the comparisons below come out as with full lower-casing.
   */
  function LowerChar(c: char): char {
    if 'A' <= c <= 'Z' then (c as int + 32) as char else c
  }

  function Lower(s: string): (r: string)
    ensures |r| == |s|
  {
    seq(|s|, i requires 0 <= i < |s| => LowerChar(s[i]))
  }

  /** `arg` is the switch `name`, written with `-` or `/`, in any case. */
  predicate IsSwitch(arg: string, name: string) {
    Lower(arg) == "-" + name || Lower(arg) == "/" + name
  }

  predicate IsHelp(arg: string) {
    IsSwitch(arg, "h") || IsSwitch(arg, "?")
  }

  /** One of the switches the loop recognises. */
  predicate IsOption(arg: string) {
    IsSwitch(arg, "c") || IsSwitch(arg, "nc") || IsSwitch(arg, "v") || IsSwitch(arg, "s") || IsHelp(arg)
  }

  /** Switch `name` occurs among the first `n` arguments. */
  predicate Occurs(args: seq<string>, n: nat, name: string)
    requires n <= |args|
  {
    exists k :: 0 <= k < n && IsSwitch(args[k], name)
  }

  predicate HelpOccurs(args: seq<string>, n: nat)
    requires n <= |args|
  {
    exists k :: 0 <= k < n && IsHelp(args[k])
  }

  /**
   * The switches as a whole, independent of the reading order: `/nc` anywhere
   * cancels every `/c`, a help switch anywhere asks for help, and only a first
   * argument that is no switch names the start-up file.
   */
  function Switches(args: seq<string>): CommandLine {
    var n := |args|;
    CommandLine(
      Occurs(args, n, "c") && !Occurs(args, n, "nc"),
      Occurs(args, n, "nc"),
      HelpOccurs(args, n),
      Occurs(args, n, "v"),
      Occurs(args, n, "s"),
      if 0 < n && !IsOption(args[0]) then args[0] else "")
  }

  /** The source's loop over the arguments, proved equal to `Switches`. */
  method ParseArguments(args: seq<string>) returns (cl: CommandLine)
    ensures cl == Switches(args)
  {
    var parentCommandLine, newCommandLine, help, verbose, autoStart := false, false, false, false, false;
    var startupFile := "";
    for i := 0 to |args|
      invariant parentCommandLine == (Occurs(args, i, "c") && !Occurs(args, i, "nc"))
      invariant newCommandLine == Occurs(args, i, "nc")
      invariant help == HelpOccurs(args, i)
      invariant verbose == Occurs(args, i, "v")
      invariant autoStart == Occurs(args, i, "s")
      invariant startupFile == if 0 < i && !IsOption(args[0]) then args[0] else ""
    {
      var a := args[i];
      OccursStep(args, i);
      SwitchesExclusive(a);
      if IsSwitch(a, "c") && !newCommandLine {
        parentCommandLine := true;
      } else if IsSwitch(a, "nc") {
        parentCommandLine := false;
        newCommandLine := true;
      } else if IsSwitch(a, "v") {
        verbose := true;
      } else if IsSwitch(a, "s") {
        autoStart := true;
      } else if IsHelp(a) {
        help := true;
      } else if i == 0 {
        startupFile := a;
      }
    }
    cl := CommandLine(parentCommandLine, newCommandLine, help, verbose, autoStart, startupFile);
  }

  /** What the program does after reading the switches. */
  datatype Launch =
    | Exit
    | ConsoleServer(newWindow: bool, verbose: bool, autoStart: bool, startupFile: string)
    | Window(verbose: bool, autoStart: bool, startupFile: string)

  /**
   * Help stops the start; a console switch runs the server in a console when
   * one could be reached (`connected`) and otherwise ends; without either
   * switch the window opens. Verbose, auto-start and the file are passed on.
   */
  function StartMode(cl: CommandLine, connected: bool): (r: Launch)
    ensures r.Exit? <==> cl.help || ((cl.newCommandLine || cl.parentCommandLine) && !connected)
    ensures r.Window? <==> !cl.help && !cl.newCommandLine && !cl.parentCommandLine
    ensures r.ConsoleServer? ==> r.newWindow == cl.newCommandLine
    ensures !r.Exit? ==> r.verbose == cl.verbose && r.autoStart == cl.autoStart && r.startupFile == cl.startupFile
  {
    if cl.help then Exit
    else if cl.newCommandLine || cl.parentCommandLine then
      if connected then ConsoleServer(cl.newCommandLine, cl.verbose, cl.autoStart, cl.startupFile) else Exit
    else Window(cl.verbose, cl.autoStart, cl.startupFile)
  }

  // ---------------------------------------------------------------- lemmas

  /** One more argument read: each switch occurs if it did or if this argument is it. */
  lemma OccursStep(args: seq<string>, i: nat)
    requires i < |args|
    ensures forall name :: Occurs(args, i + 1, name) <==> Occurs(args, i, name) || IsSwitch(args[i], name)
    ensures HelpOccurs(args, i + 1) <==> HelpOccurs(args, i) || IsHelp(args[i])
  {
    forall name ensures Occurs(args, i + 1, name) <==> Occurs(args, i, name) || IsSwitch(args[i], name) {
      if IsSwitch(args[i], name) {
        assert 0 <= i < i + 1 && IsSwitch(args[i], name);
      }
    }
  }

  /** An argument is at most one of the switches. */
  lemma SwitchesExclusive(a: string)
    ensures IsSwitch(a, "c") ==> !IsSwitch(a, "nc") && !IsSwitch(a, "v") && !IsSwitch(a, "s") && !IsHelp(a)
    ensures IsSwitch(a, "nc") ==> !IsSwitch(a, "v") && !IsSwitch(a, "s") && !IsHelp(a)
    ensures IsSwitch(a, "v") ==> !IsSwitch(a, "s") && !IsHelp(a)
    ensures IsSwitch(a, "s") ==> !IsHelp(a)
  {
    var l := Lower(a);
    if |l| == 2 {
      assert ("-" + "c")[1] == 'c' && ("/" + "c")[1] == 'c';
      assert ("-" + "v")[1] == 'v' && ("/" + "v")[1] == 'v';
      assert ("-" + "s")[1] == 's' && ("/" + "s")[1] == 's';
      assert ("-" + "h")[1] == 'h' && ("/" + "h")[1] == 'h';
      assert ("-" + "?")[1] == '?' && ("/" + "?")[1] == '?';
    }
    assert |"-" + "nc"| == 3 && |"/" + "nc"| == 3;
  }

  lemma OccursExtends(args: seq<string>, more: seq<string>, name: string)
    ensures Occurs(args, |args|, name) ==> Occurs(args + more, |args + more|, name)
    ensures HelpOccurs(args, |args|) ==> HelpOccurs(args + more, |args + more|)
  {
    if Occurs(args, |args|, name) {
      var k :| 0 <= k < |args| && IsSwitch(args[k], name);
      assert (args + more)[k] == args[k];
    }
    if HelpOccurs(args, |args|) {
      var k :| 0 <= k < |args| && IsHelp(args[k]);
      assert (args + more)[k] == args[k];
    }
  }

  /**
   * Reading more arguments never clears a switch: verbose, auto-start, help
   * and the new console stay set, after `/nc` the parent console stays off,
   * and the start-up file is settled by the first argument.
   */
  lemma SwitchesMonotone(args: seq<string>, more: seq<string>)
    ensures Switches(args).verbose ==> Switches(args + more).verbose
    ensures Switches(args).autoStart ==> Switches(args + more).autoStart
    ensures Switches(args).help ==> Switches(args + more).help
    ensures Switches(args).newCommandLine ==> Switches(args + more).newCommandLine && !Switches(args + more).parentCommandLine
    ensures 0 < |args| ==> Switches(args + more).startupFile == Switches(args).startupFile
  {
    OccursExtends(args, more, "v");
    OccursExtends(args, more, "s");
    OccursExtends(args, more, "nc");
    if 0 < |args| {
      assert (args + more)[0] == args[0];
    }
  }

  /** A new console and the parent console are never both chosen. */
  lemma ConsolesExclusive(args: seq<string>)
    ensures !(Switches(args).parentCommandLine && Switches(args).newCommandLine)
  {
  }

  /** A help switch anywhere means nothing is started, whatever else is given. */
  lemma HelpStartsNothing(args: seq<string>, k: nat, connected: bool)
    requires k < |args| && IsHelp(args[k])
    ensures StartMode(Switches(args), connected) == Exit
  {
  }

  /** `/nc` wins over `/c` in either order: the console is a new one. */
  lemma NewConsoleWins(args: seq<string>, k: nat)
    requires k < |args| && IsSwitch(args[k], "nc") && !HelpOccurs(args, |args|)
    ensures StartMode(Switches(args), true).ConsoleServer?
    ensures StartMode(Switches(args), true).newWindow
  {
  }

  /** The upper-case form of a lower-case letter. */
  function Upper(x: char): (u: char)
    requires 'a' <= x <= 'z'
    ensures LowerChar(u) == x && u != x
  {
    (x as int - 32) as char
  }

  /** Exactly two characters lower-case to `x`: itself and its upper-case form. */
  lemma LowerCharOfLetter(c: char, x: char)
    requires 'a' <= x <= 'z'
    ensures LowerChar(c) == x <==> c == x || c == Upper(x)
  {
  }

  lemma LowerTwo(a: string)
    requires |a| == 2
    ensures Lower(a) == [LowerChar(a[0]), LowerChar(a[1])] && a == [a[0], a[1]]
  {
  }

  lemma LowerThree(a: string)
    requires |a| == 3
    ensures Lower(a) == [LowerChar(a[0]), LowerChar(a[1]), LowerChar(a[2])] && a == [a[0], a[1], a[2]]
  {
  }

  /** A one-letter switch is spelled with `-` or `/` and the letter in either case. */
  lemma OneLetterSwitch(a: string, x: char)
    requires 'a' <= x <= 'z'
    ensures IsSwitch(a, [x]) <==> a in {['-', x], ['-', Upper(x)], ['/', x], ['/', Upper(x)]}
  {
    assert "-" + [x] == ['-', x] && "/" + [x] == ['/', x];
    if |a| == 2 {
      LowerTwo(a);
      LowerCharOfLetter(a[1], x);
    }
  }

  lemma NewConsoleSwitch(a: string)
    ensures IsSwitch(a, "nc") <==> a in {"-nc", "-nC", "-Nc", "-NC", "/nc", "/nC", "/Nc", "/NC"}
  {
    if |a| == 3 {
      LowerThree(a);
      LowerCharOfLetter(a[1], 'n');
      LowerCharOfLetter(a[2], 'c');
      assert "-" + "nc" == ['-', 'n', 'c'] && "/" + "nc" == ['/', 'n', 'c'];
    }
  }

  lemma QuestionMarkSwitch(a: string)
    ensures IsSwitch(a, "?") <==> a in {"-?", "/?"}
  {
    if |a| == 2 {
      LowerTwo(a);
      assert "-" + "?" == ['-', '?'] && "/" + "?" == ['/', '?'];
      assert LowerChar(a[1]) == '?' <==> a[1] == '?';
    }
  }

  /**
   * Switches are matched without regard to case and with either prefix, and
   * nothing else matches: for every argument, exactly these spellings.
   */
  lemma SwitchCaseInsensitive(a: string)
    ensures IsSwitch(a, "c") <==> a in {"-c", "-C", "/c", "/C"}
    ensures IsSwitch(a, "nc") <==> a in {"-nc", "-nC", "-Nc", "-NC", "/nc", "/nC", "/Nc", "/NC"}
    ensures IsSwitch(a, "v") <==> a in {"-v", "-V", "/v", "/V"}
    ensures IsSwitch(a, "s") <==> a in {"-s", "-S", "/s", "/S"}
    ensures IsHelp(a) <==> a in {"-h", "-H", "/h", "/H", "-?", "/?"}
  {
    OneLetterSwitch(a, 'c');
    OneLetterSwitch(a, 'v');
    OneLetterSwitch(a, 's');
    OneLetterSwitch(a, 'h');
    NewConsoleSwitch(a);
    QuestionMarkSwitch(a);
    assert "c" == ['c'] && "v" == ['v'] && "s" == ['s'] && "h" == ['h'];
  }

  /**
   * A file name is taken only from the first argument, and only when it is
   * no switch; whatever follows never names the file.
   */
  lemma StartupFileOnlyFirst(first: string, rest: seq<string>)
    ensures !IsOption(first) ==> Switches([first] + rest).startupFile == first
    ensures IsOption(first) ==> Switches([first] + rest).startupFile == ""
    ensures !IsOption(first) ==> Switches([first, "/s"]).startupFile == first && Switches([first, "/s"]).autoStart
    ensures Switches(["/s", first]).startupFile == ""
  {
    assert ([first] + rest)[0] == first;
    assert IsSwitch(["/s", first][0], "s") by {
      assert Lower("/s") == "/s";
    }
    assert IsSwitch([first, "/s"][1], "s") by {
      assert Lower("/s") == "/s";
    }
  }

  /** No arguments open the window with everything off. */
  lemma NoArgumentsOpenWindow(connected: bool)
    ensures StartMode(Switches([]), connected) == Window(false, false, "")
  {
  }
}
