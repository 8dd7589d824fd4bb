/** The program itself: the global configuration variables of build.c:17-18
    and the procedures that set and use them — load_build_data, recompile,
    spec_recompile, build and main. */
module Driver {
  import opened Base
  import opened Host
  import opened Config
  import opened Commands
  import opened Staleness
  import opened Orchestrator
  import opened Cli

  /** What one invocation asks of the operating system, in order, and the
      status the process exits with. */
  datatype Outcome = Outcome(events: seq<Event>, exitCode: int)

  /** The console set-up call of build.c:201. */
  const ConsoleInit: string := ""

  /** main (build.c:199-241) on the argument vector `argv` (program name
      first) and the pairs of the configuration file. main returns its boolean
      result, so the process exits with 1 when a build or recompile succeeds,
      0 when it fails or `--help` is given, and 1 when the configuration does
      not load or arguments are given but none is recognised. */
  function ProgramRun(h: Host, fields: seq<Field>, argv: seq<string>): Outcome
    requires WellTyped(fields)
  {
    var boot := [Exec(ConsoleInit)];
    var s := Load(fields);
    if !Complete(s) then Outcome(boot, 1)
    else
      var c := ToConfig(s);
      match SelectMode(argv)
      case Help => Outcome(boot, 0)
      case Idle => Outcome(boot, 1)
      case BuildMode(force) =>
        var r := BuildRun(h, c, force);
        Outcome(boot + r.events, if r.ok then 1 else 0)
      case RecompileMode(force) =>
        var r := RecompileRun(h, c, force);
        Outcome(boot + r.events, if r.ok then 1 else 0)
  }

  /** The process exits with 0 exactly when the configuration loaded and the
      run either printed the usage text or failed; a configuration that does
      not load, or arguments that select nothing, give 1. */
  lemma ExitCodeMeaning(h: Host, fields: seq<Field>, argv: seq<string>)
    requires WellTyped(fields)
    ensures var o := ProgramRun(h, fields, argv);
      && (o.exitCode == 0 || o.exitCode == 1)
      && (o.exitCode == 0 <==>
            && Complete(Load(fields))
            && match SelectMode(argv)
               case Help => true
               case Idle => false
               case BuildMode(force) => !BuildRun(h, ToConfig(Load(fields)), force).ok
               case RecompileMode(force) => !RecompileRun(h, ToConfig(Load(fields)), force).ok)
  {
  }

  /** Without a complete configuration nothing but the console set-up runs,
      and neither does it after `--help` or when no argument is recognised. */
  lemma NothingRunsWithoutConfiguration(h: Host, fields: seq<Field>, argv: seq<string>)
    requires WellTyped(fields)
    requires !Complete(Load(fields)) || (|argv| > 1 && "--help" in argv) || SelectMode(argv) == Idle
    ensures ProgramRun(h, fields, argv).events == [Exec(ConsoleInit)]
  {
  }

  /** A forced build, whichever of its spellings asked for it, creates a
      missing output directory, compiles every unit in declaration order, then
      links; with every compile and the link succeeding it exits with 1. */
  lemma ForcedBuildCompilesEverything(h: Host, fields: seq<Field>, argv: seq<string>)
    requires WellTyped(fields) && Complete(Load(fields))
    requires SelectMode(argv) == BuildMode(true)
    requires DirExists(h, ToConfig(Load(fields)).indir)
    requires forall n :: n in ToConfig(Load(fields)).cppSource ==> CompileCommand(ToConfig(Load(fields)), n) !in h.failing
    requires LinkCommand(ToConfig(Load(fields))) !in h.failing
    ensures var c := ToConfig(Load(fields));
            ProgramRun(h, fields, argv)
              == Outcome([Exec(ConsoleInit)]
                           + (if DirExists(h, c.outdir) then [] else [MakeDir(c.outdir)])
                           + Compiles(c, c.cppSource) + [Exec(LinkCommand(c))], 1)
  {
    var c := ToConfig(Load(fields));
    CompileLoopIssuesStaleUnitsUntilFailure(h, c, true, c.cppSource);
    ForceCompilesEveryUnit(h, c, c.cppSource);
  }

  /** The global variables of build.c:17-18. */
  class Builder {
    var indir: Option<string>
    var outdir: Option<string>
    var compiler: Option<string>
    var format: Option<string>
    var libs: Option<string>
    var cflags: Option<string>
    var target: Option<string>
    var cppSource: Option<seq<string>>

    function Settings(): Settings
      reads this
    {
      Config.Settings(indir, outdir, compiler, format, libs, cflags, target, cppSource)
    }

    predicate Loaded()
      reads this
    {
      Complete(Settings())
    }

    function Conf(): BuildConfig
      reads this
      requires Loaded()
    {
      ToConfig(Settings())
    }

    /** Globals start out NULL. */
    constructor ()
      ensures Settings() == Cleared
    {
      indir, outdir, compiler, format := None, None, None, None;
      libs, cflags, target, cppSource := None, None, None, None;
    }

    /** load_build_data (build.c:149-195), given the pairs of the parsed file. */
    method LoadBuildData(fields: seq<Field>) returns (ok: bool)
      requires WellTyped(fields)
      modifies this
      ensures Settings() == Load(fields)
      ensures ok <==> Complete(Load(fields))
    {
      indir, outdir, compiler, format := None, None, None, None;
      libs, cflags, target, cppSource := None, None, None, None;
      var i := 0;
      while i < |fields|
        invariant 0 <= i <= |fields|
        invariant WellTyped(fields[..i]) && Settings() == Load(fields[..i])
      {
        WellTypedPrefix(fields, i + 1);
        assert fields[..i + 1][..i] == fields[..i];
        var f := fields[i];
        if f.key == "target" {
          target := Some(f.value.str);
        } else if f.key == "indir" {
          indir := Some(f.value.str);
        } else if f.key == "outdir" {
          outdir := Some(f.value.str);
        } else if f.key == "compiler" {
          compiler := Some(f.value.str);
        } else if f.key == "format" {
          format := Some(f.value.str);
        } else if f.key == "cflags" {
          cflags := Some(f.value.str);
        } else if f.key == "libs" {
          libs := Some(f.value.str);
        } else if f.key == SourcesKey {
          // build.c:185-190 copies the array into a fresh vector, element by element
          var items := f.value.items;
          var sources: seq<string> := [];
          var j := 0;
          while j < |items|
            invariant 0 <= j <= |items|
            invariant sources == items[..j]
          {
            sources := sources + [items[j]];
            j := j + 1;
          }
          assert items[..j] == items;
          cppSource := Some(sources);
        }
        i := i + 1;
      }
      assert fields[..i] == fields;
      ok := indir.Some? && outdir.Some? && compiler.Some? && format.Some?
         && libs.Some? && cflags.Some? && target.Some? && cppSource.Some?;
    }

    /** spec_recompile (build.c:74-78). */
    method SpecRecompile(os: Os, name: string) returns (ok: bool)
      requires Loaded()
      modifies os
      ensures ok <==> CompileCommand(Conf(), name) !in os.host.failing
      ensures os.log == old(os.log) + [Exec(CompileCommand(Conf(), name))]
    {
      ok := os.CmdExec(CompileCommand(Conf(), name));
    }

    /** recompile (build.c:80-117). */
    method Recompile(os: Os, force: bool) returns (ok: bool)
      requires Loaded()
      modifies os
      ensures ok == RecompileRun(os.host, Conf(), force).ok
      ensures os.log == old(os.log) + RecompileRun(os.host, Conf(), force).events
    {
      var c := Conf();
      if !DirExists(os.host, c.indir) {
        return false;
      }
      if !DirExists(os.host, c.outdir) {
        os.Mkdir(c.outdir);
      }
      ghost var prepare := if DirExists(os.host, c.outdir) then [] else [MakeDir(c.outdir)];
      ghost var prepared := os.log;
      assert prepared == old(os.log) + prepare;
      ghost var all := CompileLoop(os.host, c, force, c.cppSource);
      var i := 0;
      while i < |c.cppSource|
        invariant 0 <= i <= |c.cppSource|
        invariant os.log + CompileLoop(os.host, c, force, c.cppSource[i..]).events == prepared + all.events
        invariant CompileLoop(os.host, c, force, c.cppSource[i..]).ok == all.ok
      {
        assert c.cppSource[i..][1..] == c.cppSource[i + 1..];
        var name := c.cppSource[i];
        var compile := true;
        var obj := ObjectPath(c, name);
        if FileExists(os.host, obj) {
          var t1 := LastUpdateTime(os.host, obj);
          var t2 := LastUpdateTime(os.host, SourcePath(c, name));
          if t1 >= t2 {
            if !force {
              compile := false;
            }
          }
        }
        if compile {
          var built := SpecRecompile(os, name);
          if !built {
            return false;
          }
        }
        i := i + 1;
      }
      assert c.cppSource[i..] == [];
      assert CompileLoop(os.host, c, force, c.cppSource[i..]) == Trace([], true);
      assert os.log + [] == os.log;
      assert os.log == old(os.log) + (prepare + all.events);
      return true;
    }

    /** build (build.c:119-147). */
    method Build(os: Os, force: bool) returns (ok: bool)
      requires Loaded()
      modifies os
      ensures ok == BuildRun(os.host, Conf(), force).ok
      ensures os.log == old(os.log) + BuildRun(os.host, Conf(), force).events
    {
      ok := Recompile(os, force);
      if !ok {
        return;  // build.c:120 reports the failure and returns false
      }
      var cmd := AssembleLinkCommand(Conf());
      ok := os.CmdExec(cmd);
    }

    /** main (build.c:199-241), on the argument vector `argv` and the pairs of
        the parsed configuration file. */
    method Run(os: Os, fields: seq<Field>, argv: seq<string>) returns (exitCode: int)
      requires WellTyped(fields)
      modifies this, os
      ensures exitCode == ProgramRun(os.host, fields, argv).exitCode
      ensures os.log == old(os.log) + ProgramRun(os.host, fields, argv).events
      ensures Settings() == Load(fields)
    {
      var _ := os.CmdExec(ConsoleInit);
      var loaded := LoadBuildData(fields);
      if !loaded {
        return 1;
      }
      var result := true;
      var mode := ChooseMode(argv);
      match mode {
        case Help =>
          return 0;
        case BuildMode(force) =>
          result := Build(os, force);
        case RecompileMode(force) =>
          result := Recompile(os, force);
        case Idle =>
      }
      exitCode := if result then 1 else 0;
    }
  }
}
