/** What recompile and build do (build.c:80-147), as the list of requests they
    make of the operating system and the boolean they return. */
module Orchestrator {
  import opened Host
  import opened Config
  import opened Commands
  import opened Staleness

  /** The requests a phase made, in order, and its result. */
  datatype Trace = Trace(events: seq<Event>, ok: bool)

  /** The loop of build.c:94-114 over `names`: skip fresh units, compile stale
      ones, stop at the first compile that fails. */
  function CompileLoop(h: Host, c: BuildConfig, force: bool, names: seq<string>): Trace
  {
    if names == [] then Trace([], true)
    else if !NeedsCompile(h, c, force, names[0]) then CompileLoop(h, c, force, names[1..])
    else
      var cmd := CompileCommand(c, names[0]);
      if cmd in h.failing then Trace([Exec(cmd)], false)
      else
        var rest := CompileLoop(h, c, force, names[1..]);
        Trace([Exec(cmd)] + rest.events, rest.ok)
  }

  /** The units of `names` that need compiling, in declaration order. */
  function StaleUnits(h: Host, c: BuildConfig, force: bool, names: seq<string>): seq<string>
  {
    if names == [] then []
    else if NeedsCompile(h, c, force, names[0]) then [names[0]] + StaleUnits(h, c, force, names[1..])
    else StaleUnits(h, c, force, names[1..])
  }

  /** One compile request per unit of `names`, in order. */
  function Compiles(c: BuildConfig, names: seq<string>): (events: seq<Event>)
    ensures |events| == |names|
  {
    seq(|names|, i requires 0 <= i < |names| => Exec(CompileCommand(c, names[i])))
  }

  /** recompile (build.c:80-117). */
  function RecompileRun(h: Host, c: BuildConfig, force: bool): Trace
  {
    if !DirExists(h, c.indir) then Trace([], false)
    else
      var prepare := if DirExists(h, c.outdir) then [] else [MakeDir(c.outdir)];
      var r := CompileLoop(h, c, force, c.cppSource);
      Trace(prepare + r.events, r.ok)
  }

  /** build (build.c:119-147). */
  function BuildRun(h: Host, c: BuildConfig, force: bool): Trace
  {
    var r := RecompileRun(h, c, force);
    if !r.ok then r
    else
      var cmd := LinkCommand(c);
      Trace(r.events + [Exec(cmd)], cmd !in h.failing)
  }

  /** The units StaleUnits keeps are exactly the stale units of `names`. */
  lemma {:induction false} StaleUnitsMembers(h: Host, c: BuildConfig, force: bool, names: seq<string>)
    ensures forall u :: u in StaleUnits(h, c, force, names) <==> u in names && NeedsCompile(h, c, force, u)
  {
    if names != [] {
      StaleUnitsMembers(h, c, force, names[1..]);
      assert forall m :: m in names <==> m == names[0] || m in names[1..];
    }
  }

  /** The compile loop issues the compile commands of the stale units in
      declaration order, up to and including the first one that fails, and
      no further; it succeeds exactly when no stale unit's compile fails. */
  lemma {:induction false} CompileLoopIssuesStaleUnitsUntilFailure(h: Host, c: BuildConfig, force: bool, names: seq<string>)
    ensures var r := CompileLoop(h, c, force, names);
            var planned := Compiles(c, StaleUnits(h, c, force, names));
            && r.events <= planned
            && (forall e :: e in r.events ==> e.Exec?)
            && (forall i :: 0 <= i < |r.events| - 1 ==> r.events[i].command !in h.failing)
            && (r.ok ==> r.events == planned)
            && (!r.ok ==> r.events != [] && r.events[|r.events| - 1].command in h.failing)
            && (r.ok <==> forall n :: n in names && NeedsCompile(h, c, force, n) ==> CompileCommand(c, n) !in h.failing)
  {
    if names != [] {
      var n := names[0];
      var tail := names[1..];
      CompileLoopIssuesStaleUnitsUntilFailure(h, c, force, tail);
      assert forall m :: m in names <==> m == n || m in tail;
      if NeedsCompile(h, c, force, n) {
        var rest := StaleUnits(h, c, force, tail);
        assert Compiles(c, [n] + rest) == [Exec(CompileCommand(c, n))] + Compiles(c, rest);
      }
    }
  }

  /** When the loop succeeds, none of the commands it issued failed. */
  lemma SuccessfulLoopIssuesNoFailingCommand(h: Host, c: BuildConfig, force: bool, names: seq<string>)
    requires CompileLoop(h, c, force, names).ok
    ensures forall e :: e in CompileLoop(h, c, force, names).events ==> e.Exec? && e.command !in h.failing
  {
    CompileLoopIssuesStaleUnitsUntilFailure(h, c, force, names);
    StaleUnitsMembers(h, c, force, names);
    var stale := StaleUnits(h, c, force, names);
    forall e | e in CompileLoop(h, c, force, names).events
      ensures e.Exec? && e.command !in h.failing
    {
      var i :| 0 <= i < |stale| && e == Compiles(c, stale)[i];
      assert stale[i] in stale;
    }
  }

  /** Forcing compiles every unit. */
  lemma {:induction false} ForceCompilesEveryUnit(h: Host, c: BuildConfig, names: seq<string>)
    ensures StaleUnits(h, c, true, names) == names
  {
    if names != [] {
      ForceCompilesEveryUnit(h, c, names[1..]);
    }
  }

  /** When no unit needs compiling the loop issues nothing and succeeds. */
  lemma {:induction false} AllFreshCompilesNothing(h: Host, c: BuildConfig, force: bool, names: seq<string>)
    requires forall n :: n in names ==> !NeedsCompile(h, c, force, n)
    ensures CompileLoop(h, c, force, names) == Trace([], true)
  {
    if names != [] {
      assert names[0] in names;
      assert forall n :: n in names[1..] ==> n in names;
      AllFreshCompilesNothing(h, c, force, names[1..]);
    }
  }

  /** recompile succeeds exactly when the input directory exists and no
      stale unit's compile fails; when the input directory is missing it
      fails before issuing anything. */
  lemma RecompileSucceedsIff(h: Host, c: BuildConfig, force: bool)
    ensures RecompileRun(h, c, force).ok <==>
      && DirExists(h, c.indir)
      && forall n :: n in c.cppSource && NeedsCompile(h, c, force, n) ==> CompileCommand(c, n) !in h.failing
    ensures !DirExists(h, c.indir) ==> RecompileRun(h, c, force).events == []
  {
    CompileLoopIssuesStaleUnitsUntilFailure(h, c, force, c.cppSource);
  }

  /** build links only after every stale unit compiled, the link command is
      then its last request, and its result is the link command's; after a
      failed recompile it issues nothing more and fails. */
  lemma BuildSucceedsIff(h: Host, c: BuildConfig, force: bool)
    ensures BuildRun(h, c, force).ok <==>
      && DirExists(h, c.indir)
      && (forall n :: n in c.cppSource && NeedsCompile(h, c, force, n) ==> CompileCommand(c, n) !in h.failing)
      && LinkCommand(c) !in h.failing
    ensures RecompileRun(h, c, force).ok <==>
      BuildRun(h, c, force).events == RecompileRun(h, c, force).events + [Exec(LinkCommand(c))]
    ensures !RecompileRun(h, c, force).ok ==> BuildRun(h, c, force) == RecompileRun(h, c, force)
  {
    RecompileSucceedsIff(h, c, force);
  }
}
