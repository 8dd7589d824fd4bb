/** The command-line dispatch of main (build.c:210-231) and in_vector
    (build.c:58-65). Like build.c, the scan covers the whole argument vector,
    program name included. */
module Cli {

  /** in_vector (build.c:58-65): a linear search for `s` in `v`. */
  method InVector(s: string, v: seq<string>) returns (found: bool)
    ensures found <==> s in v
  {
    var i := 0;
    while i < |v|
      invariant 0 <= i <= |v|
      invariant s !in v[..i]
    {
      if v[i] == s {
        return true;
      }
      i := i + 1;
    }
    assert v[..i] == v;
    return false;
  }

  /** The `||` chains of build.c:216-225: whether any of `spellings` occurs in
      `v`, asking in_vector one spelling at a time and stopping at the first hit. */
  method AnyInVector(spellings: seq<string>, v: seq<string>) returns (found: bool)
    ensures found <==> exists w :: w in spellings && w in v
  {
    var k := 0;
    while k < |spellings|
      invariant 0 <= k <= |spellings|
      invariant forall j :: 0 <= j < k ==> spellings[j] !in v
    {
      found := InVector(spellings[k], v);
      if found {
        return;
      }
      k := k + 1;
    }
    return false;
  }

  /** What main runs. */
  datatype Mode = Help | BuildMode(force: bool) | RecompileMode(force: bool) | Idle

  /** The mode main picks for the argument vector `argv` (build.c:210-231):
      with arguments, the first group in priority order that has a spelling in
      `argv`, or nothing; without arguments, a plain build. */
  function SelectMode(argv: seq<string>): Mode
  {
    if |argv| > 1 then
      if "--help" in argv then Help
      else if "-fb" in argv || "-bf" in argv || "--force_build" in argv then BuildMode(true)
      else if "-fr" in argv || "-rf" in argv || "--force_recompile" in argv then RecompileMode(true)
      else if "-b" in argv || "--build" in argv then BuildMode(false)
      else if "-r" in argv || "--recompile" in argv then RecompileMode(false)
      else Idle
    else BuildMode(false)
  }

  /** One row of the usage table: a spelling and the mode it asks for. */
  datatype Flag = Flag(spelling: string, mode: Mode)

  /** Every recognised spelling, highest priority first. */
  const Flags: seq<Flag> := [
    Flag("--help", Help),
    Flag("-fb", BuildMode(true)), Flag("-bf", BuildMode(true)), Flag("--force_build", BuildMode(true)),
    Flag("-fr", RecompileMode(true)), Flag("-rf", RecompileMode(true)), Flag("--force_recompile", RecompileMode(true)),
    Flag("-b", BuildMode(false)), Flag("--build", BuildMode(false)),
    Flag("-r", RecompileMode(false)), Flag("--recompile", RecompileMode(false))
  ]

  /** The mode of the first row of `table`, from row `k` on, whose spelling
      occurs in `argv`. */
  function FirstListed(table: seq<Flag>, argv: seq<string>, k: nat := 0): Mode
    decreases |table| - k
  {
    if k >= |table| then Idle
    else if table[k].spelling in argv then table[k].mode
    else FirstListed(table, argv, k + 1)
  }

  /** With arguments, main runs the mode of the highest-priority spelling
      present, and nothing when no spelling is recognised; without arguments
      it builds. */
  lemma SelectModeFollowsFlagTable(argv: seq<string>)
    ensures SelectMode(argv) == if |argv| > 1 then FirstListed(Flags, argv) else BuildMode(false)
  {
    assert FirstListed(Flags, argv, 0) == if "--help" in argv then Help else FirstListed(Flags, argv, 1);
    assert FirstListed(Flags, argv, 1) == if "-fb" in argv then BuildMode(true) else FirstListed(Flags, argv, 2);
    assert FirstListed(Flags, argv, 2) == if "-bf" in argv then BuildMode(true) else FirstListed(Flags, argv, 3);
    assert FirstListed(Flags, argv, 3) == if "--force_build" in argv then BuildMode(true) else FirstListed(Flags, argv, 4);
    assert FirstListed(Flags, argv, 4) == if "-fr" in argv then RecompileMode(true) else FirstListed(Flags, argv, 5);
    assert FirstListed(Flags, argv, 5) == if "-rf" in argv then RecompileMode(true) else FirstListed(Flags, argv, 6);
    assert FirstListed(Flags, argv, 6) == if "--force_recompile" in argv then RecompileMode(true) else FirstListed(Flags, argv, 7);
    assert FirstListed(Flags, argv, 7) == if "-b" in argv then BuildMode(false) else FirstListed(Flags, argv, 8);
    assert FirstListed(Flags, argv, 8) == if "--build" in argv then BuildMode(false) else FirstListed(Flags, argv, 9);
    assert FirstListed(Flags, argv, 9) == if "-r" in argv then RecompileMode(false) else FirstListed(Flags, argv, 10);
    assert FirstListed(Flags, argv, 10) == if "--recompile" in argv then RecompileMode(false) else FirstListed(Flags, argv, 11);
    assert FirstListed(Flags, argv, 11) == Idle;
  }

  lemma {:induction false} FirstListedAbsent(table: seq<Flag>, argv: seq<string>, k: nat)
    requires forall j :: k <= j < |table| ==> table[j].spelling !in argv
    ensures FirstListed(table, argv, k) == Idle
    decreases |table| - k
  {
    if k < |table| {
      FirstListedAbsent(table, argv, k + 1);
    }
  }

  /** Arguments none of which is a recognised spelling select nothing. */
  lemma NoRecognisedFlagIsIdle(argv: seq<string>)
    requires |argv| > 1
    requires forall k :: 0 <= k < |Flags| ==> Flags[k].spelling !in argv
    ensures SelectMode(argv) == Idle
  {
    SelectModeFollowsFlagTable(argv);
    FirstListedAbsent(Flags, argv, 0);
  }

  /** The dispatch of build.c:210-231, asking in_vector in the same order. */
  method ChooseMode(argv: seq<string>) returns (m: Mode)
    ensures m == SelectMode(argv)
    ensures |argv| > 1 ==> m == FirstListed(Flags, argv)
  {
    if |argv| > 1 {
      SelectModeFollowsFlagTable(argv);
      var found := InVector("--help", argv);
      if found {
        return Help;
      }
      found := AnyInVector(["-fb", "-bf", "--force_build"], argv);
      if found {
        return BuildMode(true);
      }
      found := AnyInVector(["-fr", "-rf", "--force_recompile"], argv);
      if found {
        return RecompileMode(true);
      }
      found := AnyInVector(["-b", "--build"], argv);
      if found {
        return BuildMode(false);
      }
      found := AnyInVector(["-r", "--recompile"], argv);
      if found {
        return RecompileMode(false);
      }
      return Idle;
    }
    return BuildMode(false);
  }
}
