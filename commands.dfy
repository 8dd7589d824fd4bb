/** The command lines build.c hands to `system`: one compile command per unit
    (spec_recompile, build.c:74-78) and the link command (build.c:122-136).
    Strings are unbounded here; build.c writes them into fixed stack buffers. */
module Commands {
  import opened Base
  import opened Config

  /** The object file of unit `name` (build.c:95). */
  function ObjectPath(c: BuildConfig, name: string): string
  {
    c.outdir + name + ".o"
  }

  /** The source file of unit `name` (build.c:99). */
  function SourcePath(c: BuildConfig, name: string): string
  {
    c.indir + name + c.format
  }

  /** The compile command of build.c:76. */
  function CompileCommand(c: BuildConfig, name: string): string
  {
    c.compiler + " " + c.cflags + " " + c.indir + name + c.format + " -c -o " + c.outdir + name + ".o"
  }

  /** The compile command is the compiler, the global flags, the source file,
      a hard-coded `-c`, and `-o` with the object file, one word after the
      other; `libs` takes no part in it. */
  lemma CompileCommandWords(c: BuildConfig, name: string)
    ensures CompileCommand(c, name)
         == Join(" ", [c.compiler, c.cflags, SourcePath(c, name), "-c", "-o", ObjectPath(c, name)])
  {
    var words := [c.compiler, c.cflags, SourcePath(c, name), "-c", "-o", ObjectPath(c, name)];
    assert Join(" ", words[5..]) == ObjectPath(c, name);
    assert Join(" ", words[4..]) == "-o" + " " + ObjectPath(c, name) by { assert words[4..][1..] == words[5..]; }
    assert Join(" ", words[3..]) == "-c" + " " + Join(" ", words[4..]) by { assert words[3..][1..] == words[4..]; }
    assert Join(" ", words[2..]) == SourcePath(c, name) + " " + Join(" ", words[3..]) by { assert words[2..][1..] == words[3..]; }
    assert Join(" ", words[1..]) == c.cflags + " " + Join(" ", words[2..]) by { assert words[1..][1..] == words[2..]; }
    assert " -c -o " == " " + "-c" + " " + "-o" + " ";
  }

  /** The object files of `names`, in order. */
  function ObjectPaths(c: BuildConfig, names: seq<string>): (paths: seq<string>)
    ensures |paths| == |names|
  {
    seq(|names|, i requires 0 <= i < |names| => ObjectPath(c, names[i]))
  }

  /** What the loop at build.c:128-131 appends: each object file followed by a space. */
  function ObjectList(c: BuildConfig, names: seq<string>): string
  {
    if names == [] then ""
    else ObjectList(c, names[..|names| - 1]) + ObjectPath(c, names[|names| - 1]) + " "
  }

  /** The link command of build.c:122-136; the linker is the compiler and the
      output lands in `outdir`. */
  function LinkCommand(c: BuildConfig): string
  {
    c.compiler + " " + ObjectList(c, c.cppSource) + c.libs + " -o " + c.outdir + c.target
  }

  lemma {:induction false} ObjectListWords(c: BuildConfig, names: seq<string>, tail: seq<string>)
    requires |tail| > 0
    ensures ObjectList(c, names) + Join(" ", tail) == Join(" ", ObjectPaths(c, names) + tail)
  {
    if names != [] {
      var init, last := names[..|names| - 1], names[|names| - 1];
      var tail' := [ObjectPath(c, last)] + tail;
      assert Join(" ", tail') == ObjectPath(c, last) + " " + Join(" ", tail) by { assert tail'[1..] == tail; }
      ObjectListWords(c, init, tail');
      assert ObjectPaths(c, names) + tail == ObjectPaths(c, init) + tail';
    } else {
      assert ObjectPaths(c, names) + tail == tail;
    }
  }

  lemma JoinCons(sep: string, word: string, rest: seq<string>)
    requires |rest| > 0
    ensures Join(sep, [word] + rest) == word + sep + Join(sep, rest)
  {
    assert ([word] + rest)[1..] == rest;
  }

  lemma LinkTailWords(c: BuildConfig)
    ensures Join(" ", [c.libs, "-o", c.outdir + c.target]) == c.libs + " -o " + c.outdir + c.target
  {
    var tail := [c.libs, "-o", c.outdir + c.target];
    assert tail[1..][1..] == [c.outdir + c.target];
    assert Join(" ", tail[1..]) == "-o" + " " + (c.outdir + c.target);
    assert Join(" ", tail) == c.libs + " " + Join(" ", tail[1..]);
    assert " -o " == " " + "-o" + " ";
  }

  /** The link command is the compiler, every unit's object file in
      declaration order, `libs`, and `-o` with `outdir + target`. */
  lemma LinkCommandWords(c: BuildConfig)
    ensures LinkCommand(c)
         == Join(" ", [c.compiler] + ObjectPaths(c, c.cppSource) + [c.libs, "-o", c.outdir + c.target])
  {
    var objects := ObjectPaths(c, c.cppSource);
    var tail := [c.libs, "-o", c.outdir + c.target];
    LinkTailWords(c);
    ObjectListWords(c, c.cppSource, tail);
    JoinCons(" ", c.compiler, objects + tail);
    assert [c.compiler] + objects + tail == [c.compiler] + (objects + tail);
    calc {
      LinkCommand(c);
      c.compiler + " " + (ObjectList(c, c.cppSource) + (c.libs + " -o " + c.outdir + c.target));
      c.compiler + " " + (ObjectList(c, c.cppSource) + Join(" ", tail));
      c.compiler + " " + Join(" ", objects + tail);
    }
  }

  /** build.c:122-136: appends the link command piece by piece, each piece at
      the end of what is already written. */
  method AssembleLinkCommand(c: BuildConfig) returns (cmd: string)
    ensures cmd == LinkCommand(c)
    ensures cmd == Join(" ", [c.compiler] + ObjectPaths(c, c.cppSource) + [c.libs, "-o", c.outdir + c.target])
  {
    cmd := c.compiler + " ";
    var i := 0;
    while i < |c.cppSource|
      invariant 0 <= i <= |c.cppSource|
      invariant cmd == c.compiler + " " + ObjectList(c, c.cppSource[..i])
    {
      assert c.cppSource[..i + 1][..i] == c.cppSource[..i];
      cmd := cmd + ObjectPath(c, c.cppSource[i]) + " ";
      i := i + 1;
    }
    assert c.cppSource[..i] == c.cppSource;
    cmd := cmd + c.libs;
    cmd := cmd + " -o " + c.outdir + c.target;
    LinkCommandWords(c);
  }
}
