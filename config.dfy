/** load_build_data (build.c:149-195) as a fold over the pairs of the parsed
    JSON object: eight recognised keys are assigned, anything else is ignored,
    and loading succeeds when all eight were assigned. */
module Config {
  import opened Base

  /** The two shapes of value build.c reads from the parsed object: a string,
      or an array whose elements it reads as strings. */
  datatype JsonValue = JString(str: string) | JArray(items: seq<string>)

  /** One key/value pair of the top-level object, in file order. */
  datatype Field = Field(key: string, value: JsonValue)

  /** The eight global variables of build.c:17-18; `None` is NULL. */
  datatype Settings = Settings(
    indir: Option<string>,
    outdir: Option<string>,
    compiler: Option<string>,
    format: Option<string>,
    libs: Option<string>,
    cflags: Option<string>,
    target: Option<string>,
    cppSource: Option<seq<string>>)

  /** Every global reset to NULL (build.c:157-164). */
  const Cleared := Settings(None, None, None, None, None, None, None, None)

  const StringKeys: set<string> := {"target", "indir", "outdir", "compiler", "format", "cflags", "libs"}
  const SourcesKey: string := "cpp_source"
  const Keys: set<string> := StringKeys + {SourcesKey}

  /** A recognised key carries the shape build.c reads from it. */
  predicate FitsKey(f: Field)
  {
    && (f.key in StringKeys ==> f.value.JString?)
    && (f.key == SourcesKey ==> f.value.JArray?)
  }

  predicate WellTyped(fields: seq<Field>)
  {
    forall i :: 0 <= i < |fields| ==> FitsKey(fields[i])
  }

  /** One iteration of the loop at build.c:167-192. */
  function Assign(s: Settings, f: Field): Settings
    requires FitsKey(f)
  {
    if f.key == "target" then s.(target := Some(f.value.str))
    else if f.key == "indir" then s.(indir := Some(f.value.str))
    else if f.key == "outdir" then s.(outdir := Some(f.value.str))
    else if f.key == "compiler" then s.(compiler := Some(f.value.str))
    else if f.key == "format" then s.(format := Some(f.value.str))
    else if f.key == "cflags" then s.(cflags := Some(f.value.str))
    else if f.key == "libs" then s.(libs := Some(f.value.str))
    else if f.key == SourcesKey then s.(cppSource := Some(f.value.items))
    else s
  }

  /** The globals after the loop has visited `fields`, starting from NULL. */
  function Load(fields: seq<Field>): Settings
    requires WellTyped(fields)
  {
    if fields == [] then Cleared
    else Assign(Load(fields[..|fields| - 1]), fields[|fields| - 1])
  }

  /** The success condition of build.c:194. */
  predicate Complete(s: Settings)
  {
    && s.indir.Some? && s.outdir.Some? && s.compiler.Some? && s.format.Some?
    && s.libs.Some? && s.cflags.Some? && s.target.Some? && s.cppSource.Some?
  }

  /** The configuration once every global is set. */
  datatype BuildConfig = BuildConfig(
    indir: string,
    outdir: string,
    compiler: string,
    format: string,
    libs: string,
    cflags: string,
    target: string,
    cppSource: seq<string>)

  function ToConfig(s: Settings): BuildConfig
    requires Complete(s)
  {
    BuildConfig(s.indir.value, s.outdir.value, s.compiler.value, s.format.value,
                s.libs.value, s.cflags.value, s.target.value, s.cppSource.value)
  }

  function AsValue(o: Option<string>): Option<JsonValue>
  {
    if o.Some? then Some(JString(o.value)) else None
  }

  /** The value the global named by `key` holds, as the JSON value it came from. */
  function Lookup(s: Settings, key: string): Option<JsonValue>
  {
    if key == "target" then AsValue(s.target)
    else if key == "indir" then AsValue(s.indir)
    else if key == "outdir" then AsValue(s.outdir)
    else if key == "compiler" then AsValue(s.compiler)
    else if key == "format" then AsValue(s.format)
    else if key == "cflags" then AsValue(s.cflags)
    else if key == "libs" then AsValue(s.libs)
    else if key == SourcesKey then (if s.cppSource.Some? then Some(JArray(s.cppSource.value)) else None)
    else None
  }

  /** Some pair of `fields` has key `key`. */
  predicate Mentions(fields: seq<Field>, key: string)
  {
    exists i :: 0 <= i < |fields| && fields[i].key == key
  }

  /** The position of the last pair with key `key`, or -1 when there is none. */
  function LastIndex(fields: seq<Field>, key: string): (i: int)
    ensures -1 <= i < |fields|
    ensures i >= 0 ==> fields[i].key == key && forall j :: i < j < |fields| ==> fields[j].key != key
    ensures i < 0 ==> !Mentions(fields, key)
  {
    if fields == [] then -1
    else if fields[|fields| - 1].key == key then |fields| - 1
    else LastIndex(fields[..|fields| - 1], key)
  }

  lemma LookupAfterAssign(s: Settings, f: Field, key: string)
    requires FitsKey(f)
    ensures Lookup(Assign(s, f), key) == if f.key == key && key in Keys then Some(f.value) else Lookup(s, key)
  {
  }

  lemma CompleteIffAllSet(s: Settings)
    ensures Complete(s) <==> forall k :: k in Keys ==> Lookup(s, k).Some?
  {
    if !Complete(s) {
      if s.indir.None? { assert Lookup(s, "indir").None?; }
      else if s.outdir.None? { assert Lookup(s, "outdir").None?; }
      else if s.compiler.None? { assert Lookup(s, "compiler").None?; }
      else if s.format.None? { assert Lookup(s, "format").None?; }
      else if s.libs.None? { assert Lookup(s, "libs").None?; }
      else if s.cflags.None? { assert Lookup(s, "cflags").None?; }
      else if s.target.None? { assert Lookup(s, "target").None?; }
      else { assert Lookup(s, SourcesKey).None?; }
    }
  }

  lemma WellTypedPrefix(fields: seq<Field>, n: nat)
    requires WellTyped(fields) && n <= |fields|
    ensures WellTyped(fields[..n])
  {
    forall i | 0 <= i < n ensures FitsKey(fields[..n][i]) {
      assert fields[..n][i] == fields[i];
    }
  }

  /** A later pair overrides an earlier one with the same key: each recognised
      global ends up holding the value of the last pair naming it, and stays
      NULL when no pair names it. For `cpp_source` the array is kept whole,
      in file order. */
  lemma {:induction false} LoadLastWins(fields: seq<Field>, key: string)
    requires WellTyped(fields) && key in Keys
    ensures var i := LastIndex(fields, key);
            Lookup(Load(fields), key) == if i < 0 then None else Some(fields[i].value)
  {
    if fields != [] {
      var init, last := fields[..|fields| - 1], fields[|fields| - 1];
      WellTypedPrefix(fields, |fields| - 1);
      LookupAfterAssign(Load(init), last, key);
      if last.key != key {
        LoadLastWins(init, key);
      }
    }
  }

  /** Loading succeeds exactly when each of the eight recognised keys occurs
      at least once (build.c:194). */
  lemma LoadSucceedsIff(fields: seq<Field>)
    requires WellTyped(fields)
    ensures Complete(Load(fields)) <==> forall k :: k in Keys ==> Mentions(fields, k)
  {
    forall k | k in Keys
      ensures Lookup(Load(fields), k).Some? <==> Mentions(fields, k)
    {
      LoadLastWins(fields, k);
    }
    CompleteIffAllSet(Load(fields));
  }

  /** A pair whose key is not recognised changes nothing, wherever it sits. */
  lemma {:induction false} UnknownKeyIgnored(a: seq<Field>, f: Field, b: seq<Field>)
    requires WellTyped(a + [f] + b) && f.key !in Keys
    ensures WellTyped(a + b)
    ensures Load(a + [f] + b) == Load(a + b)
    decreases |b|
  {
    var whole := a + [f] + b;
    forall i | 0 <= i < |a + b| ensures FitsKey((a + b)[i]) {
      if i < |a| { assert (a + b)[i] == whole[i]; } else { assert (a + b)[i] == whole[i + 1]; }
    }
    if b == [] {
      assert whole[..|whole| - 1] == a;
      assert a + b == a;
    } else {
      var b' := b[..|b| - 1];
      assert whole[..|whole| - 1] == a + [f] + b';
      assert (a + b)[..|a + b| - 1] == a + b';
      WellTypedPrefix(whole, |whole| - 1);
      UnknownKeyIgnored(a, f, b');
    }
  }
}
