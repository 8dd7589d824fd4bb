/** The per-unit decision of recompile (build.c:95-104): compile unless the
    object file exists, is at least as new as the source, and the run is not
    forced. */
module Staleness {
  import opened Host
  import opened Config
  import opened Commands

  /** Whether recompile compiles unit `name`, following the nested tests of
      build.c:96-104. */
  function NeedsCompile(h: Host, c: BuildConfig, force: bool, name: string): (stale: bool)
    ensures stale <==>
      || !FileExists(h, ObjectPath(c, name))
      || LastUpdateTime(h, ObjectPath(c, name)) < LastUpdateTime(h, SourcePath(c, name))
      || force
  {
    var obj := ObjectPath(c, name);
    if FileExists(h, obj) then
      var t1 := LastUpdateTime(h, obj);
      var t2 := LastUpdateTime(h, SourcePath(c, name));
      if t1 >= t2 then force else true
    else true
  }

  /** Equal timestamps count as up to date. */
  lemma EqualTimesAreFresh(h: Host, c: BuildConfig, name: string)
    requires FileExists(h, ObjectPath(c, name))
    requires LastUpdateTime(h, ObjectPath(c, name)) == LastUpdateTime(h, SourcePath(c, name))
    ensures !NeedsCompile(h, c, false, name)
  {
  }

  /** A source whose time `stat` cannot report counts as modified now, so an
      object stamped in the past is rebuilt. */
  lemma UnreadableSourceIsStale(h: Host, c: BuildConfig, name: string)
    requires SourcePath(c, name) !in h.mtimes
    requires ObjectPath(c, name) in h.mtimes && h.mtimes[ObjectPath(c, name)] < h.now
    ensures NeedsCompile(h, c, false, name)
  {
  }
}
