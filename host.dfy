/** What build.c asks of the operating system, as data: which directories
    `opendir` can open, which files `fopen(…, "r")` can open, which paths `stat`
    reports a modification time for, what `time(NULL)` returns, and which
    command lines `system` runs with a non-zero exit status. The host is fixed
    for one run; the `Os` object records every command and `mkdir` issued. */
module Host {

  type Path = string
  type Time = int

  datatype Host = Host(
    dirs: set<Path>,          // dir_exists succeeds
    readable: set<Path>,      // file_exists succeeds
    mtimes: map<Path, Time>,  // stat succeeds, with this st_mtime
    now: Time,                // time(NULL)
    failing: set<string>)     // system(command) != 0

  /** lastUpdateTime (build.c:21-26): the modification time, or the current
      time when `stat` fails. */
  function LastUpdateTime(h: Host, path: Path): Time
  {
    if path in h.mtimes then h.mtimes[path] else h.now
  }

  /** file_exists (build.c:28-35). */
  predicate FileExists(h: Host, path: Path)
  {
    path in h.readable
  }

  /** dir_exists (build.c:43-50). */
  predicate DirExists(h: Host, path: Path)
  {
    path in h.dirs
  }

  /** One request the program makes of the operating system. */
  datatype Event = Exec(command: string) | MakeDir(path: Path)

  /** The process's view of the operating system: a fixed host and the log of
      requests made so far, in order. */
  class Os {
    const host: Host
    var log: seq<Event>

    constructor (host: Host)
      ensures this.host == host && log == []
    {
      this.host := host;
      log := [];
    }

    /** cmd_exec (build.c:52-56): runs `command` and reports a zero exit status. */
    method CmdExec(command: string) returns (ok: bool)
      modifies this
      ensures ok <==> command !in host.failing
      ensures log == old(log) + [Exec(command)]
    {
      ok := command !in host.failing;
      log := log + [Exec(command)];
    }

    /** mkdir (build.c:85), whose result the caller ignores. */
    method Mkdir(path: Path)
      modifies this
      ensures log == old(log) + [MakeDir(path)]
    {
      log := log + [MakeDir(path)];
    }
  }
}
