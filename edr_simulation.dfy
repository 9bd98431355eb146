/**
 * The activity simulator: an object that performs file, network and
 * process actions and appends one telemetry record per action to its
 * log, a hash of three append-only arrays keyed by category.
 *
 * Whatever the host supplies (the clock, the random draw for file names,
 * the login name, the pids, the program name, the HTTP response's
 * content length, the local address) is passed in as an argument. The
 * host's file system is a separate object holding the set of paths that
 * exist.
 */
module Simulation {
  import opened Wrappers
  import opened Text
  import opened Paths
  import opened Records

  /** The exceptions the simulator's operations raise. */
  datatype Error =
    | ArgumentError(message: string)
    | NoMethodError(selector: string)
    | SpawnError

  const ModifyNotFound := "Cannot modify file -- Not Found"
  const DeleteNotFound := "Cannot delete file -- Not Found"
  const DefaultExtension := ".txt"

  /** The endpoint `download_data` fetches, `URI('https://example.com')`. */
  const DownloadUri := Uri("https", "example.com", 443)

  /** A value of `rand(10_000)`. */
  type RandomDraw = r: int | 0 <= r < 10000

  /**
   * What `create_file` reads from the host: `Time.now.to_i`, a
   * `rand(10_000)` draw, and the envelope of its log record.
   */
  datatype Creation = Creation(seconds: int, random: RandomDraw, host: Host)

  /** The name `create_file` gives a new file: `"<seconds>-<random>"`. */
  function FileName(seconds: int, random: RandomDraw): string {
    IntToString(seconds) + "-" + IntToString(random)
  }

  /**
   * Where `create_file` puts a new file: the name followed by the
   * extension exactly as given (no dot is added), `.txt` when none is.
   */
  function CreatedPath(directory: string, extension: Option<string>, seconds: int, random: RandomDraw): string {
    JoinPath(directory, FileName(seconds, random) + extension.GetOr(DefaultExtension))
  }

  /** `[executable, *args].join(' ')`: the command line that is logged. */
  function CommandLine(executable: string, args: seq<string>): string {
    Join([executable] + args, " ")
  }

  lemma FileNameCharacters(seconds: int, random: RandomDraw)
    ensures |FileName(seconds, random)| > 0
    ensures forall i :: 0 <= i < |FileName(seconds, random)| ==>
              IsDigit(FileName(seconds, random)[i]) || FileName(seconds, random)[i] == '-'
  {
  }

  lemma DashAt(a: string, b: string)
    ensures (a + "-" + b)[|a|] == '-'
  {
  }

  lemma DigitAfterDash(a: string, b: string, p: int)
    requires AllDigits(b)
    requires |a| < p < |a| + 1 + |b|
    ensures IsDigit((a + "-" + b)[p])
  {
    assert (a + "-" + b)[p] == b[p - |a| - 1];
  }

  /**
   * Two file names are equal only when both the clock seconds and the
   * random draw are: the name records both.
   */
  lemma FileNameInjective(seconds1: int, random1: RandomDraw, seconds2: int, random2: RandomDraw)
    requires FileName(seconds1, random1) == FileName(seconds2, random2)
    ensures seconds1 == seconds2 && random1 == random2
  {
    var a1, b1 := IntToString(seconds1), IntToString(random1);
    var a2, b2 := IntToString(seconds2), IntToString(random2);
    var n := FileName(seconds1, random1);
    assert n == a1 + "-" + b1 && n == a2 + "-" + b2;
    if |b1| < |b2| {
      DashAt(a1, b1);
      DigitAfterDash(a2, b2, |a1|);
      assert false;
    } else if |b2| < |b1| {
      DashAt(a2, b2);
      DigitAfterDash(a1, b1, |a2|);
      assert false;
    }
    assert a1 == n[..|a1|] == a2;
    assert b1 == n[|a1| + 1..] == b2;
    IntToStringInjective(seconds1, seconds2);
    IntToStringInjective(random1, random2);
  }

  /**
   * A created path starts with the directory as given and ends with the
   * extension, whatever the extension is. When the extension has no
   * separator in it, the file's own name (the last path segment) is the
   * generated name followed by the extension.
   */
  lemma CreatedPathShape(directory: string, extension: Option<string>, seconds: int, random: RandomDraw)
    ensures var p := CreatedPath(directory, extension, seconds, random);
            var ext := extension.GetOr(DefaultExtension);
            |directory| < |p| && p[..|directory|] == directory &&
            |ext| <= |p| && p[|p| - |ext|..] == ext &&
            (Separator !in ext ==> LastSegment(p) == FileName(seconds, random) + ext)
  {
    var ext := extension.GetOr(DefaultExtension);
    var n := FileName(seconds, random);
    var name := n + ext;
    FileNameCharacters(seconds, random);
    assert name[0] == n[0];
    JoinPathRelative(directory, name);
    var p := CreatedPath(directory, extension, seconds, random);
    assert p[|p| - |ext|..] == name[|name| - |ext|..];
    if Separator !in ext {
      assert Separator !in name;
      JoinPathShape(directory, name);
    }
  }

  /**
   * Files created in the same directory with the same extension, whatever
   * that extension is, at different clock seconds or with different random
   * draws get different paths.
   */
  lemma CreatedPathsDiffer(directory: string, extension: Option<string>,
                           seconds1: int, random1: RandomDraw, seconds2: int, random2: RandomDraw)
    requires seconds1 != seconds2 || random1 != random2
    ensures CreatedPath(directory, extension, seconds1, random1) != CreatedPath(directory, extension, seconds2, random2)
  {
    if CreatedPath(directory, extension, seconds1, random1) == CreatedPath(directory, extension, seconds2, random2) {
      var ext := extension.GetOr(DefaultExtension);
      var n1, n2 := FileName(seconds1, random1), FileName(seconds2, random2);
      FileNameCharacters(seconds1, random1);
      FileNameCharacters(seconds2, random2);
      var name1, name2 := n1 + ext, n2 + ext;
      assert name1[0] == n1[0] && name2[0] == n2[0];
      var d := if |directory| > 0 && directory[|directory| - 1] == Separator then directory else directory + [Separator];
      var p := JoinPath(directory, name1);
      assert p == d + name1 && p == d + name2;
      assert name1 == p[|d|..] == name2;
      assert n1 == name1[..|n1|] && n2 == name2[..|n2|];
      FileNameInjective(seconds1, random1, seconds2, random2);
    }
  }

  /**
   * The logged command line starts with the executable, is the
   * executable alone when there are no arguments, and gives back the
   * executable and every argument when it is split at spaces, provided
   * none of them contains a space.
   */
  lemma CommandLineParts(executable: string, args: seq<string>)
    ensures |executable| <= |CommandLine(executable, args)|
    ensures CommandLine(executable, args)[..|executable|] == executable
    ensures args == [] ==> CommandLine(executable, args) == executable
    ensures ' ' !in executable && (forall i :: 0 <= i < |args| ==> ' ' !in args[i]) ==>
            Fields(CommandLine(executable, args), ' ') == [executable] + args
  {
    JoinStartsWithFirst([executable] + args, " ");
    if ' ' !in executable && (forall i :: 0 <= i < |args| ==> ' ' !in args[i]) {
      var words := [executable] + args;
      assert forall i :: 0 <= i < |words| ==> ' ' !in words[i] by {
        forall i | 0 <= i < |words| ensures ' ' !in words[i] {
          if i > 0 {
            assert words[i] == args[i - 1];
          }
        }
      }
      FieldsOfJoin(words, ' ');
    }
  }

  /**
   * One argument follows the executable after a single space, and
   * nothing is quoted or escaped: an executable whose name contains a
   * space logs the same command line as the shorter executable given
   * the rest of the name as its one argument.
   */
  lemma CommandLineAmbiguous(executable: string, arg: string)
    ensures CommandLine(executable, [arg]) == executable + " " + arg
    ensures CommandLine(executable + " " + arg, []) == CommandLine(executable, [arg])
  {
    assert [executable + " " + arg] + [] == [executable + " " + arg];
    assert ([executable] + [arg])[1..] == [arg];
    assert CommandLine(executable, [arg]) == executable + " " + Join([arg], " ");
  }

  /**
   * The record of a download: example.com on port 443 is the source,
   * the local address on the https port 443 the destination, and the
   * protocol is https.
   */
  lemma DownloadRecordShape(h: Host, startTime: Instant, localIp: string, contentLength: Option<int>)
    ensures var r := NetworkRecord(h, startTime, DownloadUri, localIp, contentLength);
            r.order == Schema(NetworkProcesses) &&
            Lookup(r, Timestamp) == Some(Time(startTime)) &&
            Lookup(r, SourceHost) == Some(Str("example.com")) &&
            Lookup(r, SourcePort) == Some(Int(443)) &&
            Lookup(r, DestinationHost) == Some(Str(localIp)) &&
            Lookup(r, DestinationPort) == Some(Int(443)) &&
            Lookup(r, RequestProtocol) == Some(Str("https")) &&
            Lookup(r, ContentLength) == Some(ContentLengthValue(contentLength))
  {
    NetworkRecordOrder(h, startTime, DownloadUri, localIp, contentLength);
    NetworkRecordValues(h, startTime, DownloadUri, localIp, contentLength);
  }

  /** Every record of the log is a hash carrying the keys of its category, in order. */
  ghost predicate ConformingLogs(logs: map<Category, seq<Record>>) {
    forall c, i | c in logs && 0 <= i < |logs[c]| :: WellFormed(logs[c][i]) && logs[c][i].order == Schema(c)
  }

  /** Appending a hash with its category's keys keeps the log conforming. */
  lemma AppendConforming(logs: map<Category, seq<Record>>, c: Category, r: Record)
    requires ConformingLogs(logs) && c in logs
    requires WellFormed(r) && r.order == Schema(c)
    ensures ConformingLogs(logs[c := logs[c] + [r]])
  {
  }

  /** Two appends to one category are one append of both records, in order. */
  lemma AppendTwice(logs: map<Category, seq<Record>>, c: Category, first: Record, second: Record)
    requires c in logs
    ensures logs[c := logs[c] + [first]][c := logs[c] + [first] + [second]] == logs[c := logs[c] + [first, second]]
  {
    assert logs[c] + [first] + [second] == logs[c] + [first, second];
  }

  /** The host's file system, as far as the simulator sees it: the paths that exist. */
  class FileSystem {
    var paths: set<string>

    constructor(paths: set<string>)
      ensures this.paths == paths
    {
      this.paths := paths;
    }
  }

  class EdrSimulation {
    /** The root of the installation, `ROOT_PATH`; it depends on where the program lives. */
    const rootPath: string
    /** `@logs`: one append-only sequence of records per category. */
    var logs: map<Category, seq<Record>>

    /** The log always holds exactly the three categories. */
    ghost predicate Valid()
      reads this
    {
      logs.Keys == {ExecutableProcesses, FileProcesses, NetworkProcesses}
    }

    /** Every logged record has the keys of its category, in order. */
    ghost predicate Conforming()
      reads this
    {
      ConformingLogs(logs)
    }

    /** `DEFAULT_FILE_DIRECTORY`: `File.join(ROOT_PATH, 'tmp')`. */
    function DefaultFileDirectory(): string {
      JoinPath(rootPath, "tmp")
    }

    /** A new simulation's log has the three categories and nothing in them. */
    constructor(rootPath: string)
      ensures Valid() && Conforming()
      ensures this.rootPath == rootPath
      ensures logs == map[ExecutableProcesses := [], FileProcesses := [], NetworkProcesses := []]
    {
      this.rootPath := rootPath;
      logs := map[ExecutableProcesses := [], FileProcesses := [], NetworkProcesses := []];
    }

    /**
     * `add_log`: appends to the category the envelope read from `host`
     * merged with `log`, whose values win on shared keys.
     */
    method AddLog(category: Category, log: Record, host: Host)
      requires Valid() && WellFormed(log)
      modifies this
      ensures Valid()
      ensures logs == old(logs)[category := old(logs)[category] + [Merge(Envelope(host), log)]]
    {
      logs := logs[category := logs[category] + [Merge(Envelope(host), log)]];
    }

    /** `add_file_process_log`: one file record with the path and the kind of activity. */
    method AddFileProcessLog(filepath: string, activityKind: string, host: Host)
      requires Valid()
      modifies this
      ensures Valid()
      ensures logs == old(logs)[FileProcesses := old(logs)[FileProcesses] + [FileRecord(host, filepath, activityKind)]]
      ensures old(Conforming()) ==> Conforming()
    {
      FilePayloadWellFormed(filepath, activityKind);
      FileRecordOrder(host, filepath, activityKind);
      FileRecordWellFormed(host, filepath, activityKind);
      ghost var before := logs;
      AddLog(FileProcesses, FilePayload(filepath, activityKind), host);
      if ConformingLogs(before) {
        AppendConforming(before, FileProcesses, FileRecord(host, filepath, activityKind));
      }
    }

    /**
     * `add_network_process_log`: one network record describing `uri` as
     * the source and the local address as the destination. When the host
     * has no private IPv4 address the address lookup gives `nil`, and
     * asking it for `ip_address` raises before anything is logged.
     */
    method AddNetworkProcessLog(startTime: Instant, uri: Uri, contentLength: Option<int>,
                                localIp: Option<string>, host: Host)
      returns (result: Result<(), Error>)
      requires Valid()
      modifies this
      ensures Valid()
      ensures localIp.None? ==> result == Raised(NoMethodError("ip_address")) && logs == old(logs)
      ensures localIp.Some? ==>
        result == Ok(()) &&
        logs == old(logs)[NetworkProcesses := old(logs)[NetworkProcesses]
                  + [NetworkRecord(host, startTime, uri, localIp.value, contentLength)]]
      ensures old(Conforming()) ==> Conforming()
    {
      if localIp.None? {
        return Raised(NoMethodError("ip_address"));
      }
      NetworkPayloadWellFormed(startTime, uri, localIp.value, contentLength);
      NetworkRecordOrder(host, startTime, uri, localIp.value, contentLength);
      NetworkRecordWellFormed(host, startTime, uri, localIp.value, contentLength);
      ghost var before := logs;
      AddLog(NetworkProcesses, NetworkPayload(startTime, uri, localIp.value, contentLength), host);
      if ConformingLogs(before) {
        AppendConforming(before, NetworkProcesses, NetworkRecord(host, startTime, uri, localIp.value, contentLength));
      }
      result := Ok(());
    }

    /** `add_executable_process_log`: one executable record naming the child process. */
    method AddExecutableProcessLog(pid: int, name: string, command: string, host: Host)
      requires Valid()
      modifies this
      ensures Valid()
      ensures logs == old(logs)[ExecutableProcesses := old(logs)[ExecutableProcesses]
                        + [ExecutableRecord(host, pid, name, command)]]
      ensures old(Conforming()) ==> Conforming()
    {
      ExecutablePayloadWellFormed(pid, command, name);
      ExecutableRecordOrder(host, pid, name, command);
      ExecutableRecordWellFormed(host, pid, name, command);
      ghost var before := logs;
      AddLog(ExecutableProcesses, ExecutablePayload(pid, command, name), host);
      if ConformingLogs(before) {
        AppendConforming(before, ExecutableProcesses, ExecutableRecord(host, pid, name, command));
      }
    }

    /**
     * `create_file`: logs one `create` record for the new path, then
     * creates the file, so the path exists afterwards. The other two
     * categories are untouched.
     */
    method CreateFile(fs: FileSystem, creation: Creation,
                      nameonly directory: string := DefaultFileDirectory(),
                      nameonly extension: Option<string> := None)
      returns (path: string)
      requires Valid()
      modifies this, fs
      ensures Valid()
      ensures path == CreatedPath(directory, extension, creation.seconds, creation.random)
      ensures fs.paths == old(fs.paths) + {path}
      ensures logs == old(logs)[FileProcesses := old(logs)[FileProcesses] + [FileRecord(creation.host, path, "create")]]
      ensures old(Conforming()) ==> Conforming()
    {
      var filename := FileName(creation.seconds, creation.random);
      var ext := extension.GetOr(DefaultExtension);
      path := JoinPath(directory, filename + ext);
      AddFileProcessLog(path, "create", creation.host);
      fs.paths := fs.paths + {path};
    }

    /**
     * `modify_file`: with no file, creates one first (default directory
     * and extension). A path that does not exist raises before anything
     * is logged or written. Otherwise one `modify` record is logged, the
     * file's contents are replaced, and the path is returned.
     */
    method ModifyFile(fs: FileSystem, host: Host, creation: Creation, file: Option<string> := None)
      returns (result: Result<string, Error>)
      requires Valid()
      modifies this, fs
      ensures Valid()
      ensures file.Some? && file.value !in old(fs.paths) ==>
        result == Raised(ArgumentError(ModifyNotFound)) && logs == old(logs) && fs.paths == old(fs.paths)
      ensures file.Some? && file.value in old(fs.paths) ==>
        result == Ok(file.value) && fs.paths == old(fs.paths) &&
        logs == old(logs)[FileProcesses := old(logs)[FileProcesses] + [FileRecord(host, file.value, "modify")]]
      ensures file.None? ==>
        var p := CreatedPath(DefaultFileDirectory(), None, creation.seconds, creation.random);
        result == Ok(p) && fs.paths == old(fs.paths) + {p} &&
        logs == old(logs)[FileProcesses := old(logs)[FileProcesses]
                  + [FileRecord(creation.host, p, "create"), FileRecord(host, p, "modify")]]
      ensures old(Conforming()) ==> Conforming()
    {
      var target: string;
      if file.None? {
        target := CreateFile(fs, creation);
      } else {
        target := file.value;
      }
      if target !in fs.paths {
        return Raised(ArgumentError(ModifyNotFound));
      }
      AddFileProcessLog(target, "modify", host);
      if file.None? {
        AppendTwice(old(logs), FileProcesses, FileRecord(creation.host, target, "create"), FileRecord(host, target, "modify"));
      }
      result := Ok(target);
    }

    /**
     * `delete_file`: with no file, creates one first (default directory
     * and extension). A path that does not exist raises before anything
     * is logged or deleted. Otherwise one `delete` record is logged and
     * the path stops existing; the result is `File.delete`'s count, 1.
     */
    method DeleteFile(fs: FileSystem, host: Host, creation: Creation, file: Option<string> := None)
      returns (result: Result<int, Error>)
      requires Valid()
      modifies this, fs
      ensures Valid()
      ensures file.Some? && file.value !in old(fs.paths) ==>
        result == Raised(ArgumentError(DeleteNotFound)) && logs == old(logs) && fs.paths == old(fs.paths)
      ensures file.Some? && file.value in old(fs.paths) ==>
        result == Ok(1) && fs.paths == old(fs.paths) - {file.value} &&
        logs == old(logs)[FileProcesses := old(logs)[FileProcesses] + [FileRecord(host, file.value, "delete")]]
      ensures file.None? ==>
        var p := CreatedPath(DefaultFileDirectory(), None, creation.seconds, creation.random);
        result == Ok(1) && fs.paths == old(fs.paths) - {p} &&
        logs == old(logs)[FileProcesses := old(logs)[FileProcesses]
                  + [FileRecord(creation.host, p, "create"), FileRecord(host, p, "delete")]]
      ensures old(Conforming()) ==> Conforming()
    {
      var target: string;
      if file.None? {
        target := CreateFile(fs, creation);
      } else {
        target := file.value;
      }
      if target !in fs.paths {
        return Raised(ArgumentError(DeleteNotFound));
      }
      AddFileProcessLog(target, "delete", host);
      if file.None? {
        AppendTwice(old(logs), FileProcesses, FileRecord(creation.host, target, "create"), FileRecord(host, target, "delete"));
      }
      fs.paths := fs.paths - {target};
      result := Ok(1);
    }

    /**
     * `download_data`: fetches `https://example.com`, logs one network
     * record stamped with the time the request started, then saves the
     * body to a newly created file (default directory and extension),
     * which logs one `create` record, and returns that file's path.
     */
    method DownloadData(fs: FileSystem, startTime: Instant, contentLength: Option<int>,
                        localIp: Option<string>, host: Host, creation: Creation)
      returns (result: Result<string, Error>)
      requires Valid()
      modifies this, fs
      ensures Valid()
      ensures localIp.None? ==>
        result == Raised(NoMethodError("ip_address")) && logs == old(logs) && fs.paths == old(fs.paths)
      ensures localIp.Some? ==>
        var p := CreatedPath(DefaultFileDirectory(), None, creation.seconds, creation.random);
        result == Ok(p) && fs.paths == old(fs.paths) + {p} &&
        logs == old(logs)
          [NetworkProcesses := old(logs)[NetworkProcesses]
             + [NetworkRecord(host, startTime, DownloadUri, localIp.value, contentLength)]]
          [FileProcesses := old(logs)[FileProcesses] + [FileRecord(creation.host, p, "create")]]
      ensures old(Conforming()) ==> Conforming()
    {
      var uri := DownloadUri;
      var logged := AddNetworkProcessLog(startTime, uri, contentLength, localIp, host);
      if logged.Raised? {
        return Raised(logged.error);
      }
      var path := CreateFile(fs, creation);
      result := Ok(path);
    }

    /**
     * `run_executable`: spawns the executable with the arguments, logs
     * one executable record for the child, and waits for it; the result
     * is the child's pid, which is what `Process.wait` returns. When the
     * spawn fails, it raises before anything is logged.
     */
    method RunExecutable(executable: string, spawned: Option<int>, host: Host, args: seq<string> := [])
      returns (result: Result<int, Error>)
      requires Valid()
      modifies this
      ensures Valid()
      ensures spawned.None? ==> result == Raised(SpawnError) && logs == old(logs)
      ensures spawned.Some? ==>
        result == Ok(spawned.value) &&
        logs == old(logs)[ExecutableProcesses := old(logs)[ExecutableProcesses]
                  + [ExecutableRecord(host, spawned.value, executable, CommandLine(executable, args))]]
      ensures old(Conforming()) ==> Conforming()
    {
      if spawned.None? {
        return Raised(SpawnError);
      }
      var pid := spawned.value;
      AddExecutableProcessLog(pid, executable, CommandLine(executable, args), host);
      result := Ok(pid);
    }
  }
}
