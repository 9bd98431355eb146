/**
 * Sessions with the simulator, each following one of the repository's
 * own usage examples, with what they leave in the log and on disk.
 */
module Scenarios {
  import opened Wrappers
  import opened Paths
  import opened Records
  import opened Simulation

  /** Creating a file in a given directory with a given extension. */
  method CreateWithExtension(creation: Creation)
  {
    var fs := new FileSystem({});
    var simulation := new EdrSimulation("/opt/edr");
    var path := simulation.CreateFile(fs, creation, directory := "spec/tmp", extension := Some(".json"));
    assert path[..8] == "spec/tmp" && path[|path| - 5..] == ".json" by {
      CreatedPathShape("spec/tmp", Some(".json"), creation.seconds, creation.random);
    }
    assert path in fs.paths;
    assert simulation.logs[FileProcesses] == [FileRecord(creation.host, path, "create")];
    assert simulation.Conforming();
  }

  /** Modifying a file that does not exist raises and logs nothing. */
  method ModifyMissing(host: Host, creation: Creation)
  {
    var fs := new FileSystem({"tmp/other.txt"});
    var simulation := new EdrSimulation("/opt/edr");
    var modified := simulation.ModifyFile(fs, host, creation, file := Some("tmp/modify-file-test-nonexists.txt"));
    assert modified == Raised(ArgumentError("Cannot modify file -- Not Found"));
    assert simulation.logs[FileProcesses] == [];
    assert fs.paths == {"tmp/other.txt"};
  }

  /** Deleting an existing file removes it and logs one record. */
  method DeleteExisting(host: Host, creation: Creation)
  {
    var fs := new FileSystem({"tmp/delete-file-test.txt"});
    var simulation := new EdrSimulation("/opt/edr");
    var deleted := simulation.DeleteFile(fs, host, creation, file := Some("tmp/delete-file-test.txt"));
    assert deleted == Ok(1);
    assert fs.paths == {};
    assert |simulation.logs[FileProcesses]| == 1;
  }

  /** Deleting with no file logs two file records: the creation, then the deletion. */
  method DeleteWithoutFile(host: Host, creation: Creation)
  {
    var fs := new FileSystem({});
    var simulation := new EdrSimulation("/opt/edr");
    var deleted := simulation.DeleteFile(fs, host, creation);
    assert deleted == Ok(1);
    assert fs.paths == {};
    var records := simulation.logs[FileProcesses];
    assert |records| == 2;
    var p := CreatedPath(JoinPath("/opt/edr", "tmp"), None, creation.seconds, creation.random);
    FileRecordValues(creation.host, p, "create");
    FileRecordValues(host, p, "delete");
    assert Lookup(records[0], ActivityKind) == Some(Str("create"));
    assert Lookup(records[1], ActivityKind) == Some(Str("delete"));
    assert Lookup(records[0], Filepath) == Lookup(records[1], Filepath);
    assert simulation.logs[NetworkProcesses] == [] && simulation.logs[ExecutableProcesses] == [];
  }

  /** A download logs one network record on port 443 and one file creation. */
  method Download(startTime: Instant, contentLength: int, host: Host, creation: Creation)
  {
    var fs := new FileSystem({});
    var simulation := new EdrSimulation("/opt/edr");
    var downloaded := simulation.DownloadData(fs, startTime, Some(contentLength), Some("10.0.0.5"), host, creation);
    assert downloaded.Ok? && downloaded.value in fs.paths;
    var records := simulation.logs[NetworkProcesses];
    assert |records| == 1;
    DownloadRecordShape(host, startTime, "10.0.0.5", Some(contentLength));
    assert Lookup(records[0], SourcePort) == Some(Int(443));
    assert Lookup(records[0], DestinationPort) == Some(Int(443));
    assert Lookup(records[0], RequestProtocol) == Some(Str("https"));
    assert Lookup(records[0], ContentLength) == Some(Int(contentLength));
    assert |simulation.logs[FileProcesses]| == 1;
  }

  lemma EchoCommandLine()
    ensures CommandLine("echo", ["howdy"]) == "echo howdy"
  {
    CommandLineAmbiguous("echo", "howdy");
    assert "echo" + " " + "howdy" == "echo howdy";
  }

  /** Running `echo howdy` logs the child's pid, its name and the command line. */
  method RunEcho(pid: int, host: Host)
  {
    var simulation := new EdrSimulation("/opt/edr");
    var ran := simulation.RunExecutable("echo", Some(pid), host, ["howdy"]);
    assert ran == Ok(pid);
    var records := simulation.logs[ExecutableProcesses];
    assert |records| == 1;
    ExecutableRecordValues(host, pid, "echo", CommandLine("echo", ["howdy"]));
    EchoCommandLine();
    assert Lookup(records[0], ProcessName) == Some(Str("echo"));
    assert Lookup(records[0], ProcessId) == Some(Int(pid));
    assert Lookup(records[0], Command) == Some(Str("echo howdy"));
  }
}
