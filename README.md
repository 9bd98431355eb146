# EDR activity simulator, modelled in Dafny

The simulator is an object that produces endpoint activity so that an EDR
(endpoint detection and response) agent can pick it up. It creates,
modifies and deletes files, it downloads a page over HTTPS, and it spawns
processes. Each file, network or process action appends one telemetry
record to the object's log. `download_data`, and `modify_file` or
`delete_file` called without a file, perform two actions and append two.
The log is a hash of three append-only arrays: `executable_processes`,
`file_processes` and `network_processes`. Every record starts with the
same envelope (timestamp, login name, pid, program name), and a
category-specific payload is merged into it with Ruby's `Hash#merge`.

The model has these modules:

- `Wrappers`: `Option` and `Result`.
- `Text`: `Integer#to_s`, with its inverse, and `Array#join`, with the
  splitting that undoes it.
- `Paths`: `File.join` for two parts, and a path's last segment.
- `Records`: a Ruby Hash as an insertion-ordered key sequence plus a map,
  together with:
  - `hash[k] = v` (`Put`);
  - `Hash#merge`, in closed form (`Merge`), and proved equal to the
    step-by-step store of each payload entry (`PutAll`);
  - the envelope, the three payloads, and the records they make.
- `Simulation`: the simulator class `EdrSimulation`, with its `logs`
  field, and `FileSystem`, a class holding the set of paths that exist.
  Every operation is a method. Its `modifies` clause names the state it
  changes, and its `ensures` clauses give the whole new state and the
  result. Each category method and each public method also keeps the invariant
  that every logged record is a hash (distinct keys, each with a value)
  holding its category's keys in order (`Conforming`).
- `Scenarios`: sessions that follow the repository's RSpec examples.

Everything the host supplies is a parameter: the clock, the `rand(10_000)`
draw, the login name, the pids, `Process.argv0`, the response's content
length, the local address and whether the spawn succeeded. `Host` holds
what one envelope reads, and `Creation` holds what one `create_file` call
reads. `ROOT_PATH` depends on where the program is installed, so it is a
constructor argument.

## Model

| member | source | states |
|---|---|---|
| Text.Join | lib/edr_simulation.rb:74 | `Array#join(sep)`: the words with `sep` between consecutive ones; its inverse is `Fields` (see `Text.FieldsOfJoin`). |
| Text.IntToString | lib/edr_simulation.rb:27 | The rendering of seconds and draws in a file name is non-empty. A minus sign, which appears exactly for negative numbers, can only come first; every other character is a decimal digit. |
| Text.ParseIntToString | lib/edr_simulation.rb:27 | `Integer#to_s` loses nothing: reading the decimal rendering back gives the integer. |
| Text.IntToStringInjective | lib/edr_simulation.rb:27 | Different integers render to different strings. |
| Text.FieldsOfJoin | lib/edr_simulation.rb:74 | Words joined with a one-character separator they do not contain split back into exactly those words. |
| Text.JoinStartsWithFirst | lib/edr_simulation.rb:74 | A joined string begins with its first word. |
| Paths.TrimTrailingSeparators | lib/edr_simulation.rb:30 | The result is a prefix of the input. It does not end with a separator, and everything cut off was separators. |
| Paths.JoinPath | lib/edr_simulation.rb:30 | `File.join(dir, name)`: a name starting with a separator drops the directory's trailing separators; otherwise one separator is inserted unless the directory already ends with one. |
| Paths.JoinPathRelative | lib/edr_simulation.rb:30 | `File.join(dir, name)` for a name not starting with a separator keeps the directory as written at the front and ends with the name. |
| Paths.JoinPathShape | lib/edr_simulation.rb:30 | `File.join(dir, name)`, for a name with no separator: the directory is kept as written at the front, the name ends the path, and the name is the path's last segment. |
| Records.Put | lib/edr_simulation.rb:82-87 | `hash[k] = v`: an existing key keeps its position and a new key goes last; `k` reads `v`; every other key reads as before; a well-formed hash stays well-formed. |
| Records.PutAll | lib/edr_simulation.rb:82-87 | Storing a list of distinct keys one at a time appends the new ones in list order. Stored keys read their new values, and every other key reads as in the base. |
| Records.Merge | lib/edr_simulation.rb:87 | `Hash#merge`: the base's keys in place, then the payload's new keys in payload order; on shared keys the payload's value wins (see `Records.MergeIsPutAll`, `Records.MergeLookup`). |
| Records.Envelope | lib/edr_simulation.rb:82-86 | The envelope hash: `timestamp`, `process_user`, `process_id`, `process_name`, in that order, read from the host. |
| Records.FilePayload | lib/edr_simulation.rb:91-94 | The file payload: `filepath`, then `activity_kind`. |
| Records.NetworkPayload | lib/edr_simulation.rb:105-113 | The network payload: the URI's host and port, the local address and port, the scheme, the content length, and the start time as `timestamp`, in that order. |
| Records.ExecutablePayload | lib/edr_simulation.rb:117-121 | The executable payload: `process_id`, `command`, `process_name`. |
| Records.MergeIsPutAll | lib/edr_simulation.rb:87 | The closed form of `Hash#merge` equals storing each payload entry into the envelope in turn. |
| Records.MergeWellFormed | lib/edr_simulation.rb:82-87 | Merging two hashes gives a hash: every key is listed once, and exactly the listed keys have values. |
| Records.MergeLookup | lib/edr_simulation.rb:82-87 | On a shared key the payload's value wins, a key not in the payload keeps the envelope's value, and the envelope's keys stay in front in their order. |
| Records.LocalPort | lib/edr_simulation.rb:99-103 | The local port is 443 exactly when the scheme is `https`, and 80 otherwise. |
| Records.FileRecordOrder | lib/edr_simulation.rb:90-95 | A file record's keys are the four envelope keys, then `filepath` and `activity_kind`. |
| Records.FileRecordWellFormed | lib/edr_simulation.rb:90-95 | A file record is a hash. |
| Records.FileRecordValues | lib/edr_simulation.rb:90-95 | A file record carries the envelope's timestamp, user, pid and program name, the path, and the kind of activity. |
| Records.NetworkRecordOrder | lib/edr_simulation.rb:105-113 | The payload's `timestamp` takes the envelope's slot, so it is not repeated. The other six payload keys follow the envelope's four in payload order. |
| Records.NetworkRecordWellFormed | lib/edr_simulation.rb:105-113 | A network record is a hash. |
| Records.NetworkRecordValues | lib/edr_simulation.rb:97-114 | In a network record:<br>- the timestamp is the request's start time;<br>- user, pid and program name are the envelope's;<br>- the source is the URI's host and port, and the destination is the local address on the scheme's default port;<br>- it carries the protocol and the content length (nil when absent). |
| Records.ExecutableRecordOrder | lib/edr_simulation.rb:116-122 | An executable record's keys are the four envelope keys, then `command`. The payload's pid and name overwrite the envelope's in place. |
| Records.ExecutableRecordWellFormed | lib/edr_simulation.rb:116-122 | An executable record is a hash. |
| Records.ExecutableRecordValues | lib/edr_simulation.rb:116-122 | An executable record has the child's pid, the executable as its process name and the command line, but the envelope's timestamp and user. |
| Simulation.FileName | lib/edr_simulation.rb:27 | The new file's name: the clock seconds in decimal, a dash, then the random draw in decimal (see `Simulation.FileNameInjective`). |
| Simulation.CreatedPath | lib/edr_simulation.rb:27-30 | The new file's location: `File.join(directory, filename + extension)` with `.txt` for a missing extension (see `Simulation.CreatedPathShape`). |
| Simulation.CommandLine | lib/edr_simulation.rb:74 | `[executable, *args].join(' ')` (see `Simulation.CommandLineParts`). |
| Simulation.EdrSimulation.DefaultFileDirectory | lib/edr_simulation.rb:9-12 | `DEFAULT_FILE_DIRECTORY`: `File.join(ROOT_PATH, 'tmp')`. |
| Simulation.FileNameCharacters | lib/edr_simulation.rb:27 | A generated file name is non-empty and has only digits and dashes, so no separator. |
| Simulation.FileNameInjective | lib/edr_simulation.rb:27 | Equal file names come from the same clock second and the same random draw. |
| Simulation.CreatedPathShape | lib/edr_simulation.rb:26-30 | For any extension, a created path starts with the directory and ends with the extension, added as given with no dot inserted. When the extension has no '/', the path's last segment is the generated name plus the extension. |
| Simulation.CreatedPathsDiffer | lib/edr_simulation.rb:26-30 | Files created in one directory with one extension, whatever it is, get different paths when the seconds or the draw differ. |
| Simulation.CommandLineParts | lib/edr_simulation.rb:74 | The logged command starts with the executable, equals it when there are no arguments, and splits at spaces back into the executable and its arguments when none of them contains a space. |
| Simulation.CommandLineAmbiguous | lib/edr_simulation.rb:70-74 | Nothing is quoted. An executable `e` with argument `a` logs `e a`, which is also what an executable named `e a` with no arguments logs. |
| Simulation.DownloadRecordShape | lib/edr_simulation.rb:56-62 | The download's record names `example.com` on 443 as its source and the local address on 443 as its destination. It also carries `https`, the start time and the content length. |
| Simulation.AppendConforming | lib/edr_simulation.rb:81-82 | Appending a hash with its category's keys keeps every record of the log a hash with its category's keys. |
| Simulation.EdrSimulation.constructor | lib/edr_simulation.rb:16-24 | A new simulation's log has exactly the three categories, each empty. |
| Simulation.EdrSimulation.AddLog | lib/edr_simulation.rb:81-88 | Exactly one record, the envelope merged with the payload, is appended to the given category; the other categories are unchanged. |
| Simulation.EdrSimulation.AddFileProcessLog | lib/edr_simulation.rb:90-95 | Exactly one file record with the path and activity is appended, and the log keeps conforming. |
| Simulation.EdrSimulation.AddNetworkProcessLog | lib/edr_simulation.rb:97-114 | Without a private local address this raises `NoMethodError` on `ip_address` and logs nothing. Otherwise exactly one network record is appended and the log keeps conforming. |
| Simulation.EdrSimulation.AddExecutableProcessLog | lib/edr_simulation.rb:116-122 | Exactly one executable record is appended, and the log keeps conforming. |
| Simulation.EdrSimulation.CreateFile | lib/edr_simulation.rb:26-33 | The path is the directory (by default `ROOT_PATH/tmp`) joined with `<seconds>-<draw>` plus the extension (by default `.txt`). One `create` record is appended, the path exists afterwards, and the other categories are unchanged. |
| Simulation.EdrSimulation.ModifyFile | lib/edr_simulation.rb:35-45 | A missing path raises `ArgumentError` with its message, and nothing is logged or changed. An existing path gets one `modify` record and is returned. With no file, a new file is created and it returns `Ok` with two records on one path: `create`, then `modify`. |
| Simulation.EdrSimulation.DeleteFile | lib/edr_simulation.rb:47-54 | A missing path raises `ArgumentError`, and nothing is logged or deleted. An existing path gets one `delete` record, is removed, and the result is 1. With no file, a file is created and deleted, with records `create` then `delete` on one path. |
| Simulation.EdrSimulation.DownloadData | lib/edr_simulation.rb:56-68 | Exactly one network record for `https://example.com` and then one `create` record are appended. The returned path is that new file, which now exists. With no private address it raises before logging anything. |
| Simulation.EdrSimulation.RunExecutable | lib/edr_simulation.rb:71-77 | One executable record is appended, with the child's pid, the executable's name and `[executable, *args].join(' ')`, and the pid is returned. A failed spawn raises and logs nothing. |
| Scenarios.EchoCommandLine | spec/edr_simulation_spec.rb:155-169 | `run_executable('echo', ['howdy'])` logs the command `echo howdy`. |

## Left out

- File contents are not modelled: the random content `modify_file` writes, and the body `download_data` saves. Only whether a path exists is modelled.
- The HTTP request and its transport errors are not modelled; the content length is a parameter (`None` for a missing header).
- `Socket.ip_address_list` is not modelled; the first private IPv4 address is a parameter. When there is none, the code calls `ip_address` on `nil`, which the model raises as `NoMethodError`.
- `Process.spawn` and `Process.wait` are not modelled. The pid and whether the spawn succeeded are parameters, and the exit status is ignored.
- RunExecutable: the child's own effects on the file system are not modelled, and the file set is left unchanged. In the code, `Process.wait` returns only after the child has finished, so any file it creates or deletes is already there or gone by then.
- DeleteFile, ModifyFile: `File.delete` and `File.write` are assumed to succeed on any existing path. In the code, a failing write or delete (for example on a directory) raises after its `modify` or `delete` record has been logged, so the record stays in the log and a deleted path may survive; the model does not capture that outcome.
- CreateFile, ModifyFile, DeleteFile: a NUL character in the directory, the extension or the path makes `File.join` or `File.exist?` raise `ArgumentError` before anything is logged. The model does not capture this; it joins and looks up any string.
- `File.new` can fail, for example when the directory is missing; the model does not cover this, and `create_file` always succeeds.
- `create_file` and `download_data` return a `File` object, and `modify_file` returns its argument, which is that `File` when none was given. The model returns the path in each case.
- ModifyFile, DeleteFile: an argument is modelled by its path, and the model checks only that the path exists. For a `File` argument, the code's `File.exist?` checks the open descriptor instead. A `File` whose path has been removed therefore still counts as existing, and a closed `File` (such as the one `download_data` returns) makes `File.exist?` raise `IOError` before anything is logged. The model does not capture either case.
- Paths are compared as strings: two spellings of one file (`tmp/a` and `./tmp/a`) are different paths in the model.
- `@options` is stored but never read, so the constructor takes only the root path. `ROOT_PATH` (`File.expand_path` of the install directory) is that parameter.
- `Time` values are integers, and the model never compares them.
- Payload keys overwrite envelope keys: `timestamp` in network records (lib/edr_simulation.rb:112), and `process_id` and `process_name` in executable records (lib/edr_simulation.rb:118-120). The only errors are plain Ruby exceptions. The model follows the code.
- `Etc.getlogin` returning `nil` is logged as `nil`.
