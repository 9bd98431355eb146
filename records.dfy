/**
 * Telemetry records. A record is a Ruby Hash from symbol keys to values.
 * A Ruby Hash remembers the order in which its keys were first inserted,
 * so a record is the sequence of its keys in that order together with
 * the map from each key to its value. Every record is built by merging
 * the common envelope (timestamp, user, pid, program name) with a
 * category-specific payload, as `Hash#merge` does.
 */
module Records {
  import opened Wrappers

  /** The symbols used as keys in the simulator's log hashes. */
  datatype Key =
    | Timestamp | ProcessUser | ProcessId | ProcessName
    | Filepath | ActivityKind
    | SourceHost | SourcePort | DestinationHost | DestinationPort | RequestProtocol | ContentLength
    | Command

  /** An instant on the host clock (a Ruby `Time`); the model never inspects it. */
  type Instant = int

  /** The values stored in a log hash. */
  datatype Value = Str(s: string) | Int(n: int) | Time(at: Instant) | Nil

  /** A hash: its keys in insertion order, and the value of each. */
  datatype Record = Record(order: seq<Key>, values: map<Key, Value>)

  /** The three categories of the log, in the order the log hash lists them. */
  datatype Category = ExecutableProcesses | FileProcesses | NetworkProcesses

  /** What the envelope reads from the host when a record is logged. */
  datatype Host = Host(now: Instant, login: Option<string>, pid: int, argv0: string)

  /** A URI as far as the network record uses it. */
  datatype Uri = Uri(scheme: string, host: string, port: int)

  predicate Distinct(ks: seq<Key>) {
    forall i, j :: 0 <= i < j < |ks| ==> ks[i] != ks[j]
  }

  /** What every Ruby Hash is: each key listed once, and exactly the listed keys have values. */
  predicate WellFormed(r: Record) {
    Distinct(r.order) && forall k :: k in r.order <==> k in r.values
  }

  /** `hash[k]`, telling a missing key apart from a stored value. */
  function Lookup(r: Record, k: Key): Option<Value>
  {
    if k in r.values then Some(r.values[k]) else None
  }

  lemma DistinctAppend(ks: seq<Key>, k: Key)
    ensures Distinct(ks) && k !in ks ==> Distinct(ks + [k])
  {
  }

  /**
   * `hash[k] = v`: an existing key keeps its position and takes the new
   * value; a new key goes at the end.
   */
  function Put(r: Record, k: Key, v: Value): (r': Record)
    ensures r'.order == if k in r.order then r.order else r.order + [k]
    ensures Lookup(r', k) == Some(v)
    ensures forall j :: j != k ==> Lookup(r', j) == Lookup(r, j)
    ensures WellFormed(r) ==> WellFormed(r')
  {
    DistinctAppend(r.order, k);
    Record(if k in r.order then r.order else r.order + [k], r.values[k := v])
  }

  /** The keys of `ks` that are not in `seen`, in their order. */
  function Unseen(ks: seq<Key>, seen: seq<Key>): seq<Key> {
    if |ks| == 0 then []
    else if ks[|ks| - 1] in seen then Unseen(ks[..|ks| - 1], seen)
    else Unseen(ks[..|ks| - 1], seen) + [ks[|ks| - 1]]
  }

  /** A key is kept exactly when it is listed and not yet seen. */
  lemma {:induction false} UnseenMembers(ks: seq<Key>, seen: seq<Key>, k: Key)
    ensures k in Unseen(ks, seen) <==> k in ks && k !in seen
  {
    if |ks| > 0 {
      UnseenMembers(ks[..|ks| - 1], seen, k);
      assert ks == ks[..|ks| - 1] + [ks[|ks| - 1]];
    }
  }

  lemma {:induction false} UnseenAllNew(ks: seq<Key>, seen: seq<Key>)
    requires forall k :: k in ks ==> k !in seen
    ensures Unseen(ks, seen) == ks
  {
    if |ks| > 0 {
      UnseenAllNew(ks[..|ks| - 1], seen);
    }
  }

  lemma UnseenLast(ks: seq<Key>, k: Key, seen: seq<Key>)
    ensures Unseen(ks + [k], seen) == if k in seen then Unseen(ks, seen) else Unseen(ks, seen) + [k]
  {
    assert (ks + [k])[..|ks|] == ks;
  }

  /**
   * `base` after `hash[k] = values[k]` for each key of `ks` in turn,
   * which is how `base.merge(other)` treats the entries of `other`.
   */
  function PutAll(base: Record, ks: seq<Key>, values: map<Key, Value>): (r: Record)
    requires Distinct(ks)
    requires forall k :: k in ks ==> k in values
    ensures r.order == base.order + Unseen(ks, base.order)
    ensures forall k :: Lookup(r, k) == if k in ks then Some(values[k]) else Lookup(base, k)
    ensures WellFormed(base) ==> WellFormed(r)
  {
    if |ks| == 0 then base
    else
      var prefix, k := ks[..|ks| - 1], ks[|ks| - 1];
      assert ks == prefix + [k];
      assert k !in prefix by {
        forall i | 0 <= i < |prefix| ensures prefix[i] != k {
          assert ks[i] != ks[|ks| - 1];
        }
      }
      UnseenMembers(prefix, base.order, k);
      Put(PutAll(base, prefix, values), k, values[k])
  }

  /**
   * `base.merge(payload)`: the base's keys keep their places, the
   * payload's keys the base lacks follow in the payload's order, and on a
   * shared key the payload's value wins, which is Dafny's map union.
   */
  function Merge(base: Record, payload: Record): Record {
    Record(base.order + Unseen(payload.order, base.order), base.values + payload.values)
  }

  /**
   * Merging is storing the payload's entries into the base one at a
   * time, in the payload's order, with `hash[k] = v`.
   */
  lemma MergeIsPutAll(base: Record, payload: Record)
    requires WellFormed(payload)
    ensures Merge(base, payload) == PutAll(base, payload.order, payload.values)
  {
    // Not needed for validity; pointing the solver at the key-wise
    // comparison halves the cost of this proof.
    var r := PutAll(base, payload.order, payload.values);
    var m := Merge(base, payload);
    forall k ensures (k in r.values <==> k in m.values) ensures k in r.values ==> r.values[k] == m.values[k] {
      assert Lookup(r, k) == if k in payload.order then Some(payload.values[k]) else Lookup(base, k);
    }
    assert r.values == m.values;
  }

  /** The merge of two hashes is a hash. */
  lemma MergeWellFormed(base: Record, payload: Record)
    requires WellFormed(base) && WellFormed(payload)
    ensures WellFormed(Merge(base, payload))
  {
    MergeIsPutAll(base, payload);
  }

  /**
   * What a merge does to each key: one the payload lists takes the
   * payload's value, any other keeps the base's value or stays absent,
   * and the base's keys stay in front in their own order.
   */
  lemma MergeLookup(base: Record, payload: Record, k: Key)
    requires WellFormed(payload)
    ensures Lookup(Merge(base, payload), k) == if k in payload.order then Lookup(payload, k) else Lookup(base, k)
    ensures Merge(base, payload).order[..|base.order|] == base.order
  {
  }

  /** `Etc.getlogin`, which is `nil` when the host cannot name the user. */
  function UserValue(login: Option<string>): Value {
    match login
    case Some(name) => Str(name)
    case None => Nil
  }

  /** The keys of the envelope and of each payload, in the order the source lists them. */
  const EnvelopeKeys: seq<Key> := [Timestamp, ProcessUser, ProcessId, ProcessName]
  const FilePayloadKeys: seq<Key> := [Filepath, ActivityKind]
  const NetworkPayloadKeys: seq<Key> :=
    [SourceHost, SourcePort, DestinationHost, DestinationPort, RequestProtocol, ContentLength, Timestamp]
  const ExecutablePayloadKeys: seq<Key> := [ProcessId, Command, ProcessName]

  /** The common envelope: `{timestamp:, process_user:, process_id:, process_name:}`. */
  function Envelope(h: Host): Record
  {
    Record(EnvelopeKeys,
           map[Timestamp := Time(h.now), ProcessUser := UserValue(h.login),
               ProcessId := Int(h.pid), ProcessName := Str(h.argv0)])
  }

  function FilePayload(filepath: string, activityKind: string): Record
  {
    Record(FilePayloadKeys,
           map[Filepath := Str(filepath), ActivityKind := Str(activityKind)])
  }

  /** `Net::HTTP.https_default_port` for https, `Net::HTTP.default_port` otherwise. */
  function LocalPort(scheme: string): (port: int)
    ensures port == 443 || port == 80
    ensures port == 443 <==> scheme == "https"
  {
    if scheme == "https" then 443 else 80
  }

  function ContentLengthValue(contentLength: Option<int>): Value {
    match contentLength
    case Some(n) => Int(n)
    case None => Nil
  }

  function NetworkPayload(startTime: Instant, uri: Uri, localIp: string, contentLength: Option<int>): Record
  {
    Record(NetworkPayloadKeys,
           map[SourceHost := Str(uri.host), SourcePort := Int(uri.port),
               DestinationHost := Str(localIp), DestinationPort := Int(LocalPort(uri.scheme)),
               RequestProtocol := Str(uri.scheme), ContentLength := ContentLengthValue(contentLength),
               Timestamp := Time(startTime)])
  }

  function ExecutablePayload(pid: int, command: string, name: string): Record
  {
    Record(ExecutablePayloadKeys,
           map[ProcessId := Int(pid), Command := Str(command), ProcessName := Str(name)])
  }

  function FileRecord(h: Host, filepath: string, activityKind: string): Record {
    Merge(Envelope(h), FilePayload(filepath, activityKind))
  }

  function NetworkRecord(h: Host, startTime: Instant, uri: Uri, localIp: string, contentLength: Option<int>): Record {
    Merge(Envelope(h), NetworkPayload(startTime, uri, localIp, contentLength))
  }

  function ExecutableRecord(h: Host, pid: int, name: string, command: string): Record {
    Merge(Envelope(h), ExecutablePayload(pid, command, name))
  }

  /** The payload keys a network record adds after the envelope's: all but the timestamp. */
  const NetworkAddedKeys: seq<Key> :=
    [SourceHost, SourcePort, DestinationHost, DestinationPort, RequestProtocol, ContentLength]

  /**
   * The keys every record of a category carries, in order: the envelope's
   * four, then the payload keys the envelope does not already have.
   */
  function Schema(c: Category): seq<Key> {
    match c
    case FileProcesses => EnvelopeKeys + FilePayloadKeys
    case NetworkProcesses => EnvelopeKeys + NetworkAddedKeys
    case ExecutableProcesses => EnvelopeKeys + [Command]
  }

  /** Keys none of which was seen, then one that was: the seen one is dropped. */
  lemma UnseenThenSeen(ks: seq<Key>, k: Key, seen: seq<Key>)
    requires k in seen
    requires forall x :: x in ks ==> x !in seen
    ensures Unseen(ks + [k], seen) == ks
  {
    assert (ks + [k])[..|ks|] == ks;
    UnseenAllNew(ks, seen);
  }

  /** The file payload's keys are all new to the envelope. */
  lemma FileAddedKeys()
    ensures Unseen(FilePayloadKeys, EnvelopeKeys) == FilePayloadKeys
  {
    UnseenAllNew(FilePayloadKeys, EnvelopeKeys);
  }

  /** Of the network payload's keys, only the timestamp is already in the envelope. */
  lemma NetworkAddedKeysAre()
    ensures Unseen(NetworkPayloadKeys, EnvelopeKeys) == NetworkAddedKeys
  {
    assert NetworkPayloadKeys == NetworkAddedKeys + [Timestamp];
    UnseenThenSeen(NetworkAddedKeys, Timestamp, EnvelopeKeys);
  }

  /** Of the executable payload's keys, only the command is new to the envelope. */
  lemma ExecutableAddedKeys()
    ensures Unseen(ExecutablePayloadKeys, EnvelopeKeys) == [Command]
  {
    assert ExecutablePayloadKeys == [ProcessId, Command] + [ProcessName];
    assert [ProcessId, Command] == [ProcessId] + [Command];
    UnseenLast([ProcessId, Command], ProcessName, EnvelopeKeys);
    UnseenLast([ProcessId], Command, EnvelopeKeys);
    assert [ProcessId] == [] + [ProcessId];
    UnseenLast([], ProcessId, EnvelopeKeys);
  }

  lemma EnvelopeWellFormed(h: Host)
    ensures WellFormed(Envelope(h))
  {
  }

  lemma FilePayloadWellFormed(filepath: string, activityKind: string)
    ensures WellFormed(FilePayload(filepath, activityKind))
  {
  }

  lemma NetworkPayloadKeysDistinct()
    ensures Distinct(NetworkPayloadKeys)
  {
  }

  lemma NetworkPayloadWellFormed(startTime: Instant, uri: Uri, localIp: string, contentLength: Option<int>)
    ensures WellFormed(NetworkPayload(startTime, uri, localIp, contentLength))
  {
    NetworkPayloadKeysDistinct();
  }

  lemma ExecutablePayloadWellFormed(pid: int, command: string, name: string)
    ensures WellFormed(ExecutablePayload(pid, command, name))
  {
  }

  /** The keys of a file record, in order: the envelope's, then the path and the activity. */
  lemma FileRecordOrder(h: Host, filepath: string, activityKind: string)
    ensures FileRecord(h, filepath, activityKind).order == Schema(FileProcesses)
  {
    FileAddedKeys();
  }

  /** A file record is a hash. */
  lemma FileRecordWellFormed(h: Host, filepath: string, activityKind: string)
    ensures WellFormed(FileRecord(h, filepath, activityKind))
  {
    EnvelopeWellFormed(h);
    FilePayloadWellFormed(filepath, activityKind);
    MergeWellFormed(Envelope(h), FilePayload(filepath, activityKind));
  }

  /**
   * A file record carries the whole envelope of the moment it was logged
   * and then the path and the kind of activity.
   */
  lemma FileRecordValues(h: Host, filepath: string, activityKind: string)
    ensures var r := FileRecord(h, filepath, activityKind);
            Lookup(r, Timestamp) == Some(Time(h.now)) &&
            Lookup(r, ProcessUser) == Some(UserValue(h.login)) &&
            Lookup(r, ProcessId) == Some(Int(h.pid)) &&
            Lookup(r, ProcessName) == Some(Str(h.argv0)) &&
            Lookup(r, Filepath) == Some(Str(filepath)) &&
            Lookup(r, ActivityKind) == Some(Str(activityKind))
  {
  }

  /**
   * The keys of a network record, in order: the payload's timestamp takes
   * the envelope's timestamp's place, and the other payload keys follow
   * the envelope's.
   */
  lemma NetworkRecordOrder(h: Host, startTime: Instant, uri: Uri, localIp: string, contentLength: Option<int>)
    ensures NetworkRecord(h, startTime, uri, localIp, contentLength).order == Schema(NetworkProcesses)
  {
    NetworkAddedKeysAre();
  }

  /** A network record is a hash. */
  lemma NetworkRecordWellFormed(h: Host, startTime: Instant, uri: Uri, localIp: string, contentLength: Option<int>)
    ensures WellFormed(NetworkRecord(h, startTime, uri, localIp, contentLength))
  {
    EnvelopeWellFormed(h);
    NetworkPayloadWellFormed(startTime, uri, localIp, contentLength);
    MergeWellFormed(Envelope(h), NetworkPayload(startTime, uri, localIp, contentLength));
  }

  /**
   * A network record keeps the envelope's user, pid and program name,
   * but its timestamp is the request's start time. The remote end is the
   * source, the local address the destination, and the local port
   * follows the scheme.
   */
  lemma NetworkRecordValues(h: Host, startTime: Instant, uri: Uri, localIp: string, contentLength: Option<int>)
    ensures var r := NetworkRecord(h, startTime, uri, localIp, contentLength);
            Lookup(r, Timestamp) == Some(Time(startTime)) &&
            Lookup(r, ProcessUser) == Some(UserValue(h.login)) &&
            Lookup(r, ProcessId) == Some(Int(h.pid)) &&
            Lookup(r, ProcessName) == Some(Str(h.argv0)) &&
            Lookup(r, SourceHost) == Some(Str(uri.host)) &&
            Lookup(r, SourcePort) == Some(Int(uri.port)) &&
            Lookup(r, DestinationHost) == Some(Str(localIp)) &&
            Lookup(r, DestinationPort) == Some(Int(if uri.scheme == "https" then 443 else 80)) &&
            Lookup(r, RequestProtocol) == Some(Str(uri.scheme)) &&
            Lookup(r, ContentLength) == Some(ContentLengthValue(contentLength))
  {
    NetworkRecordEnvelopeValues(h, startTime, uri, localIp, contentLength);
  }

  /** The envelope half of `NetworkRecordValues`, proved on its own to keep each proof small. */
  lemma NetworkRecordEnvelopeValues(h: Host, startTime: Instant, uri: Uri, localIp: string, contentLength: Option<int>)
    ensures var r := NetworkRecord(h, startTime, uri, localIp, contentLength);
            Lookup(r, Timestamp) == Some(Time(startTime)) &&
            Lookup(r, ProcessUser) == Some(UserValue(h.login)) &&
            Lookup(r, ProcessId) == Some(Int(h.pid)) &&
            Lookup(r, ProcessName) == Some(Str(h.argv0))
  {
  }

  /** The keys of an executable record, in order: the envelope's, then the command. */
  lemma ExecutableRecordOrder(h: Host, pid: int, name: string, command: string)
    ensures ExecutableRecord(h, pid, name, command).order == Schema(ExecutableProcesses)
  {
    ExecutableAddedKeys();
  }

  /** An executable record is a hash. */
  lemma ExecutableRecordWellFormed(h: Host, pid: int, name: string, command: string)
    ensures WellFormed(ExecutableRecord(h, pid, name, command))
  {
    EnvelopeWellFormed(h);
    ExecutablePayloadWellFormed(pid, command, name);
    MergeWellFormed(Envelope(h), ExecutablePayload(pid, command, name));
  }

  /**
   * An executable record names the spawned child, not the simulator: its
   * process id and process name override the envelope's in place, while
   * the timestamp and user stay the envelope's.
   */
  lemma ExecutableRecordValues(h: Host, pid: int, name: string, command: string)
    ensures var r := ExecutableRecord(h, pid, name, command);
            Lookup(r, Timestamp) == Some(Time(h.now)) &&
            Lookup(r, ProcessUser) == Some(UserValue(h.login)) &&
            Lookup(r, ProcessId) == Some(Int(pid)) &&
            Lookup(r, ProcessName) == Some(Str(name)) &&
            Lookup(r, Command) == Some(Str(command))
  {
  }
}
