/** The write-ahead log: an append-only file of records with sticky failure. */
module WriteAheadLog {
  import opened ByteStrings
  import opened KeyValue
  import opened Records

  /** The log a store writes to, if any: the bytes of its file, how many more the device will
      take, and whether every append so far was good. */
  datatype Log = Detached | Attached(bytes: Bytes, room: nat, ok: bool)

  datatype Appended = Appended(log: Log, done: bool)

  predicate Failed(log: Log) {
    log.Attached? && !log.ok
  }

  /** Once an append has failed, every later one is refused without touching the file. */
  function AppendTo(log: Log, op: Mutation): (r: Appended)
    ensures r.log.Attached? <==> log.Attached?
    ensures r.done <==> !Failed(r.log)
    ensures r.done ==> !Failed(log)
  {
    match log
    case Detached => Appended(log, true)
    case Attached(bytes, room, ok) =>
      var record := Encode(op);
      if !ok then Appended(log, false)
      else if |record| < room then Appended(Attached(bytes + record, room - |record|, true), true)
      else Appended(Attached(bytes + record[..Taken(room, |record|)], 0, false), false)
  }

  class Wal {
    var bytes: Bytes
    var room: nat
    var ok: bool

    function State(): Log
      reads this
    {
      Attached(bytes, room, ok)
    }

    /** Open the file that holds `bytes` for appending, after whatever it ends with. */
    constructor (bytes: Bytes, room: nat)
      ensures State() == Attached(bytes, room, true)
    {
      this.bytes, this.room, ok := bytes, room, true;
    }

    method AppendSet(key: Bytes, value: Bytes) returns (done: bool)
      modifies this
      ensures Appended(State(), done) == AppendTo(old(State()), Put(key, value))
      ensures done ==> ok && bytes == old(bytes) + Encode(Put(key, value))
      ensures !old(ok) ==> !done && bytes == old(bytes)
    {
      done := Write(Encode(Put(key, value)));
    }

    method AppendDel(key: Bytes) returns (done: bool)
      modifies this
      ensures Appended(State(), done) == AppendTo(old(State()), Remove(key))
      ensures done ==> ok && bytes == old(bytes) + Encode(Remove(key))
      ensures !old(ok) ==> !done && bytes == old(bytes)
    {
      done := Write(Encode(Remove(key)));
    }

    method Write(record: Bytes) returns (done: bool)
      modifies this
      ensures done <==> old(ok) && |record| < old(room)
      ensures done ==> ok && bytes == old(bytes) + record && room == old(room) - |record|
      ensures !old(ok) ==> State() == old(State())
      ensures old(ok) && !done ==> !ok && room == 0 && bytes == old(bytes) + record[..Taken(old(room), |record|)]
    {
      if !ok {
        return false;
      }
      bytes := bytes + record[..Taken(room, |record|)];
      if |record| < room {
        room := room - |record|;
        return true;
      }
      ok, room := false, 0;
      return false;
    }
  }
}
