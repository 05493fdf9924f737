/** The remote key-value store, reduced to its two top-level partitions. */
module Store {
  import opened Wrappers

  /** A stored ticket record, carried opaquely: field name to field value. */
  datatype Record = Record(fields: map<string, string>)

  /** The two top-level namespaces, `Unused/...` and `Used/...`. */
  datatype Partition = Unused | Used

  /** The content of both partitions, keyed by the path below the partition. */
  datatype Partitions = Partitions(unused: map<string, Record>, used: map<string, Record>)

  /** One request issued to the store (`get`, `set` or `remove` on a ref). */
  datatype StoreCall =
    | Get(part: Partition, path: string)
    | Set(part: Partition, path: string, value: Record)
    | Remove(part: Partition, path: string)

  function Content(s: Partitions, part: Partition): map<string, Record>
  {
    match part
    case Unused => s.unused
    case Used => s.used
  }

  /** The store after `set` has written `value` at `path` in `part`. */
  function Written(s: Partitions, part: Partition, path: string, value: Record): (r: Partitions)
    ensures path in Content(r, part) && Content(r, part)[path] == value
    ensures Content(r, part).Keys == Content(s, part).Keys + {path}
    ensures forall k :: k in Content(s, part) && k != path ==> Content(r, part)[k] == Content(s, part)[k]
    ensures part == Unused ==> r.used == s.used
    ensures part == Used ==> r.unused == s.unused
  {
    match part
    case Unused => s.(unused := s.unused[path := value])
    case Used => s.(used := s.used[path := value])
  }

  /** The store after `remove` has deleted `path` from `part` (a no-op when absent). */
  function Removed(s: Partitions, part: Partition, path: string): (r: Partitions)
    ensures Content(r, part).Keys == Content(s, part).Keys - {path}
    ensures forall k :: k in Content(r, part) ==> Content(r, part)[k] == Content(s, part)[k]
    ensures part == Unused ==> r.used == s.used
    ensures part == Used ==> r.unused == s.unused
  {
    match part
    case Unused => s.(unused := s.unused - {path})
    case Used => s.(used := s.used - {path})
  }

  /** An in-memory stand-in for the database handle. Every request may be
      rejected; a rejected request changes nothing but is still issued, and
      `calls` records every issued request in order. */
  class TicketStore {
    var unused: map<string, Record>
    var used: map<string, Record>
    var calls: seq<StoreCall>

    constructor (initial: Partitions)
      ensures State() == initial && calls == []
    {
      unused := initial.unused;
      used := initial.used;
      calls := [];
    }

    function State(): Partitions
      reads this
    {
      Partitions(unused, used)
    }

    /** `get(ref(db, part/path))`: a snapshot that exists exactly when the path is stored. */
    method Read(part: Partition, path: string, fails: bool) returns (r: Result<Option<Record>>)
      modifies this`calls
      ensures State() == old(State())
      ensures calls == old(calls) + [Get(part, path)]
      ensures fails ==> r == Failed
      ensures !fails ==> r == Ok(if path in Content(State(), part) then Some(Content(State(), part)[path]) else None)
    {
      calls := calls + [Get(part, path)];
      if fails {
        return Failed;
      }
      var m := if part == Unused then unused else used;
      r := Ok(if path in m then Some(m[path]) else None);
    }

    /** `set(ref(db, part/path), value)`. */
    method Write(part: Partition, path: string, value: Record, fails: bool) returns (ok: bool)
      modifies this
      ensures ok == !fails
      ensures calls == old(calls) + [Set(part, path, value)]
      ensures State() == if ok then Written(old(State()), part, path, value) else old(State())
    {
      calls := calls + [Set(part, path, value)];
      if fails {
        return false;
      }
      if part == Unused {
        unused := unused[path := value];
      } else {
        used := used[path := value];
      }
      ok := true;
    }

    /** `remove(ref(db, part/path))`. */
    method Delete(part: Partition, path: string, fails: bool) returns (ok: bool)
      modifies this
      ensures ok == !fails
      ensures calls == old(calls) + [Remove(part, path)]
      ensures State() == if ok then Removed(old(State()), part, path) else old(State())
    {
      calls := calls + [Remove(part, path)];
      if fails {
        return false;
      }
      if part == Unused {
        unused := unused - {path};
      } else {
        used := used - {path};
      }
      ok := true;
    }
  }
}
