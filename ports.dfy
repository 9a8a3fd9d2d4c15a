/** internal/port/repository.go and internal/port/cache.go: the store and the
    status cache the use cases and the worker talk to. The concrete adapters
    (PostgreSQL, Redis) are not part of this model; each is an object over a
    map from message id. Whether a backend call fails for reasons of its own
    (connection lost, timeout) is decided by the caller's environment and
    passed in as `fault`. */
module Ports {
  import opened Wrappers
  import opened Errors
  import opened Domain

  /** The record of id with its status replaced; a missing id is left missing. */
  function WithStatus(rows: map<string, Message>, id: string, status: string): (r: map<string, Message>)
    ensures r.Keys == rows.Keys
    ensures forall k :: k in rows && k != id ==> r[k] == rows[k]
    ensures id in rows ==> r[id] == rows[id].(status := status)
  {
    if id in rows then rows[id := rows[id].(status := status)] else rows
  }

  /** What a call on one record (GetMessageStatus, UpdateMessageStatus) reports,
      given the backend fault and whether the record exists. */
  function RecordReply(fault: Option<Error>, present: bool): (err: Option<Error>)
    ensures err.None? <==> fault.None? && present
    ensures fault.Some? ==> err == fault
  {
    if fault.Some? then fault else if present then None else Some(NotFound)
  }

  /** Every record is filed under its own id: the store's invariant. */
  predicate Filed(rows: map<string, Message>)
  {
    forall k :: k in rows ==> rows[k].id == k
  }

  /** The store: every message record, keyed by its id. */
  class Repository {
    var rows: map<string, Message>

    ghost predicate Valid()
      reads this
    {
      Filed(rows)
    }

    constructor (rows: map<string, Message>)
      requires Filed(rows)
      ensures Valid() && this.rows == rows
    {
      this.rows := rows;
    }

    method CreateMessage(message: Message, fault: Option<Error>) returns (err: Option<Error>)
      requires Valid()
      modifies this
      ensures Valid()
      ensures err.None? <==> fault.None? && message.id !in old(rows)
      ensures fault.Some? ==> err == fault
      ensures fault.None? && message.id in old(rows) ==> err == Some(DuplicateId)
      ensures rows == if err.None? then old(rows)[message.id := message] else old(rows)
    {
      if fault.Some? {
        err := fault;
      } else if message.id in rows {
        err := Some(DuplicateId);
      } else {
        rows := rows[message.id := message];
        err := None;
      }
    }

    method GetMessageStatus(id: string, fault: Option<Error>) returns (status: string, err: Option<Error>)
      ensures err.None? <==> fault.None? && id in rows
      ensures err.None? ==> status == rows[id].status
      ensures err.Some? ==> status == "" && err == RecordReply(fault, id in rows)
    {
      if fault.Some? {
        status, err := "", fault;
      } else if id in rows {
        status, err := rows[id].status, None;
      } else {
        status, err := "", Some(NotFound);
      }
    }

    /** The stored records; the order of the SQL query is not modelled. */
    method ListMessages(fault: Option<Error>) returns (messages: set<Message>, err: Option<Error>)
      ensures err == fault
      ensures err.None? ==> messages == rows.Values
      ensures err.Some? ==> messages == {}
    {
      if fault.Some? {
        messages, err := {}, fault;
      } else {
        messages, err := rows.Values, None;
      }
    }

    method UpdateMessageStatus(id: string, status: string, fault: Option<Error>) returns (err: Option<Error>)
      requires Valid()
      modifies this
      ensures Valid()
      ensures err == RecordReply(fault, id in old(rows))
      ensures rows == if err.None? then WithStatus(old(rows), id, status) else old(rows)
    {
      if fault.Some? {
        err := fault;
      } else if id in rows {
        rows := rows[id := rows[id].(status := status)];
        err := None;
      } else {
        err := Some(NotFound);
      }
    }

    /** Deleting a missing id is not an error (a DELETE that matches no row). */
    method DeleteMessage(id: string, fault: Option<Error>) returns (err: Option<Error>)
      requires Valid()
      modifies this
      ensures Valid()
      ensures err == fault
      ensures rows == if err.None? then old(rows) - {id} else old(rows)
    {
      if fault.Some? {
        err := fault;
      } else {
        rows := rows - {id};
        err := None;
      }
    }
  }

  /** A cached status and the time to live it was written with, in seconds.
      Expiry itself needs a clock and is not modelled. */
  datatype CacheEntry = CacheEntry(status: string, ttl: nat)

  /** The status cache: the latest status written for each message id. */
  class StatusCache {
    var entries: map<string, CacheEntry>

    constructor (entries: map<string, CacheEntry>)
      ensures this.entries == entries
    {
      this.entries := entries;
    }

    /** A miss is not an error: it yields "" (go-redis reports redis.Nil). */
    method GetStatus(id: string, fault: Option<Error>) returns (status: string, err: Option<Error>)
      ensures err == fault
      ensures status == if fault.None? && id in entries then entries[id].status else ""
    {
      if fault.Some? {
        status, err := "", fault;
      } else if id in entries {
        status, err := entries[id].status, None;
      } else {
        status, err := "", None;
      }
    }

    method SetStatus(id: string, status: string, ttl: nat, fault: Option<Error>) returns (err: Option<Error>)
      modifies this
      ensures err == fault
      ensures entries == if fault.None? then old(entries)[id := CacheEntry(status, ttl)] else old(entries)
    {
      if fault.Some? {
        err := fault;
      } else {
        entries := entries[id := CacheEntry(status, ttl)];
        err := None;
      }
    }
  }
}
