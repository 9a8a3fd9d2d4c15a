/** internal/usecases/message.go: the producer-side use cases over the store.
    The use case holds only a repository: it neither publishes to the queue
    nor reads the cache. uuid.NewString is an input (`newId`). */
module Usecases {
  import opened Wrappers
  import opened Errors
  import opened Domain
  import opened Ports

  /** The guard `message.UserId <= 0`; on a uint32 it rejects exactly zero. */
  function RejectsUserId(userId: uint32): (rejected: bool)
    ensures rejected <==> userId == 0
  {
    userId <= 0
  }

  /** The record a valid request is stored as: the caller's id and status are
      replaced, every other field is kept. */
  function Stamped(message: Message, newId: string): (m: Message)
    ensures m.id == newId && m.status == StatusScheduled
    ensures m.(id := message.id, status := message.status) == message
  {
    message.(id := newId, status := StatusScheduled)
  }

  class MessageUsecases {
    const repo: Repository

    constructor (repo: Repository)
      ensures this.repo == repo
    {
      this.repo := repo;
    }

    /** Validates the user id, stamps a fresh id and status Scheduled, and
        inserts the record, once. `newId` is a fresh UUID: non-empty and not
        yet in the store. */
    method CreateAndSendMessage(message: Message, newId: string, fault: Option<Error>) returns (id: string, err: Option<Error>)
      requires repo.Valid()
      requires newId != "" && newId !in repo.rows
      modifies repo
      ensures repo.Valid()
      ensures message.userId == 0 ==> err == Some(InvalidUserId) && repo.rows == old(repo.rows)
      ensures message.userId != 0 ==> err == fault
      ensures err.Some? ==> id == "" && repo.rows == old(repo.rows)
      ensures err.None? ==> id == newId && id != "" && repo.rows == old(repo.rows)[id := Stamped(message, id)]
    {
      if RejectsUserId(message.userId) {
        return "", Some(InvalidUserId);
      }
      var stamped := Stamped(message, newId);
      err := repo.CreateMessage(stamped, fault);
      if err.Some? {
        return "", err;
      }
      id := stamped.id;
    }

    /** The store's status for id, or "" and the store's error. */
    method GetMessageStatus(id: string, fault: Option<Error>) returns (status: string, err: Option<Error>)
      ensures err.None? <==> fault.None? && id in repo.rows
      ensures err.None? ==> status == repo.rows[id].status
      ensures err.Some? ==> status == "" && err == (if fault.Some? then fault else Some(NotFound))
    {
      var s, e := repo.GetMessageStatus(id, fault);
      if e.Some? {
        return "", e;
      }
      status, err := s, None;
    }

    method ListMessages(fault: Option<Error>) returns (messages: set<Message>, err: Option<Error>)
      ensures err == fault
      ensures err.None? ==> messages == repo.rows.Values
      ensures err.Some? ==> messages == {}
    {
      messages, err := repo.ListMessages(fault);
    }

    method DeleteMessage(id: string, fault: Option<Error>) returns (err: Option<Error>)
      requires repo.Valid()
      modifies repo
      ensures repo.Valid()
      ensures err == fault
      ensures repo.rows == if err.None? then old(repo.rows) - {id} else old(repo.rows)
    {
      err := repo.DeleteMessage(id, fault);
    }
  }
}
