/** Recovery requests for blocked runs: opening the channel through which somebody can be asked. */
module WorkBlockedRecovery {
  import opened Prelude
  import opened WorkDomain
  import opened Company
  import opened CompanyDatabase

  /** The request records, kept by run. */
  class RecoveryRequests {
    const db: Database

    constructor (db: Database)
      ensures this.db == db
    {
      this.db := db;
    }

    method GetByWorkRunId(r: Id) returns (request: Option<Request>)
      ensures request == if r in db.store.requests then Some(db.store.requests[r]) else None
    {
      request := if r in db.store.requests then Some(db.store.requests[r]) else None;
    }

    /** The open request that belongs to the conversation, if there is one. */
    method GetOpenByConversationId(conversation: Id) returns (found: Option<Id>)
      ensures found.Some? ==> found.value in db.store.requests && db.store.requests[found.value].status == Open
                              && db.store.requests[found.value].conversation == conversation
      ensures found.None? ==> forall r :: r in db.store.requests && db.store.requests[r].status == Open ==>
                                            db.store.requests[r].conversation != conversation
    {
      var left := db.store.requests.Keys;
      while left != {}
        invariant left <= db.store.requests.Keys
        invariant forall r :: r in db.store.requests && r !in left && db.store.requests[r].status == Open ==>
                                db.store.requests[r].conversation != conversation
        decreases |left|
      {
        var r :| r in left;
        if db.store.requests[r].status == Open && db.store.requests[r].conversation == conversation {
          return Some(r);
        }
        left := left - {r};
      }
      found := None;
    }

    method Upsert(r: Id, request: Request)
      modifies db
      ensures db.store == old(db.store).(requests := old(db.store).requests[r := request])
    {
      db.store := db.store.(requests := db.store.requests[r := request]);
    }

    method Resolve(r: Id, now: Time)
      modifies db
      ensures db.store == if r in old(db.store).requests then
                            old(db.store).(requests :=
                              old(db.store).requests[r := ResolvedRequest(old(db.store).requests[r], now)])
                          else old(db.store)
    {
      var record := GetByWorkRunId(r);
      if record.Some? { Upsert(r, ResolvedRequest(record.value, now)); }
    }

    method Cancel(r: Id, now: Time)
      modifies db
      ensures db.store == if r in old(db.store).requests then
                            old(db.store).(requests :=
                              old(db.store).requests[r := CanceledRequest(old(db.store).requests[r], now)])
                          else old(db.store)
    {
      var record := GetByWorkRunId(r);
      if record.Some? { Upsert(r, CanceledRequest(record.value, now)); }
    }
  }

  class BlockedRecovery {
    const db: Database
    const requests: RecoveryRequests

    constructor (db: Database)
      ensures this.db == requests.db == db
    {
      this.db := db;
      requests := new RecoveryRequests(db);
    }

    /** The member to be asked: the task's requester, or else its creator, but never the assignee. */
    method RequesterMemberId(r: Id) returns (requester: Result<string, string>)
      requires r in db.store.work.runs && db.store.work.runs[r].task in db.store.work.tasks
      ensures var origin := db.store.work.tasks[db.store.work.runs[r].task].origin;
              var member := OrElse(origin.requester, Some(origin.createdBy)).value;
              if member == db.store.work.runs[r].assignee then requester.Err? && requester.error == SAME_MEMBER
              else requester == Ok(member)
    {
      var run := db.store.work.runs[r];
      var origin := db.store.work.tasks[run.task].origin;
      var member := if origin.requester.Some? then origin.requester.value else origin.createdBy;
      if member == run.assignee {
        return Err(SAME_MEMBER);
      }
      return Ok(member);
    }

    /** Opens the channel: an open request is left alone, a closed one is opened again in its old
        conversation, and a first one gets a conversation of its own. */
    method OpenRecoveryForBlockedRun(r: Id, channel: Channel, now: Time) returns (failure: Option<string>)
      requires requests.db == db
      modifies db
      ensures Opening(db.store, failure) == OpenRecovery(old(db.store), r, channel, now)
    {
      if channel.Lost? {
        return Some(channel.message);
      }
      var existing := requests.GetByWorkRunId(r);
      if existing.Some? && existing.value.status == Open {
        return None;
      }
      if r !in db.store.work.runs || db.store.work.runs[r].task !in db.store.work.tasks {
        return Some("WorkRun not found.");
      }
      if db.store.work.runs[r].status != Blocked {
        return Some("WorkRun is not blocked.");
      }
      if existing.Some? {
        requests.Upsert(r, Reopened(existing.value, now));
        return LateFailure(channel);
      }
      var requester := RequesterMemberId(r);
      if requester.Err? {
        return Some(requester.error);
      }
      var run, conversation := db.store.work.runs[r], db.store.work.next;
      db.store := db.store.(work := db.store.work.(next := conversation + 2));
      requests.Upsert(r, Request(conversation + 1, run.task, run.assignee, requester.value, conversation, Open, now,
                                 now, None, None));
      return LateFailure(channel);
    }
  }
}
