/** The ticket store: its transactions statement by statement, against TicketTables. */
module TicketStore {
  import opened Objects
  import opened Sequences
  import opened Text
  import opened TicketTables
  import opened Wrappers

  /** What CreateTicketComment hands back about the new comment. */
  datatype CommentInfo = CommentInfo(
    id: int, slug: string, actorId: string, inReplyTo: string, inReplyToTicket: bool, recipient: string,
    attributedTo: string, content: string, published: string)

  datatype UpdateRecord = UpdateRecord(
    primaryKey: string, objectPk: string, objectType: string, content: string, published: string)

  class TicketStore {
    var db: Tables

    ghost predicate Did(before: Tables, op: Op, now: Time, ok: bool)
      reads this
    {
      match Apply(before, op, now)
      case Ok(after) => ok && db == after
      case Err(_) => !ok && db == before
    }

    constructor (db: Tables)
      ensures this.db == db
    {
      this.db := db;
    }

    method CreateTicketWithPriority(user: int, trackerSlug: string, repoSlug: string, rawSummary: string,
                                    rawContent: string,
                                    priority: int, slug: string, published: string, now: Time)
      returns (r: Result<Ticket, TicketError>)
      modifies this
      ensures Did(old(db), CreateTicket(user, trackerSlug, repoSlug, rawSummary, rawContent, priority, slug,
                                        published), now, r.Ok?)
      ensures r.Ok? ==> db.tickets[(Trim(trackerSlug), slug)] == r.value
    {
      hide Trim, TicketPk, TicketObject;
      var summary, content := Trim(rawSummary), Trim(rawContent);
      if summary == "" || content == "" || priority < 0 || priority > 2147483647 {
        return Err(Invalid);
      }
      var begin := db;
      var tracker := Trim(trackerSlug);
      if tracker == "" || tracker !in db.trackers {
        return Err(Invalid);
      }
      var repo := Trim(repoSlug);
      if repo == "" || repo !in db.repositories {
        return Err(Invalid);
      }
      if db.repositories[repo].tracker != tracker {
        return Err(Invalid);
      }
      if user > 0 {
        db := db.(members := db.members + {(repo, user)});
      }
      if user !in db.actors {
        db := begin;
        return Err(Missing);
      }
      var pk := TicketPk(db.baseUrl, tracker, slug);
      var body := TicketObject(pk, db.trackers[tracker], db.repositories[repo].actorId, db.actors[user], summary,
                               content, published);
      var ticket := Ticket(db.nextId, pk, repo, body, now, priority, true);
      db := db.(tickets := db.tickets[(tracker, slug) := ticket], nextId := db.nextId + 1);
      return Ok(ticket);
    }

    method CreateTicketComment(user: int, trackerSlug: string, ticketSlug: string, rawContent: string,
                               rawInReplyTo: string,
                               rawKind: string, slug: string, published: string, now: Time)
      returns (r: Result<CommentInfo, TicketError>)
      modifies this
      ensures Did(old(db), CreateComment(user, trackerSlug, ticketSlug, rawContent, rawInReplyTo, rawKind, slug,
                                         published), now, r.Ok?)
      ensures r.Ok? ==>
                && r.value.actorId in db.comments && db.comments[r.value.actorId].slug == r.value.slug == slug
                && r.value.recipient == db.comments[r.value.actorId].recipient
                && r.value.id == db.comments[r.value.actorId].id && user in db.actors
                && r.value.attributedTo == db.actors[user]
                && r.value.content == Trim(rawContent) && r.value.published == published
                && var key := (Trim(trackerSlug), Trim(ticketSlug));
                   key in db.tickets
                   && r.value.actorId == CommentPk(db.tickets[key].actorId, slug)
                   && r.value.inReplyTo == (if Trim(rawInReplyTo) == "" then db.tickets[key].actorId
                     else Trim(rawInReplyTo))
                   && r.value.inReplyToTicket == (r.value.inReplyTo == db.tickets[key].actorId)
                   && db.comments[r.value.actorId].parent == NullString(r.value.inReplyTo, db.tickets[key].actorId)
    {
      hide Trim, CommentPk, CommentObject, CanAccess, StringFromAny, NullString;
      var content, inReplyTo, kind := Trim(rawContent), Trim(rawInReplyTo), Trim(rawKind);
      if content == "" {
        return Err(Invalid);
      }
      if kind != "" && kind != ACK && kind != COMPLETION {
        return Err(Invalid);
      }
      var loaded := LoadTicket(db, trackerSlug, ticketSlug);
      if loaded.None? {
        return Err(Invalid);
      }
      var key := loaded.value;
      var ticket := db.tickets[key];
      if !CanAccess(db, ticket.repository, user) {
        return Err(Invalid);
      }
      var recipient := StringFromAny(ticket.body, Target);
      if recipient == "" {
        return Err(Invalid);
      }
      if user !in db.actors {
        return Err(Missing);
      }
      var parentActorId := ticket.actorId;
      if inReplyTo != "" && inReplyTo != ticket.actorId {
        if inReplyTo !in db.comments || inReplyTo !in db.notes {
          return Err(Invalid);
        }
        if db.comments[inReplyTo].ticket != key {
          return Err(Invalid);
        }
        if db.comments[inReplyTo].recipient != recipient {
          return Err(Invalid);
        }
        parentActorId := inReplyTo;
      }
      var pk := CommentPk(ticket.actorId, slug);
      var note := CommentObject(pk, ticket.actorId, parentActorId, db.actors[user], recipient, content, kind,
                                published);
      db := db.(notes := db.notes[pk := note]);
      var row := Comment(db.nextId, slug, key, ticket.repository, NullString(parentActorId, ticket.actorId), user,
                         recipient);
      db := db.(comments := db.comments[pk := row], nextId := db.nextId + 1);
      return Ok(CommentInfo(row.id, slug, pk, parentActorId, parentActorId == ticket.actorId, recipient,
                            db.actors[user], content, published));
    }

    method CreateTicketUpdate(user: int, trackerSlug: string, ticketSlug: string, rawContent: string,
                              updateId: string, published: string, now: Time)
      returns (r: Option<UpdateRecord>)
      modifies this
      ensures Did(old(db), UpdateTicket(user, trackerSlug, ticketSlug, rawContent, updateId, published), now, r.Some?)
      ensures r.Some? ==>
                && r.value.primaryKey == updateId && r.value.objectType == "Ticket" && updateId in db.updates
                && db.updates[updateId] == UpdateRow(r.value.objectPk, r.value.content, r.value.published)
                && r.value.content == Trim(rawContent) && r.value.published == published
                && db.versions != [] && db.versions[|db.versions| - 1].objectPk == r.value.objectPk
    {
      hide Trim, CanAccess, LoadActor, Appended;
      var content := Trim(rawContent);
      TrimIdempotent(rawContent);
      if content == "" {
        return None;
      }
      var loaded := LoadTicket(db, trackerSlug, ticketSlug);
      if loaded.None? {
        return None;
      }
      var key := loaded.value;
      var ticket := db.tickets[key];
      if !CanAccess(db, ticket.repository, user) {
        return None;
      }
      if LoadActor(db, user).None? {
        return None;
      }
      db := db.(versions := db.versions +
                [Version(db.nextId, ticket.actorId, "Ticket", ticket.body, updateId, user, now)]);
      var body := AppendPlainTextUpdate(ticket.body, content, published);
      assert body.Ok?;  // its only error, an empty content, was excluded above
      db := db.(tickets := db.tickets[key := ticket.(body := body.value)]);
      db := db.(updates := db.updates[updateId := UpdateRow(ticket.actorId, content, published)],
                nextId := db.nextId + 1);
      return Some(UpdateRecord(updateId, ticket.actorId, "Ticket", content, published));
    }

    method CreateTicketCommentUpdate(user: int, trackerSlug: string, ticketSlug: string, commentSlug: string,
                                     rawContent: string,
                                     updateId: string, published: string, now: Time)
      returns (r: Option<UpdateRecord>)
      modifies this
      ensures Did(old(db), UpdateComment(user, trackerSlug, ticketSlug, commentSlug, rawContent, updateId, published),
                  now, r.Some?)
      ensures r.Some? ==>
                && r.value.primaryKey == updateId && r.value.objectType == "Note" && updateId in db.updates
                && db.updates[updateId] == UpdateRow(r.value.objectPk, r.value.content, r.value.published)
                && r.value.content == Trim(rawContent) && r.value.published == published
                && db.versions != [] && db.versions[|db.versions| - 1].objectPk == r.value.objectPk
    {
      hide Trim, CanAccess, LoadActor, Appended, CommentPk;
      var content := Trim(rawContent);
      TrimIdempotent(rawContent);
      if content == "" {
        return None;
      }
      var loaded := LoadComment(db, trackerSlug, ticketSlug, commentSlug);
      if loaded.None? {
        return None;
      }
      var pk := loaded.value;
      if !CanAccess(db, db.comments[pk].repository, user) {
        return None;
      }
      if LoadActor(db, user).None? {
        return None;
      }
      var note := db.notes[pk];
      db := db.(versions := db.versions + [Version(db.nextId, pk, "Note", note, updateId, user, now)]);
      var body := AppendPlainTextUpdate(note, content, published);
      assert body.Ok?;  // its only error, an empty content, was excluded above
      db := db.(notes := db.notes[pk := body.value]);
      db := db.(updates := db.updates[updateId := UpdateRow(pk, content, published)], nextId := db.nextId + 1);
      return Some(UpdateRecord(updateId, pk, "Note", content, published));
    }

    method UpdateTicketAssigneeByUsername(user: int, trackerSlug: string, ticketSlug: string, rawAction: string,
                                          rawUsername: string, now: Time) returns (ok: bool)
      modifies this
      ensures Did(old(db), Assign(user, trackerSlug, ticketSlug, rawAction, rawUsername), now, ok)
    {
      hide Trim, CanAccess;
      var action, username := Trim(rawAction), Trim(rawUsername);
      if user <= 0 || username == "" {
        return false;
      }
      if action == "" {
        action := "add";
      }
      var loaded := LoadTicket(db, trackerSlug, ticketSlug);
      if loaded.None? {
        return false;
      }
      var key := loaded.value;
      var repository := db.tickets[key].repository;
      if !CanAccess(db, repository, user) {
        return false;
      }
      if username !in db.usernames || db.usernames[username] !in db.actors {
        return false;
      }
      var assignee := db.usernames[username];
      if !CanAccess(db, repository, assignee) {
        return false;
      }
      if action == "add" {
        if (key, assignee) in db.assignees {
          return true;
        }
        db := db.(assignees := db.assignees + {(key, assignee)});
        db := db.(notices := db.notices + [Notice(assignee, key, repository, user)]);
        return true;
      } else if action == "remove" {
        db := db.(assignees := db.assignees - {(key, assignee)});
        return true;
      } else {
        return false;
      }
    }

    method ListObjectVersionsByPrimaryKey(rawPk: string, rawLimit: int) returns (versions: seq<Version>)
      ensures versions == ListVersions(db, rawPk, rawLimit)
    {
      var pk := Trim(rawPk);
      if pk == "" {
        return [];
      }
      var limit := rawLimit;
      if limit <= 0 {
        limit := 20;
      }
      if limit > 200 {
        limit := 200;
      }
      // ORDER BY created_at DESC, id DESC LIMIT limit; VersionsAreOrdered shows that it is this order.
      var rows := Reversed(VersionsOf(db, pk));
      rows := if |rows| <= limit then rows else rows[..limit];
      versions := [];
      for i := 0 to |rows|
        invariant versions == rows[..i]
      {
        versions := versions + [rows[i]];
      }
    }
  }
}
