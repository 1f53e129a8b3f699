/** Which ticket operations are accepted, and what each of them stores, key by key
    (src/internal/common/store_ticket.go, src/internal/common/object_builders.go). */
module TicketContents {
  import opened Objects
  import opened Text
  import opened TicketRuns
  import opened TicketTables

  /** An administrator, or a member of the repository. */
  predicate HasAccess(t: Tables, repository: string, user: int) {
    repository != "" && 0 < user && user in t.users && (t.users[user] || (repository, user) in t.members)
  }

  /** The two slugs name a local ticket. */
  predicate Names(t: Tables, trackerSlug: string, ticketSlug: string, key: TicketKey) {
    key == (Trim(trackerSlug),
            Trim(ticketSlug)) && key.0 != "" && key.1 != "" && key in t.tickets && t.tickets[key].isLocal
  }

  /** An object's text value under a key, trimmed; empty when it is missing or no text. */
  predicate Holds(body: Body, key: Key, text: string) {
    if key in body && body[key].Str? then text == Trim(body[key].s) else text == ""
  }

  // ---------------------------------------------------------------- comments

  /** The comment that is answered: none means the ticket, and another one must be of the same ticket and
      recipient. */
  predicate Answers(t: Tables, key: TicketKey, inReplyTo: string)
    requires key in t.tickets
  {
    || inReplyTo == "" || inReplyTo == t.tickets[key].actorId
    || (inReplyTo in t.comments && inReplyTo in t.notes && t.comments[inReplyTo].ticket == key
        && Holds(t.tickets[key].body, Target, t.comments[inReplyTo].recipient))
  }

  lemma CommentAccepted(t: Tables, op: Op, now: Time)
    requires op.CreateComment?
    ensures var key := (Trim(op.trackerSlug), Trim(op.ticketSlug));
            Apply(t, op, now).Ok? <==>
              && Trim(op.content) != "" && Trim(op.kind) in {"", "ack", "completion"}
              && Names(t, op.trackerSlug, op.ticketSlug, key)
              && HasAccess(t, t.tickets[key].repository, op.user) && op.user in t.actors
              && !Holds(t.tickets[key].body, Target, "")
              && Answers(t, key, Trim(op.inReplyTo))
  {
    hide Trim, CommentObject, CommentPk, NullString;
  }

  /** What a successful comment stores: the row and the note of one key, and nothing else. */
  lemma CommentStored(t: Tables, op: Op, now: Time)
    requires op.CreateComment? && Apply(t, op, now).Ok?
    ensures var t', key := After(t, op, now), (Trim(op.trackerSlug), Trim(op.ticketSlug));
            && key in t.tickets && op.user in t.actors
            && var pk := t.tickets[key].actorId + "/comment/" + op.slug;
               && pk in t'.notes && pk in t'.comments
               && t' == t.(notes := t.notes[pk := t'.notes[pk]], comments := t.comments[pk := t'.comments[pk]],
                           nextId := t.nextId + 1)
  {
    hide Trim, NullString, CommentObject, TargetOf, CanAccess;
  }

  /** The row: who answered what on which ticket; the parent column is empty where the ticket is answered. */
  lemma RowStored(t: Tables, op: Op, now: Time)
    requires op.CreateComment? && Apply(t, op, now).Ok?
    ensures var t', key := After(t, op, now), (Trim(op.trackerSlug), Trim(op.ticketSlug));
            && key in t.tickets
            && var ticket := t.tickets[key];
               var pk := ticket.actorId + "/comment/" + op.slug;
               && pk in t'.comments && Holds(ticket.body, Target, t'.comments[pk].recipient)
               && RowHolds(t'.comments[pk], t.nextId, op.slug, key, ticket.repository, op.user,
                           if Trim(op.inReplyTo) in {"", Trim(ticket.actorId)} then "" else Trim(op.inReplyTo))
  {
    TrimIdempotent(op.inReplyTo);
    hide Trim, CommentObject, CanAccess;
  }

  /** The note: the trimmed text, to the ticket's target, from the author's actor, at the time drawn. */
  lemma NoteStored(t: Tables, op: Op, now: Time)
    requires op.CreateComment? && Apply(t, op, now).Ok?
    ensures var t', key := After(t, op, now), (Trim(op.trackerSlug), Trim(op.ticketSlug));
            && key in t.tickets && op.user in t.actors
            && var ticket := t.tickets[key];
               var pk := ticket.actorId + "/comment/" + op.slug;
               && pk in t'.notes && pk in t'.comments
               && NoteHolds(t'.notes[pk], pk, ticket.actorId,
                            if Trim(op.inReplyTo) == "" then ticket.actorId else Trim(op.inReplyTo),
                            t.actors[op.user], t'.comments[pk].recipient, Trim(op.content), Trim(op.kind), op.published)
  {
    hide *;
    NoteMade(t, op, now);
    var ticket := t.tickets[(Trim(op.trackerSlug), Trim(op.ticketSlug))];
    var pk := ticket.actorId + "/comment/" + op.slug;
    NoteBuilt(pk, ticket.actorId, if Trim(op.inReplyTo) == "" then ticket.actorId else Trim(op.inReplyTo),
              t.actors[op.user], After(t, op, now).comments[pk].recipient, Trim(op.content), Trim(op.kind),
                  op.published);
  }

  lemma NoteMade(t: Tables, op: Op, now: Time)
    requires op.CreateComment? && Apply(t, op, now).Ok?
    ensures var t', key := After(t, op, now), (Trim(op.trackerSlug), Trim(op.ticketSlug));
            && key in t.tickets && op.user in t.actors
            && var ticket := t.tickets[key];
               var pk := ticket.actorId + "/comment/" + op.slug;
               && pk in t'.notes && pk in t'.comments
               && t'.notes[pk] == CommentObject(pk, ticket.actorId,
                    if Trim(op.inReplyTo) == "" then ticket.actorId else Trim(op.inReplyTo),
                    t.actors[op.user], t'.comments[pk].recipient, Trim(op.content), Trim(op.kind), op.published)
  {
    hide Trim, NullString, CommentObject, StringFromAny, CanAccess;
  }

  /** A note: who says what to whom, in answer to what, on which ticket, and when. */
  predicate NoteHolds(note: Body, pk: string, ticket: string, parent: string, author: string, recipient: string,
                      content: string, kind: string, published: string)
  {
    && note.Keys == {Id, Type, Context, InReplyTo, AttributedTo, To, Content, MediaType, Source, Published}
                    + (if kind == "" then {} else {AgentCommentKind})
    && note[Id] == Str(pk) && note[Type] == Str("Note") && note[Context] == Str(ticket)
    && note[InReplyTo] == Str(parent) && note[AttributedTo] == Str(author) && note[To] == Arr([Str(recipient)])
    && note[Content] == Str(content) && note[MediaType] == Str("text/plain") && note[Published] == Str(published)
    && note[Source] == Obj(map[MediaType := Str("text/plain"), Content := Str(content)])
    && (kind != "" ==> note[AgentCommentKind] == Str(kind))
  }

  predicate RowHolds(row: Comment, id: int, slug: string, key: TicketKey, repository: string, author: int,
                     parent: string) {
    && row.id == id && row.slug == slug && row.ticket == key && row.repository == repository
    && row.author == author && row.parent == parent
  }

  lemma NoteBuilt(pk: string, ticket: string, parent: string, author: string, recipient: string, content: string,
                  kind: string, published: string)
    ensures NoteHolds(CommentObject(pk, ticket, parent, author, recipient, content, kind, published),
                      pk, ticket, parent, author, recipient, content, kind, published)
  {
    hide SourceOf;
    PlainSource(content);
  }

  lemma PlainSource(content: string)
    ensures SourceOf(content) == Obj(map[MediaType := Str("text/plain"), Content := Str(content)])
  {
  }

  // ---------------------------------------------------------------- tickets

  lemma TicketAccepted(t: Tables, op: Op, now: Time)
    requires op.CreateTicket?
    ensures var tracker, repo := Trim(op.trackerSlug), Trim(op.repoSlug);
            Apply(t, op, now).Ok? <==>
              && Trim(op.summary) != "" && Trim(op.content) != "" && 0 <= op.priority <= 2147483647
              && tracker != "" && tracker in t.trackers && repo != "" && repo in t.repositories
              && t.repositories[repo].tracker == tracker && op.user in t.actors
  {
    hide Trim, TicketObject, TicketPk;
  }

  /** The row and object of a new ticket, and its author's membership; nothing else. */
  lemma TicketStored(t: Tables, op: Op, now: Time)
    requires op.CreateTicket? && Apply(t, op, now).Ok?
    ensures var tracker, repo := Trim(op.trackerSlug), Trim(op.repoSlug);
            var t', key := After(t, op, now), (Trim(op.trackerSlug), op.slug);
            && tracker in t.trackers && repo in t.repositories && op.user in t.actors && key in t'.tickets
            && t' == t.(tickets := t.tickets[key := t'.tickets[key]], nextId := t.nextId + 1,
                        members := t.members + if 0 < op.user then {(repo, op.user)} else {})
            && var row := t'.tickets[key];
               && row.id == t.nextId && row.repository == repo && row.createdAt == now
               && row.priority == op.priority && row.isLocal
               && row.actorId == t.baseUrl + "/ticket-tracker/" + tracker + "/ticket/" + op.slug
               && TicketHolds(row.body, row.actorId, t.trackers[tracker], t.repositories[repo].actorId,
                              t.actors[op.user], Trim(op.summary), Trim(op.content), op.published)
  {
    hide Trim, TicketObject, TicketHolds;
    var tracker, repo := Trim(op.trackerSlug), Trim(op.repoSlug);
    TicketBuilt(TicketPk(t.baseUrl, tracker, op.slug), t.trackers[tracker], t.repositories[repo].actorId,
                t.actors[op.user], Trim(op.summary), Trim(op.content), op.published);
  }

  predicate TicketHolds(body: Body, pk: string, tracker: string, repository: string, author: string, summary: string,
                        content: string, published: string)
  {
    && {Id, Type, Context, Target, AttributedTo, Summary, Content, MediaType, Source, Published,
        IsResolved} <= body.Keys
    && body[Id] == Str(pk) && body[Type] == Str("Ticket") && body[Context] == Str(tracker)
    && body[Target] == Str(repository) && body[AttributedTo] == Str(author) && body[Summary] == Str(summary)
    && body[Content] == Str(content) && body[MediaType] == Str("text/plain") && body[Published] == Str(published)
    && body[Source] == Obj(map[MediaType := Str("text/plain"), Content := Str(content)])
    && body[IsResolved] == Bool(false)
  }

  lemma TicketBuilt(pk: string, tracker: string, repository: string, author: string, summary: string, content: string,
                    published: string)
    ensures TicketHolds(TicketObject(pk, tracker, repository, author, summary, content, published),
                        pk, tracker, repository, author, summary, content, published)
  {
    hide SourceOf, Collections;
    PlainSource(content);
  }

  // ---------------------------------------------------------------- updates

  /** The object after an update: the text a blank line below what was there, the time, and a source that
      repeats the text; every other key as before. */
  ghost predicate Extended(before: Body, after: Body, earlier: string, update: string, published: string) {
    var text := if earlier == "" then update else earlier + "\n\n" + update;
    && Content in after && after[Content] == Str(text)
    && MediaType in after && after[MediaType] == Str("text/plain")
    && Updated in after && after[Updated] == Str(published)
    && Source in after && after[Source].Obj?
    && Content in after[Source].fields && after[Source].fields[Content] == Str(text)
    && (Source in before && before[Source].Obj? ==> SourceKept(before[Source].fields, after[Source].fields))
    && (!(Source in before && before[Source].Obj?) ==>
          after[Source] == Obj(map[MediaType := Str("text/plain"), Content := Str(text)]))
    && (forall key :: key !in {Content, MediaType, Updated, Source} ==>
          (key in after <==> key in before) && (key in before ==> after[key] == before[key]))
  }

  /** Of an object's own source everything but the content stays; a blank media type becomes plain text. */
  ghost predicate SourceKept(before: Body, after: Body) {
    && (forall key :: key !in {Content, MediaType} ==>
          (key in after <==> key in before) && (key in before ==> after[key] == before[key]))
    && MediaType in after
    && after[MediaType] == if Holds(before, MediaType, "") then Str("text/plain") else before[MediaType]
  }

  lemma AppendedHolds(body: Body, update: string, published: string, earlier: string)
    requires Holds(body, Content, earlier)
    ensures Extended(body, Appended(body, update, published), earlier, update, published)
  {
    hide Trim;
    if Source in body && body[Source].Obj? {
      var fields := body[Source].fields;
      assert StringFromAny(fields[Content := Str(Merge(earlier, update))], MediaType) ==
          StringFromAny(fields, MediaType);
    }
  }

  lemma TicketUpdateAccepted(t: Tables, op: Op, now: Time)
    requires op.UpdateTicket?
    ensures var key := (Trim(op.trackerSlug), Trim(op.ticketSlug));
            Apply(t, op, now).Ok? <==>
              && Trim(op.content) != "" && Names(t, op.trackerSlug, op.ticketSlug, key)
              && HasAccess(t, t.tickets[key].repository, op.user)
              && op.user in t.actors && Trim(t.actors[op.user]) != ""
  {
    hide Trim, Appended;
  }

  /** An update snapshots the old object, appends the text to it and logs the update; nothing else. */
  lemma TicketUpdateStored(t: Tables, op: Op, now: Time)
    requires op.UpdateTicket? && Apply(t, op, now).Ok?
    ensures var t', key := After(t, op, now), (Trim(op.trackerSlug), Trim(op.ticketSlug));
            && key in t.tickets && key in t'.tickets
            && var ticket := t.tickets[key];
               && t' == t.(versions := t.versions
                             + [Version(t.nextId, ticket.actorId, "Ticket", ticket.body, op.updateId, op.user, now)],
                           tickets := t.tickets[key := ticket.(body := t'.tickets[key].body)],
                           updates := t.updates[op.updateId :=
                             UpdateRow(ticket.actorId, Trim(op.content), op.published)],
                           nextId := t.nextId + 1)
               && forall earlier :: Holds(ticket.body, Content, earlier) ==>
                    Extended(ticket.body, t'.tickets[key].body, earlier, Trim(op.content), op.published)
  {
    hide Trim, CanAccess, LoadActor, Appended, Extended;
    var key := (Trim(op.trackerSlug), Trim(op.ticketSlug));
    var body := t.tickets[key].body;
    forall earlier | Holds(body, Content, earlier)
      ensures Extended(body, Appended(body, Trim(op.content), op.published), earlier, Trim(op.content), op.published)
    {
      AppendedHolds(body, Trim(op.content), op.published, earlier);
    }
  }

  /** The three slugs name a stored comment with its note. */
  predicate NamesComment(t: Tables, op: Op, pk: string)
    requires op.UpdateComment?
  {
    var key := (Trim(op.trackerSlug), Trim(op.ticketSlug));
    && key.0 != "" && key.1 != "" && Trim(op.commentSlug) != "" && key in t.tickets
    && pk == t.tickets[key].actorId + "/comment/" + Trim(op.commentSlug)
    && pk in t.comments && t.comments[pk].ticket == key && pk in t.notes
  }

  lemma CommentUpdateAccepted(t: Tables, op: Op, now: Time)
    requires op.UpdateComment?
    ensures Apply(t, op, now).Ok? <==>
              && Trim(op.content) != ""
              && exists pk :: NamesComment(t, op, pk) && HasAccess(t, t.comments[pk].repository, op.user)
                              && op.user in t.actors && Trim(t.actors[op.user]) != ""
  {
    hide Trim, Appended;
    var key := (Trim(op.trackerSlug), Trim(op.ticketSlug));
    if key in t.tickets {
      var pk := t.tickets[key].actorId + "/comment/" + Trim(op.commentSlug);
      assert pk == CommentPk(t.tickets[key].actorId, Trim(op.commentSlug));
      assert Apply(t, op, now).Ok? ==> NamesComment(t, op, pk);
    }
  }

  lemma CommentUpdateStored(t: Tables, op: Op, now: Time, pk: string)
    requires op.UpdateComment? && Apply(t, op, now).Ok? && NamesComment(t, op, pk)
    ensures var t' := After(t, op, now);
            && pk in t'.notes
            && t' == t.(versions := t.versions
                          + [Version(t.nextId, pk, "Note", t.notes[pk], op.updateId, op.user, now)],
                        notes := t.notes[pk := t'.notes[pk]],
                        updates := t.updates[op.updateId := UpdateRow(pk, Trim(op.content), op.published)],
                        nextId := t.nextId + 1)
            && forall earlier :: Holds(t.notes[pk], Content, earlier) ==>
                 Extended(t.notes[pk], t'.notes[pk], earlier, Trim(op.content), op.published)
  {
    hide Trim, CanAccess, LoadActor, Appended, Extended;
    var body := t.notes[pk];
    forall earlier | Holds(body, Content, earlier)
      ensures Extended(body, Appended(body, Trim(op.content), op.published), earlier, Trim(op.content), op.published)
    {
      AppendedHolds(body, Trim(op.content), op.published, earlier);
    }
  }

  // ---------------------------------------------------------------- assignments

  lemma AssignAccepted(t: Tables, op: Op, now: Time)
    requires op.Assign?
    ensures var key, name := (Trim(op.trackerSlug), Trim(op.ticketSlug)), Trim(op.username);
            Apply(t, op, now).Ok? <==>
              && Trim(op.action) in {"", "add", "remove"} && name != "" && name in t.usernames
              && Names(t, op.trackerSlug, op.ticketSlug, key)
              && HasAccess(t, t.tickets[key].repository, op.user)
              && t.usernames[name] in t.actors && HasAccess(t, t.tickets[key].repository, t.usernames[name])
  {
    hide Trim;
  }

  /** Adding assigns and notifies once, naming who did it; removing only unassigns. */
  lemma AssignStored(t: Tables, op: Op, now: Time)
    requires op.Assign? && Apply(t, op, now).Ok?
    ensures var key, name := (Trim(op.trackerSlug), Trim(op.ticketSlug)), Trim(op.username);
            && key in t.tickets && name in t.usernames
            && var user := t.usernames[name];
               After(t, op, now) ==
                 if Trim(op.action) == "remove" then t.(assignees := t.assignees - {(key, user)})
                 else if (key, user) in t.assignees then t
                 else t.(assignees := t.assignees + {(key, user)},
                         notices := t.notices + [Notice(user, key, t.tickets[key].repository, op.user)])
  {
    hide Trim, CanAccess;
  }
}
