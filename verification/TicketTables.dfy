/** The ticket tables and what each store operation does to them
    (src/internal/common/store_ticket.go, src/internal/common/store_helpers_tx.go).
    Slugs, object ids and times that the program draws itself are arguments. */
module TicketTables {
  import opened Objects
  import opened Sequences
  import opened Text
  import opened Wrappers

  type Time = int

  /** Tracker slug and ticket slug. */
  type TicketKey = (string, string)

  datatype Ticket = Ticket(
    id: int, actorId: string, repository: string, body: Body, createdAt: Time, priority: int, isLocal: bool)

  /** `parent` is the empty string where the column is NULL. */
  datatype Comment = Comment(
    id: int, slug: string, ticket: TicketKey, repository: string, parent: string, author: int, recipient: string)

  datatype Version = Version(
    id: int, objectPk: string, objectType: string, body: Body, updateId: string, author: int, createdAt: Time)

  datatype UpdateRow = UpdateRow(objectPk: string, content: string, published: string)

  datatype Notice = Notice(user: int, ticket: TicketKey, repository: string, assignedBy: int)

  datatype Repository = Repository(actorId: string, tracker: string)

  datatype Tables = Tables(
    baseUrl: string,
    trackers: map<string, string>, repositories: map<string, Repository>,
    users: map<int, bool>, usernames: map<string, int>, actors: map<int, string>, members: set<(string, int)>,
    tickets: map<TicketKey, Ticket>, comments: map<string, Comment>, notes: map<string, Body>,
    versions: seq<Version>, updates: map<string, UpdateRow>,
    assignees: set<(TicketKey, int)>, notices: seq<Notice>, nextId: int)

  datatype TicketError = Invalid | Missing

  const ACK := "ack"
  const COMPLETION := "completion"

  // ---------------------------------------------------------------- reads

  predicate CanAccess(t: Tables, repository: string, user: int) {
    && repository != "" && user > 0 && user in t.users
    && (t.users[user] || (repository, user) in t.members)
  }

  function LoadTicket(t: Tables, trackerSlug: string, ticketSlug: string): Option<TicketKey> {
    var key := (Trim(trackerSlug), Trim(ticketSlug));
    if key.0 == "" || key.1 == "" || key !in t.tickets || !t.tickets[key].isLocal then None else Some(key)
  }

  function TicketPk(baseUrl: string, tracker: string, slug: string): string {
    baseUrl + "/ticket-tracker/" + tracker + "/ticket/" + slug
  }

  function CommentPk(ticketPk: string, slug: string): string {
    ticketPk + "/comment/" + slug
  }

  /** The row that the three slugs select. */
  function LoadComment(t: Tables, trackerSlug: string, ticketSlug: string, commentSlug: string): Option<string> {
    var key, slug := (Trim(trackerSlug), Trim(ticketSlug)), Trim(commentSlug);
    if key.0 == "" || key.1 == "" || slug == "" || key !in t.tickets then None else
      var pk := CommentPk(t.tickets[key].actorId, slug);
      if pk in t.comments && t.comments[pk].ticket == key && pk in t.notes then Some(pk) else None
  }

  function LoadActor(t: Tables, user: int): Option<string> {
    if user <= 0 || user !in t.actors || Trim(t.actors[user]) == "" then None else Some(Trim(t.actors[user]))
  }

  /** The column value for a parent: NULL when it is the ticket itself. */
  function NullString(value: string, treatAsNull: string): string {
    if Trim(value) == "" then ""
    else if Trim(treatAsNull) != "" && Trim(value) == Trim(treatAsNull) then "" else Trim(value)
  }

  /** How a listing shows the parent column. */
  function ParentView(parent: string, ticketPk: string): (string, bool) {
    if Trim(parent) == "" then (ticketPk, true) else (Trim(parent), Trim(parent) == ticketPk)
  }

  function VersionsOf(t: Tables, pk: string): seq<Version> {
    Filter((v: Version) => v.objectPk == pk, t.versions)
  }

  function VersionLimit(limit: int): nat {
    if limit <= 0 then 20 else if limit > 200 then 200 else limit
  }

  /** Newest first, at most `limit`. */
  function ListVersions(t: Tables, rawPk: string, limit: int): seq<Version> {
    var all, n := Reversed(VersionsOf(t, Trim(rawPk))), VersionLimit(limit);
    if Trim(rawPk) == "" then [] else if |all| <= n then all else all[..n]
  }

  // ---------------------------------------------------------------- operations

  datatype Op =
    | AddUser(user: int, username: string, actorId: string, isAdmin: bool)
    | SetAdmin(user: int, isAdmin: bool)
    | AddMember(repository: string, user: int)
    | RemoveMember(repository: string, user: int)
    | AddRepository(slug: string, repo: Repository)
    | AddTracker(slug: string, trackerActorId: string)
    | CreateTicket(user: int, trackerSlug: string, repoSlug: string, summary: string, content: string, priority: int,
                   slug: string, published: string)
    | CreateComment(user: int, trackerSlug: string, ticketSlug: string, content: string, inReplyTo: string,
                    kind: string, slug: string, published: string)
    | UpdateTicket(user: int, trackerSlug: string, ticketSlug: string, content: string,
                   updateId: string, published: string)
    | UpdateComment(user: int, trackerSlug: string, ticketSlug: string, commentSlug: string, content: string,
                    updateId: string, published: string)
    | Assign(user: int, trackerSlug: string, ticketSlug: string, action: string, username: string)

  function Apply(t: Tables, op: Op, now: Time): Result<Tables, TicketError> {
    match op
    case AddUser(user, username, actorId, isAdmin) =>
      Ok(t.(users := t.users[user := isAdmin], usernames := t.usernames[username := user],
            actors := t.actors[user := actorId]))
    case SetAdmin(user, isAdmin) => Ok(t.(users := t.users[user := isAdmin]))
    case AddMember(repository, user) => Ok(t.(members := t.members + {(repository, user)}))
    case RemoveMember(repository, user) => Ok(t.(members := t.members - {(repository, user)}))
    case AddRepository(slug, repo) => Ok(t.(repositories := t.repositories[slug := repo]))
    case AddTracker(slug, actorId) => Ok(t.(trackers := t.trackers[slug := actorId]))
    case CreateTicket(_, _, _, _, _, _, _, _) => ApplyCreateTicket(t, op, now)
    case CreateComment(_, _, _, _, _, _, _, _) => ApplyCreateComment(t, op)
    case UpdateTicket(_, _, _, _, _, _) => ApplyUpdateTicket(t, op, now)
    case UpdateComment(_, _, _, _, _, _, _) => ApplyUpdateComment(t, op, now)
    case Assign(_, _, _, _, _) => ApplyAssign(t, op)
  }

  function ApplyCreateTicket(t: Tables, op: Op, now: Time): Result<Tables, TicketError>
    requires op.CreateTicket?
  {
    var summary, content := Trim(op.summary), Trim(op.content);
    var tracker, repo := Trim(op.trackerSlug), Trim(op.repoSlug);
    if summary == "" || content == "" || op.priority < 0 || op.priority > 0x7FFF_FFFF then Err(Invalid)
    else if tracker == "" || tracker !in t.trackers || repo == "" || repo !in t.repositories then Err(Invalid)
    else if t.repositories[repo].tracker != tracker then Err(Invalid)
    else if op.user !in t.actors then Err(Missing)
    else
      var pk := TicketPk(t.baseUrl, tracker, op.slug);
      var body := TicketObject(pk, t.trackers[tracker], t.repositories[repo].actorId, t.actors[op.user], summary,
                               content,
                               op.published);
      Ok(t.(members := if op.user > 0 then t.members + {(repo, op.user)} else t.members,
            tickets := t.tickets[(tracker, op.slug) := Ticket(t.nextId, pk, repo, body, now, op.priority, true)],
            nextId := t.nextId + 1))
  }

  predicate ValidKind(kind: string) {
    kind == "" || kind == ACK || kind == COMPLETION
  }

  /** The parent that a comment answers, if it may. */
  function ResolveParent(t: Tables, key: TicketKey, inReplyTo: string, recipient: string): Option<string>
    requires key in t.tickets
  {
    var ticketPk := t.tickets[key].actorId;
    if inReplyTo == "" || inReplyTo == ticketPk then Some(ticketPk)
    else if inReplyTo !in t.comments || inReplyTo !in t.notes then None
    else if t.comments[inReplyTo].ticket != key || t.comments[inReplyTo].recipient != recipient then None
    else Some(inReplyTo)
  }

  function ApplyCreateComment(t: Tables, op: Op): Result<Tables, TicketError>
    requires op.CreateComment?
  {
    var content, inReplyTo, kind := Trim(op.content), Trim(op.inReplyTo), Trim(op.kind);
    var loaded := LoadTicket(t, op.trackerSlug, op.ticketSlug);
    if content == "" || !ValidKind(kind) || loaded.None? then Err(Invalid) else
      var key := loaded.value;
      var ticket := t.tickets[key];
      var recipient := StringFromAny(ticket.body, Target);
      if !CanAccess(t, ticket.repository, op.user) || recipient == "" then Err(Invalid)
      else if op.user !in t.actors then Err(Missing)
      else
        match ResolveParent(t, key, inReplyTo, recipient)
        case None => Err(Invalid)
        case Some(parent) =>
          var pk := CommentPk(ticket.actorId, op.slug);
          var note := CommentObject(pk, ticket.actorId, parent, t.actors[op.user], recipient, content, kind,
                                    op.published);
          var row := Comment(t.nextId, op.slug, key, ticket.repository, NullString(parent, ticket.actorId), op.user,
                             recipient);
          Ok(t.(notes := t.notes[pk := note], comments := t.comments[pk := row], nextId := t.nextId + 1))
  }

  function ApplyUpdateTicket(t: Tables, op: Op, now: Time): Result<Tables, TicketError>
    requires op.UpdateTicket?
  {
    var content, loaded := Trim(op.content), LoadTicket(t, op.trackerSlug, op.ticketSlug);
    if content == "" || loaded.None? then Err(Invalid) else
      var key := loaded.value;
      var ticket := t.tickets[key];
      if !CanAccess(t, ticket.repository, op.user) || LoadActor(t, op.user).None? then Err(Invalid) else
        var version := Version(t.nextId, ticket.actorId, "Ticket", ticket.body, op.updateId, op.user, now);
        Ok(t.(versions := t.versions + [version],
              tickets := t.tickets[key := ticket.(body := Appended(ticket.body, content, op.published))],
              updates := t.updates[op.updateId := UpdateRow(ticket.actorId, content, op.published)],
              nextId := t.nextId + 1))
  }

  function ApplyUpdateComment(t: Tables, op: Op, now: Time): Result<Tables, TicketError>
    requires op.UpdateComment?
  {
    var content, loaded := Trim(op.content), LoadComment(t, op.trackerSlug, op.ticketSlug, op.commentSlug);
    if content == "" || loaded.None? then Err(Invalid) else
      var pk := loaded.value;
      if !CanAccess(t, t.comments[pk].repository, op.user) || LoadActor(t, op.user).None? then Err(Invalid) else
        var version := Version(t.nextId, pk, "Note", t.notes[pk], op.updateId, op.user, now);
        Ok(t.(versions := t.versions + [version],
              notes := t.notes[pk := Appended(t.notes[pk], content, op.published)],
              updates := t.updates[op.updateId := UpdateRow(pk, content, op.published)],
              nextId := t.nextId + 1))
  }

  /** The ticket and the user that an assignment names, if both parties may see it. */
  function AssignTarget(t: Tables, op: Op): Option<(TicketKey, int)>
    requires op.Assign?
    ensures AssignTarget(t, op).Some? ==> AssignTarget(t, op).value.0 in t.tickets
  {
    var username, loaded := Trim(op.username), LoadTicket(t, op.trackerSlug, op.ticketSlug);
    if op.user <= 0 || username == "" || loaded.None? then None else
      var repository := t.tickets[loaded.value].repository;
      if !CanAccess(t, repository, op.user) || username !in t.usernames then None else
        var assignee := t.usernames[username];
        if assignee !in t.actors || !CanAccess(t, repository, assignee) then None else Some((loaded.value, assignee))
  }

  function Reassigned(t: Tables, user: int, action: string, key: TicketKey, assignee: int): Result<Tables, TicketError>
    requires key in t.tickets
  {
    if action == "add" then
      if (key, assignee) in t.assignees then Ok(t)
      else Ok(t.(assignees := t.assignees + {(key, assignee)},
                 notices := t.notices + [Notice(assignee, key, t.tickets[key].repository, user)]))
    else if action == "remove" then Ok(t.(assignees := t.assignees - {(key, assignee)}))
    else Err(Invalid)
  }

  function ApplyAssign(t: Tables, op: Op): Result<Tables, TicketError>
    requires op.Assign?
  {
    match AssignTarget(t, op)
    case None => Err(Invalid)
    case Some((key, assignee)) =>
      Reassigned(t, op.user, if Trim(op.action) == "" then "add" else Trim(op.action), key, assignee)
  }

  function After(t: Tables, op: Op, now: Time): Tables {
    match Apply(t, op, now) case Ok(t') => t' case Err(_) => t
  }
}
