/** ActivityPub object bodies and plain-text updates (src/internal/common/object_builders.go).
    Bodies are JSON objects; the keys the program names are constructors of Key. */
module Objects {
  import opened Text
  import opened Wrappers

  datatype Key =
    | Id | Type | Context | Target | InReplyTo | AttributedTo | To | Summary | Content | MediaType | Source
    | Published | Updated | AgentCommentKind | IsResolved | Named(name: string)

  datatype Json =
    | Null | Bool(b: bool) | Number(n: int) | Str(s: string) | Arr(items: seq<Json>) | Obj(fields: map<Key, Json>)

  type Body = map<Key, Json>

  const PLAIN: Json := Str("text/plain")

  function StringFromAny(body: Body, key: Key): string {
    if key in body && body[key].Str? then Trim(body[key].s) else ""
  }

  function SourceOf(content: string): Json {
    Obj(map[MediaType := PLAIN, Content := Str(content)])
  }

  /** The links a ticket object carries besides (followers, replies, team, ...). */
  function Collections(actorId: string): Body {
    map[Named("followers") := Str(actorId + "/followers"), Named("replies") := Str(actorId + "/replies")]
  }

  function TicketObject(actorId: string, trackerActorId: string, repoActorId: string, authorActorId: string,
                        summary: string, content: string, published: string): Body {
    Collections(actorId) + map[
      Id := Str(actorId), Type := Str("Ticket"), Context := Str(trackerActorId), Target := Str(repoActorId),
      AttributedTo := Str(authorActorId), Summary := Str(summary), Content := Str(content), MediaType := PLAIN,
      Source := SourceOf(content), Published := Str(published), IsResolved := Bool(false)]
  }

  /** An empty kind is omitted from the object. */
  function CommentObject(actorId: string, ticketActorId: string, inReplyTo: string, authorActorId: string,
                         recipient: string, content: string, kind: string, published: string): Body {
    map[
      Id := Str(actorId), Type := Str("Note"), Context := Str(ticketActorId), InReplyTo := Str(inReplyTo),
      AttributedTo := Str(authorActorId), To := Arr([Str(recipient)]), Content := Str(content), MediaType := PLAIN,
      Source := SourceOf(content), Published := Str(published)]
    + if kind == "" then map[] else map[AgentCommentKind := Str(kind)]
  }

  // ---------------------------------------------------------------- appending an update

  function Merge(existing: string, update: string): string {
    if existing == "" then update else existing + "\n\n" + update
  }

  function UpdatedSource(body: Body, merged: string): Json {
    if Source in body && body[Source].Obj? then
      var src := body[Source].fields[Content := Str(merged)];
      Obj(if StringFromAny(src, MediaType) == "" then src[MediaType := PLAIN] else src)
    else SourceOf(merged)
  }

  /** The body after a (trimmed, non-empty) update. */
  function Appended(body: Body, update: string, published: string): Body {
    var merged := Merge(StringFromAny(body, Content), update);
    body[Content := Str(merged)][MediaType := PLAIN][Updated := Str(published)][Source := UpdatedSource(body, merged)]
  }

  method AppendPlainTextUpdate(bodyRaw: Body, updateContent: string, published: string) returns (r: Result<Body, ()>)
    ensures r == if Trim(updateContent) == "" then Err(()) else Ok(Appended(bodyRaw, Trim(updateContent), published))
  {
    var body := bodyRaw;
    var update := Trim(updateContent);
    if update == "" {
      return Err(());
    }
    var existing := Trim(StringFromAny(body, Content));
    TrimIdempotent(if Content in body && body[Content].Str? then body[Content].s else "");
    TrimTrimmed("");
    var merged := update;
    if existing != "" {
      merged := existing + "\n\n" + update;
    }
    body := body[Content := Str(merged)];
    body := body[MediaType := PLAIN];
    body := body[Updated := Str(published)];
    if Source in body && body[Source].Obj? {
      var src := body[Source].fields;
      src := src[Content := Str(merged)];
      var kind := StringFromAny(src, MediaType);
      StringFromAnyTrimmed(src, MediaType);
      if Trim(kind) == "" {
        src := src[MediaType := PLAIN];
      }
      body := body[Source := Obj(src)];
    } else {
      body := body[Source := Obj(map[MediaType := PLAIN, Content := Str(merged)])];
    }
    return Ok(body);
  }

  lemma StringFromAnyTrimmed(body: Body, key: Key)
    ensures Trim(StringFromAny(body, key)) == StringFromAny(body, key) && Trimmed(StringFromAny(body, key))
  {
    TrimTrimmed("");
    if key in body && body[key].Str? {
      TrimIdempotent(body[key].s);
      TrimTrimmed(body[key].s);
    }
  }

  // ---------------------------------------------------------------- histories

  /** Non-empty pieces joined by blank lines. */
  function Joined(first: string, updates: seq<string>): string {
    if updates == [] then first
    else Merge(Joined(first, updates[..|updates| - 1]), updates[|updates| - 1])
  }

  /** Bodies of one object, oldest first, and the updates between them. */
  ghost predicate Chain(bodies: seq<Body>, updates: seq<(string, string)>) {
    && |bodies| == |updates| + 1
    && (forall i :: 0 <= i < |updates| ==>
          && updates[i].0 != "" && Trim(updates[i].0) == updates[i].0
          && bodies[i + 1] == Appended(bodies[i], updates[i].0, updates[i].1))
  }

  function Texts(updates: seq<(string, string)>): (r: seq<string>)
    ensures |r| == |updates| && forall i :: 0 <= i < |r| ==> r[i] == updates[i].0
  {
    seq(|updates|, i requires 0 <= i < |updates| => updates[i].0)
  }

  lemma MergedTrimmed(existing: string, update: string)
    requires Trimmed(existing) && Trimmed(update) && update != ""
    ensures Trimmed(Merge(existing, update)) && Trim(Merge(existing, update)) == Merge(existing, update)
  {
    TrimTrimmed(Merge(existing, update));
  }

  lemma AppendedContent(body: Body, update: string, published: string)
    requires update != "" && Trim(update) == update
    ensures StringFromAny(Appended(body, update, published), Content) == Merge(StringFromAny(body, Content), update)
  {
    StringFromAnyTrimmed(body, Content);
    TrimTrimmed(update);
    MergedTrimmed(StringFromAny(body, Content), update);
  }

  /** Keys an update leaves alone. */
  predicate Framed(key: Key) {
    key !in {Content, MediaType, Updated, Source}
  }

  ghost predicate SameFrame(a: Body, b: Body) {
    forall key :: Framed(key) ==> (key in a <==> key in b) && (key in a ==> a[key] == b[key])
  }

  lemma SameFrameTransitive(a: Body, b: Body, c: Body)
    ensures SameFrame(a, a)
    ensures SameFrame(a, b) && SameFrame(b, c) ==> SameFrame(a, c)
  {
  }

  /** The content is `text` and the source repeats it. */
  ghost predicate Shows(body: Body, text: string) {
    && Content in body && body[Content] == Str(text)
    && Source in body && body[Source].Obj?
    && Content in body[Source].fields && body[Source].fields[Content] == Str(text)
  }

  lemma AppendedEffect(body: Body, update: string, published: string)
    ensures Shows(Appended(body, update, published), Merge(StringFromAny(body, Content), update))
    ensures SameFrame(body, Appended(body, update, published))
  {
    hide StringFromAny, Merge;
  }

  /** After the updates u1..un the content is the first content and u1..un joined by blank lines,
      the source repeats it, and every other key is as it was. */
  lemma {:induction false} ChainContent(bodies: seq<Body>, updates: seq<(string, string)>)
    requires Chain(bodies, updates)
    ensures var last := bodies[|updates|];
            var text := Joined(StringFromAny(bodies[0], Content), Texts(updates));
            && StringFromAny(last, Content) == text
            && SameFrame(bodies[0], last)
            && (updates != [] ==> Shows(last, text))
  {
    hide StringFromAny, Appended, Shows, Merge, SameFrame;
    var n := |updates|;
    SameFrameTransitive(bodies[0], bodies[0], bodies[0]);
    if n != 0 {
      var init := updates[..n - 1];
      var (update, published) := updates[n - 1];
      assert Chain(bodies[..n], init);
      ChainContent(bodies[..n], init);
      assert Texts(updates)[..n - 1] == Texts(init);
      AppendedContent(bodies[n - 1], update, published);
      AppendedEffect(bodies[n - 1], update, published);
      assert bodies[n] == Appended(bodies[n - 1], update, published);
      SameFrameTransitive(bodies[0], bodies[n - 1], bodies[n]);
    }
  }
}
