/** What the tools do to the files, said without the loop: a file holds what was last written to it. */
module AgentFiles {
  import opened AgentLoop
  import opened AgentTranscript
  import opened Wrappers

  /** The path and content that a call writes, if it writes at all: a write_file call that is not in plan
      mode, whose arguments parse, whose path the sandbox accepts and can be written. */
  function Written(env: Env, cbs: Callbacks, call: ToolCall): Option<(string, string)> {
    if call.name != "write_file" || cbs.approval == PlanMode || env.parse(call.arguments).None? then None else
      var args := env.parse(call.arguments).value;
      var path := if "path" in args then args["path"] else "";
      var content := if "content" in args then args["content"] else "";
      match Paths.Sandboxed(env.root, path)
      case Err(_) => None
      case Ok(file) => if env.writable(file) then Some((file, content)) else None
  }

  /** One call leaves exactly the written content in the written file, and every other file alone. */
  lemma PerformWrites(env: Env, cbs: Callbacks, files: Workspace, call: ToolCall)
    ensures Perform(env, cbs, files, call).0 ==
              match Written(env, cbs, call) case None => files case Some((file, content)) => files[file := content]
  {
    hide Paths.Sandboxed, BlockedResult;
  }

  /** What the model is told about a call. */
  lemma PerformAnswers(env: Env, cbs: Callbacks, files: Workspace, call: ToolCall)
    ensures var result := Perform(env, cbs, files, call).1;
            match env.parse(call.arguments)
            case None => result == "{\"error\":\"failed to parse arguments\"}"
            case Some(args) =>
              var path := if "path" in args then args["path"] else "";
              && (call.name in {"list_dir", "read_file", "search_text"} ==>
                    result == env.readTool(call.name, args, files))
              && (call.name !in {"list_dir", "read_file", "search_text"} && cbs.approval == PlanMode ==>
                    result == "{\"error\":\"tool_blocked\",\"reason\":"
                              + env.quote(call.name + " is not permitted in plan mode") + "}")
              && (call.name == "write_file" && cbs.approval != PlanMode ==>
                    result == if Written(env, cbs, call).Some? then "{\"ok\":true,\"path\":" + env.quote(path) + "}"
                              else env.writeError(env.root, args))
              && (call.name !in {"list_dir", "read_file", "search_text", "write_file"} && cbs.approval != PlanMode ==>
                    result == "{\"error\":\"unknown tool " + env.quote(call.name) + "\"}")
  {
    hide Paths.Sandboxed;
  }

  /** The content last written to a file by a sequence of calls. */
  function LastWrite(env: Env, cbs: Callbacks, calls: seq<ToolCall>, file: string): Option<string>
    decreases |calls|
  {
    if calls == [] then None else
      match Written(env, cbs, calls[|calls| - 1])
      case Some((f, content)) =>
        if f == file then Some(content) else LastWrite(env, cbs, calls[..|calls| - 1], file)
      case None => LastWrite(env, cbs, calls[..|calls| - 1], file)
  }

  /** Every file holds what `calls` last wrote to it, and is as it was where they wrote nothing. */
  ghost predicate FilesAfter(env: Env, cbs: Callbacks, before: Workspace, calls: seq<ToolCall>, after: Workspace) {
    forall file ::
      match LastWrite(env, cbs, calls, file)
      case Some(content) => file in after && after[file] == content
      case None => (file in after <==> file in before) && (file in before ==> after[file] == before[file])
  }

  lemma {:induction false} PerformedFiles(env: Env, cbs: Callbacks, files: Workspace, calls: seq<ToolCall>)
    ensures FilesAfter(env, cbs, files, calls, Performed(env, cbs, files, calls).0)
    decreases |calls|
  {
    hide Written, Perform;
    if calls != [] {
      var init, last := calls[..|calls| - 1], calls[|calls| - 1];
      PerformedFiles(env, cbs, files, init);
      PerformWrites(env, cbs, Performed(env, cbs, files, init).0, last);
    }
  }

  /** After any transcript every file holds what was last written to it by the calls that ran, and is as
      before where none of them wrote. The calls that ran are the first of those the model made: with
      both tool callbacks set, those reported as finished; when the loop answered, all of them; and at
      the limit, those of the replies up to it. */
  lemma LoopFiles(env: Env, cbs: Callbacks, accepts: seq<Event> -> bool, url: string, model: string,
                  systemPrompt: string, envelope: string, files: Workspace, replies: seq<Reply>, maxIter: int)
    ensures var st := Start(systemPrompt, envelope, files);
            var (s, outcome) := RunLoop(env, cbs, accepts, url, model, st, replies, maxIter);
            var given, limit := Leading(replies), if maxIter <= 0 then 3 else maxIter;
            && (exists n | 0 <= n <= |AllCalls(given)| ::
                  && FilesAfter(env, cbs, files, AllCalls(given)[..n], s.workspace)
                  && (cbs.onToolCall && cbs.onToolResult ==> n == |ToolEvents(s.log)| / 2))
            && (outcome.Final? ==> FilesAfter(env, cbs, files, AllCalls(given), s.workspace))
            && (outcome.LimitReached? ==>
                  limit <= |given| && FilesAfter(env, cbs, files, AllCalls(given[..limit]), s.workspace))
  {
    hide RunLoop, Performed, CallEvents, RequestsAre, FilesAfter, ToolEvents, Requests, Leading, AllCalls, LastSaid;
    hide ClosingEvents, Said, Start;
    TranscriptShape(env, cbs, accepts, url, model, systemPrompt, envelope, files, replies, maxIter);
    var st := Start(systemPrompt, envelope, files);
    var (s, outcome) := RunLoop(env, cbs, accepts, url, model, st, replies, maxIter);
    var given, limit := Leading(replies), if maxIter <= 0 then 3 else maxIter;
    var calls := AllCalls(given);
    var n :| 0 <= n <= |calls| && s.workspace == Performed(env, cbs, files, calls[..n]).0
             && (cbs.onToolCall && cbs.onToolResult ==> n == |ToolEvents(s.log)| / 2);
    PerformedFiles(env, cbs, files, calls[..n]);
    PerformedFiles(env, cbs, files, calls);
    if outcome.LimitReached? {
      PerformedFiles(env, cbs, files, AllCalls(given[..limit]));
    }
  }
}
