/** What each call is answered and what it leaves behind, seen from the one door all calls go through. */
module ToolReplies {
  import opened Basics
  import opened Diffing
  import opened AgentTools

  function Failed(name: string): Reply {
    Reply(ToolFailed(name), true)
  }

  predicate Has(call: ToolCall, keys: seq<string>) {
    forall k | 0 <= k < |keys| :: keys[k] in call.input
  }

  lemma {:induction false} HasMeansNoneMissing(call: ToolCall, keys: seq<string>)
    ensures FirstMissing(call, keys).None? <==> Has(call, keys)
    ensures FirstMissing(call, keys).Some? ==>
              exists k :: 0 <= k < |keys| && keys[k] == FirstMissing(call, keys).value && keys[k] !in call.input
                          && Has(call, keys[..k])
    decreases |keys|
  {
    if keys != [] && keys[0] in call.input {
      HasMeansNoneMissing(call, keys[1..]);
      assert forall k | 0 < k < |keys| :: keys[1..][k - 1] == keys[k];
      if FirstMissing(call, keys).Some? {
        var k :| 0 <= k < |keys[1..]| && keys[1..][k] == FirstMissing(call, keys).value && keys[1..][k] !in call.input
                 && Has(call, keys[1..][..k]);
        assert keys[k + 1] == keys[1..][k];
        assert keys[..k + 1] == [keys[0]] + keys[1..][..k];
      }
    } else if keys != [] {
      assert Has(call, keys[..0]);
    }
  }

  /** A call that lacks an argument does nothing; the first it lacks is named. */
  lemma LacksAnswer(env: Env, ctx: Ctx, call: ToolCall)
    requires !Has(call, Required(call.name))
    ensures var (ctx', reply) := Dispatch(env, ctx, call);
            && ctx' == ctx && reply.isError && reply.note.MissingArgument? && reply.note.name == call.name
            && exists k :: 0 <= k < |Required(call.name)| && Required(call.name)[k] == reply.note.key
                           && reply.note.key !in call.input && Has(call, Required(call.name)[..k])
  {
    HasMeansNoneMissing(call, Required(call.name));
  }

  lemma Arguments()
    ensures Required("read_file") == ["path"] && Required("get_schema") == ["source"]
    ensures Required("edit_file") == ["path", "old_string", "new_string"] && Required("run_sandbox") == []
    ensures forall name :: name !in {"read_file", "get_schema", "edit_file"} ==> Required(name) == []
  {
  }

  /** A file that can be read is loaded, unless it was before, and shown as it is in the checkout. */
  lemma ReadAnswer(env: Env, ctx: Ctx, call: ToolCall)
    requires call.name == "read_file" && "path" in call.input
    ensures var (path, (ctx', reply)) := (call.input["path"], Dispatch(env, ctx, call));
            match env.source(path)
            case Found(text) =>
              && reply == Reply(FileText(path, text), false)
              && ctx' == ctx.(copy := ctx'.copy) && path in ctx'.copy.files
              && (path in ctx.copy.files ==> ctx' == ctx)
              && (path !in ctx.copy.files ==>
                    && ctx'.copy.order == ctx.copy.order + [path]
                    && ctx'.copy.files == ctx.copy.files[path := FileState(text, text)])
            case _ => ctx' == ctx && reply == Failed("read_file")
  {
    assert "path" in Required(call.name);
    HasMeansNoneMissing(call, Required(call.name));
  }

  /** The columns of the source as the warehouse describes them now. */
  lemma SchemaAnswer(env: Env, ctx: Ctx, call: ToolCall)
    requires call.name == "get_schema" && "source" in call.input
    ensures var (source, (ctx', reply)) := (call.input["source"], Dispatch(env, ctx, call));
            && ctx' == ctx
            && (env.warehouse.None? ==> reply == Reply(NoWarehouse, true))
            && (env.warehouse.Some? ==>
                  forall columns :: env.warehouse.value(source) == Some(columns) <==> reply == Reply(Described(source, columns), false))
            && (env.warehouse.Some? && env.warehouse.value(source).None? ==> reply == Failed("get_schema"))
  {
    assert "source" in Required(call.name);
    HasMeansNoneMissing(call, Required(call.name));
  }

  /** The model a call names, if it names one, and otherwise the job's; the empty name is none. */
  predicate Selects(env: Env, call: ToolCall, model: string) {
    if "select" in call.input && call.input["select"] != "" then model == call.input["select"]
    else if env.modelSelect.Some? then model == env.modelSelect.value
    else model == ""
  }

  lemma SomeChange(c: Dict)
    ensures ChangedPaths(c) == [] <==> forall p | p in c.files :: !Changed(c.files[p])
  {
    SomeChangeIn(c.order, c.files);
  }

  lemma {:induction false} SomeChangeIn(order: seq<string>, files: map<string, FileState>)
    requires forall p | p in order :: p in files
    ensures ChangedIn(order, files) == [] <==> forall p | p in order :: !Changed(files[p])
    decreases |order|
  {
    if order != [] {
      SomeChangeIn(order[1..], files);
      assert forall p :: p in order <==> p == order[0] || p in order[1..];
    }
  }

  /**
   The sandbox is run once, on the changed files as they are and on the selected model, if there is a
   sandbox, a change and a model; its answer is kept with the diff it was made on, and shown.
   */
  lemma SandboxAnswer(env: Env, ctx: Ctx, call: ToolCall, model: string)
    requires call.name == "run_sandbox" && Selects(env, call, model)
    ensures var (ctx', reply) := Dispatch(env, ctx, call);
            var changed := exists p :: p in ctx.copy.files && Changed(ctx.copy.files[p]);
            if env.sandbox.None? then ctx' == ctx && reply == Reply(NoSandbox, false)
            else if !changed then ctx' == ctx && reply == Reply(NothingToVerify, true)
            else if model == "" then ctx' == ctx && reply == Reply(NoModel, true)
            else
              var run := env.sandbox.value(|ctx.checks|, Contents(ctx.copy), model);
              && ctx'.copy == ctx.copy && ctx'.checks == ctx.checks + [Check(ctx.copy, model, run)]
              && (run.Some? ==>
                    && ctx'.lastRun == run && ctx'.lastDiff == FullDiff(env.differ, ctx.copy)
                    && reply == Reply(Verified(run.value), false))
              && (run.None? ==>
                    ctx'.lastRun == ctx.lastRun && ctx'.lastDiff == ctx.lastDiff && reply == Failed("run_sandbox"))
  {
    SomeChange(ctx.copy);
    HasMeansNoneMissing(call, Required(call.name));
    assert Chosen(Arg(call, "select"), env.modelSelect) == model;
    hide FullDiff, Contents, ChangedPaths, Changed;
  }

  /** What the sandbox is given is the current text of every changed file, and nothing else. */
  lemma ContentsAre(c: Dict, path: string, text: string)
    ensures path in Contents(c) && Contents(c)[path] == text <==>
              path in c.files && c.files[path].current == text && c.files[path].original != text
  {
  }

  /** A tool that does not exist is an error, and nothing else happens. */
  lemma UnknownAnswer(env: Env, ctx: Ctx, call: ToolCall)
    requires call.name !in {"read_file", "get_schema", "edit_file", "run_sandbox"}
    ensures Dispatch(env, ctx, call) == (ctx, Reply(UnknownTool(call.name), true))
  {
    Arguments();
    HasMeansNoneMissing(call, Required(call.name));
  }
}
