/** The tools as they run: methods on the context that a whole repair shares. */
module ToolContext {
  import opened Basics
  import opened Diffing
  import opened WorkingCopy
  import opened AgentTools

  class AgentContext {
    const env: Env
    const working: WorkingFiles
    var lastRun: Option<Run>
    var lastDiff: string
    var checks: seq<Check>

    ghost predicate Valid()
      reads this, working
    {
      DictOk(working.Model())
    }

    ghost function Model(): Ctx
      reads this, working
      requires Valid()
    {
      Ctx(working.Model(), lastRun, lastDiff, checks)
    }

    constructor (env: Env)
      ensures Valid() && Model() == FRESH && this.env == env && fresh(working)
    {
      this.env := env;
      working := new WorkingFiles();
      lastRun, lastDiff, checks := None, "", [];
    }

    method ReadFile(path: string) returns (reply: Option<Reply>)
      requires Valid()
      modifies this, working
      ensures Valid() && (Model(), reply) == AgentTools.ReadFile(env, old(Model()), path)
    {
      match env.source(path) {
        case Found(s) =>
          LoadOk(working.Model(), path, s);
          working.Load(path, s);
          reply := Some(Reply(FileText(path, s), false));
        case _ =>
          reply := None;
      }
    }

    /** Applies, guards, and puts the previous text back when the guard refuses. */
    method ApplyGuarded(path: string, old_: string, new_: string) returns (reply: Reply)
      requires Valid() && path in working.files
      modifies this, working
      ensures Valid() && (Model(), reply) == Edited(env, old(Model()), path, old_, new_)
    {
      var prev := working.files[path].current;
      ghost var before := working.files;
      var edit := working.ApplyReplace(path, old_, new_);
      SetCurrentOk(old(working.Model()), path, working.files[path].current);
      if !edit.Applied? { return Reply(EditRejected(edit), true); }
      var refusal := Guard(env, path, working.files[path]);
      if refusal.Some? {
        working.SetCurrent(path, prev);
        assert working.files == before;
        return Reply(GuardRejected(refusal.value), true);
      }
      reply := Reply(EditApplied(path), false);
    }

    method EditFile(path: string, old_: string, new_: string) returns (reply: Option<Reply>)
      requires Valid()
      modifies this, working
      ensures Valid() && (Model(), reply) == AgentTools.EditFile(env, old(Model()), path, old_, new_)
    {
      if path !in working.files {
        match env.source(path) {
          case Found(s) =>
            LoadOk(working.Model(), path, s);
            working.Load(path, s);
          case Missing => return Some(Reply(CannotEdit(path), true));
          case Broken => return None;
        }
      }
      var r := ApplyGuarded(path, old_, new_);
      reply := Some(r);
    }

    /** Runs the sandbox on the current copy and caches what it said, with the diff it was said of. */
    method VerifyCurrent(select: string) returns (run: Option<Run>)
      requires Valid() && env.sandbox.Some?
      modifies this
      ensures Valid() && (Model(), run) == AgentTools.VerifyCurrent(env, old(Model()), select)
    {
      run := env.sandbox.value(|checks|, Contents(working.Model()), select);
      checks := checks + [Check(working.Model(), select, run)];
      if run.Some? {
        lastRun := run;
        lastDiff := FullDiff(env.differ, working.Model());
      }
    }

    method RunSandbox(select: Option<string>) returns (reply: Option<Reply>)
      requires Valid()
      modifies this
      ensures Valid() && (Model(), reply) == AgentTools.RunSandbox(env, old(Model()), select)
    {
      if env.sandbox.None? { return Some(Reply(NoSandbox, false)); }
      if ChangedPaths(working.Model()) == [] { return Some(Reply(NothingToVerify, true)); }
      var model := Chosen(select, env.modelSelect);
      if model == "" { return Some(Reply(NoModel, true)); }
      var run := VerifyCurrent(model);
      reply := if run.Some? then Some(Reply(Verified(run.value), false)) else None;
    }

    method Dispatch(call: ToolCall) returns (reply: Reply)
      requires Valid()
      modifies this, working
      ensures Valid() && (Model(), reply) == AgentTools.Dispatch(env, old(Model()), call)
    {
      var lacks := FirstMissing(call, Required(call.name));
      if lacks.Some? { return Reply(MissingArgument(lacks.value, call.name), true); }
      NothingMissing(call, Required(call.name));
      var r: Option<Reply>;
      if call.name == "read_file" {
        assert "path" in Required(call.name);
        r := ReadFile(call.input["path"]);
      } else if call.name == "get_schema" {
        assert "source" in Required(call.name);
        r := GetSchema(env, call.input["source"]);
      } else if call.name == "edit_file" {
        assert "path" in Required(call.name) && "old_string" in Required(call.name) && "new_string" in Required(call.name);
        r := EditFile(call.input["path"], call.input["old_string"], call.input["new_string"]);
      } else if call.name == "run_sandbox" {
        r := RunSandbox(Arg(call, "select"));
      } else {
        r := Some(Reply(UnknownTool(call.name), true));
      }
      reply := if r.Some? then r.value else Reply(ToolFailed(call.name), true);
    }
  }
}
