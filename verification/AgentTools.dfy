/** The agent's tools: what each call does to the working copy, and what every sequence of calls keeps. */
module AgentTools {
  import opened Basics
  import opened Text
  import opened Diffing
  import opened WorkingCopy

  /** Reading a source file: its text, a refused or missing path, or another failure. */
  datatype Read = Found(content: string) | Missing | Broken

  datatype Tier = Tier(ran: bool, passed: Option<bool>, log: string)

  datatype Run = Run(tier1: Tier, tier2: Tier, select: string) {
    /** `bool(run.tier1.passed)` */
    predicate Compiled() { tier1.passed == Some(true) }
  }

  /** The n-th verification of the given changed files and model; none when the runner raises. */
  type Sandbox = (nat, map<string, string>, string) -> Option<Run>

  /** What a job's tools share and never change. */
  datatype Env = Env(
    source: string -> Read,
    warehouse: Option<string -> Option<string>>,
    sandbox: Option<Sandbox>,
    differ: Differ,
    maxLines: nat,
    allowed: set<string>,
    modelSelect: Option<string>)

  type Dict = c: Copy | DictOk(c) witness EMPTY

  /** One sandbox run: the working copy it was given, the model, and how it ended. */
  datatype Check = Check(copy: Dict, select: string, outcome: Option<Run>)

  /** The state the tools mutate. `checks` lists every sandbox run so far. */
  datatype Ctx = Ctx(copy: Dict, lastRun: Option<Run>, lastDiff: string, checks: seq<Check>)

  const FRESH: Ctx := Ctx(EMPTY, None, "", [])

  datatype Rejection = OutOfScope | NoChange | TooLarge(lines: nat) | WhitespaceOnly

  datatype Note =
    | FileText(path: string, content: string)
    | NoWarehouse
    | Described(source: string, columns: string)
    | CannotEdit(path: string)
    | EditRejected(edit: Edit)
    | GuardRejected(reason: Rejection)
    | EditApplied(path: string)
    | NoSandbox
    | NothingToVerify
    | NoModel
    | Verified(run: Run)
    | UnknownTool(name: string)
    | MissingArgument(key: string, name: string)
    | ToolFailed(name: string)

  /** What the model is told, and whether it is an error. */
  datatype Reply = Reply(note: Note, isError: bool)

  datatype ToolCall = ToolCall(id: string, name: string, input: map<string, string>)

  function Arg(call: ToolCall, key: string): Option<string> {
    if key in call.input then Some(call.input[key]) else None
  }

  // --- the working copy as a value ---

  lemma LoadOk(c: Copy, path: string, content: string)
    requires DictOk(c)
    ensures DictOk(Diffing.Load(c, path, content))
  {
    if path !in c.files {
      var order := c.order + [path];
      assert forall p :: p in order <==> p in c.order || p == path;
    }
  }

  lemma SetCurrentOk(c: Copy, path: string, content: string)
    requires DictOk(c) && path in c.files
    ensures DictOk(Diffing.SetCurrent(c, path, content))
  {
  }

  function Loaded(c: Dict, path: string, content: string): (c': Dict)
    ensures path in c'.files
  {
    LoadOk(c, path, content);
    Diffing.Load(c, path, content)
  }

  function WithCurrent(c: Dict, path: string, content: string): Dict
    requires path in c.files
  {
    SetCurrentOk(c, path, content);
    Diffing.SetCurrent(c, path, content)
  }

  // --- the diff guard ---

  /** Why the guard refuses a file's edit; none when it passes. */
  function Guard(env: Env, path: string, st: FileState): Option<Rejection> {
    if env.allowed != {} && path !in env.allowed then Some(OutOfScope)
    else
      var diff := FileDiff(env.differ, path, st);
      if diff == "" then Some(NoChange)
      else
        var n := ChangedLines(diff);
        if n > env.maxLines then Some(TooLarge(n))
        else if WithoutSpace(st.original) == WithoutSpace(st.current) then Some(WhitespaceOnly)
        else None
  }

  // --- each tool; no reply when it raises ---

  function ReadFile(env: Env, ctx: Ctx, path: string): (Ctx, Option<Reply>) {
    match env.source(path)
    case Found(s) => (ctx.(copy := Loaded(ctx.copy, path, s)), Some(Reply(FileText(path, s), false)))
    case _ => (ctx, None)
  }

  function GetSchema(env: Env, source: string): Option<Reply> {
    match env.warehouse
    case None => Some(Reply(NoWarehouse, true))
    case Some(describe) =>
      match describe(source)
      case None => None
      case Some(columns) => Some(Reply(Described(source, columns), false))
  }

  function Edited(env: Env, ctx: Ctx, path: string, old_: string, new_: string): (Ctx, Reply)
    requires path in ctx.copy.files
  {
    var (edit, text) := Replaced(ctx.copy.files[path].current, old_, new_);
    if !edit.Applied? then (ctx, Reply(EditRejected(edit), true))
    else
      var copy := WithCurrent(ctx.copy, path, text);
      match Guard(env, path, copy.files[path])
      case Some(reason) => (ctx, Reply(GuardRejected(reason), true))
      case None => (ctx.(copy := copy), Reply(EditApplied(path), false))
  }

  function EditFile(env: Env, ctx: Ctx, path: string, old_: string, new_: string): (Ctx, Option<Reply>) {
    if path in ctx.copy.files then
      var (ctx', reply) := Edited(env, ctx, path, old_, new_); (ctx', Some(reply))
    else
      match env.source(path)
      case Found(s) =>
        var (ctx', reply) := Edited(env, ctx.(copy := Loaded(ctx.copy, path, s)), path, old_, new_);
        (ctx', Some(reply))
      case Missing => (ctx, Some(Reply(CannotEdit(path), true)))
      case Broken => (ctx, None)
  }

  function VerifyCurrent(env: Env, ctx: Ctx, select: string): (Ctx, Option<Run>)
    requires env.sandbox.Some?
  {
    var outcome := env.sandbox.value(|ctx.checks|, Contents(ctx.copy), select);
    var checks := ctx.checks + [Check(ctx.copy, select, outcome)];
    if outcome.None? then (ctx.(checks := checks), None)
    else (Ctx(ctx.copy, outcome, FullDiff(env.differ, ctx.copy), checks), outcome)
  }

  /** `select or self.model_select`; an empty name counts as none. */
  function Chosen(select: Option<string>, default: Option<string>): string {
    if select.GetOr("") != "" then select.value else default.GetOr("")
  }

  function RunSandbox(env: Env, ctx: Ctx, select: Option<string>): (Ctx, Option<Reply>) {
    if env.sandbox.None? then (ctx, Some(Reply(NoSandbox, false)))
    else if ChangedPaths(ctx.copy) == [] then (ctx, Some(Reply(NothingToVerify, true)))
    else if Chosen(select, env.modelSelect) == "" then (ctx, Some(Reply(NoModel, true)))
    else
      match VerifyCurrent(env, ctx, Chosen(select, env.modelSelect))
      case (ctx', Some(run)) => (ctx', Some(Reply(Verified(run), false)))
      case (ctx', None) => (ctx', None)
  }

  /** The first of the required arguments that a call lacks. */
  function FirstMissing(call: ToolCall, keys: seq<string>): Option<string> {
    if keys == [] then None
    else if keys[0] !in call.input then Some(keys[0])
    else FirstMissing(call, keys[1..])
  }

  lemma {:induction false} NothingMissing(call: ToolCall, keys: seq<string>)
    requires FirstMissing(call, keys).None?
    ensures forall k | k in keys :: k in call.input
  {
    if keys != [] { NothingMissing(call, keys[1..]); }
  }

  function Required(name: string): seq<string> {
    if name == "read_file" then ["path"]
    else if name == "get_schema" then ["source"]
    else if name == "edit_file" then ["path", "old_string", "new_string"]
    else []
  }

  /** The tool a call names, on a call that has its arguments. */
  function Perform(env: Env, ctx: Ctx, call: ToolCall): (Ctx, Option<Reply>)
    requires forall k | k in Required(call.name) :: k in call.input
  {
    if call.name == "read_file" then assert "path" in Required(call.name); ReadFile(env, ctx, call.input["path"])
    else if call.name == "get_schema" then
      assert "source" in Required(call.name); (ctx, GetSchema(env, call.input["source"]))
    else if call.name == "edit_file" then
      assert "path" in Required(call.name) && "old_string" in Required(call.name) && "new_string" in Required(call.name);
      EditFile(env, ctx, call.input["path"], call.input["old_string"], call.input["new_string"])
    else if call.name == "run_sandbox" then RunSandbox(env, ctx, Arg(call, "select"))
    else (ctx, Some(Reply(UnknownTool(call.name), true)))
  }

  /** `dispatch`: it never raises. */
  function Dispatch(env: Env, ctx: Ctx, call: ToolCall): (Ctx, Reply) {
    match FirstMissing(call, Required(call.name))
    case Some(key) => (ctx, Reply(MissingArgument(key, call.name), true))
    case None =>
      NothingMissing(call, Required(call.name));
      match Perform(env, ctx, call)
      case (ctx', Some(reply)) => (ctx', reply)
      case (ctx', None) => (ctx', Reply(ToolFailed(call.name), true))
  }

  function After(env: Env, ctx: Ctx, calls: seq<ToolCall>): Ctx
    decreases |calls|
  {
    if calls == [] then ctx else After(env, Dispatch(env, ctx, calls[0]).0, calls[1..])
  }
}
