/** The files the installer reads and writes, as values: atomic writes replace a whole body. */
module AgyFiles {
  import opened JsonValues
  import opened Options

  datatype Body = NoFile | EmptyText | BlankText | Malformed | Doc(value: Json)

  /** A managed path is a symbolic link (someone else's file) or a plain path, with or without a file. */
  datatype Target = Link | Plain(body: Body)

  /** All managed files by absolute path, and the install-state file. */
  datatype World = World(files: map<string, Target>, state: Body)

  function At(w: World, path: string): Target {
    if path in w.files then w.files[path] else Plain(NoFile)
  }

  /** `_load_config`: None is its exit 4. */
  function Load(b: Body): Option<map<string, Json>> {
    match b
    case EmptyText => Some(map[])
    case BlankText => Some(map[])
    case Doc(Obj(m)) => Some(m)
    case _ => None
  }

  /** `_load_config(path) if exists else {}` */
  function LoadOrEmpty(b: Body): Option<map<string, Json>> {
    if b.NoFile? then Some(map[]) else Load(b)
  }

  function Write(w: World, path: string, b: Body): World {
    w.(files := w.files[path := Plain(b)])
  }

  /** `_prior_state`: None is a refusal, an empty map is "no earlier install of this path". */
  function PriorState(state: Body, key: string, path: string): Option<map<string, Json>> {
    if state.NoFile? then Some(map[])
    else match Load(state)
      case None => None
      case Some(m) => Some(if Member(m, key) == Some(Str(path)) then m else map[])
  }

  const OK := 0
  const NO_STATE := 2
  const REFUSE_SYMLINK := 3
  const INVALID_JSON := 4

  /** A file that holds a JSON object. */
  predicate Readable(t: Target) { t.Plain? && t.body.Doc? && t.body.value.Obj? }

  // ---------------------------------------------------------------- files and records by what they hold

  predicate Has(m: map<string, Json>, key: string, value: Json) { key in m && m[key] == value }

  /** No file, nothing in it, or a JSON object. */
  predicate SoundText(body: Body) {
    body.NoFile? || body.EmptyText? || body.BlankText? || (body.Doc? && body.value.Obj?)
  }

  /** The object a file that can be read holds; nothing where there is nothing in it. */
  function Members(body: Body): map<string, Json> {
    if body.Doc? && body.value.Obj? then body.value.members else map[]
  }

  // ---------------------------------------------------------------- a command and its two writes

  /** Both writes of a command, decided before either happens, or the exit code of a refusal. */
  datatype Plan = Refuse(code: int) | Writes(path: string, content: Body, state: Body)

  function ExitCode(plan: Plan): int {
    if plan.Refuse? then plan.code else OK
  }

  function Complete(w: World, plan: Plan): World {
    match plan
    case Refuse(_) => w
    case Writes(path, content, state) => Write(w, path, content).(state := state)
  }

  /** A run cut between its two writes: the managed file is written, the state is not. */
  function CutShort(w: World, plan: Plan): World {
    match plan
    case Refuse(_) => w
    case Writes(path, content, _) => Write(w, path, content)
  }
}
