/** `install` and `uninstall` of the one server entry, with the preimage of its key as the ownership record. */
module AgyServer {
  import opened JsonValues
  import opened Options
  import opened AgyFiles

  const SERVER_KEY := "entwurf-bridge"
  const PATH_KEY := "managedConfigPath"
  const CREATED_NEW := Str("created-new")

  /** `mcpServers` as install finds it: None when present but no object. */
  function Servers(data: map<string, Json>): Option<map<string, Json>> {
    match Get(data, "mcpServers", Null)
    case Null => Some(map[])
    case Obj(m) => Some(m)
    case _ => None
  }

  function Entry(command: string): Json { Obj(map["command" := Str(command), "args" := Arr([])]) }

  datatype Preimage = Preimage(key: Json, detectMode: Json, configExisted: Json)

  /** The preimage is captured by the first install and carried by every later one. */
  function Decided(prior: map<string, Json>, existed: bool, servers: map<string, Json>): Preimage {
    var mode := if existed then Str("adopt-regular-file") else CREATED_NEW;
    if prior == map[] then Preimage(Get(servers, SERVER_KEY, Null), mode, Bool(existed))
    else Preimage(Get(prior, "preimage", Null), Get(prior, "detectMode", mode),
                  Get(prior, "configExistedBefore", Bool(existed)))
  }

  function StateDoc(path: string, command: string, p: Preimage, now: string): map<string, Json> {
    map["schemaVersion" := Num(1.0), PATH_KEY := Str(path), "serverKey" := Str(SERVER_KEY), "command" := Str(command),
        "detectMode" := p.detectMode, "configExistedBefore" := p.configExisted, "preimage" := p.key,
        "installedAt" := Str(now)]
  }

  function InstallPlan(w: World, path: string, command: string, now: string): Plan {
    if At(w, path).Link? then Refuse(REFUSE_SYMLINK)
    else
      var body := At(w, path).body;
      var data := LoadOrEmpty(body);
      if data.None? || Servers(data.value).None? then Refuse(INVALID_JSON)
      else
        var servers := Servers(data.value).value;
        match PriorState(w.state, PATH_KEY, path)
        case None => Refuse(INVALID_JSON)
        case Some(prior) =>
          Writes(path, Doc(Obj(Registered(data.value, servers, command))),
                 Doc(Obj(StateDoc(path, command, Decided(prior, !body.NoFile?, servers), now))))
  }

  function Registered(data: map<string, Json>, servers: map<string, Json>, command: string): map<string, Json> {
    data["mcpServers" := Obj(servers[SERVER_KEY := Entry(command)])]
  }

  /** The whole file was ours: we created it. */
  predicate OurFile(state: map<string, Json>) {
    Get(state, "detectMode", Null) == CREATED_NEW && Get(state, "configExistedBefore", Null) == Bool(false)
  }

  function PutBack(servers: map<string, Json>, preimage: Json): map<string, Json> {
    if preimage.Null? then servers - {SERVER_KEY} else servers[SERVER_KEY := preimage]
  }

  function Cleared(body: Body, state: map<string, Json>): Option<Body> {
    if body.NoFile? then Some(NoFile)
    else match Load(body)
      case None => None
      case Some(data) =>
        if !Get(data, "mcpServers", Null).Obj? then Some(body)
        else
          var servers := PutBack(data["mcpServers"].members, Get(state, "preimage", Null));
          var left := data["mcpServers" := Obj(servers)];
          Some(if OurFile(state) && servers == map[] && left.Keys == {"mcpServers"} then NoFile else Doc(Obj(left)))
  }

  function UninstallPlan(w: World): Plan {
    if w.state.NoFile? then Refuse(NO_STATE)
    else match Load(w.state)
      case None => Refuse(INVALID_JSON)
      case Some(state) =>
        var path := Get(state, PATH_KEY, Null);
        if !path.Str? then Refuse(INVALID_JSON)
        else if At(w, path.text).Link? then Refuse(REFUSE_SYMLINK)
        else match Cleared(At(w, path.text).body, state)
          case None => Refuse(INVALID_JSON)
          case Some(body) => Writes(path.text, body, NoFile)
  }

  function Install(w: World, path: string, command: string, now: string): World {
    Complete(w, InstallPlan(w, path, command, now))
  }

  function Uninstall(w: World): World { Complete(w, UninstallPlan(w)) }

  // ---------------------------------------------------------------- the preimage comes back

  lemma KeysDiffer()
    ensures |"schemaVersion"| == 13 && |PATH_KEY| == 17 && |"serverKey"| == 9 && |"command"| == 7
    ensures |"detectMode"| == 10 && |"configExistedBefore"| == 19 && |"preimage"| == 8 && |"installedAt"| == 11
  {
  }

  predicate Records(state: map<string, Json>, path: string, p: Preimage) {
    && Member(state, PATH_KEY) == Some(Str(path)) && Member(state, "preimage") == Some(p.key)
    && Member(state, "detectMode") == Some(p.detectMode)
    && Member(state, "configExistedBefore") == Some(p.configExisted)
  }

  lemma StateDocRecords(path: string, command: string, p: Preimage, now: string)
    ensures Records(StateDoc(path, command, p, now), path, p) && StateDoc(path, command, p, now) != map[]
  {
    KeysDiffer();
    assert PATH_KEY in StateDoc(path, command, p, now);
  }

  /** `w` is `before` with the entry registered in `data` at `path`, under the first install's record `p`. */
  predicate RegisteredIn(w: World, before: World, path: string, data: map<string, Json>, servers: map<string, Json>,
                         p: Preimage)
  {
    && w.files == before.files[path := At(w, path)]
    && Readable(At(w, path)) && Recorded(w.state)
    && var now := At(w, path).body.value.members;
    && Get(now, "mcpServers", Null).Obj? && SERVER_KEY in now["mcpServers"].members
    && now["mcpServers"].members - {SERVER_KEY} == servers - {SERVER_KEY}
    && now - {"mcpServers"} == data - {"mcpServers"}
    && Records(w.state.value.members, path, p)
  }

  predicate Recorded(b: Body) { b.Doc? && b.value.Obj? }

  lemma FirstRegisters(w: World, path: string, command: string, now: string)
    requires PriorState(w.state, PATH_KEY, path) == Some(map[]) && InstallPlan(w, path, command, now).Writes?
    ensures var body := At(w, path).body;
      var data := LoadOrEmpty(body).value;
      var servers := Servers(data).value;
      RegisteredIn(Install(w, path, command, now), w, path, data, servers, Decided(map[], !body.NoFile?, servers))
  {
    hide StateDoc;
    var body := At(w, path).body;
    var data := LoadOrEmpty(body).value;
    var servers := Servers(data).value;
    StateDocRecords(path, command, Decided(map[], !body.NoFile?, servers), now);
    assert servers[SERVER_KEY := Entry(command)] - {SERVER_KEY} == servers - {SERVER_KEY};
    assert Registered(data, servers, command) - {"mcpServers"} == data - {"mcpServers"};
  }

  lemma LaterRegisters(w: World, before: World, path: string, data: map<string, Json>, servers: map<string, Json>,
                       p: Preimage, command: string, now: string)
    requires RegisteredIn(w, before, path, data, servers, p)
    ensures RegisteredIn(Install(w, path, command, now), before, path, data, servers, p)
  {
    hide StateDoc, Entry;
    var state, held := w.state.value.members, At(w, path).body.value.members;
    var prior := PriorState(w.state, PATH_KEY, path);
    assert PATH_KEY in state && prior == Some(state) && state != map[];
    var there := held["mcpServers"].members;
    StateDocRecords(path, command, p, now);
    assert Decided(state, true, there) == p;
    assert there[SERVER_KEY := Entry(command)] - {SERVER_KEY} == there - {SERVER_KEY};
    assert Registered(held, there, command) - {"mcpServers"} == held - {"mcpServers"};
    assert before.files[path := At(w, path)][path := Plain(Doc(Obj(Registered(held, there, command))))]
        == before.files[path := Plain(Doc(Obj(Registered(held, there, command))))];
  }

  datatype Run = Run(command: string, now: string)

  function InstallAll(w: World, path: string, runs: seq<Run>): World
    decreases |runs|
  {
    if runs == [] then w else InstallAll(Install(w, path, runs[0].command, runs[0].now), path, runs[1..])
  }

  lemma {:induction false} RunsRegister(w: World, before: World, path: string, data: map<string, Json>,
                                        servers: map<string, Json>, p: Preimage, runs: seq<Run>)
    requires RegisteredIn(w, before, path, data, servers, p)
    ensures RegisteredIn(InstallAll(w, path, runs), before, path, data, servers, p)
    decreases |runs|
  {
    hide RegisteredIn, Install;
    if runs != [] {
      LaterRegisters(w, before, path, data, servers, p, runs[0].command, runs[0].now);
      RunsRegister(Install(w, path, runs[0].command, runs[0].now), before, path, data, servers, p, runs[1..]);
    }
  }

  /** The config as uninstall gives it back. */
  function Restored(body: Body): Body {
    if body.NoFile? || Load(body).None? || Servers(Load(body).value).None? then body
    else
      var data := Load(body).value;
      var servers := Servers(data).value;
      Doc(Obj(data["mcpServers" := Obj(PutBack(servers, Get(servers, SERVER_KEY, Null)))]))
  }

  lemma PutBackCancels(there: map<string, Json>, servers: map<string, Json>, preimage: Json)
    requires there - {SERVER_KEY} == servers - {SERVER_KEY}
    ensures PutBack(there, preimage) == PutBack(servers, preimage)
  {
    forall key | key != SERVER_KEY
      ensures key in there <==> key in servers
      ensures key in there ==> there[key] == servers[key]
    {
      assert key in there - {SERVER_KEY} <==> key in there;
      assert key in servers - {SERVER_KEY} <==> key in servers;
      if key in there {
        assert (there - {SERVER_KEY})[key] == (servers - {SERVER_KEY})[key];
      }
    }
  }

  lemma SameElsewhere(held: map<string, Json>, data: map<string, Json>, servers: Json)
    requires held - {"mcpServers"} == data - {"mcpServers"}
    ensures held["mcpServers" := servers] == data["mcpServers" := servers]
  {
    assert held["mcpServers" := servers] == (held - {"mcpServers"})["mcpServers" := servers];
    assert data["mcpServers" := servers] == (data - {"mcpServers"})["mcpServers" := servers];
  }

  lemma RegisteredRestores(w: World, before: World, path: string, data: map<string, Json>, servers: map<string, Json>,
                           p: Preimage)
    requires RegisteredIn(w, before, path, data, servers, p) && At(before, path).Plain?
    requires LoadOrEmpty(At(before, path).body) == Some(data) && Servers(data) == Some(servers)
    requires p == Decided(map[], !At(before, path).body.NoFile?, servers)
    ensures Uninstall(w) == Write(before, path, Restored(At(before, path).body)).(state := NoFile)
  {
    var state, held := w.state.value.members, At(w, path).body.value.members;
    var body := At(before, path).body;
    PutBackCancels(held["mcpServers"].members, servers, p.key);
    var back := PutBack(servers, p.key);
    SameElsewhere(held, data, Obj(back));
    var left := data["mcpServers" := Obj(back)];
    assert "mcpServers" in left;
    if body.NoFile? {
      var empty: map<string, Json> := map[];
      assert data == empty && servers == empty && back == empty;
      assert left.Keys == {"mcpServers"};
    }
    assert before.files[path := At(w, path)][path := Plain(Restored(body))]
        == before.files[path := Plain(Restored(body))];
  }

  /**
   Any positive number of installs, with whatever commands, and one uninstall put the server key back
   to what it was before the first: the file is gone if we created it, and no install-state is left.
   */
  lemma InstallsThenUninstall(w: World, path: string, runs: seq<Run>)
    requires runs != [] && PriorState(w.state, PATH_KEY, path) == Some(map[])
    requires InstallPlan(w, path, runs[0].command, runs[0].now).Writes?
    ensures Uninstall(InstallAll(w, path, runs)) == Write(w, path, Restored(At(w, path).body)).(state := NoFile)
  {
    hide RegisteredIn, Install, Uninstall, Restored, Decided;
    var body := At(w, path).body;
    var data := LoadOrEmpty(body).value;
    var servers := Servers(data).value;
    var p := Decided(map[], !body.NoFile?, servers);
    var w' := Install(w, path, runs[0].command, runs[0].now);
    FirstRegisters(w, path, runs[0].command, runs[0].now);
    RunsRegister(w', w, path, data, servers, p, runs[1..]);
    RegisteredRestores(InstallAll(w', path, runs[1..]), w, path, data, servers, p);
  }

  /** The round trip is exact for a config object precisely when its server table is there and our key is no null. */
  lemma RoundTripExactly(data: map<string, Json>)
    requires Servers(data).Some?
    ensures Restored(Doc(Obj(data))) == Doc(Obj(data))
      <==> Get(data, "mcpServers", Null).Obj? && Member(data["mcpServers"].members, SERVER_KEY) != Some(Null)
  {
    var servers := Servers(data).value;
    var back := PutBack(servers, Get(servers, SERVER_KEY, Null));
    var left := data["mcpServers" := Obj(back)];
    assert left["mcpServers"] == Obj(back);
    if Get(data, "mcpServers", Null).Obj? {
      if Member(servers, SERVER_KEY) == Some(Null) {
        assert SERVER_KEY !in back;
      } else if Member(servers, SERVER_KEY).None? {
        assert back == servers;
        assert left == data;
      } else {
        assert back == servers;
        assert left == data;
      }
    }
  }

  lemma PutBackTwice(servers: map<string, Json>, preimage: Json)
    ensures PutBack(PutBack(servers, preimage), preimage) == PutBack(servers, preimage)
  {
  }

  /** Clearing a config that is cleared already changes nothing. */
  lemma ClearedTwice(body: Body, state: map<string, Json>)
    requires Cleared(body, state).Some?
    ensures Cleared(Cleared(body, state).value, state) == Cleared(body, state)
  {
    if !body.NoFile? && Get(Load(body).value, "mcpServers", Null).Obj? {
      var data := Load(body).value;
      var preimage := Get(state, "preimage", Null);
      PutBackTwice(data["mcpServers"].members, preimage);
      var left := data["mcpServers" := Obj(PutBack(data["mcpServers"].members, preimage))];
      assert left["mcpServers" := left["mcpServers"]] == left;
    }
  }

  /** An uninstall cut after its first write and run again ends where the uninterrupted one would. */
  lemma UninstallRerun(w: World)
    ensures Uninstall(CutShort(w, UninstallPlan(w))) == Uninstall(w)
  {
    hide Cleared;
    var plan := UninstallPlan(w);
    if plan.Writes? {
      ClearedTwice(At(w, plan.path).body, Load(w.state).value);
      assert w.files[plan.path := Plain(plan.content)][plan.path := Plain(plan.content)]
          == w.files[plan.path := Plain(plan.content)];
    }
  }

  /** The server entry a config file holds, if it is a readable one with a server table. */
  function ServerEntry(t: Target): Option<Json> {
    if Readable(t) && Get(t.body.value.members, "mcpServers", Null).Obj?
    then Member(t.body.value.members["mcpServers"].members, SERVER_KEY) else None
  }

  /**
   A first install cut between its two writes overwrites an operator's own entry for good: later
   installs record ours as what was there before, and uninstall puts ours back. What was there before
   the cut comes back exactly when it was our very entry already.
   */
  lemma CutInstallOverwrites(w: World, path: string, command: string, now: string, runs: seq<Run>)
    requires runs != [] && PriorState(w.state, PATH_KEY, path) == Some(map[])
    requires InstallPlan(w, path, command, now).Writes?
    ensures var plan := InstallPlan(w, path, command, now);
      var after := Uninstall(InstallAll(CutShort(w, plan), path, runs));
      && after == Write(w, path, plan.content).(state := NoFile)
      && ServerEntry(At(after, path)) == Some(Entry(command))
      && (At(after, path) == Plain(Restored(At(w, path).body)) <==> ServerEntry(At(w, path)) == Some(Entry(command)))
  {
    hide InstallAll, Uninstall, Entry;
    var body := At(w, path).body;
    var data := LoadOrEmpty(body).value;
    var servers := Servers(data).value;
    var registered := Registered(data, servers, command);
    var plan := InstallPlan(w, path, command, now);
    var cut := CutShort(w, plan);
    assert At(cut, path) == Plain(Doc(Obj(registered)));
    RegisteredIsRestored(data, servers, command);
    InstallsThenUninstall(cut, path, runs);
    assert cut.files[path := Plain(plan.content)] == cut.files;
    RestoredOnlyIfOurs(body, data, servers, command);
  }

  lemma RegisteredIsRestored(data: map<string, Json>, servers: map<string, Json>, command: string)
    ensures Restored(Doc(Obj(Registered(data, servers, command)))) == Doc(Obj(Registered(data, servers, command)))
    ensures Servers(Registered(data, servers, command)).Some?
    ensures ServerEntry(Plain(Doc(Obj(Registered(data, servers, command))))) == Some(Entry(command))
  {
    var ours := servers[SERVER_KEY := Entry(command)];
    assert Registered(data, servers, command)["mcpServers"] == Obj(ours);
    assert PutBack(ours, Entry(command)) == ours;
    assert Registered(data, servers, command)["mcpServers" := Obj(ours)] == Registered(data, servers, command);
  }

  lemma RestoredOnlyIfOurs(body: Body, data: map<string, Json>, servers: map<string, Json>, command: string)
    requires LoadOrEmpty(body) == Some(data) && Servers(data) == Some(servers)
    ensures Doc(Obj(Registered(data, servers, command))) == Restored(body)
      <==> ServerEntry(Plain(body)) == Some(Entry(command))
  {
    var ours, back := servers[SERVER_KEY := Entry(command)], PutBack(servers, Get(servers, SERVER_KEY, Null));
    if !body.NoFile? {
      assert data["mcpServers" := Obj(ours)]["mcpServers"] == Obj(ours);
      assert data["mcpServers" := Obj(back)]["mcpServers"] == Obj(back);
      assert ours[SERVER_KEY] == Entry(command);
      if Member(servers, SERVER_KEY) == Some(Entry(command)) {
        assert ours == servers == back;
      }
    }
  }

  // ---------------------------------------------------------------- one command, by what files and record hold

  /** The server table; empty where there is none. */
  function ServersOf(data: map<string, Json>): map<string, Json> {
    if "mcpServers" in data && data["mcpServers"].Obj? then data["mcpServers"].members else map[]
  }

  /** Config and record are such that an install goes through. */
  predicate Accepts(w: World, path: string) {
    && At(w, path).Plain? && SoundText(At(w, path).body) && SoundText(w.state)
    && var data := Members(At(w, path).body);
       "mcpServers" in data ==> data["mcpServers"].Null? || data["mcpServers"].Obj?
  }

  /** What an uninstall will have to put back: null where there was no entry. */
  predicate Remembers(m: map<string, Json>, preimage: Json) {
    if "preimage" in m then m["preimage"] == preimage else preimage == Null
  }

  /** A first record says what it finds: the entry, or null, and whether there was a file. */
  predicate Finds(record: map<string, Json>, body: Body) {
    var servers := ServersOf(Members(body));
    && Has(record, "preimage", if "entwurf-bridge" in servers then servers["entwurf-bridge"] else Null)
    && Has(record, "detectMode", Str(if body.NoFile? then "created-new" else "adopt-regular-file"))
    && Has(record, "configExistedBefore", Bool(!body.NoFile?))
  }

  /** A later one repeats what the record before it said; of what that did not say, it says what it finds. */
  predicate Carries(record: map<string, Json>, prior: map<string, Json>, body: Body) {
    && Has(record, "preimage", if "preimage" in prior then prior["preimage"] else Null)
    && Has(record, "detectMode",
           if "detectMode" in prior then prior["detectMode"]
           else Str(if body.NoFile? then "created-new" else "adopt-regular-file"))
    && Has(record, "configExistedBefore",
           if "configExistedBefore" in prior then prior["configExistedBefore"] else Bool(!body.NoFile?))
  }

  /**
   An install goes through exactly on a sound config with a sound table and record; otherwise it changes
   nothing and exits with 3 for a link and 4 for the rest. It sets our one entry to the command without
   arguments, leaves everything else in the config alone, and records what was there before.
   */
  lemma InstallExactly(w: World, path: string, command: string, now: string)
    ensures var code, w' := ExitCode(InstallPlan(w, path, command, now)), Install(w, path, command, now);
      if Accepts(w, path) then
        var data, prior, record := Members(At(w, path).body), Members(w.state), Members(w'.state);
        && code == 0 && w'.state.Doc? && Has(record, "managedConfigPath", Str(path))
        && w'.files == w.files[path := Plain(Doc(Obj(data["mcpServers" := Obj(ServersOf(data)["entwurf-bridge" :=
             Obj(map["command" := Str(command), "args" := Arr([])])])])))]
        && Has(record, "schemaVersion", Num(1.0)) && Has(record, "serverKey", Str("entwurf-bridge"))
        && Has(record, "command", Str(command)) && Has(record, "installedAt", Str(now))
        && (if Has(prior, "managedConfigPath", Str(path)) then Carries(record, prior, At(w, path).body)
            else Finds(record, At(w, path).body))
      else w' == w && code == if At(w, path).Link? then 3 else 4
  {
    hide StateDoc;
    if InstallPlan(w, path, command, now).Writes? {
      var body := At(w, path).body;
      var servers := Servers(LoadOrEmpty(body).value).value;
      var p := Decided(PriorState(w.state, PATH_KEY, path).value, !body.NoFile?, servers);
      StateDocRecords(path, command, p, now);
      StateDocNames(path, command, p, now);
    }
  }

  lemma StateDocNames(path: string, command: string, p: Preimage, now: string)
    ensures var record := StateDoc(path, command, p, now);
      && Has(record, "schemaVersion", Num(1.0)) && Has(record, "serverKey", Str("entwurf-bridge"))
      && Has(record, "command", Str(command)) && Has(record, "installedAt", Str(now))
  {
    KeysDiffer();
  }

  /** The config made by the install, with nothing but our entry in it. */
  predicate AllOurs(data: map<string, Json>, record: map<string, Json>) {
    && Has(record, "detectMode", Str("created-new")) && Has(record, "configExistedBefore", Bool(false))
    && data.Keys == {"mcpServers"}
  }

  /**
   An uninstall exits with 2 without a record, with 4 for a record or config that is no good, with 3 for a
   config that has become a link, and changes nothing then. Otherwise the record is gone, our entry is what
   the record remembers, or gone with null, and everything else is as it was; a file the install had made
   goes with its last entry.
   */
  lemma UninstallExactly(w: World, preimage: Json)
    requires Remembers(Members(w.state), preimage)
    ensures var code, w', record := ExitCode(UninstallPlan(w)), Uninstall(w), Members(w.state);
      if w.state.NoFile? then code == 2 && w' == w
      else if !SoundText(w.state) || "managedConfigPath" !in record || !record["managedConfigPath"].Str?
      then code == 4 && w' == w
      else
        var path := record["managedConfigPath"].text;
        if At(w, path).Link? then code == 3 && w' == w
        else if !SoundText(At(w, path).body) then code == 4 && w' == w
        else
          var data := Members(At(w, path).body);
          var table := "mcpServers" in data && data["mcpServers"].Obj?;
          var left := if preimage == Null then ServersOf(data) - {"entwurf-bridge"}
                      else ServersOf(data)["entwurf-bridge" := preimage];
          && code == 0 && w'.state == NoFile
          && w'.files == w.files[path := Plain(
               if !table then At(w, path).body
               else if AllOurs(data, record) && left == map[] then NoFile
               else Doc(Obj(data["mcpServers" := Obj(left)])))]
  {
  }
}
