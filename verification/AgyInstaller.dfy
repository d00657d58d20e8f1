/** The installer as a program: in-place changes of the parsed settings, then two atomic writes. */
module AgyInstaller {
  import opened JsonValues
  import opened Options
  import opened AgyFiles
  import opened AgyPermissions
  import opened AgyPermissionsLists
  import AgyServer

  class Installer {
    var files: map<string, Target>
    var state: Body

    function View(): World
      reads this
    {
      World(files, state)
    }

    constructor (w: World)
      ensures View() == w
    {
      files, state := w.files, w.state;
    }

    /** Append each rule of ours the list lacks. */
    method GrantRules(allow: seq<Json>) returns (grown: seq<Json>)
      ensures grown == WithRules(allow, ALLOW_RULES)
    {
      grown := allow;
      var i := 0;
      assert ALLOW_RULES[0..] == ALLOW_RULES;
      while i < |ALLOW_RULES|
        invariant 0 <= i <= |ALLOW_RULES|
        invariant WithRules(grown, ALLOW_RULES[i..]) == WithRules(allow, ALLOW_RULES)
      {
        var rule := ALLOW_RULES[i];
        assert ALLOW_RULES[i..][0] == rule && ALLOW_RULES[i..][1..] == ALLOW_RULES[i + 1..];
        if Str(rule) !in grown { grown := grown + [Str(rule)]; }
        i := i + 1;
      }
    }

    /** Keep, in order, what is not an owned rule. */
    method RevokeRules(allow: seq<Json>, r: Record) returns (kept: seq<Json>)
      ensures kept == Without(allow, r)
    {
      kept := [];
      var i := 0;
      while i < |allow|
        invariant 0 <= i <= |allow|
        invariant kept == Without(allow[..i], r)
      {
        assert allow[..i + 1] == allow[..i] + [allow[i]];
        WithoutConcat(allow[..i], [allow[i]], r);
        if !(allow[i].Str? && Owned(r, allow[i].text)) { kept := kept + [allow[i]]; }
        i := i + 1;
      }
      assert allow[..i] == allow;
    }

    method PermissionInstall(path: string, now: string) returns (code: int)
      modifies this
      ensures View() == Install(old(View()), path, now)
      ensures code == ExitCode(InstallPlan(old(View()), path, now))
      ensures code != OK ==> View() == old(View())
    {
      hide StateDoc, Parse, WithRules;
      var target := At(View(), path);
      if target.Link? { return REFUSE_SYMLINK; }
      var loaded := LoadOrEmpty(target.body);
      if loaded.None? { return INVALID_JSON; }
      var data := loaded.value;
      var foundPerms := Permissions(data);
      if foundPerms.None? { return INVALID_JSON; }
      var perms := foundPerms.value;
      var foundAllow := Allow(perms);
      if foundAllow.None? { return INVALID_JSON; }
      var allow := foundAllow.value;
      var p := Observed(!target.body.NoFile?, data, perms, allow);
      var prior := PriorState(state, PATH_KEY, path);
      if prior.None? { return INVALID_JSON; }
      if prior.value != map[] {
        var parsed := Parse(prior.value);
        if parsed.None? { return INVALID_JSON; }
        p := Carried(prior.value, parsed.value, p);
      }
      allow := GrantRules(allow);
      perms := perms["allow" := Arr(allow)];
      data := data["permissions" := Obj(perms)];
      files := files[path := Plain(Doc(Obj(data)))];
      state := Doc(Obj(StateDoc(path, p, now)));
      return OK;
    }

    method PermissionUninstall() returns (code: int)
      modifies this
      ensures View() == Uninstall(old(View()))
      ensures code == ExitCode(UninstallPlan(old(View())))
      ensures code != OK ==> View() == old(View())
    {
      hide Parse, Without;
      if state.NoFile? { return NO_STATE; }
      var loaded := Load(state);
      if loaded.None? { return INVALID_JSON; }
      var record := loaded.value;
      var path := Get(record, PATH_KEY, Null);
      if !path.Str? { return INVALID_JSON; }
      var parsed := Parse(record);
      if parsed.None? { return INVALID_JSON; }
      var target := At(View(), path.text);
      if target.Link? { return REFUSE_SYMLINK; }
      var left := NoFile;
      if !target.body.NoFile? {
        var settings := Load(target.body);
        if settings.None? { return INVALID_JSON; }
        var data := settings.value;
        if HasAllow(data) && OwnsAny(parsed.value) {
          var perms := data["permissions"].members;
          var kept := RevokeRules(perms["allow"].items, parsed.value);
          perms := perms["allow" := Arr(kept)];
          if Created(record, "allowExistedBefore") && kept == [] {
            assert perms - {"allow"} == data["permissions"].members - {"allow"};
            perms := perms - {"allow"};
          }
          assert perms == PermissionsLeft(data["permissions"].members, kept, record);
          data := DataLeft(data, perms, record);
        }
        left := if OurFile(record) && data == map[] then NoFile else Doc(Obj(data));
      }
      files := files[path.text := Plain(left)];
      state := NoFile;
      return OK;
    }

    method ServerInstall(path: string, command: string, now: string) returns (code: int)
      modifies this
      ensures View() == AgyServer.Install(old(View()), path, command, now)
      ensures code == ExitCode(AgyServer.InstallPlan(old(View()), path, command, now))
      ensures code != OK ==> View() == old(View())
    {
      hide AgyServer.StateDoc;
      var target := At(View(), path);
      if target.Link? { return REFUSE_SYMLINK; }
      var loaded := LoadOrEmpty(target.body);
      if loaded.None? { return INVALID_JSON; }
      var data := loaded.value;
      var found := AgyServer.Servers(data);
      if found.None? { return INVALID_JSON; }
      var servers := found.value;
      var prior := PriorState(state, AgyServer.PATH_KEY, path);
      if prior.None? { return INVALID_JSON; }
      var p := AgyServer.Decided(prior.value, !target.body.NoFile?, servers);
      servers := servers[AgyServer.SERVER_KEY := AgyServer.Entry(command)];
      data := data["mcpServers" := Obj(servers)];
      files := files[path := Plain(Doc(Obj(data)))];
      state := Doc(Obj(AgyServer.StateDoc(path, command, p, now)));
      return OK;
    }

    method ServerUninstall() returns (code: int)
      modifies this
      ensures View() == AgyServer.Uninstall(old(View()))
      ensures code == ExitCode(AgyServer.UninstallPlan(old(View())))
      ensures code != OK ==> View() == old(View())
    {
      if state.NoFile? { return NO_STATE; }
      var loaded := Load(state);
      if loaded.None? { return INVALID_JSON; }
      var record := loaded.value;
      var path := Get(record, AgyServer.PATH_KEY, Null);
      if !path.Str? { return INVALID_JSON; }
      var target := At(View(), path.text);
      if target.Link? { return REFUSE_SYMLINK; }
      var left := target.body;
      if !target.body.NoFile? {
        var config := Load(target.body);
        if config.None? { return INVALID_JSON; }
        var data := config.value;
        if Get(data, "mcpServers", Null).Obj? {
          var servers := data["mcpServers"].members;
          var preimage := Get(record, "preimage", Null);
          if preimage.Null? {
            servers := servers - {AgyServer.SERVER_KEY};
          } else {
            servers := servers[AgyServer.SERVER_KEY := preimage];
          }
          data := data["mcpServers" := Obj(servers)];
          left := if AgyServer.OurFile(record) && servers == map[] && data.Keys == {"mcpServers"} then NoFile
                  else Doc(Obj(data));
        }
      }
      files := files[path.text := Plain(left)];
      state := NoFile;
      return OK;
    }
  }
}
