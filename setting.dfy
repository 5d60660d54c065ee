/** The plugin's configuration (plugins/vscode/src/setting.ts): the default record for
    an IDE feature code, the defaulting applied whenever a configuration is loaded, its
    storage under `nativeId + "." + code` in the host's key-value store, and the check
    the settings form applies before saving. The platform name and the host's appData
    directory are parameters. */
module Setting {
  import opened Wrappers
  import opened JsString
  import opened NodePath

  /** A configuration record; every field may be undefined (`None`). */
  datatype Config = Config(
    code: Option<string>,
    icon: Option<string>,
    terminal: Option<string>,
    command: Option<string>,
    database: Option<string>,
    autoDetectDatabase: Option<string>,
    autoDetectDatabaseIDEDir: Option<string>,
    timeout: Option<string>)

  /** The host's per-plugin key-value store (`utools.dbStorage`). */
  class ConfigStore {
    var items: map<string, Config>

    constructor (items: map<string, Config>)
      ensures this.items == items
    {
      this.items := items;
    }
  }

  /** `shells[platform]`: the login-shell prefix of each known platform. */
  function ShellFor(platform: string): (r: Option<string>)
    ensures r.Some? <==> platform in {"win32", "darwin", "linux"}
    ensures platform == "win32" ==> r == Some("")
    ensures platform == "darwin" ==> r == Some("zsh -l -c")
    ensures platform == "linux" ==> r == Some("bash -l -c")
  {
    if platform == "win32" then Some("")
    else if platform == "darwin" then Some("zsh -l -c")
    else if platform == "linux" then Some("bash -l -c")
    else None
  }

  /** `code.charAt(0).toUpperCase() + code.slice(1)`. */
  function Capitalize(code: string): (r: string)
    ensures |r| == |code|
    ensures code != [] ==> r[0] == UpperChar(code[0]) && r[1..] == code[1..]
  {
    if code == [] then [] else Upper([code[0]]) + code[1..]
  }

  /** The editor's state database for the IDE directory `dir` under `appData`. */
  function DatabasePath(appData: string, dir: string): string {
    JoinAll([appData, dir, "User", "globalStorage", "state.vscdb"])
  }

  /** NewConfig: the default configuration of the IDE feature `code`. */
  function NewConfig(code: string, platform: string, appData: string): (c: Config)
    ensures c.code == Some(Lower(code)) && c.command == c.code
    ensures c.autoDetectDatabaseIDEDir == Some(Capitalize(Lower(code)))
    ensures c.database == Some(DatabasePath(appData, c.autoDetectDatabaseIDEDir.value))
    ensures c.icon == Some("icon/icon.png") && c.autoDetectDatabase == Some("1") && c.timeout == Some("3000")
    ensures c.terminal == ShellFor(platform)
  {
    var lower := Lower(code);
    LowerIdempotent(code);
    Config(
      code := Some(lower),
      icon := Some("icon/icon.png"),
      terminal := ShellFor(platform),
      command := Some(Lower(lower)),
      database := Some(DatabasePath(appData, Capitalize(lower))),
      autoDetectDatabase := Some("1"),
      autoDetectDatabaseIDEDir := Some(Capitalize(lower)),
      timeout := Some("3000"))
  }

  /** The defaulting GetConfig applies to a loaded configuration: a missing auto-detect
      flag becomes "0", a missing IDE directory becomes the feature code, and with the
      flag "1" the database path is recomputed from the IDE directory. */
  function CompleteConfig(config: Config, code: string, appData: string): (r: Config)
    ensures r.autoDetectDatabase == if Truthy(config.autoDetectDatabase) then config.autoDetectDatabase else Some("0")
    ensures r.autoDetectDatabaseIDEDir == if Truthy(config.autoDetectDatabaseIDEDir) then config.autoDetectDatabaseIDEDir else Some(code)
    ensures r.database ==
      if r.autoDetectDatabase == Some("1") then Some(DatabasePath(appData, r.autoDetectDatabaseIDEDir.value))
      else config.database
    ensures r.(autoDetectDatabase := config.autoDetectDatabase,
               autoDetectDatabaseIDEDir := config.autoDetectDatabaseIDEDir,
               database := config.database) == config
  {
    var c1 := if Truthy(config.autoDetectDatabase) then config else config.(autoDetectDatabase := Some("0"));
    var c2 := if Truthy(c1.autoDetectDatabaseIDEDir) then c1 else c1.(autoDetectDatabaseIDEDir := Some(code));
    if c2.autoDetectDatabase == Some("1") then
      c2.(database := Some(DatabasePath(appData, c2.autoDetectDatabaseIDEDir.value)))
    else c2
  }

  /** Defaulting a configuration twice changes nothing the first time did not. */
  lemma CompleteConfigIdempotent(config: Config, code: string, appData: string)
    ensures CompleteConfig(CompleteConfig(config, code, appData), code, appData) == CompleteConfig(config, code, appData)
  {
    var r := CompleteConfig(config, code, appData);
    var r2 := CompleteConfig(r, code, appData);
    assert r.autoDetectDatabase.Some? && r.autoDetectDatabase.value != "";
    if !Truthy(r.autoDetectDatabaseIDEDir) {
      assert r.autoDetectDatabaseIDEDir == Some(code);
    }
    assert r2.autoDetectDatabase == r.autoDetectDatabase;
    assert r2.autoDetectDatabaseIDEDir == r.autoDetectDatabaseIDEDir;
  }

  /** A freshly created default configuration already has every field GetConfig would
      fill in, so the first GetConfig returns exactly NewConfig. */
  lemma NewConfigIsComplete(code: string, platform: string, appData: string)
    ensures CompleteConfig(NewConfig(code, platform, appData), code, appData) == NewConfig(code, platform, appData)
  {
    var c := NewConfig(code, platform, appData);
    if code == [] {
      assert Lower(code) == [] && Capitalize(Lower(code)) == [];
    }
  }

  /** The storage key of the configuration of `code`. */
  function ConfigKey(nativeId: string, code: string): string {
    nativeId + "." + code
  }

  /** The key SaveConfig writes: `nativeId + "." + config.code`, where an undefined
      code is spelled "undefined" by the string concatenation. */
  function SaveKey(nativeId: string, config: Config): string {
    ConfigKey(nativeId, if config.code.Some? then config.code.value else "undefined")
  }

  /** GetConfig looks a configuration up under the code as given, while the default
      it creates is saved under the lower-cased code: the two keys agree exactly when
      the code has no upper-case letter. */
  lemma SaveKeyOfNewConfig(nativeId: string, code: string, platform: string, appData: string)
    ensures SaveKey(nativeId, NewConfig(code, platform, appData)) == ConfigKey(nativeId, code) <==> Lower(code) == code
  {
    var saved := SaveKey(nativeId, NewConfig(code, platform, appData));
    var n := |nativeId| + 1;
    assert saved[n..] == Lower(code);
    assert ConfigKey(nativeId, code)[n..] == code;
  }

  /** What GetConfig returns for the stored items `items`. */
  function LoadedConfig(items: map<string, Config>, nativeId: string, code: string, platform: string, appData: string): Config {
    var key := ConfigKey(nativeId, code);
    if key in items then CompleteConfig(items[key], code, appData)
    else NewConfig(code, platform, appData)
  }

  /** A loaded configuration names an IDE directory unless the feature code itself is
      empty, so the settings page's fallback to "Code" only matters for that code. */
  lemma LoadedIdeDirOnlyEmptyForEmptyCode(items: map<string, Config>, nativeId: string, code: string,
                                          platform: string, appData: string)
    ensures !Truthy(LoadedConfig(items, nativeId, code, platform, appData).autoDetectDatabaseIDEDir) ==> code == ""
  {
    if code != "" {
      assert Capitalize(Lower(code)) != "";
    }
  }

  /** SaveConfig: store the configuration under its key. Refreshing the host's
      feature list (`NewIDE`) is not part of this model. */
  method SaveConfig(store: ConfigStore, nativeId: string, config: Config)
    modifies store
    ensures store.items == old(store.items)[SaveKey(nativeId, config) := config]
  {
    store.items := store.items[SaveKey(nativeId, config) := config];
  }

  /** GetConfig: load the configuration of `code`, creating and saving the default one
      when none is stored, then fill in the missing fields. The filled-in record is
      returned, not saved. */
  method GetConfig(store: ConfigStore, nativeId: string, code: string, platform: string, appData: string) returns (config: Config)
    modifies store
    ensures config == LoadedConfig(old(store.items), nativeId, code, platform, appData)
    ensures ConfigKey(nativeId, code) in old(store.items) ==> store.items == old(store.items)
    ensures ConfigKey(nativeId, code) !in old(store.items) ==>
      && config == NewConfig(code, platform, appData)
      && store.items == old(store.items)[SaveKey(nativeId, config) := config]
  {
    var key := ConfigKey(nativeId, code);
    if key in store.items {
      config := store.items[key];
    } else {
      config := NewConfig(code, platform, appData);
      SaveConfig(store, nativeId, config);
      NewConfigIsComplete(code, platform, appData);
    }
    ghost var loaded := config;
    if !Truthy(config.autoDetectDatabase) {
      config := config.(autoDetectDatabase := Some("0"));
    }
    if !Truthy(config.autoDetectDatabaseIDEDir) {
      config := config.(autoDetectDatabaseIDEDir := Some(code));
    }
    if config.autoDetectDatabase == Some("1") {
      config := config.(database := Some(DatabasePath(appData, config.autoDetectDatabaseIDEDir.value)));
    }
    assert config == CompleteConfig(loaded, code, appData);
  }

  datatype SubmitOutcome = Saved | IconNotPng | IconUndefined

  /** The settings form's submit handler: a configuration whose icon does not contain
      "png" is refused and nothing is saved; otherwise it is saved. An undefined icon
      makes `config.icon.includes` throw. */
  method SubmitSettings(store: ConfigStore, nativeId: string, config: Config) returns (outcome: SubmitOutcome)
    modifies store
    ensures config.icon.None? ==> outcome == IconUndefined && store.items == old(store.items)
    ensures config.icon.Some? && !Includes(config.icon.value, "png") ==> outcome == IconNotPng && store.items == old(store.items)
    ensures config.icon.Some? && Includes(config.icon.value, "png") ==>
      outcome == Saved && store.items == old(store.items)[SaveKey(nativeId, config) := config]
  {
    if config.icon.None? {
      return IconUndefined;
    }
    if !Includes(config.icon.value, "png") {
      return IconNotPng;
    }
    SaveConfig(store, nativeId, config);
    return Saved;
  }

  /** The settings page of one IDE feature. */
  class SettingPage {
    var code: string
    var config: Config

    /** Loads the configuration like GetConfig and then, if the IDE directory is
        still empty, sets it to "Code". */
    constructor (store: ConfigStore, nativeId: string, code: string, platform: string, appData: string)
      modifies store
      ensures this.code == code + "-setting"
      ensures var loaded := LoadedConfig(old(store.items), nativeId, code, platform, appData);
        config == if Truthy(loaded.autoDetectDatabaseIDEDir) then loaded else loaded.(autoDetectDatabaseIDEDir := Some("Code"))
      ensures Truthy(config.autoDetectDatabaseIDEDir)
      ensures ConfigKey(nativeId, code) in old(store.items) ==> store.items == old(store.items)
      ensures ConfigKey(nativeId, code) !in old(store.items) ==>
        var created := NewConfig(code, platform, appData);
        store.items == old(store.items)[SaveKey(nativeId, created) := created]
    {
      var c := GetConfig(store, nativeId, code, platform, appData);
      if !Truthy(c.autoDetectDatabaseIDEDir) {
        c := c.(autoDetectDatabaseIDEDir := Some("Code"));
      }
      this.code := code + "-setting";
      config := c;
    }
  }
}
