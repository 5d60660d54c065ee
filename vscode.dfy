/** The search and dispatch engine of the plugin (plugins/vscode/src/vscode.ts): a query
    selects remove mode through the `-rm` marker, the history paths are filtered by the
    remaining keywords and projected to list items, and selecting an item either
    launches the editor or deletes the history record. The user's answer to the
    confirmation dialog and the result of the launched process are parameters. */
module VSCodePlugin {
  import opened Wrappers
  import opened JsString
  import opened NodePath
  import opened History
  import opened Setting

  const RemoveMarker := "-rm"
  const RemoveTitle := "删除: "
  const OpenTitle := "打开: "
  const MinTimeout := 3000

  /** A row of the host's result list: title, description, payload, icon path. */
  datatype ListItem = ListItem(title: string, description: string, data: string, icon: string)

  // ---------------------------------------------------------------------------
  // Mode extraction

  /** `word && word.includes("-rm")`. */
  predicate IsRemoveQuery(word: string) {
    word != "" && Includes(word, RemoveMarker)
  }

  /** `word.replace(/-rm/g, "").trim()`. */
  function StripMarker(word: string): string {
    Trim(RemoveAll(word, RemoveMarker))
  }

  /** The text that is searched for: the stripped query in remove mode, the query as
      typed otherwise. */
  function SearchText(word: string): string {
    if IsRemoveQuery(word) then StripMarker(word) else word
  }

  /** Remove mode is on exactly when the query contains the marker. */
  lemma RemoveModeIffMarker(word: string)
    ensures IsRemoveQuery(word) <==> exists i :: OccursAt(word, RemoveMarker, i)
    ensures !IsRemoveQuery(word) ==> SearchText(word) == word
  {
  }

  /** Stripping from the stripped text changes nothing once no marker is left in it. */
  lemma StripMarkerIdempotent(word: string)
    requires !Includes(StripMarker(word), RemoveMarker)
    ensures StripMarker(StripMarker(word)) == StripMarker(word)
  {
    TrimIdempotent(RemoveAll(word, RemoveMarker));
  }

  /** Removing the markers can join the pieces around one into a new marker, so a
      second stripping can change the text again. */
  lemma StripMarkerNotIdempotent()
    ensures StripMarker("--rmrm") == "-rm"
    ensures StripMarker(StripMarker("--rmrm")) == ""
  {
    var m := RemoveMarker;
    assert RemoveAll("", m) == "";
    assert !IsPrefix(m, "m") && "m"[1..] == "";
    assert RemoveAll("m", m) == "m";
    assert !IsPrefix(m, "rm") && "rm"[1..] == "m";
    assert RemoveAll("rm", m) == "rm";
    assert IsPrefix(m, "-rmrm") && "-rmrm"[3..] == "rm";
    assert RemoveAll("-rmrm", m) == "rm";
    assert !IsPrefix(m, "--rmrm") && "--rmrm"[1..] == "-rmrm";
    assert RemoveAll("--rmrm", m) == "-rm";
    assert !IsWhiteSpace('-') && !IsWhiteSpace('m');
    assert TrimStart("-rm") == "-rm";
    assert TrimEnd("-rm") == "-rm";
    assert IsPrefix(m, "-rm") && "-rm"[3..] == "";
    assert RemoveAll("-rm", m) == "";
  }

  // ---------------------------------------------------------------------------
  // Keyword filtering

  /** The keywords of a search text: `searchWord.split(/\s+/g)` when it is not empty. */
  function Keywords(searchWord: string): seq<string> {
    if searchWord == "" then [] else Split(searchWord)
  }

  /** The decoded, lower-cased path contains the trimmed, lower-cased keyword. */
  predicate HasKeyword(file: string, keyword: string) {
    Includes(Lower(DecodeUri(file)), Lower(Trim(keyword)))
  }

  /** The path contains every keyword that is not blank. */
  predicate HasAllKeywords(file: string, keywords: seq<string>) {
    if keywords == [] then true
    else
      var last := keywords[|keywords| - 1];
      HasAllKeywords(file, keywords[..|keywords| - 1]) && (IsBlank(last) || HasKeyword(file, last))
  }

  /** HasAllKeywords is the conjunction over the keywords that are not blank. */
  lemma HasAllKeywordsMeaning(file: string, keywords: seq<string>)
    ensures HasAllKeywords(file, keywords) <==>
      forall i :: 0 <= i < |keywords| && !IsBlank(keywords[i]) ==> HasKeyword(file, keywords[i])
  {
    if HasAllKeywords(file, keywords) {
      HasAllKeywordsSound(file, keywords);
    } else if forall i :: 0 <= i < |keywords| && !IsBlank(keywords[i]) ==> HasKeyword(file, keywords[i]) {
      HasAllKeywordsComplete(file, keywords);
    }
  }

  /** A path with all keywords contains each keyword that is not blank. */
  lemma {:induction false} HasAllKeywordsSound(file: string, keywords: seq<string>)
    requires HasAllKeywords(file, keywords)
    ensures forall i :: 0 <= i < |keywords| && !IsBlank(keywords[i]) ==> HasKeyword(file, keywords[i])
  {
    if keywords != [] {
      var n := |keywords| - 1;
      var init := keywords[..n];
      assert HasAllKeywords(file, init) && (IsBlank(keywords[n]) || HasKeyword(file, keywords[n]));
      HasAllKeywordsSound(file, init);
      forall i | 0 <= i < |keywords| && !IsBlank(keywords[i]) ensures HasKeyword(file, keywords[i]) {
        if i < n {
          assert keywords[i] == init[i];
        }
      }
    }
  }

  /** A path containing each keyword that is not blank has all keywords. */
  lemma {:induction false} HasAllKeywordsComplete(file: string, keywords: seq<string>)
    requires forall i :: 0 <= i < |keywords| && !IsBlank(keywords[i]) ==> HasKeyword(file, keywords[i])
    ensures HasAllKeywords(file, keywords)
  {
    if keywords != [] {
      var n := |keywords| - 1;
      var init := keywords[..n];
      forall i | 0 <= i < n && !IsBlank(init[i]) ensures HasKeyword(file, init[i]) {
        assert init[i] == keywords[i];
      }
      HasAllKeywordsComplete(file, init);
    }
  }

  /** `files.filter(...)` for one keyword. */
  function KeepWithKeyword(files: seq<string>, keyword: string): seq<string> {
    if files == [] then []
    else if HasKeyword(files[0], keyword) then [files[0]] + KeepWithKeyword(files[1..], keyword)
    else KeepWithKeyword(files[1..], keyword)
  }

  /** The reference filter: one pass keeping the paths that contain every keyword. */
  function KeepWithAllKeywords(files: seq<string>, keywords: seq<string>): seq<string> {
    if files == [] then []
    else if HasAllKeywords(files[0], keywords) then [files[0]] + KeepWithAllKeywords(files[1..], keywords)
    else KeepWithAllKeywords(files[1..], keywords)
  }

  /** Appending a keyword adds one more condition to the conjunction. */
  lemma HasAllKeywordsSnoc(file: string, keywords: seq<string>, k: string)
    ensures HasAllKeywords(file, keywords + [k]) == (HasAllKeywords(file, keywords) && (IsBlank(k) || HasKeyword(file, k)))
  {
    var ks := keywords + [k];
    assert ks[..|ks| - 1] == keywords && ks[|ks| - 1] == k;
  }

  /** Filtering the kept paths by one more keyword that is not blank is the filter by
      the longer keyword list. */
  lemma {:induction false} KeepWithKeywordStep(files: seq<string>, keywords: seq<string>, k: string)
    requires !IsBlank(k)
    ensures KeepWithKeyword(KeepWithAllKeywords(files, keywords), k) == KeepWithAllKeywords(files, keywords + [k])
  {
    if files != [] {
      var f := files[0];
      var rest := KeepWithAllKeywords(files[1..], keywords);
      KeepWithKeywordStep(files[1..], keywords, k);
      HasAllKeywordsSnoc(f, keywords, k);
      if HasAllKeywords(f, keywords) {
        calc {
          KeepWithKeyword(KeepWithAllKeywords(files, keywords), k);
          KeepWithKeyword([f] + rest, k);
          { assert ([f] + rest)[0] == f && ([f] + rest)[1..] == rest; }
          if HasKeyword(f, k) then [f] + KeepWithKeyword(rest, k) else KeepWithKeyword(rest, k);
          KeepWithAllKeywords(files, keywords + [k]);
        }
      }
    }
  }

  /** A blank keyword filters nothing out. */
  lemma {:induction false} KeepWithBlankKeywordStep(files: seq<string>, keywords: seq<string>, k: string)
    requires IsBlank(k)
    ensures KeepWithAllKeywords(files, keywords) == KeepWithAllKeywords(files, keywords + [k])
  {
    if files != [] {
      KeepWithBlankKeywordStep(files[1..], keywords, k);
      HasAllKeywordsSnoc(files[0], keywords, k);
    }
  }

  /** The filter keeps exactly the paths that contain every keyword, in their order. */
  lemma {:induction false} KeepWithAllKeywordsExactly(files: seq<string>, keywords: seq<string>)
    ensures IsSubsequence(KeepWithAllKeywords(files, keywords), files)
    ensures forall f ::
              multiset(KeepWithAllKeywords(files, keywords))[f] == if HasAllKeywords(f, keywords) then multiset(files)[f] else 0
  {
    if files != [] {
      KeepWithAllKeywordsExactly(files[1..], keywords);
      var rest := KeepWithAllKeywords(files[1..], keywords);
      assert files == [files[0]] + files[1..];
      if HasAllKeywords(files[0], keywords) {
        assert ([files[0]] + rest)[1..] == rest;
      } else {
        SubsequenceOfTail(rest, files);
      }
    }
  }

  /** Without a keyword that is not blank, nothing is filtered out. */
  lemma {:induction false} KeepWithBlankKeywords(files: seq<string>, keywords: seq<string>)
    requires forall i :: 0 <= i < |keywords| ==> IsBlank(keywords[i])
    ensures KeepWithAllKeywords(files, keywords) == files
  {
    if files != [] {
      KeepWithBlankKeywords(files[1..], keywords);
      HasAllKeywordsMeaning(files[0], keywords);
    }
  }

  /** The keyword loop of `search`: each keyword that is not blank narrows the paths;
      the result is the one-pass conjunctive filter. */
  method FilterByKeywords(files: seq<string>, searchWord: string) returns (r: seq<string>)
    ensures r == KeepWithAllKeywords(files, Keywords(searchWord))
  {
    r := files;
    KeepWithBlankKeywords(files, []);
    if searchWord != "" {
      var keywords := Split(searchWord);
      for i := 0 to |keywords|
        invariant r == KeepWithAllKeywords(files, keywords[..i])
      {
        if IsBlank(keywords[i]) {
          KeepWithBlankKeywordStep(files, keywords[..i], keywords[i]);
        } else {
          KeepWithKeywordStep(files, keywords[..i], keywords[i]);
        }
        assert keywords[..i + 1] == keywords[..i] + [keywords[i]];
        if !IsBlank(keywords[i]) {
          r := KeepWithKeyword(r, keywords[i]);
        }
      }
      assert keywords[..|keywords|] == keywords;
    }
  }

  // ---------------------------------------------------------------------------
  // Projection and icons

  /** `icon.split(".")[0]`: an icon file's name up to its first dot. */
  function IconStem(icon: string): (r: string)
    ensures IsPrefix(r, icon) && forall i :: 0 <= i < |r| ==> r[i] != '.'
    ensures |r| < |icon| ==> icon[|r|] == '.'
  {
    if icon == [] || icon[0] == '.' then [] else [icon[0]] + IconStem(icon[1..])
  }

  predicate IconFits(icon: string, ext: string) {
    "." + IconStem(icon) == Lower(ext)
  }

  /** `icons.find(...)`: the first icon whose stem is the extension. */
  function FindIcon(icons: seq<string>, ext: string): (r: Option<nat>)
    ensures r.Some? ==> r.value < |icons| && IconFits(icons[r.value], ext)
    ensures r.Some? ==> forall j :: 0 <= j < r.value ==> !IconFits(icons[j], ext)
    ensures r.None? ==> forall j :: 0 <= j < |icons| ==> !IconFits(icons[j], ext)
  {
    if icons == [] then None
    else if IconFits(icons[0], ext) then Some(0)
    else match FindIcon(icons[1..], ext)
      case None => None
      case Some(k) => Some(k + 1)
  }

  /** getIcon: the icon listed for the extension, else `folder.svg` for a path without
      extension and `file.svg` for one with an extension, under `icon/`. */
  function GetIcon(ext: string, icons: seq<string>): (r: string)
    ensures var k := FindIcon(icons, ext);
      r == JoinAll(["icon",
        if k.Some? && icons[k.value] != "" then icons[k.value]
        else if ext == "" then "folder.svg" else "file.svg"])
  {
    var found := FindIcon(icons, ext);
    var icon := if found.Some? then Some(icons[found.value]) else None;
    var chosen := if Truthy(icon) then icon.value else if ext == "" then "folder.svg" else "file.svg";
    JoinAll(["icon", chosen])
  }

  /** The extension used to pick a path's icon: `.remote` for a remote path. */
  function IconExtension(decoded: string): (r: string)
    ensures Includes(decoded, "remote") ==> r == ".remote"
    ensures !Includes(decoded, "remote") ==> r == Extname(decoded)
  {
    if Includes(decoded, "remote") then ".remote" else Extname(decoded)
  }

  /** The list item of one path. */
  function ItemFor(file: string, removeMode: bool, icons: seq<string>): ListItem {
    var decoded := DecodeUri(file);
    ListItem((if removeMode then RemoveTitle else OpenTitle) + Basename(decoded), decoded, file,
             GetIcon(IconExtension(decoded), icons))
  }

  /** `files.map(...)`: one item per path. */
  function Project(files: seq<string>, removeMode: bool, icons: seq<string>): (items: seq<ListItem>)
    ensures |items| == |files|
    ensures forall i :: 0 <= i < |files| ==> items[i] == ItemFor(files[i], removeMode, icons)
  {
    seq(|files|, i requires 0 <= i < |files| => ItemFor(files[i], removeMode, icons))
  }

  /** The item of one path carries the raw path as payload and its decoded form as
      description; its title is the mode's label followed by the base name of the
      decoded path. */
  lemma {:induction false} ItemForShape(file: string, removeMode: bool, icons: seq<string>)
    ensures var item := ItemFor(file, removeMode, icons);
      && item.data == file
      && item.description == DecodeUri(file)
      && item.title == (if removeMode then RemoveTitle else OpenTitle) + Basename(item.description)
      && IsPrefix(if removeMode then "删除" else "打开", item.title)
  {
    var heading := if removeMode then RemoveTitle else OpenTitle;
    var rest := Basename(DecodeUri(file));
    assert (heading + rest)[..2] == heading[..2];
  }

  /** Each projected item is the item of the path at the same index. */
  lemma {:induction false} ProjectedItem(files: seq<string>, removeMode: bool, icons: seq<string>, i: nat)
    requires i < |files|
    ensures var item := Project(files, removeMode, icons)[i];
      && item.data == files[i]
      && item.description == DecodeUri(files[i])
      && item.title == (if removeMode then RemoveTitle else OpenTitle) + Basename(item.description)
      && IsPrefix(if removeMode then "删除" else "打开", item.title)
  {
    ItemForShape(files[i], removeMode, icons);
  }

  // ---------------------------------------------------------------------------
  // Launching the editor

  /** The callback of `exec`: the message of the error it reports, if any, and the
      captured output streams. */
  datatype ProcessResult = ProcessResult(err: Option<string>, stdout: string, stderr: string)

  datatype ExecResult = Resolved(output: string) | Rejected(reason: string)

  /** execCmd: success exactly when there is neither an error nor error output; a
      failure carries the error message, or else the error output, followed by the
      standard output. */
  function ExecOutcome(p: ProcessResult): (r: ExecResult)
    ensures r.Resolved? <==> p.err.None? && p.stderr == ""
    ensures r.Resolved? ==> r.output == p.stdout
    ensures r.Rejected? ==> r.reason == (if p.err.Some? then p.err.value else p.stderr) + p.stdout
  {
    if p.err.Some? then Rejected(p.err.value + p.stdout)
    else if p.stderr != "" then Rejected(p.stderr + p.stdout)
    else Resolved(p.stdout)
  }

  /** `s` in double quotes. */
  function Quoted(s: string): string {
    "\"" + s + "\""
  }

  /** The editor command, in double quotes when its trimmed text contains a space. */
  function QuotedCommand(command: string): (r: string)
    ensures Includes(Trim(command), " ") ==> r == Quoted(command)
    ensures !Includes(Trim(command), " ") ==> r == command
  {
    if Includes(Trim(command), " ") then Quoted(command) else command
  }

  /** `--file-uri` for a workspace file, `--folder-uri` for anything else. */
  function UriFlag(data: string): (r: string)
    ensures r == "--file-uri" <==> Includes(data, ".code-workspace")
    ensures r == "--folder-uri" <==> !Includes(data, ".code-workspace")
  {
    if Includes(data, ".code-workspace") then "--file-uri" else "--folder-uri"
  }

  /** The open command: the editor, the flag and the quoted payload separated by single
      spaces, run as `shell "env; ..."` when a shell is configured. */
  function OpenCommand(command: string, shell: string, data: string): (cmd: string)
    ensures var line := QuotedCommand(command) + " " + UriFlag(data) + " " + Quoted(data);
      cmd == if IsBlank(shell) then line else shell + " \"env; " + line + "\""
  {
    var cmds := [QuotedCommand(command), UriFlag(data), Quoted(data)];
    var cmd := JoinWords(cmds, " ");
    JoinThreeWords(cmds[0], cmds[1], cmds[2], " ");
    if IsBlank(shell) then cmd else shell + " \"env; " + cmd + "\""
  }

  /** `parseInt(config.timeout)`, raised to 3000 when it is `NaN`, zero or smaller. */
  function EffectiveTimeout(timeout: Option<string>): (t: int)
    ensures t >= MinTimeout
    ensures t != MinTimeout ==> timeout.Some? && ParseInt(timeout.value) == Some(t)
    ensures timeout.Some? && ParseInt(timeout.value).Some? && ParseInt(timeout.value).value >= MinTimeout ==>
      t == ParseInt(timeout.value).value
  {
    var parsed := if timeout.Some? then ParseInt(timeout.value) else None;
    if parsed.None? || parsed.value == 0 || parsed.value < MinTimeout then MinTimeout else parsed.value
  }

  /** A timeout written as a decimal number is honoured when it is at least 3000; the
      default "3000" gives 3000. */
  lemma EffectiveTimeoutOfNumeral(n: nat)
    ensures EffectiveTimeout(Some(NatToString(n))) == if n < MinTimeout then MinTimeout else n
  {
    ParseIntNatToString(n);
  }

  // ---------------------------------------------------------------------------
  // Selection

  /** The notification after a delete request. */
  datatype Notice =
    | Removed(name: string)        // "已删除历史记录: " + name
    | NotFound(name: string)       // "未找到要删除的记录: " + name
    | DeleteFailed(cause: StoreError)

  datatype AfterLaunch = HideWindow | Alert(reason: string)

  datatype SelectOutcome =
    | Cancelled                                              // the user declined the deletion
    | Removal(notice: Notice, nextInput: string)             // deletion attempted; the sub-input is reset
    | Launched(command: string, timeout: int, after: AfterLaunch)
    | OpenFailed                                             // the command or the shell is undefined

  /** The effect of DeleteFiles on the disk, as its contract states it: a history that
      cannot be loaded or holds no matching record is left alone; otherwise the records
      for `target` are dropped and the file is written once. */
  ghost predicate DeleteEffect(files0: map<string, Table>, writes0: seq<string>,
                               files1: map<string, Table>, writes1: seq<string>,
                               dbPath: Option<string>, target: string)
  {
    if Load(files0, dbPath).Success? && exists i :: 0 <= i < |Load(files0, dbPath).value| && Matches(Load(files0, dbPath).value[i], target) then
      && files1 == files0[dbPath.value := files0[dbPath.value][HistoryKey := Recent(Without(Load(files0, dbPath).value, target))]]
      && writes1 == writes0 + [dbPath.value]
    else files1 == files0 && writes1 == writes0
  }

  /** The notification performDelete shows for the history `files0`. */
  function DeleteNotice(files0: map<string, Table>, dbPath: Option<string>, target: string, fileName: string): Notice {
    match Load(files0, dbPath)
    case Failure(e) => DeleteFailed(e)
    case Success(es) =>
      if exists i :: 0 <= i < |es| && Matches(es[i], target) then Removed(Basename(fileName))
      else NotFound(Basename(fileName))
  }

  /** What selecting an item does outside remove mode. */
  function OpenOutcome(config: Config, data: string, proc: ProcessResult): SelectOutcome {
    if config.command.None? || config.terminal.None? then OpenFailed
    else
      var result := ExecOutcome(proc);
      Launched(OpenCommand(config.command.value, config.terminal.value, data),
               EffectiveTimeout(config.timeout),
               if result.Resolved? then HideWindow else Alert(result.reason))
  }

  /** Opening fails exactly when the command or the shell is undefined; otherwise the
      open command for the item is launched with a timeout of at least 3000 ms and the
      window is hidden exactly when the process reports neither error nor error output. */
  lemma OpenOutcomeCases(config: Config, data: string, proc: ProcessResult)
    ensures OpenOutcome(config, data, proc).OpenFailed? <==> config.command.None? || config.terminal.None?
    ensures OpenOutcome(config, data, proc).Launched? ==>
      var o := OpenOutcome(config, data, proc);
      && o.command == OpenCommand(config.command.value, config.terminal.value, data)
      && o.timeout >= MinTimeout
      && (o.after == HideWindow <==> proc.err.None? && proc.stderr == "")
  {
  }

  /** After a deletion the sub-input is set to the marker; searching it is remove mode
      with no keyword, so the next list shows every record, ready to delete. */
  lemma StickyRemoveMode()
    ensures IsRemoveQuery(RemoveMarker)
    ensures SearchText(RemoveMarker) == "" && Keywords(SearchText(RemoveMarker)) == []
  {
    assert IsPrefix(RemoveMarker, RemoveMarker);
    assert RemoveAll(RemoveMarker, RemoveMarker) == RemoveAll("", RemoveMarker);
  }

  /** Every path the search keeps is at some position of the listed paths. */
  lemma KeptIsListed(paths: seq<string>, keywords: seq<string>, k: nat) returns (i: nat)
    requires k < |KeepWithAllKeywords(paths, keywords)|
    ensures i < |paths| && paths[i] == KeepWithAllKeywords(paths, keywords)[k]
  {
    var kept := KeepWithAllKeywords(paths, keywords);
    KeepWithAllKeywordsExactly(paths, keywords);
    assert kept[k] in multiset(kept);
    assert kept[k] in paths;
    i :| 0 <= i < |paths| && paths[i] == kept[k];
  }

  /** An item listed by a remove-mode search names a record that a delete of the same
      history removes. */
  lemma ListedItemIsDeletable(files: map<string, Table>, dbPath: Option<string>, word: string,
                              icons: seq<string>, k: nat)
    requires GetFiles(files, dbPath).Success?
    requires k < |KeepWithAllKeywords(GetFiles(files, dbPath).value, Keywords(SearchText(word)))|
    ensures var item := Project(KeepWithAllKeywords(GetFiles(files, dbPath).value, Keywords(SearchText(word))), true, icons)[k];
      DeleteNotice(files, dbPath, item.data, DecodeUri(item.data)).Removed?
  {
    var paths := GetFiles(files, dbPath).value;
    var kept := KeepWithAllKeywords(paths, Keywords(SearchText(word)));
    var i := KeptIsListed(paths, Keywords(SearchText(word)), k);
    ListedPathIsDeletable(files, dbPath, i);
    var es := Load(files, dbPath).value;
    assert Matches(es[i], kept[k]);
  }

  /** The argument list of the open branch, pushed step by step: the editor command,
      quoted when it holds a space, the URI flag and the quoted item. */
  method OpenArguments(command: string, data: string) returns (cmds: seq<string>)
    ensures cmds == [QuotedCommand(command), UriFlag(data), Quoted(data)]
  {
    var code := command;
    if Includes(Trim(code), " ") {
      code := Quoted(code);
    }
    assert code == QuotedCommand(command);
    cmds := [code];
    if Includes(data, ".code-workspace") {
      cmds := cmds + ["--file-uri"];
    } else {
      cmds := cmds + ["--folder-uri"];
    }
    assert cmds == [code, UriFlag(data)];
    cmds := cmds + [Quoted(data)];
  }

  /** The command line of the open branch: the arguments joined by spaces, wrapped in
      the shell when one is set. */
  method BuildOpenCommand(command: string, shell: string, data: string) returns (cmd: string)
    ensures cmd == OpenCommand(command, shell, data)
  {
    var cmds := OpenArguments(command, data);
    cmd := JoinWords(cmds, " ");
    JoinThreeWords(cmds[0], cmds[1], cmds[2], " ");
    if !IsBlank(shell) {
      cmd := shell + " \"env; " + cmd + "\"";
    }
  }

  /** The plugin object of one IDE feature. */
  class VSCode {
    var code: string
    var config: Config
    var isRemoveMode: bool

    constructor (store: ConfigStore, nativeId: string, code: string, platform: string, appData: string)
      modifies store
      ensures this.code == code && !isRemoveMode
      ensures config == LoadedConfig(old(store.items), nativeId, code, platform, appData)
      ensures ConfigKey(nativeId, code) in old(store.items) ==> store.items == old(store.items)
      ensures ConfigKey(nativeId, code) !in old(store.items) ==>
        store.items == old(store.items)[SaveKey(nativeId, config) := config]
    {
      var c := GetConfig(store, nativeId, code, platform, appData);
      this.code := code;
      config := c;
      isRemoveMode := false;
    }

    /** `this.storage`: the database path of the configuration. */
    function Storage(): Option<string>
      reads this
    {
      config.database
    }

    /** search: read the history, set the mode from the query, filter by the keywords
        of the search text and project the survivors. When reading fails, the error is
        passed on and the mode is left as it was. */
    method Search(disk: Disk, word: string, icons: seq<string>) returns (r: Result<seq<ListItem>, StoreError>)
      modifies this`isRemoveMode
      ensures GetFiles(disk.files, Storage()).Failure? ==>
        r == Failure(GetFiles(disk.files, Storage()).error) && isRemoveMode == old(isRemoveMode)
      ensures GetFiles(disk.files, Storage()).Success? ==>
        && isRemoveMode == IsRemoveQuery(word)
        && r == Success(Project(KeepWithAllKeywords(GetFiles(disk.files, Storage()).value,
                                                    Keywords(SearchText(word))), isRemoveMode, icons))
    {
      var files := GetFiles(disk.files, Storage());
      if files.Failure? {
        return Failure(files.error);
      }
      isRemoveMode := IsRemoveQuery(word);
      var searchWord := word;
      if isRemoveMode {
        searchWord := StripMarker(word);
      }
      var kept := FilterByKeywords(files.value, searchWord);
      return Success(Project(kept, isRemoveMode, icons));
    }

    /** performDelete: delete the record, report the outcome, and put the marker back
        into the sub-input whatever the outcome. */
    method PerformDelete(disk: Disk, itemData: string, fileName: string) returns (notice: Notice, nextInput: string)
      modifies disk
      ensures notice == DeleteNotice(old(disk.files), Storage(), itemData, fileName)
      ensures DeleteEffect(old(disk.files), old(disk.writes), disk.files, disk.writes, Storage(), itemData)
      ensures nextInput == RemoveMarker
    {
      var db := Storage();
      var result := DeleteFiles(disk, db, itemData);
      match result {
        case Success(true) => notice := Removed(Basename(fileName));
        case Success(false) => notice := NotFound(Basename(fileName));
        case Failure(e) => notice := DeleteFailed(e);
      }
      assert DeleteEffect(old(disk.files), old(disk.writes), disk.files, disk.writes, db, itemData);
      nextInput := RemoveMarker;
    }

    /** select: in remove mode, ask for confirmation and delete; otherwise build the
        editor command and launch it with the effective timeout. */
    method Select(item: ListItem, disk: Disk, confirmed: bool, proc: ProcessResult) returns (outcome: SelectOutcome)
      modifies disk
      ensures isRemoveMode && !confirmed ==>
        outcome == Cancelled && disk.files == old(disk.files) && disk.writes == old(disk.writes)
      ensures isRemoveMode && confirmed ==>
        && outcome == Removal(DeleteNotice(old(disk.files), Storage(), item.data, DecodeUri(item.data)), RemoveMarker)
        && DeleteEffect(old(disk.files), old(disk.writes), disk.files, disk.writes, Storage(), item.data)
      ensures !isRemoveMode ==>
        && outcome == OpenOutcome(config, item.data, proc)
        && disk.files == old(disk.files) && disk.writes == old(disk.writes)
    {
      if isRemoveMode {
        var fileName := DecodeUri(item.data);
        if !confirmed {
          return Cancelled;
        }
        var notice, nextInput := PerformDelete(disk, item.data, fileName);
        return Removal(notice, nextInput);
      }

      outcome := Open(item, proc);
    }

    /** The open branch of select: build the editor command for the item and launch it
        with the effective timeout; an undefined command or shell fails. */
    method Open(item: ListItem, proc: ProcessResult) returns (outcome: SelectOutcome)
      ensures outcome == OpenOutcome(config, item.data, proc)
    {
      if config.command.None? {
        return OpenFailed;
      }
      if config.terminal.None? {
        return OpenFailed;
      }
      var cmd := BuildOpenCommand(config.command.value, config.terminal.value, item.data);
      var timeout := if config.timeout.Some? then ParseInt(config.timeout.value) else None;
      var effective := if timeout.None? || timeout.value == 0 || timeout.value < MinTimeout then MinTimeout else timeout.value;
      assert effective == EffectiveTimeout(config.timeout);
      var result := ExecOutcome(proc);
      outcome := Launched(cmd, effective, if result.Resolved? then HideWindow else Alert(result.reason));
    }
  }
}
