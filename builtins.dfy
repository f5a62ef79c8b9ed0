/**
 * The cleaners bleachbit/Cleaner.py builds in code rather than from
 * CleanerML: OpenOffice.org and System with their option tables, and the
 * two ad-hoc cleaners the interface creates, one that shreds given paths and
 * one that wipes the free space of a path.
 *
 * OpenOffice.org and System override `get_commands` with filesystem
 * plumbing that is not modelled; here they are their option tables, names
 * and warnings.
 */
module Builtins {
  import opened Base
  import opened Host
  import opened Strings
  import opened Cleaners

  /** The longer user-visible texts of the built-in option tables. */
  const DesktopEntryText := "Delete broken application menu entries and file associations"
  const LocalizationsText := "Delete files for unwanted languages"
  const LocalizationsWarning := "Configure this option in the preferences."
  const RecentDocumentsText := "Delete the list of recently used documents"
  const MemoryWarning := "This option is experimental and may cause system problems."
  const MemoryText := "Wipe the swap and free memory"
  const UpdatesText := "Delete uninstallers for Microsoft updates including hotfixes, service packs, and Internet Explorer updates"
  const ClipboardText := "The desktop environment's clipboard used for copy and paste operations"
  const CustomText := "Delete user-specified files and folders"
  const FreeDiskSpaceText := "Overwrite free disk space to hide deleted files"
  const FreeDiskSpace := "free_disk_space"
  const FilesOption := "files"
  const WipeLabel := "Overwrite free disk space "
  const WipeActionKey := "__customwipeaction"

  /** The fields of `OpenOfficeOrg()` once its constructor has run. */
  function OpenOfficeOrgState(): CleanerState
  {
    EmptyCleaner
      .AddOption("cache", "Cache", "Delete the cache")
      .AddOption("recent_documents", "Most recently used", RecentDocumentsText)
      .(id := Some("openofficeorg"), name := Some("OpenOffice.org"), description := Some("Office suite"))
  }

  /** OpenOffice.org offers exactly its two options, warns about none and registers no actions. */
  lemma OpenOfficeOrgOptions()
    ensures OpenOfficeOrgState().options.Keys == {"cache", "recent_documents"}
    ensures OpenOfficeOrgState().options["recent_documents"].name == "Most recently used"
    ensures OpenOfficeOrgState().warnings == map[] && OpenOfficeOrgState().actions == []
    ensures OpenOfficeOrgState().id == Some("openofficeorg")
  {
  }

  method NewOpenOfficeOrg() returns (c: Cleaner)
    ensures fresh(c)
    ensures c.State() == OpenOfficeOrgState()
  {
    c := new Cleaner();
    c.AddOption("cache", "Cache", "Delete the cache");
    c.AddOption("recent_documents", "Most recently used", RecentDocumentsText);
    c.id := Some("openofficeorg");
    c.name := Some("OpenOffice.org");
    c.description := Some("Office suite");
  }

  /** The options of System that exist only on posix systems, in the order they are added. */
  function PosixOptions(st: CleanerState): CleanerState
  {
    st.AddOption("desktop_entry", "Broken desktop files", DesktopEntryText)
      .AddOption("cache", "Cache", "Delete the cache")
      .AddOption("localizations", "Localizations", LocalizationsText)
      .SetWarning("localizations", LocalizationsWarning)
      .AddOption("rotated_logs", "Rotated logs", "Delete old system logs")
      .AddOption("recent_documents", "Recent documents list", RecentDocumentsText)
      .AddOption("trash", "Trash", "Empty the trash")
  }

  function LinuxOptions(st: CleanerState): CleanerState
  {
    st.AddOption("memory", "Memory", MemoryText)
      .SetWarning("memory", MemoryWarning)
  }

  function WindowsOptions(st: CleanerState): CleanerState
  {
    st.AddOption("logs", "Logs", "Delete the logs")
      .AddOption("memory_dump", "Memory dump", "Delete the file memory.dmp")
      .AddOption("muicache", "MUICache", "Delete the cache")
      .AddOption("prefetch", "Prefetch", "Delete the cache")
      .AddOption("recycle_bin", "Recycle bin", "Empty the recycle bin")
      .AddOption("updates", "Update uninstallers",
        UpdatesText)
  }

  function GtkOptions(st: CleanerState): CleanerState
  {
    st.AddOption("clipboard", "Clipboard", ClipboardText)
  }

  function CommonOptions(st: CleanerState): CleanerState
  {
    st.AddOption("custom", "Custom", CustomText)
      .AddOption(FreeDiskSpace, "Free disk space", FreeDiskSpaceText)
      .SetWarning(FreeDiskSpace, "This option is very slow.")
      .AddOption("tmp", "Temporary files", "Delete the temporary files")
  }

  /** The options `System()` adds on posix systems, just for Linux, just for Windows, and with GTK. */
  function PosixStep(host: Host, st: CleanerState): CleanerState
  {
    if host.osName == "posix" then PosixOptions(st) else st
  }

  function LinuxStep(host: Host, st: CleanerState): CleanerState
  {
    if StartsWith(host.platform, "linux") then LinuxOptions(st) else st
  }

  function WindowsStep(host: Host, st: CleanerState): CleanerState
  {
    if host.osName == "nt" then WindowsOptions(st) else st
  }

  function GtkStep(host: Host, st: CleanerState): CleanerState
  {
    if host.haveGtk then GtkOptions(st) else st
  }

  /** The fields of `System()` on `host` once its constructor has run. */
  function SystemState(host: Host): CleanerState
  {
    CommonOptions(GtkStep(host, WindowsStep(host, LinuxStep(host, PosixStep(host, EmptyCleaner)))))
      .(description := Some("The system in general"), id := Some("system"), name := Some("System"))
  }

  /** The options added on every platform, whatever was added before them. */
  lemma CommonOptionsAdded(st: CleanerState)
    ensures "custom" in CommonOptions(st).options && FreeDiskSpace in CommonOptions(st).options
    ensures "tmp" in CommonOptions(st).options
    ensures CommonOptions(st).GetWarning(FreeDiskSpace) == Some("This option is very slow.")
    ensures CommonOptions(st).actions == st.actions
  {
  }

  /** None of the platform steps registers an action. */
  lemma PosixStepKeepsActions(host: Host, st: CleanerState)
    ensures PosixStep(host, st).actions == st.actions
  {
  }

  lemma LinuxStepKeepsActions(host: Host, st: CleanerState)
    ensures LinuxStep(host, st).actions == st.actions
  {
  }

  lemma WindowsStepKeepsActions(host: Host, st: CleanerState)
    ensures WindowsStep(host, st).actions == st.actions
  {
  }

  lemma GtkStepKeepsActions(host: Host, st: CleanerState)
    ensures GtkStep(host, st).actions == st.actions
  {
  }

  /**
   * System offers custom, free disk space and temporary files everywhere,
   * warns about free disk space, and registers no actions of its own.
   */
  lemma SystemCommonOptions(host: Host)
    ensures var st := SystemState(host);
      && "custom" in st.options && FreeDiskSpace in st.options && "tmp" in st.options
      && st.GetWarning(FreeDiskSpace) == Some("This option is very slow.")
      && st.id == Some("system") && st.actions == []
  {
    var s1 := PosixStep(host, EmptyCleaner);
    var s2 := LinuxStep(host, s1);
    var s3 := WindowsStep(host, s2);
    var s4 := GtkStep(host, s3);
    PosixStepKeepsActions(host, EmptyCleaner);
    LinuxStepKeepsActions(host, s1);
    WindowsStepKeepsActions(host, s2);
    GtkStepKeepsActions(host, s3);
    CommonOptionsAdded(s4);
  }

  method NewSystem(host: Host) returns (c: Cleaner)
    ensures fresh(c)
    ensures c.State() == SystemState(host)
    ensures c.regexesCompiled == []
  {
    c := new Cleaner();
    ApplyPosixStep(host, c);
    ApplyLinuxStep(host, c);
    ApplyWindowsStep(host, c);
    ApplyGtkStep(host, c);
    AddCommonOptions(c);
    c.description := Some("The system in general");
    c.id := Some("system");
    c.name := Some("System");
  }

  method ApplyPosixStep(host: Host, c: Cleaner)
    modifies c
    ensures c.regexesCompiled == old(c.regexesCompiled)
    ensures c.State() == PosixStep(host, old(c.State()))
  {
    if host.osName == "posix" {
      AddPosixOptions(c);
    }
  }

  method ApplyLinuxStep(host: Host, c: Cleaner)
    modifies c
    ensures c.regexesCompiled == old(c.regexesCompiled)
    ensures c.State() == LinuxStep(host, old(c.State()))
  {
    if StartsWith(host.platform, "linux") {
      AddLinuxOptions(c);
    }
  }

  method ApplyWindowsStep(host: Host, c: Cleaner)
    modifies c
    ensures c.regexesCompiled == old(c.regexesCompiled)
    ensures c.State() == WindowsStep(host, old(c.State()))
  {
    if host.osName == "nt" {
      AddWindowsOptions(c);
    }
  }

  method ApplyGtkStep(host: Host, c: Cleaner)
    modifies c
    ensures c.regexesCompiled == old(c.regexesCompiled)
    ensures c.State() == GtkStep(host, old(c.State()))
  {
    if host.haveGtk {
      c.AddOption("clipboard", "Clipboard", ClipboardText);
    }
  }

  method AddPosixOptions(c: Cleaner)
    modifies c`options, c`warnings
    ensures c.State() == PosixOptions(old(c.State()))
  {
    c.AddOption("desktop_entry", "Broken desktop files", DesktopEntryText);
    c.AddOption("cache", "Cache", "Delete the cache");
    c.AddOption("localizations", "Localizations", LocalizationsText);
    c.SetWarning("localizations", LocalizationsWarning);
    c.AddOption("rotated_logs", "Rotated logs", "Delete old system logs");
    c.AddOption("recent_documents", "Recent documents list", RecentDocumentsText);
    c.AddOption("trash", "Trash", "Empty the trash");
  }

  method AddLinuxOptions(c: Cleaner)
    modifies c`options, c`warnings
    ensures c.State() == LinuxOptions(old(c.State()))
  {
    c.AddOption("memory", "Memory", MemoryText);
    c.SetWarning("memory", MemoryWarning);
  }

  method AddWindowsOptions(c: Cleaner)
    modifies c`options, c`warnings
    ensures c.State() == WindowsOptions(old(c.State()))
  {
    c.AddOption("logs", "Logs", "Delete the logs");
    c.AddOption("memory_dump", "Memory dump", "Delete the file memory.dmp");
    c.AddOption("muicache", "MUICache", "Delete the cache");
    c.AddOption("prefetch", "Prefetch", "Delete the cache");
    c.AddOption("recycle_bin", "Recycle bin", "Empty the recycle bin");
    c.AddOption("updates", "Update uninstallers",
      UpdatesText);
  }

  method AddCommonOptions(c: Cleaner)
    modifies c`options, c`warnings
    ensures c.State() == CommonOptions(old(c.State()))
  {
    c.AddOption("custom", "Custom", CustomText);
    c.AddOption(FreeDiskSpace, "Free disk space", FreeDiskSpaceText);
    c.SetWarning(FreeDiskSpace, "This option is very slow.");
    c.AddOption("tmp", "Temporary files", "Delete the temporary files");
  }

  /** One member of the list given to `create_simple_cleaner`: a string, or some other Python value. */
  datatype PathArg = PathString(path: string) | NotAString(repr: string)

  /** The absolute form of a path, as `get_commands` of the custom file action computes it. */
  function Absolute(path: string, host: Host): string
  {
    if host.isAbs(path) then path else host.absPath(path)
  }

  /** A shred of each path, in order. */
  function ShredAll(paths: seq<string>): seq<Command>
  {
    seq(|paths|, i requires 0 <= i < |paths| => Shred(paths[i]))
  }

  /** What one string path contributes: a directory's children (recursively listed), then the directory; or the file. */
  function ShredBlock(path: string, host: Host): seq<Command>
  {
    var p := Absolute(path, host);
    if host.isDir(p) then ShredAll(host.childrenInDirectory(p)) + [Shred(p)] else [Shred(p)]
  }

  /** `get_commands` of the custom file action, drained: path by path, stopping at the first non-string. */
  function ShredCommands(paths: seq<PathArg>, host: Host): Yield<Command>
  {
    if paths == [] then Yield([], None)
    else match paths[0]
      case NotAString(repr) => Yield([], Some(NotAPath(repr)))
      case PathString(p) =>
        var rest := ShredCommands(paths[1..], host);
        Yield(ShredBlock(p, host) + rest.items, rest.raised)
  }

  /** The commands of the first `k` paths, when none of them is a non-string. */
  function ShredPrefix(paths: seq<PathArg>, host: Host): seq<Command>
    requires forall i :: 0 <= i < |paths| ==> paths[i].PathString?
  {
    if paths == [] then [] else ShredBlock(paths[0].path, host) + ShredPrefix(paths[1..], host)
  }

  /**
   * The commands start with those of every string path before the first
   * non-string one; that one, if any, ends the stream with "expected path as
   * string", and otherwise nothing is raised.
   */
  lemma {:induction false} ShredCommandsShape(paths: seq<PathArg>, host: Host, k: nat)
    requires k <= |paths|
    requires forall i :: 0 <= i < k ==> paths[i].PathString?
    ensures |ShredPrefix(paths[..k], host)| <= |ShredCommands(paths, host).items|
    ensures ShredCommands(paths, host).items[..|ShredPrefix(paths[..k], host)|] == ShredPrefix(paths[..k], host)
    ensures k < |paths| && paths[k].NotAString? ==>
      ShredCommands(paths, host) == Yield(ShredPrefix(paths[..k], host), Some(NotAPath(paths[k].repr)))
    ensures k == |paths| ==> ShredCommands(paths, host) == Yield(ShredPrefix(paths, host), None)
  {
    if k > 0 {
      ShredCommandsShape(paths[1..], host, k - 1);
      assert paths[..k][1..] == paths[1..][..k - 1];
      if k == |paths| {
        assert paths[..k] == paths;
      }
    }
  }

  /**
   * For each directory among the paths reached, the commands of the earlier
   * paths come first, then a shred of every child of the directory, in
   * listing order, then a shred of the directory itself.
   */
  lemma ChildrenBeforeDirectory(paths: seq<PathArg>, host: Host, k: nat)
    requires k < |paths| && paths[k].PathString?
    requires forall i :: 0 <= i < k ==> paths[i].PathString?
    requires host.isDir(Absolute(paths[k].path, host))
    ensures var dir := Absolute(paths[k].path, host);
            var children := host.childrenInDirectory(dir);
            var items := ShredCommands(paths, host).items;
            var off := |ShredPrefix(paths[..k], host)|;
            off + |children| < |items|
            && items[off + |children|] == Shred(dir)
            && forall j :: 0 <= j < |children| ==> items[off + j] == Shred(children[j])
  {
    BlockFollowsPrefix(paths, host, k);
    var dir := Absolute(paths[k].path, host);
    var children := host.childrenInDirectory(dir);
    var items := ShredCommands(paths, host).items;
    var pre := ShredPrefix(paths[..k], host);
    assert ShredBlock(paths[k].path, host) == ShredAll(children) + [Shred(dir)];
    SliceAt(items, pre, ShredAll(children) + [Shred(dir)], |children|);
    forall j | 0 <= j < |children|
      ensures items[|pre| + j] == Shred(children[j])
    {
      ChildAt(items, pre, children, dir, j);
    }
  }

  /** Where a directory's block starts, the shred of child `j` comes `j` places in. */
  lemma ChildAt(items: seq<Command>, pre: seq<Command>, children: seq<string>, dir: string, j: nat)
    requires |pre| + |children| + 1 <= |items|
    requires items[..|pre| + |children| + 1] == pre + (ShredAll(children) + [Shred(dir)])
    requires j < |children|
    ensures items[|pre| + j] == Shred(children[j])
  {
    SliceAt(items, pre, ShredAll(children) + [Shred(dir)], j);
  }

  /** The block of path `k` follows the commands of the string paths before it. */
  lemma BlockFollowsPrefix(paths: seq<PathArg>, host: Host, k: nat)
    requires k < |paths| && paths[k].PathString?
    requires forall i :: 0 <= i < k ==> paths[i].PathString?
    ensures var pre := ShredPrefix(paths[..k], host);
            var block := ShredBlock(paths[k].path, host);
            var items := ShredCommands(paths, host).items;
            |pre| + |block| <= |items| && items[..|pre| + |block|] == pre + block
  {
    ShredCommandsShape(paths, host, k + 1);
    PrefixSplit(paths[..k + 1], host);
    assert paths[..k + 1][..k] == paths[..k];
  }

  /** A sequence that starts with `pre + block` holds `block[j]` at `|pre| + j`. */
  lemma SliceAt<T>(items: seq<T>, pre: seq<T>, block: seq<T>, j: nat)
    requires |pre| + |block| <= |items| && items[..|pre| + |block|] == pre + block
    requires j < |block|
    ensures items[|pre| + j] == block[j]
  {
    assert items[|pre| + j] == items[..|pre| + |block|][|pre| + j];
  }

  /** The commands of a list of string paths are those of all but the last, then the last one's. */
  lemma {:induction false} PrefixSplit(paths: seq<PathArg>, host: Host)
    requires |paths| > 0 && forall i :: 0 <= i < |paths| ==> paths[i].PathString?
    ensures ShredPrefix(paths, host) == ShredPrefix(paths[..|paths| - 1], host) + ShredBlock(paths[|paths| - 1].path, host)
  {
    if |paths| > 1 {
      PrefixSplit(paths[1..], host);
      assert paths[1..][..|paths[1..]| - 1] == paths[..|paths| - 1][1..];
    }
  }

  /** The fields of `create_simple_cleaner(paths)`: one option, "files", whose one provider shreds the paths. */
  function SimpleCleanerState(paths: seq<PathArg>, host: Host): CleanerState
  {
    EmptyCleaner
      .AddOption(FilesOption, "", "")
      .(name := Some("System"))
      .AddAction(FilesOption, Provider("__customfileaction", ShredCommands(paths, host), Yield([], None)))
  }

  /** Asking the simple cleaner for its "files" commands is exactly shredding the paths. */
  lemma SimpleCleanerCommands(paths: seq<PathArg>, host: Host)
    ensures SimpleCleanerState(paths, host).Commands(FilesOption) == ShredCommands(paths, host)
    ensures SimpleCleanerState(paths, host).IsUsable()
  {
    SoleActionCommands(SimpleCleanerState(paths, host), FilesOption);
  }

  /** Any other option id is unknown to the simple cleaner. */
  lemma SimpleCleanerUnknownOption(paths: seq<PathArg>, host: Host, other: string)
    requires other != FilesOption
    ensures SimpleCleanerState(paths, host).Commands(other) == Yield([], Some(UnknownOption(other)))
  {
    var st := SimpleCleanerState(paths, host);
    assert st.options.Keys == {FilesOption};
    SoleActionCommands(st, other);
  }

  method CreateSimpleCleaner(paths: seq<PathArg>, host: Host) returns (c: Cleaner)
    ensures fresh(c)
    ensures c.State() == SimpleCleanerState(paths, host)
  {
    c := new Cleaner();
    c.AddOption(FilesOption, "", "");
    c.name := Some("System");
    var provider := Provider("__customfileaction", ShredCommands(paths, host), Yield([], None));
    c.AddAction(FilesOption, provider);
  }

  /** The fields of `create_wipe_cleaner(path)`: option FreeDiskSpace with one function command. */
  function WipeCleanerState(path: string): CleanerState
  {
    var display := WipeLabel + path;
    EmptyCleaner
      .AddOption(FreeDiskSpace, "", "")
      .(name := Some(""))
      .AddAction(FreeDiskSpace, Provider(WipeActionKey, Yield([Function(None, display)], None), Yield([], None)))
  }

  /** The wipe cleaner yields exactly one command, a function on no path whose label names `path`. */
  lemma WipeCleanerCommands(path: string)
    ensures WipeCleanerState(path).Commands(FreeDiskSpace) == Yield([Function(None, WipeLabel + path)], None)
    ensures WipeCleanerState(path).IsUsable()
  {
    SoleActionCommands(WipeCleanerState(path), "");
  }

  method CreateWipeCleaner(path: string) returns (c: Cleaner)
    ensures fresh(c)
    ensures c.State() == WipeCleanerState(path)
  {
    c := new Cleaner();
    c.AddOption(FreeDiskSpace, "", "");
    c.name := Some("");
    var display := WipeLabel + path;
    c.AddAction(FreeDiskSpace, Provider(WipeActionKey, Yield([Function(None, display)], None), Yield([], None)));
  }
}
