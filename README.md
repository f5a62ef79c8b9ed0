# BleachBit's rule engine, in Dafny

This project models the rule engine behind BleachBit's cleaners, and proves properties of it.

- **The `Cleaner` object** (`bleachbit/Cleaner.py`) holds the following state:
  - an ordered list of `(option_id, provider)` actions;
  - the options, a map from id to `(name, description)`;
  - a warnings map;
  - an ordered list of running-detection entries;
  - a whitelist of regular expressions, compiled on first use.

  Its queries are rules over that state:
  - `get_commands` and `get_deep_scan` filter the actions by option id and keep registration order. They raise "Unknown option" for an id that is not an option.
  - `get_options` and `get_option_descriptions` list the options in ascending id order.
  - `is_running` stops at the first decisive detection entry.
  - `auto_hide` probes every option, swallowing each option's exceptions.

  Around the class sit:
  - the two hard-coded cleaners, OpenOffice.org and System;
  - the factories `create_simple_cleaner` and `create_wipe_cleaner`;
  - the process-wide registry `backends`, which `register_cleaners` empties and refills.

- **The CleanerML loader** (`bleachbit/CleanerML.py`) is an interpreter over an already-parsed XML tree:
  - `os_match` is the platform-family test;
  - the `handle_*` methods build one cleaner out of `<var>`, `<option>`, `<action>`, `<running>` and `<localizations>` elements, isolating faults per option;
  - `list_cleanerml_files` chooses the directories and filters the files found there;
  - `load_cleaners` admits only usable cleaners into the registry;
  - `pot_fragment` serialises one translatable string.

## Design

The code is split into these modules:

| module | contents |
|---|---|
| `Base` | `Option` and `Result`; the engine's exceptions, one constructor per cause; `Yield(items, raised)` |
| `Xml` | the parsed document tree, `getAttribute`, `getElementsByTagName` (descendants in document order, each marked as a direct child or not), and the text of a node |
| `Host` | everything outside the engine, passed in as the value `Host` |
| `Order` | Python's ordering of `str` and `sorted(d.keys())` |
| `Strings` | `startswith`, `endswith`, substring containment and `lower` |
| `Cleaners` | `CleanerState`, the values of a cleaner's fields; class `Cleaner`, the object updated in place; the `get_commands`/`auto_hide`/`is_running` rules; class `Registry` for `backends` |
| `Builtins` | `OpenOfficeOrg()`, `System()`, `create_simple_cleaner` and `create_wipe_cleaner` |
| `CleanerML` | `os_match`; the loader; file listing; `load_cleaners`; `pot_fragment` |
| `Registration` | `register_cleaners`, which needs both `Cleaners` and `CleanerML` |

`Yield(items, raised)` is a Python generator as a `for` loop drains it: the items it yielded, in order, then the exception that ended it, if any.

`Host` holds the following:
- `os.name` and `sys.platform`;
- `HAVE_GTK`;
- process lookup;
- path expansion and globbing;
- filesystem queries;
- the regular-expression matcher;
- the XML parser;
- the installation's cleaner directories.

Every handler of the loader can fail, because `os_match` raises on an unknown platform. Each handler is therefore specified by a function that returns `Run(state, raised)`: the loader state it reached, paired with the exception that stopped it. The state matters even on failure, because an option that fails keeps the actions it registered before the failure.

The class `CleanerML.Loader` has the fields of the source's `CleanerML` object. Each `Handle*` method is proved to leave exactly the state, and raise exactly the exception, that its specification function gives. The registry methods are proved in the same way against `AdmitAll`, a function over maps.

## Model

| member | source | states |
|---|---|---|
| Cleaners.Cleaner.constructor | bleachbit/Cleaner.py:73-81 | A new cleaner has no id, name, description, options, actions, running entries, warnings or compiled patterns |
| Cleaners.Cleaner.AddAction | bleachbit/Cleaner.py:83-87 | `actions` becomes the old list plus `(option_id, provider)` at the end; earlier entries are unchanged and duplicates are kept |
| Cleaners.Cleaner.AddOption | bleachbit/Cleaner.py:89-91 | `options[option_id]` becomes `(name, description)`, replacing any earlier entry; no other option changes |
| Cleaners.Cleaner.AddRunning | bleachbit/Cleaner.py:93-95 | `running` becomes the old list plus `(type, pathname)` at the end |
| Cleaners.Cleaner.SetWarning | bleachbit/Cleaner.py:201-204 | Afterwards `get_warning(option_id)` is the new text, and every other id's warning is what it was |
| Cleaners.WarningLastSet | bleachbit/Cleaner.py:161-166 | `get_warning` returns the text last set for that id, and setting one id's warning leaves every other id's answer unchanged |
| Cleaners.Cleaner.GetCommands | bleachbit/Cleaner.py:114-121 | The loop over `actions` yields what the specification `Commands` gives: the matching providers' commands in registration order, stopping at the first provider that raises, then "Unknown option" if the id is not an option |
| Cleaners.Cleaner.GetDeepScan | bleachbit/Cleaner.py:123-132 | The same for deep-scan entries |
| Cleaners.MatchingExactly | bleachbit/Cleaner.py:116-117 | A provider is consulted for an id exactly when it was registered under that id |
| Cleaners.CommandsWhenProvidersSucceed | bleachbit/Cleaner.py:114-121 | When no matching provider raises, the output is all matching providers' commands in registration order. It raises iff the id is not an option, and then the exception is "Unknown option" after everything was yielded |
| Cleaners.DeepScanWhenProvidersSucceed | bleachbit/Cleaner.py:123-132 | The same for `get_deep_scan` |
| Cleaners.ChainCommandsStops | bleachbit/Cleaner.py:116-119 | The first provider that raises ends `get_commands`: the output is every provider's commands up to and including that one, then its exception |
| Cleaners.ChainDeepScanStops | bleachbit/Cleaner.py:125-129 | The same for `get_deep_scan`: the first provider that raises ends it, after the entries of every provider up to and including that one |
| Cleaners.UsableIffSomeProvider | bleachbit/Cleaner.py:197-199 | `is_usable` holds exactly when `get_commands` consults some provider for some option id, that is, when some action is registered |
| Cleaners.Cleaner.GetOptions | bleachbit/Cleaner.py:155-159 | One `(id, name)` pair per option, in the order `sorted(options.keys())` gives; ids strictly ascending; every option listed; nothing for no options |
| Cleaners.ListsOptionsSorted | bleachbit/Cleaner.py:155-159 | A listing in `sorted` order has strictly ascending ids and lists every option |
| Cleaners.Cleaner.GetOptionDescriptions | bleachbit/Cleaner.py:146-151 | One `(name, description)` pair per option, in ascending id order |
| Order.SortedKeysSorted | bleachbit/Cleaner.py:158 | `sorted(keys)` holds exactly the keys, in strictly ascending order under Python's `str` comparison |
| Order.AscendingUnique | bleachbit/Cleaner.py:158 | Two strictly ascending lists with the same members are equal, so the sorted listing is determined by the set of keys |
| Order.BelowTotal | bleachbit/Cleaner.py:158 | Python's `<` on `str` orders any two distinct strings |
| Order.BelowTransitive | bleachbit/Cleaner.py:158 | Python's `<` on `str` is transitive |
| Cleaners.Cleaner.IsRunning | bleachbit/Cleaner.py:168-195 | The first entry that is not "not running" decides. The result is true iff that entry finds the process or a matching path. It is false iff every entry comes out "not running". It raises "Unknown running-detection test" iff the first decisive entry has an unknown type, including `exe` on an OS that is neither posix nor nt |
| Cleaners.Cleaner.ProbeOption | bleachbit/Cleaner.py:101-108 | Probing one option gives the verdict `OptionVerdict` describes: commands first, then deep-scan entries |
| Cleaners.OptionShowsIff | bleachbit/Cleaner.py:101-108 | An option forbids hiding iff some command yields when executed and every command before it was silent, or the commands were silent and some deep-scan entry is a dict |
| Cleaners.CommandVerdictShows | bleachbit/Cleaner.py:103-105 | The command loop finds something to do iff some command yields and all earlier ones are silent |
| Cleaners.DeepScanVerdictShows | bleachbit/Cleaner.py:106-108 | The deep-scan loop finds something to do iff some entry is a dict |
| Cleaners.Cleaner.AutoHide | bleachbit/Cleaner.py:97-112 | The result is true iff no option's probe shows something to do. An option whose probe raises counts as nothing to do, and probing continues |
| Cleaners.Cleaner.InitWhitelist | bleachbit/Cleaner.py:645-673 | `regexes_compiled` gains the nineteen whitelist patterns, in source order, with `~` expanded in the last six |
| Cleaners.Cleaner.AppendCompiled | bleachbit/Cleaner.py:672-673 | The loop appends every pattern, in order, after the ones already compiled |
| Cleaners.Cleaner.Whitelisted | bleachbit/Cleaner.py:675-682 | The whitelist is compiled on the first call only and is never rebuilt. Afterwards it is non-empty. The result is true iff some pattern matches at the start of the path |
| Cleaners.Registry.Clear | bleachbit/Cleaner.py:691 | `backends` is empty afterwards |
| Cleaners.Registry.Register | bleachbit/Cleaner.py:694-695 | `backends[id]` becomes the cleaner, replacing any earlier entry; no other id changes |
| Registration.RegisterCleaners | bleachbit/Cleaner.py:685-699 | Whatever `backends` held before, it is emptied, holds OpenOffice.org and System under their ids, and then holds every cleaner `load_cleaners` admits on top of those; the `os.stat` error that ends the listing, if any, escapes it |
| Registration.HardCodedUnlessOverridden | bleachbit/Cleaner.py:693-699 | After registration, `openofficeorg` and `system` are present and hold the hard-coded cleaners, unless a loaded CleanerML cleaner with the same id replaced them |
| Registration.RegisteredIds | bleachbit/Cleaner.py:685-699 | The registered ids are exactly `openofficeorg`, `system` and the ids of the admitted CleanerML cleaners |
| Builtins.NewOpenOfficeOrg | bleachbit/Cleaner.py:211-219 | The constructor leaves the fields `OpenOfficeOrgState` lists |
| Builtins.OpenOfficeOrgOptions | bleachbit/Cleaner.py:211-219 | OpenOffice.org offers exactly `cache` and `recent_documents`, has id `openofficeorg`, and has no warnings and no registered actions |
| Builtins.NewSystem | bleachbit/Cleaner.py:286-371 | The constructor leaves the fields `SystemState` gives for the host. Its options are the posix, Linux, Windows and GTK groups, each present only when its condition holds, then the common options. No whitelist pattern is compiled yet, so the first `whitelisted` call compiles them |
| Builtins.SystemCommonOptions | bleachbit/Cleaner.py:359-371 | On every platform, System offers `custom`, `free_disk_space` and `tmp`. It warns that `free_disk_space` is very slow, has id `system` and registers no actions |
| Builtins.CreateSimpleCleaner | bleachbit/Cleaner.py:707-733 | The cleaner built has one option, `files`, with one provider whose commands shred the given paths |
| Builtins.SimpleCleanerCommands | bleachbit/Cleaner.py:718-731 | Asking the simple cleaner for `files` gives exactly the provider's shred commands, and the cleaner is usable |
| Builtins.SimpleCleanerUnknownOption | bleachbit/Cleaner.py:709 | Any other option id yields nothing and raises "Unknown option" |
| Builtins.ShredCommandsShape | bleachbit/Cleaner.py:719-731 | The commands begin with those of every string path before the first non-string. That non-string, if any, ends the stream with "expected path as string"; with none, nothing is raised |
| Builtins.ChildrenBeforeDirectory | bleachbit/Cleaner.py:722-729 | After the commands of the earlier paths, a directory path yields a shred of each of its children, in listing order, and then a shred of the directory itself |
| Builtins.CreateWipeCleaner | bleachbit/Cleaner.py:736-761 | The cleaner built has one option, `free_disk_space`, and the custom wipe provider |
| Builtins.WipeCleanerCommands | bleachbit/Cleaner.py:756-757 | The wipe cleaner yields exactly one command, a function on no path labelled "Overwrite free disk space" followed by the path, and it is usable |
| CleanerML.OsMatchBlankOrTranslating | bleachbit/CleanerML.py:90-91 | An empty `os` matches every platform, and in translation mode every `os` matches |
| CleanerML.OsMatchLinux | bleachbit/CleanerML.py:99-100 | On a `linux*` platform, the test is true exactly for `linux` and `unix` |
| CleanerML.OsMatchDarwin | bleachbit/CleanerML.py:96-97 | On `darwin`, the test is true exactly for `darwin`, `bsd` and `unix` |
| CleanerML.OsMatchBsd | bleachbit/CleanerML.py:102-110 | On `openbsd*`, `netbsd*` or `freebsd*`, the test is true exactly for `bsd`, `unix` and the flavour's own name |
| CleanerML.OsMatchWindows | bleachbit/CleanerML.py:111-118 | On `win32`, the test is substring containment in `"windows"`: `win` matches, `linux` does not |
| CleanerML.OsMatchUnknown | bleachbit/CleanerML.py:114-115 | Any other platform raises "Unknown operating system" for every non-empty `os` |
| CleanerML.OsMatchUnknownFamily | bleachbit/CleanerML.py:99-118 | On every known platform, a non-blank requirement that is no family name and no substring of "windows" is not met, and nothing is raised |
| CleanerML.OsMatchBogusOnLinux | bleachbit/CleanerML.py:99-118 | For instance `os_match('bogus')` on `linux2` is false |
| CleanerML.DeclareValuesPrepends | bleachbit/CleanerML.py:304-320 | When no `<value>` raises, a variable's new list is the matching values' lists in front of what it held, each later one first. Values for another OS contribute nothing, and no other variable changes |
| CleanerML.DeclaredMatch | bleachbit/CleanerML.py:314-320 | One matching value prepends its list, which is the step that `DeclareValuesPrepends` repeats |
| CleanerML.DeclaredSkip | bleachbit/CleanerML.py:306-307 | A value for another OS changes nothing |
| CleanerML.LaterValueFirst | bleachbit/CleanerML.py:309-320 | Declaring the non-glob values `x` then `y` gives `[y, x]` |
| CleanerML.Loader.HandleCleanerVar | bleachbit/CleanerML.py:293-320 | The `vars` field ends as `DeclareVar` says, and nothing else in the loader changes |
| CleanerML.Loader.HandleVars | bleachbit/CleanerML.py:143-144 | The `for var` loop of `handle_cleaner` ends as `DeclareVars` says, and nothing else in the loader changes |
| CleanerML.ResolveLastWins | bleachbit/CleanerML.py:271-274 | When several plugins have the command's action key, the last one builds the provider |
| CleanerML.ResolveNoMatch | bleachbit/CleanerML.py:271-276 | When no plugin has the key, no provider is found |
| CleanerML.ResolveFails | bleachbit/CleanerML.py:273-274 | A plugin that raises while building ends the lookup with its exception |
| CleanerML.OptionActionOtherOs | bleachbit/CleanerML.py:268-269 | An action for another OS changes nothing and raises nothing |
| CleanerML.OptionActionInvalidCommand | bleachbit/CleanerML.py:275-276 | A matching action whose command no plugin has raises "Invalid command" and registers nothing |
| CleanerML.OptionActionRegistersLast | bleachbit/CleanerML.py:266-277 | A matching action is registered at the end of `actions`, under the current option id, with the provider the last matching plugin builds |
| CleanerML.OptionAction | bleachbit/CleanerML.py:266-277 | Whatever happens, existing actions stay, and any new ones sit under the current option id |
| CleanerML.Loader.HandleCleanerOptionAction | bleachbit/CleanerML.py:266-277 | The method leaves the cleaner and raises exactly as `OptionAction` says |
| CleanerML.Loader.HandleOptionActions | bleachbit/CleanerML.py:234-235 | The `for action` loop of `handle_cleaner_option` ends as `OptionActions` says |
| CleanerML.OptionHeader | bleachbit/CleanerML.py:207-232 | The option's id is recorded. When nothing raises, the option has a label and a description, and its name and description are their text. Only warnings change in the cleaner: a non-blank first `<warning>` becomes the option's warning, and a blank or missing one changes nothing. A missing label or description raises before any change |
| CleanerML.OptionWarningSet | bleachbit/CleanerML.py:207-232 | For an option with a label and a description, `get_warning` afterwards gives its non-blank first `<warning>`, even when an action raised; a blank or missing one leaves it as it was, and other options' warnings do not change |
| CleanerML.OptionStepOk | bleachbit/CleanerML.py:207-241 | An option that does not raise got through its header, and is added with the name and description the header read |
| CleanerML.OptionStep | bleachbit/CleanerML.py:207-239 | Handling one option keeps the cleaner's id, variables, running entries, earlier actions and earlier options. When it does not raise, the option is added |
| CleanerML.FailedOptionNotAdded | bleachbit/CleanerML.py:234-239 | An option that raises is not added, and the actions it appended before the failure all sit under its id |
| CleanerML.FailedOptionKeepsActions | bleachbit/CleanerML.py:234-239 | When the option's action loop has run some actions without raising, the actions they registered are a prefix of the option's final actions, whether or not a later action raises |
| CleanerML.PrefixActionsStay | bleachbit/CleanerML.py:234-235 | The actions registered by the first `j` `<action>` elements stay, in order, as the loop goes on |
| CleanerML.OptionAdded | bleachbit/CleanerML.py:237-239 | An option that does not raise is added with the text of its first label and first description |
| CleanerML.Loader.HandleCleanerOption | bleachbit/CleanerML.py:207-239 | The method leaves the loader and raises exactly as `OptionStep` says |
| CleanerML.LaterOptionsStillLoad | bleachbit/CleanerML.py:146-155 | Whatever the earlier options did, an option whose handler does not raise when the loop reaches it is an option of the cleaner once the option loop is over |
| CleanerML.OptionSurvivesBody | bleachbit/CleanerML.py:143-159 | Once the `<var>` declarations went through, an option whose handler does not raise when the loop reaches it is still an option of the cleaner after the `<running>` entries and the localizations |
| CleanerML.OptionSurvivesCleaner | bleachbit/CleanerML.py:121-159 | For a matching root with a `<label>` whose `<var>` declarations went through, an option whose handler does not raise when the loop reaches it is an option of the cleaner `handle_cleaner` leaves |
| CleanerML.Options | bleachbit/CleanerML.py:146-155 | The option loop keeps the cleaner's id, variables and running entries, and every earlier action and option |
| CleanerML.Loader.HandleBody | bleachbit/CleanerML.py:143-159 | After the root's id, name and description are set, the variables, options, running entries and localizations are handled in that order, ending as `CleanerBody` says; a raising `<var>` or `<running>` stops the cleaner |
| CleanerML.Loader.HandleOptions | bleachbit/CleanerML.py:146-155 | The option loop, catching each option's exception, ends as `Options` says |
| CleanerML.RunningEntries | bleachbit/CleanerML.py:191-203 | Only `running` changes, and nothing outside the cleaner |
| CleanerML.RunningEntriesRecord | bleachbit/CleanerML.py:191-203 | When no entry's `os_match` raises, `running` becomes the old list followed by the type and text of each `<running>` for this OS, in document order, stored as written with no check of the type |
| CleanerML.RunningEntriesStop | bleachbit/CleanerML.py:196-197 | The first entry whose `os_match` raises ends the loop with that exception, after the detections of the entries before it are recorded |
| CleanerML.RunningEntriesSplit | bleachbit/CleanerML.py:194-203 | Entries whose `os_match` does not raise record their detections, and the loop then continues unchanged from that state |
| CleanerML.Loader.HandleCleanerRunning | bleachbit/CleanerML.py:191-203 | The method ends as `RunningEntries` says, so by `RunningEntriesRecord` each matching `<running>` adds its type and text |
| CleanerML.Localizations | bleachbit/CleanerML.py:282-291 | Off posix nothing changes; on posix exactly one dummy `localization` action is appended, with or without `<localizations>` elements, so the cleaner is usable; id and options stay as they were |
| CleanerML.Loader.HandleLocalizations | bleachbit/CleanerML.py:282-291 | The method ends as `Localizations` says |
| CleanerML.RootMismatchDoesNothing | bleachbit/CleanerML.py:125-126 | A root whose `os` does not match leaves the loader exactly as it was: no id, option or action |
| CleanerML.PosixCleanerUsable | bleachbit/CleanerML.py:121-160 | On posix, a cleaner whose root matched and whose handling did not raise is usable |
| CleanerML.UsableHasId | bleachbit/CleanerML.py:121-160 | A fresh cleaner that ends usable also has an id |
| CleanerML.Loader.HandleCleaner | bleachbit/CleanerML.py:121-160 | The method leaves the loader and raises exactly as `CleanerStep` says |
| CleanerML.Loader.Parse | bleachbit/CleanerML.py:71-73 | Parsing the file and handling its first `<cleaner>` element ends as `LoadFrom` says |
| CleanerML.Loader.constructor | bleachbit/CleanerML.py:55-61 | A new loader has no current option, no variables and a fresh cleaner |
| CleanerML.LoadedUsableHasId | bleachbit/CleanerML.py:350-352 | Every usable cleaner a file loads into has an id to be stored under |
| CleanerML.Admitted | bleachbit/CleanerML.py:344-352 | What a file contributes to the registry is a usable cleaner with an id, or nothing; the file is loaded with translation mode off, as `CleanerML(pathname)` runs without a callback |
| CleanerML.OtherOsNotAdmitted | bleachbit/CleanerML.py:64-65 | Because `load_cleaners` passes no translation callback, a file whose `<cleaner>` root names another OS is never admitted, whatever the caller's mode |
| CleanerML.CleanerDirs | bleachbit/CleanerML.py:325-330 | `local_cleaners_dir`, when set, replaces the personal directory. The system directory follows unless `local_only` |
| CleanerML.SelectFilesExactly | bleachbit/CleanerML.py:331-339 | When no `os.stat` fails, a path is yielded iff it is listed in the directories, ends in `.xml` in any case, and is not world-writable or the platform is win32 |
| CleanerML.SelectFilesRaises | bleachbit/CleanerML.py:331-335 | The listing raises iff some entry ending in `.xml` cannot be stat-ed; other entries are never stat-ed |
| CleanerML.SelectFilesSound | bleachbit/CleanerML.py:331-339 | Whether or not the listing raises, every path yielded is a listed cleaner file, and no more paths are yielded than listed |
| CleanerML.SelectFilesStopsAt | bleachbit/CleanerML.py:331-339 | The first `.xml` entry whose `os.stat` fails ends the listing: only the files before it are yielded, and its error is raised |
| CleanerML.SelectFilesStopsHere | bleachbit/CleanerML.py:331-339 | When the listing up to an entry ran without error and that entry's `os.stat` fails, the listing ends there with that error |
| CleanerML.ListCleanerMLFiles | bleachbit/CleanerML.py:323-339 | The filtering loop yields exactly `SelectFiles` of the listed entries, in listing order, and stops with the error of the first `os.stat` that fails |
| Strings.Lower | bleachbit/CleanerML.py:332 | `lower()` changes only the letters A-Z, character by character |
| CleanerML.LoadFile | bleachbit/CleanerML.py:344-352 | Loading one file, with translation mode off, gives a cleaner that is admitted iff parsing raised nothing and the cleaner is usable |
| CleanerML.LoadOne | bleachbit/CleanerML.py:344-354 | One file's outcome is stored under its id, or changes nothing |
| CleanerML.LoadCleaners | bleachbit/CleanerML.py:342-354 | The registry ends as `AdmitAll` of the outcomes of the files yielded, in order; an `os.stat` error of the listing, raised outside the `try`, ends the loop after the files before it and is raised to the caller |
| CleanerML.AdmitAllKeys | bleachbit/CleanerML.py:350-352 | After loading, an id is registered iff it was before or some admitted cleaner has it |
| CleanerML.AdmitAllLastWins | bleachbit/CleanerML.py:350-352 | The cleaner stored under an id is the last admitted one with that id |
| CleanerML.AdmitAllUntouched | bleachbit/CleanerML.py:350-352 | An id that no admitted cleaner has keeps its entry |
| CleanerML.NotAdmittedChangesNothing | bleachbit/CleanerML.py:345-354 | A file that raised, or whose cleaner has no actions, leaves the registry unchanged |
| CleanerML.EscapeRoundTrip | bleachbit/CleanerML.py:360 | Escaping every `"` as `\"` loses nothing: reading the escapes back gives the original msgid |
| CleanerML.EscapeQuotesEscaped | bleachbit/CleanerML.py:360 | Every `"` in the escaped msgid is preceded by a backslash |
| CleanerML.EscapeNoLeadingQuote | bleachbit/CleanerML.py:360 | The escaped msgid never begins with a bare `"` |
| CleanerML.PotFragmentShape | bleachbit/CleanerML.py:357-370 | The fragment starts with a `#. ` translators line iff translators is truthy, and otherwise starts with the `#: pathname` line. It ends with the escaped `msgid` and an empty `msgstr` |
| Xml.DirectChildFound | bleachbit/CleanerML.py:136 | A child element with the tag is found by `getElementsByTagName` and marked as a direct child |
| Xml.DirectHitIsChild | bleachbit/CleanerML.py:136 | Conversely, a hit marked direct is one of the queried node's children, so the mark is exactly the `parentNode == cleaner` test |

## Left out

- XML parsing: the model takes the parse result from the host. A file that does not parse raises the host's error.
- Filesystem, environment and process access: the host provides these as given functions. This covers globbing, `exists`/`isdir`/`isabs`/`abspath`, `expanduser`/`expandvars`, `os.stat` (which may fail), `listdir`, `children_in_directory` and `expand_glob_join`. Process lookup and the regular-expression engine are given predicates.
- Laziness: each generator is modelled drained, as the items it yields followed by the exception that ended it. The model does not capture a consumer stopping early.
- Action plugins (`Action.py`) are not part of this model. A plugin is its action key plus a function from the `<action>` node and the variable table to a provider or an exception. A provider is the drained output of its two generators. The dummy `ActionProvider(None)` that localizations add is a provider that yields nothing.
- `Command.execute` is not modelled. `auto_hide` receives what executing each command does first: yield, stay silent, or raise.
- `getText` (`General.py`) is not part of this model. The text of a node is the concatenation of its direct text children.
- The translation callbacks `xlate_cb`, gettext's `_`, the `translate` attributes of labels and descriptions, and `create_pot`'s file writing are I/O or translation plumbing. `pot_fragment` itself is modelled.
- `boolstr_to_bool` (`General.py`) is not part of this model. The model reads no `translate` attribute (`bleachbit/CleanerML.py:170`, `:249`), so it drops the failure path where a bad value raises. That error would fail the whole file in `handle_cleaner_label`, or only that option in `handle_cleaner_option_label`.
- Logging is left out. Where the source logs and goes on, the model goes on.
- Winapp2 loading (`bleachbit/Cleaner.py:701-704`): `Winapp.py` is not part of this model.
- `Unix.locales.add_xml` is not part of this model. `handle_localizations` only adds its dummy action.
- The bodies of `OpenOfficeOrg.get_commands` and `System.get_commands` are platform plumbing. Only the options, warnings and ids the two constructors set up are modelled, and the `prefixes` field of OpenOffice.org is left out.
- CleanerML.OsMatchUnknown: the source's message for an unknown platform quotes `sys.platform`, not the `platform` argument. The model reports the argument. The two are the same except in unit tests that pass `platform` explicitly.
- CleanerML.Options: the contract states what the option loop keeps. What each option adds is stated one option at a time, by `OptionStep`, `OptionAdded` and `FailedOptionNotAdded`, and for the whole loop by `LaterOptionsStillLoad`.

Where the code and its documented intent disagree, the model follows the code:
- `os_match` of a family name that no platform uses, on a known platform, returns false rather than raising.
- A cleaner is usable when it has at least one action, whatever its options.
- `get_commands` for an option that was never added, such as one whose handler failed, raises "Unknown option" after yielding its providers' commands.

Three lines would not parse as written:
- `bleachbit/Cleaner.py:54` has a stray indent.
- `bleachbit/Cleaner.py:57` has a docstring on the `try:` line.
- `bleachbit/CleanerML.py:234` has a `for` missing its `:`.

All three are modelled as evidently intended.
