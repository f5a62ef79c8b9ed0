/**
 * The CleanerML loader (bleachbit/CleanerML.py): a small interpreter that
 * walks an already-parsed cleaner document and builds a cleaner from it,
 * plus the selection of cleaner files, their admission into the registry
 * and the `.pot` fragment serialiser.
 *
 * The loader's handlers are specified by functions over `LoaderState`, the
 * value of the loader's fields together with the cleaner under
 * construction.  A handler that raises still leaves behind what it did
 * before the exception, so each specification returns a `Run`: the state
 * reached and the exception, if any.
 */
module CleanerML {
  import opened Base
  import opened Xml
  import opened Host
  import opened Strings
  import opened Cleaners

  /** `self.vars`: variable name to its list of values. */
  type VarTable = map<string, seq<string>>

  /** One entry of `ActionProvider.plugins`: its action key and its constructor, which may raise. */
  datatype Plugin = Plugin(actionKey: string, make: (Node, VarTable) -> Result<Provider>)

  /**
   * What a loader runs against: the host, the registered plugins in
   * registration order, and whether a translation callback was given
   * (`xlate_mode`).
   */
  datatype Context = Context(host: Host, plugins: seq<Plugin>, xlateMode: bool)

  // ----------------------------------------------------------------------
  // os_match

  /** `current_os`: a tuple of family names, or on win32 the bare string 'windows'. */
  datatype CurrentOs = Families(names: seq<string>) | Word(text: string)

  function CurrentOsOf(platform: string): Result<CurrentOs>
  {
    if platform == "darwin" then Ok(Families(["darwin", "bsd", "unix"]))
    else if StartsWith(platform, "linux") then Ok(Families(["linux", "unix"]))
    else if StartsWith(platform, "openbsd") then Ok(Families(["bsd", "openbsd", "unix"]))
    else if StartsWith(platform, "netbsd") then Ok(Families(["bsd", "netbsd", "unix"]))
    else if StartsWith(platform, "freebsd") then Ok(Families(["bsd", "freebsd", "unix"]))
    else if platform == "win32" then Ok(Word("windows"))
    else Err(UnknownOperatingSystem(platform))
  }

  /**
   * `os_match(os_str, platform)`: blank and translation mode always match;
   * otherwise `os_str in current_os`, which on win32 is substring
   * containment in "windows".
   */
  function OsMatch(osStr: string, platform: string, xlateMode: bool): Result<bool>
  {
    if |osStr| == 0 || xlateMode then Ok(true)
    else match CurrentOsOf(platform)
      case Err(e) => Err(e)
      case Ok(Families(names)) => Ok(osStr in names)
      case Ok(Word(w)) => Ok(IsSubstring(osStr, w))
  }

  /** A blank requirement matches every platform, and in translation mode every requirement matches. */
  lemma OsMatchBlankOrTranslating(osStr: string, platform: string)
    ensures OsMatch("", platform, false) == Ok(true)
    ensures OsMatch(osStr, platform, true) == Ok(true)
  {
  }

  lemma OsMatchLinux(osStr: string, platform: string)
    requires StartsWith(platform, "linux") && osStr != ""
    ensures OsMatch(osStr, platform, false) == Ok(osStr == "linux" || osStr == "unix")
  {
    PrefixesExclusive(platform, "linux", "darwin");
    PrefixesExclusive(platform, "linux", "win32");
  }

  lemma OsMatchDarwin(osStr: string)
    requires osStr != ""
    ensures OsMatch(osStr, "darwin", false) == Ok(osStr == "darwin" || osStr == "bsd" || osStr == "unix")
  {
  }

  /** The three BSDs: bsd, unix and the flavour's own name. */
  lemma OsMatchBsd(osStr: string, platform: string, flavour: string)
    requires flavour == "openbsd" || flavour == "netbsd" || flavour == "freebsd"
    requires StartsWith(platform, flavour) && osStr != ""
    ensures OsMatch(osStr, platform, false) == Ok(osStr == "bsd" || osStr == "unix" || osStr == flavour)
  {
    PrefixesExclusive(platform, flavour, "darwin");
    PrefixesExclusive(platform, flavour, "win32");
    PrefixesExclusive(platform, flavour, "linux");
    if flavour != "openbsd" {
      PrefixesExclusive(platform, flavour, "openbsd");
    }
    if flavour == "freebsd" {
      PrefixesExclusive(platform, flavour, "netbsd");
    }
  }

  /** On win32 the test is substring containment: "win" and "dows" match, "linux" does not. */
  lemma OsMatchWindows(osStr: string)
    requires osStr != ""
    ensures OsMatch(osStr, "win32", false) == Ok(IsSubstring(osStr, "windows"))
    ensures OsMatch("windows", "win32", false) == Ok(true)
    ensures OsMatch("win", "win32", false) == Ok(true)
    ensures OsMatch("linux", "win32", false) == Ok(false)
  {
    assert StartsWith("windows", "win");
    assert 'l' !in "windows";
    MissingCharNotSubstring("linux", "windows", 0);
  }

  /** Any other platform raises "Unknown operating system" as soon as a non-blank requirement is tested. */
  lemma OsMatchUnknown(osStr: string, platform: string)
    requires osStr != "" && platform != "darwin" && platform != "win32"
    requires !StartsWith(platform, "linux") && !StartsWith(platform, "openbsd")
    requires !StartsWith(platform, "netbsd") && !StartsWith(platform, "freebsd")
    ensures OsMatch(osStr, platform, false) == Err(UnknownOperatingSystem(platform))
  {
  }

  /**
   * On a known platform, a requirement naming no family and no part of
   * "windows" is simply not met; nothing is raised.
   */
  lemma OsMatchUnknownFamily(osStr: string, platform: string)
    requires osStr != "" && CurrentOsOf(platform).Ok?
    requires osStr !in ["darwin", "bsd", "unix", "linux", "openbsd", "netbsd", "freebsd"]
    requires !IsSubstring(osStr, "windows")
    ensures OsMatch(osStr, platform, false) == Ok(false)
  {
  }

  /** For instance, "bogus" on Linux. */
  lemma OsMatchBogusOnLinux()
    ensures OsMatch("bogus", "linux2", false) == Ok(false)
  {
    assert StartsWith("linux2", "linux");
    MissingCharNotSubstring("bogus", "windows", 0);
    OsMatchUnknownFamily("bogus", "linux2");
  }

  // ----------------------------------------------------------------------
  // The loader's state and its specification

  /** The loader's fields: the current option's id, name, description and warning, the variables, and the cleaner. */
  datatype LoaderState = LoaderState(
    optionId: Option<string>,
    optionName: Option<string>,
    optionDescription: Option<string>,
    optionWarning: Option<string>,
    vars: VarTable,
    cleaner: CleanerState)

  /** A freshly constructed loader. */
  const Fresh := LoaderState(None, None, None, None, map[], EmptyCleaner)

  /** The state a handler leaves behind, and the exception it raised, if any. */
  datatype Run = Run(state: LoaderState, raised: Option<Error>)

  /** `getText(node.childNodes)`. */
  function TextOf(n: Node): string
  {
    GetText(ChildNodes(n))
  }

  function OsOf(n: Node, ctx: Context): Result<bool>
  {
    OsMatch(GetAttribute(n, "os"), ctx.host.platform, ctx.xlateMode)
  }

  /** The value list one matching <value> contributes: its glob expansion, or the text alone. */
  function ValueList(value: Node, ctx: Context): seq<string>
  {
    if GetAttribute(value, "search") == "glob" then ctx.host.expandGlobJoin(TextOf(value), "") else [TextOf(value)]
  }

  /** What a variable handler leaves in `self.vars`, and the exception it raised, if any. */
  datatype VarsRun = VarsRun(vars: VarTable, raised: Option<Error>)

  /** One <value> of `handle_cleaner_var`: skipped on another OS, else prepended to the variable's list. */
  function DeclareValue(vars: VarTable, name: string, value: Node, ctx: Context): VarsRun
  {
    match OsOf(value, ctx)
    case Err(e) => VarsRun(vars, Some(e))
    case Ok(false) => VarsRun(vars, None)
    case Ok(true) =>
      var list := ValueList(value, ctx);
      VarsRun(vars[name := if name in vars then list + vars[name] else list], None)
  }

  /** The <value> elements of one <var>, in document order; the first that raises ends the handler. */
  function DeclareValues(vars: VarTable, name: string, values: seq<Hit>, ctx: Context): VarsRun
    decreases |values|
  {
    if values == [] then VarsRun(vars, None)
    else
      var r := DeclareValue(vars, name, values[0].element, ctx);
      if r.raised.Some? then r else DeclareValues(r.vars, name, values[1..], ctx)
  }

  /** `handle_cleaner_var(var)`. */
  function DeclareVar(vars: VarTable, v: Node, ctx: Context): VarsRun
  {
    DeclareValues(vars, GetAttribute(v, "name"), ElementsByTagName(v, "value"), ctx)
  }

  /** The `for var in ...` loop of `handle_cleaner`. */
  function DeclareVars(vars: VarTable, vs: seq<Hit>, ctx: Context): VarsRun
    decreases |vs|
  {
    if vs == [] then VarsRun(vars, None)
    else
      var r := DeclareVar(vars, vs[0].element, ctx);
      if r.raised.Some? then r else DeclareVars(r.vars, vs[1..], ctx)
  }

  /** What the matching values of `values` put in front of a variable's list: the last one's list first. */
  function Prepended(values: seq<Hit>, ctx: Context): seq<string>
  {
    if values == [] then []
    else Prepended(values[1..], ctx) + (if OsOf(values[0].element, ctx) == Ok(true) then ValueList(values[0].element, ctx) else [])
  }

  /** Some value of `values` is for this OS. */
  predicate AnyMatch(values: seq<Hit>, ctx: Context)
  {
    values != [] && (OsOf(values[0].element, ctx) == Ok(true) || AnyMatch(values[1..], ctx))
  }

  /**
   * What declaring `values` for `name` should leave: their lists in front of
   * what `name` held, each later one ahead of the earlier ones; values for
   * another OS contribute nothing, and no other variable changes.
   */
  function Declared(vars: VarTable, name: string, values: seq<Hit>, ctx: Context): VarTable
  {
    if name in vars || AnyMatch(values, ctx)
    then vars[name := Prepended(values, ctx) + (if name in vars then vars[name] else [])]
    else vars
  }

  lemma DeclaredMatch(vars: VarTable, name: string, values: seq<Hit>, ctx: Context)
    requires values != [] && OsOf(values[0].element, ctx) == Ok(true)
    ensures Declared(vars, name, values, ctx) == Declared(DeclareValue(vars, name, values[0].element, ctx).vars, name, values[1..], ctx)
  {
    var list := ValueList(values[0].element, ctx);
    var rest := Prepended(values[1..], ctx);
    assert list + [] == list;
    assert DeclareValue(vars, name, values[0].element, ctx).vars == Prepend(vars, name, list);
    assert AnyMatch(values, ctx) && Prepended(values, ctx) == rest + list;
    PrependTwice(vars, name, list, rest);
  }

  /** `vars` with `front` put ahead of what `name` held (nothing, if it held nothing). */
  function Prepend(vars: VarTable, name: string, front: seq<string>): VarTable
  {
    vars[name := front + (if name in vars then vars[name] else [])]
  }

  lemma PrependTwice(vars: VarTable, name: string, first: seq<string>, second: seq<string>)
    ensures Prepend(Prepend(vars, name, first), name, second) == Prepend(vars, name, second + first)
  {
    var held := if name in vars then vars[name] else [];
    assert second + (first + held) == (second + first) + held;
  }

  lemma DeclaredSkip(vars: VarTable, name: string, values: seq<Hit>, ctx: Context)
    requires values != [] && OsOf(values[0].element, ctx) == Ok(false)
    ensures Declared(vars, name, values, ctx) == Declared(vars, name, values[1..], ctx)
  {
    assert AnyMatch(values, ctx) == AnyMatch(values[1..], ctx);
    assert Prepended(values, ctx) == Prepended(values[1..], ctx) + [] == Prepended(values[1..], ctx);
  }

  /** When no value raises, the handler leaves exactly what `Declared` describes. */
  lemma {:induction false} DeclareValuesPrepends(vars: VarTable, name: string, values: seq<Hit>, ctx: Context)
    requires forall i :: 0 <= i < |values| ==> OsOf(values[i].element, ctx).Ok?
    ensures DeclareValues(vars, name, values, ctx) == VarsRun(Declared(vars, name, values, ctx), None)
    decreases |values|
  {
    if values != [] {
      var v := values[0].element;
      var r := DeclareValue(vars, name, v, ctx);
      assert OsOf(v, ctx).Ok?;
      assert forall i :: 0 <= i < |values[1..]| ==> values[1..][i] == values[i + 1];
      DeclareValuesPrepends(r.vars, name, values[1..], ctx);
      if OsOf(v, ctx) == Ok(true) {
        DeclaredMatch(vars, name, values, ctx);
      } else {
        DeclaredSkip(vars, name, values, ctx);
      }
    } else if name in vars {
      assert [] + vars[name] == vars[name];
      assert vars[name := vars[name]] == vars;
    }
  }

  /** Declaring plain value `x` and then plain value `y` for a new variable gives `[y, x]`. */
  lemma LaterValueFirst(vars: VarTable, name: string, x: Node, y: Node, ctx: Context)
    requires name !in vars
    requires OsOf(x, ctx) == Ok(true) && OsOf(y, ctx) == Ok(true)
    requires GetAttribute(x, "search") != "glob" && GetAttribute(y, "search") != "glob"
    ensures var r := DeclareValues(vars, name, [Hit(x, true), Hit(y, true)], ctx);
      name in r.vars && r.vars[name] == [TextOf(y), TextOf(x)]
  {
    var vs := [Hit(x, true), Hit(y, true)];
    var r1 := DeclareValue(vars, name, x, ctx);
    assert r1 == VarsRun(vars[name := [TextOf(x)]], None);
    var r2 := DeclareValue(r1.vars, name, y, ctx);
    assert r2.vars[name] == [TextOf(y), TextOf(x)];
    assert vs[1..] == [Hit(y, true)];
    assert vs[1..][1..] == [];
    assert DeclareValues(r2.vars, name, [], ctx) == VarsRun(r2.vars, None);
  }

  /**
   * The provider `handle_cleaner_option_action` settles on: every plugin whose
   * key is `command` is constructed in turn, the last one constructed wins, and
   * a constructor that raises ends the search.
   */
  function Resolve(plugins: seq<Plugin>, command: string, node: Node, vars: VarTable, found: Option<Provider>): Result<Option<Provider>>
  {
    if plugins == [] then Ok(found)
    else if plugins[0].actionKey == command then
      match plugins[0].make(node, vars)
      case Err(e) => Err(e)
      case Ok(p) => Resolve(plugins[1..], command, node, vars, Some(p))
    else Resolve(plugins[1..], command, node, vars, found)
  }

  /** No plugin with that key: the search ends where it started. */
  lemma {:induction false} ResolveNoMatch(plugins: seq<Plugin>, command: string, node: Node, vars: VarTable, found: Option<Provider>)
    requires forall i :: 0 <= i < |plugins| ==> plugins[i].actionKey != command
    ensures Resolve(plugins, command, node, vars, found) == Ok(found)
  {
    if plugins != [] {
      ResolveNoMatch(plugins[1..], command, node, vars, found);
    }
  }

  /** When every matching constructor succeeds, the provider of the last plugin with that key is used. */
  lemma {:induction false} ResolveLastWins(plugins: seq<Plugin>, command: string, node: Node, vars: VarTable, found: Option<Provider>, k: nat)
    requires k < |plugins| && plugins[k].actionKey == command
    requires forall i :: k < i < |plugins| ==> plugins[i].actionKey != command
    requires forall i :: 0 <= i <= k && plugins[i].actionKey == command ==> plugins[i].make(node, vars).Ok?
    ensures Resolve(plugins, command, node, vars, found) == Ok(Some(plugins[k].make(node, vars).value))
  {
    if k == 0 {
      ResolveNoMatch(plugins[1..], command, node, vars, Some(plugins[0].make(node, vars).value));
    } else {
      var next := if plugins[0].actionKey == command then Some(plugins[0].make(node, vars).value) else found;
      ResolveLastWins(plugins[1..], command, node, vars, next, k - 1);
    }
  }

  /** The first matching constructor that raises ends the search with its exception. */
  lemma {:induction false} ResolveFails(plugins: seq<Plugin>, command: string, node: Node, vars: VarTable, found: Option<Provider>, k: nat)
    requires k < |plugins| && plugins[k].actionKey == command && plugins[k].make(node, vars).Err?
    requires forall i :: 0 <= i < k && plugins[i].actionKey == command ==> plugins[i].make(node, vars).Ok?
    ensures Resolve(plugins, command, node, vars, found) == Err(plugins[k].make(node, vars).error)
  {
    if k > 0 {
      var next := if plugins[0].actionKey == command then Some(plugins[0].make(node, vars).value) else found;
      ResolveFails(plugins[1..], command, node, vars, next, k - 1);
    }
  }

  /**
   * `after` is `before` with zero or more actions appended, all registered
   * under the current option id; nothing else differs.
   */
  ghost predicate ActionsAppended(before: LoaderState, after: LoaderState)
    requires before.optionId.Some?
  {
    var n := |before.cleaner.actions|;
    && after.(cleaner := before.cleaner) == before
    && after.cleaner.(actions := before.cleaner.actions) == before.cleaner
    && n <= |after.cleaner.actions| && after.cleaner.actions[..n] == before.cleaner.actions
    && forall i :: n <= i < |after.cleaner.actions| ==> after.cleaner.actions[i].optionId == before.optionId.value
  }

  lemma ActionsAppendedTransitive(a: LoaderState, b: LoaderState, c: LoaderState)
    requires a.optionId.Some? && ActionsAppended(a, b) && ActionsAppended(b, c)
    ensures ActionsAppended(a, c)
  {
    var n := |a.cleaner.actions|;
    assert c.cleaner.actions[..|b.cleaner.actions|][..n] == c.cleaner.actions[..n];
  }

  /** `handle_cleaner_option_action(action)`: registers the resolved provider under the current option. */
  function OptionAction(st: LoaderState, action: Node, ctx: Context): (r: Run)
    requires st.optionId.Some?
    ensures ActionsAppended(st, r.state)
  {
    match OsOf(action, ctx)
    case Err(e) => Run(st, Some(e))
    case Ok(false) => Run(st, None)
    case Ok(true) =>
      var command := GetAttribute(action, "command");
      match Resolve(ctx.plugins, command, action, st.vars, None)
      case Err(e) => Run(st, Some(e))
      case Ok(None) => Run(st, Some(InvalidCommand(command)))
      case Ok(Some(p)) => Run(st.(cleaner := st.cleaner.AddAction(st.optionId.value, p)), None)
  }

  /** An action for another OS does nothing. */
  lemma OptionActionOtherOs(st: LoaderState, action: Node, ctx: Context)
    requires st.optionId.Some? && OsOf(action, ctx) == Ok(false)
    ensures OptionAction(st, action, ctx) == Run(st, None)
  {
  }

  /** An action whose command no plugin provides raises "Invalid command" and registers nothing. */
  lemma OptionActionInvalidCommand(st: LoaderState, action: Node, ctx: Context)
    requires st.optionId.Some? && OsOf(action, ctx) == Ok(true)
    requires forall i :: 0 <= i < |ctx.plugins| ==> ctx.plugins[i].actionKey != GetAttribute(action, "command")
    ensures OptionAction(st, action, ctx) == Run(st, Some(InvalidCommand(GetAttribute(action, "command"))))
  {
    ResolveNoMatch(ctx.plugins, GetAttribute(action, "command"), action, st.vars, None);
  }

  /**
   * When the constructors succeed, the provider of the last plugin with the
   * action's command is registered under the current option.
   */
  lemma OptionActionRegistersLast(st: LoaderState, action: Node, ctx: Context, k: nat)
    requires st.optionId.Some? && OsOf(action, ctx) == Ok(true)
    requires k < |ctx.plugins| && ctx.plugins[k].actionKey == GetAttribute(action, "command")
    requires forall i :: k < i < |ctx.plugins| ==> ctx.plugins[i].actionKey != GetAttribute(action, "command")
    requires forall i :: 0 <= i <= k && ctx.plugins[i].actionKey == GetAttribute(action, "command") ==> ctx.plugins[i].make(action, st.vars).Ok?
    ensures OptionAction(st, action, ctx).raised == None
    ensures OptionAction(st, action, ctx).state.cleaner.actions
      == st.cleaner.actions + [Action(st.optionId.value, ctx.plugins[k].make(action, st.vars).value)]
  {
    ResolveLastWins(ctx.plugins, GetAttribute(action, "command"), action, st.vars, None, k);
  }

  /** The `for action in ...` loop of `handle_cleaner_option`; the first action that raises ends it. */
  function OptionActions(st: LoaderState, actions: seq<Hit>, ctx: Context): (r: Run)
    requires st.optionId.Some?
    ensures ActionsAppended(st, r.state)
    decreases |actions|
  {
    if actions == [] then Run(st, None)
    else
      var r := OptionAction(st, actions[0].element, ctx);
      if r.raised.Some? then r
      else
        var rest := OptionActions(r.state, actions[1..], ctx);
        ActionsAppendedTransitive(st, r.state, rest.state);
        rest
  }

  /**
   * The part of `handle_cleaner_option` before its actions: the id, then the
   * first <label> and the first <description> (each missing one raises),
   * then the first <warning>, which is set on the cleaner when not blank.
   */
  function OptionHeader(st: LoaderState, option: Node): (r: Run)
    ensures r.raised.None? ==> r.state.optionId.Some? && r.state.optionName.Some? && r.state.optionDescription.Some?
    ensures r.state.optionId == Some(GetAttribute(option, "id"))
    ensures r.raised.None? ==>
      && ElementsByTagName(option, "label") != [] && ElementsByTagName(option, "description") != []
      && r.state.optionName == Some(TextOf(ElementsByTagName(option, "label")[0].element))
      && r.state.optionDescription == Some(TextOf(ElementsByTagName(option, "description")[0].element))
    ensures r.state.vars == st.vars
    ensures r.state.cleaner.(warnings := st.cleaner.warnings) == st.cleaner
    ensures r.state.cleaner.options == st.cleaner.options
    ensures r.raised.Some? ==> r.state.cleaner == st.cleaner
    ensures r.raised.None? ==>
      var ws := ElementsByTagName(option, "warning");
      r.state.cleaner.warnings == if ws != [] && TextOf(ws[0].element) != ""
                                  then st.cleaner.warnings[GetAttribute(option, "id") := TextOf(ws[0].element)]
                                  else st.cleaner.warnings
  {
    var id := GetAttribute(option, "id");
    var s1 := st.(optionId := Some(id), optionDescription := None, optionName := None);
    var labels := ElementsByTagName(option, "label");
    if labels == [] then Run(s1, Some(MissingElement("label")))
    else
      var s2 := s1.(optionName := Some(TextOf(labels[0].element)));
      var descriptions := ElementsByTagName(option, "description");
      if descriptions == [] then Run(s2, Some(MissingElement("description")))
      else
        var s3 := s2.(optionDescription := Some(TextOf(descriptions[0].element)));
        var warnings := ElementsByTagName(option, "warning");
        if warnings == [] then Run(s3, None)
        else
          var w := TextOf(warnings[0].element);
          var s4 := s3.(optionWarning := Some(w));
          Run(if w != "" then s4.(cleaner := s4.cleaner.SetWarning(id, w)) else s4, None)
  }

  /**
   * `get_warning` after `handle_cleaner_option`: once the option has its
   * <label> and <description>, a non-blank first <warning> is its warning
   * from then on, even when one of its actions raises.  A blank or missing
   * one leaves the warning as it was, and no other option's warning changes.
   */
  lemma OptionWarningSet(st: LoaderState, option: Node, ctx: Context)
    requires ElementsByTagName(option, "label") != [] && ElementsByTagName(option, "description") != []
    ensures var ws := ElementsByTagName(option, "warning");
      var id := GetAttribute(option, "id");
      var c := OptionStep(st, option, ctx).state.cleaner;
      && (ws != [] && TextOf(ws[0].element) != "" ==> c.GetWarning(id) == Some(TextOf(ws[0].element)))
      && (ws == [] || TextOf(ws[0].element) == "" ==> c.GetWarning(id) == st.cleaner.GetWarning(id))
      && forall other :: other != id ==> c.GetWarning(other) == st.cleaner.GetWarning(other)
  {
    var h := OptionHeader(st, option);
    assert h.raised.None?;
    var r := OptionActions(h.state, ElementsByTagName(option, "action"), ctx);
    assert r.state.cleaner.warnings == h.state.cleaner.warnings;
    assert OptionStep(st, option, ctx).state.cleaner.warnings == h.state.cleaner.warnings;
  }

  /** `handle_cleaner_option(option)`: the option is added only after all its actions registered. */
  function OptionStep(st: LoaderState, option: Node, ctx: Context): (r: Run)
    ensures r.state.cleaner.id == st.cleaner.id
    ensures r.state.vars == st.vars
    ensures |st.cleaner.actions| <= |r.state.cleaner.actions|
    ensures r.state.cleaner.actions[..|st.cleaner.actions|] == st.cleaner.actions
    ensures st.cleaner.options.Keys <= r.state.cleaner.options.Keys
    ensures r.state.cleaner.running == st.cleaner.running
    ensures r.raised.None? ==> GetAttribute(option, "id") in r.state.cleaner.options
  {
    var h := OptionHeader(st, option);
    if h.raised.Some? then h
    else
      var r := OptionActions(h.state, ElementsByTagName(option, "action"), ctx);
      if r.raised.Some? then r
      else
        var id := h.state.optionId.value;
        Run(r.state.(cleaner := r.state.cleaner.AddOption(id, h.state.optionName.value, h.state.optionDescription.value)), None)
  }

  /**
   * An option that raises is never added; the actions it registered before
   * the exception stay, all under its id.
   */
  lemma FailedOptionNotAdded(st: LoaderState, option: Node, ctx: Context)
    requires OptionStep(st, option, ctx).raised.Some?
    ensures var r := OptionStep(st, option, ctx);
      && r.state.cleaner.options == st.cleaner.options
      && forall i :: |st.cleaner.actions| <= i < |r.state.cleaner.actions| ==>
           r.state.cleaner.actions[i].optionId == GetAttribute(option, "id")
  {
  }

  /**
   * Fault isolation inside one option: when the action loop fails, every
   * action registered by the actions that succeeded before it stays, in order.
   */
  lemma FailedOptionKeepsActions(st: LoaderState, option: Node, ctx: Context, j: nat)
    requires OptionHeader(st, option).raised.None?
    requires j <= |ElementsByTagName(option, "action")|
    requires OptionActions(OptionHeader(st, option).state, ElementsByTagName(option, "action")[..j], ctx).raised.None?
    ensures OptionActions(OptionHeader(st, option).state, ElementsByTagName(option, "action")[..j], ctx).state.cleaner.actions
      <= OptionStep(st, option, ctx).state.cleaner.actions
  {
    var h := OptionHeader(st, option);
    var acts := ElementsByTagName(option, "action");
    PrefixActionsStay(h.state, acts, j, ctx);
  }

  /** The actions registered by the first `j` actions of the loop stay when the loop goes on. */
  lemma {:induction false} PrefixActionsStay(st: LoaderState, actions: seq<Hit>, j: nat, ctx: Context)
    requires st.optionId.Some? && j <= |actions|
    requires OptionActions(st, actions[..j], ctx).raised.None?
    ensures OptionActions(st, actions[..j], ctx).state.cleaner.actions <= OptionActions(st, actions, ctx).state.cleaner.actions
    decreases j
  {
    if j == 0 {
      assert actions[..0] == [];
    } else {
      var r := OptionAction(st, actions[0].element, ctx);
      assert actions[..j][0] == actions[0] && actions[..j][1..] == actions[1..][..j - 1];
      PrefixActionsStay(r.state, actions[1..], j - 1, ctx);
    }
  }

  /** An option that does not raise is added with the text of its first label and first description. */
  lemma OptionAdded(st: LoaderState, option: Node, ctx: Context)
    requires OptionStep(st, option, ctx).raised.None?
    ensures ElementsByTagName(option, "label") != [] && ElementsByTagName(option, "description") != []
    ensures OptionStep(st, option, ctx).state.cleaner.options == st.cleaner.options[GetAttribute(option, "id") :=
      OptionInfo(TextOf(ElementsByTagName(option, "label")[0].element),
                 TextOf(ElementsByTagName(option, "description")[0].element))]
  {
    var h := OptionStepOk(st, option, ctx);
  }

  /** An option that does not raise got through its header and is added with the name and description the header read. */
  lemma OptionStepOk(st: LoaderState, option: Node, ctx: Context) returns (h: Run)
    requires OptionStep(st, option, ctx).raised.None?
    ensures h == OptionHeader(st, option) && h.raised.None?
    ensures OptionStep(st, option, ctx).state.cleaner.options ==
      st.cleaner.options[GetAttribute(option, "id") := OptionInfo(h.state.optionName.value, h.state.optionDescription.value)]
  {
    h := OptionHeader(st, option);
    var r := OptionActions(h.state, ElementsByTagName(option, "action"), ctx);
    assert r.state.cleaner.options == h.state.cleaner.options;
  }

  /** The `for option in ...` loop of `handle_cleaner`: an option that raises is logged and the next one loads. */
  function Options(st: LoaderState, options: seq<Hit>, ctx: Context): (r: LoaderState)
    ensures r.cleaner.id == st.cleaner.id
    ensures r.vars == st.vars
    ensures |st.cleaner.actions| <= |r.cleaner.actions| && r.cleaner.actions[..|st.cleaner.actions|] == st.cleaner.actions
    ensures st.cleaner.options.Keys <= r.cleaner.options.Keys
    ensures r.cleaner.running == st.cleaner.running
    decreases |options|
  {
    if options == [] then st
    else
      var s := OptionStep(st, options[0].element, ctx).state;
      var r := Options(s, options[1..], ctx);
      assert r.cleaner.actions[..|s.cleaner.actions|][..|st.cleaner.actions|] == r.cleaner.actions[..|st.cleaner.actions|];
      r
  }

  /** What the handler of option `k` does when the option loop comes to it. */
  function OptionReached(st: LoaderState, options: seq<Hit>, k: nat, ctx: Context): Run
    requires k < |options|
    decreases k
  {
    var r := OptionStep(st, options[0].element, ctx);
    if k == 0 then r else OptionReached(r.state, options[1..], k - 1, ctx)
  }

  /**
   * Fault isolation: whatever the earlier options did, an option whose
   * handler does not raise when the loop comes to it is an option of the
   * cleaner once the option loop is over.
   */
  lemma {:induction false} LaterOptionsStillLoad(st: LoaderState, options: seq<Hit>, k: nat, ctx: Context)
    requires k < |options|
    requires OptionReached(st, options, k, ctx).raised.None?
    ensures GetAttribute(options[k].element, "id") in Options(st, options, ctx).cleaner.options
    decreases k
  {
    var s := OptionsUnfold(st, options, ctx);
    if k > 0 {
      assert options[1..][k - 1] == options[k];
      LaterOptionsStillLoad(s, options[1..], k - 1, ctx);
    }
  }

  /** One step of the option loop: the first option, then the rest from where it left the state. */
  lemma OptionsUnfold(st: LoaderState, options: seq<Hit>, ctx: Context) returns (s: LoaderState)
    requires options != []
    ensures s == OptionStep(st, options[0].element, ctx).state
    ensures Options(st, options, ctx) == Options(s, options[1..], ctx)
  {
    s := OptionStep(st, options[0].element, ctx).state;
  }

  /** `handle_cleaner_running`: each matching <running> adds a detection of its type and text. */
  function RunningEntries(st: LoaderState, entries: seq<Hit>, ctx: Context): (r: Run)
    ensures r.state.(cleaner := st.cleaner) == st
    ensures r.state.cleaner.(running := st.cleaner.running) == st.cleaner
    decreases |entries|
  {
    if entries == [] then Run(st, None)
    else
      var e := entries[0].element;
      match OsOf(e, ctx)
      case Err(err) => Run(st, Some(err))
      case Ok(false) => RunningEntries(st, entries[1..], ctx)
      case Ok(true) =>
        RunningEntries(st.(cleaner := st.cleaner.AddRunning(GetAttribute(e, "type"), TextOf(e))), entries[1..], ctx)
  }

  /** The detections `handle_cleaner_running` records: type and text of each entry for this OS, in document order. */
  function Detections(entries: seq<Hit>, ctx: Context): seq<Detection>
  {
    if entries == [] then []
    else
      var e := entries[0].element;
      (if OsOf(e, ctx) == Ok(true) then [Detection(GetAttribute(e, "type"), TextOf(e))] else []) + Detections(entries[1..], ctx)
  }

  /**
   * When no entry's os_match raises, `running` gains exactly the detections of
   * the entries for this OS, stored as written; their type is not checked here.
   */
  lemma RunningEntriesRecord(st: LoaderState, entries: seq<Hit>, ctx: Context)
    requires forall i :: 0 <= i < |entries| ==> OsOf(entries[i].element, ctx).Ok?
    ensures RunningEntries(st, entries, ctx)
      == Run(st.(cleaner := st.cleaner.(running := st.cleaner.running + Detections(entries, ctx))), None)
  {
    RunningEntriesSplit(st, entries, [], ctx);
    assert entries + [] == entries;
  }

  /** The first entry whose os_match raises ends the loop, with the detections before it recorded. */
  lemma RunningEntriesStop(st: LoaderState, entries: seq<Hit>, ctx: Context, k: nat)
    requires k < |entries| && OsOf(entries[k].element, ctx).Err?
    requires forall i :: 0 <= i < k ==> OsOf(entries[i].element, ctx).Ok?
    ensures RunningEntries(st, entries, ctx)
      == Run(st.(cleaner := st.cleaner.(running := st.cleaner.running + Detections(entries[..k], ctx))),
             Some(OsOf(entries[k].element, ctx).error))
  {
    RunningEntriesSplit(st, entries[..k], entries[k..], ctx);
    assert entries[..k] + entries[k..] == entries;
    assert entries[k..][0] == entries[k];
  }

  /** Entries whose os_match does not raise record their detections, and the loop goes on from there. */
  lemma {:induction false} RunningEntriesSplit(st: LoaderState, front: seq<Hit>, back: seq<Hit>, ctx: Context)
    requires forall i :: 0 <= i < |front| ==> OsOf(front[i].element, ctx).Ok?
    ensures RunningEntries(st, front + back, ctx) == RunningEntries(WithRunning(st, Detections(front, ctx)), back, ctx)
    decreases |front|
  {
    if front == [] {
      assert [] + back == back;
      assert st.cleaner.running + [] == st.cleaner.running;
    } else {
      var rest := front[1..];
      assert forall i :: 0 <= i < |rest| ==> rest[i] == front[i + 1];
      assert (front + back)[0] == front[0] && (front + back)[1..] == rest + back;
      assert OsOf(front[0].element, ctx).Ok?;
      var added := RunningStep(st, front + back, ctx);
      RunningEntriesSplit(WithRunning(st, added), rest, back, ctx);
      WithRunningTwice(st, added, Detections(rest, ctx));
    }
  }

  /** `st` with `added` recorded after its running entries. */
  function WithRunning(st: LoaderState, added: seq<Detection>): LoaderState
  {
    st.(cleaner := st.cleaner.(running := st.cleaner.running + added))
  }

  lemma WithRunningTwice(st: LoaderState, first: seq<Detection>, second: seq<Detection>)
    ensures WithRunning(WithRunning(st, first), second) == WithRunning(st, first + second)
  {
    assert st.cleaner.running + first + second == st.cleaner.running + (first + second);
  }

  /** One entry whose os_match does not raise: it records `added`, and the loop goes on with the rest. */
  lemma RunningStep(st: LoaderState, entries: seq<Hit>, ctx: Context) returns (added: seq<Detection>)
    requires entries != [] && OsOf(entries[0].element, ctx).Ok?
    ensures var e := entries[0].element;
      added == if OsOf(e, ctx) == Ok(true) then [Detection(GetAttribute(e, "type"), TextOf(e))] else []
    ensures RunningEntries(st, entries, ctx) == RunningEntries(WithRunning(st, added), entries[1..], ctx)
  {
    var e := entries[0].element;
    added := if OsOf(e, ctx) == Ok(true) then [Detection(GetAttribute(e, "type"), TextOf(e))] else [];
    assert st.cleaner.running + [] == st.cleaner.running;
  }

  /** The provider of the dummy localization action: `ActionProvider(None)`, which produces nothing. */
  const DummyProvider := Provider("", Yield([], None), Yield([], None))

  /** `handle_localizations`: on posix a dummy "localization" action is always registered. */
  function Localizations(st: LoaderState, ctx: Context): (r: LoaderState)
    ensures ctx.host.osName == "posix" ==> r.cleaner.IsUsable()
    ensures ctx.host.osName == "posix" ==>
      r == st.(cleaner := st.cleaner.(actions := st.cleaner.actions + [Action("localization", DummyProvider)]))
    ensures ctx.host.osName != "posix" ==> r == st
    ensures r.cleaner.id == st.cleaner.id && r.cleaner.options == st.cleaner.options
  {
    if ctx.host.osName != "posix" then st
    else st.(cleaner := st.cleaner.AddAction("localization", DummyProvider))
  }

  /** What `handle_cleaner` does once the root's OS matched, its id and name are set and its description handled. */
  function CleanerBody(st: LoaderState, root: Node, ctx: Context): (r: Run)
    ensures r.state.cleaner.id == st.cleaner.id
  {
    var r := DeclareVars(st.vars, ElementsByTagName(root, "var"), ctx);
    if r.raised.Some? then Run(st.(vars := r.vars), r.raised)
    else
      var s := Options(st.(vars := r.vars), ElementsByTagName(root, "option"), ctx);
      var r2 := RunningEntries(s, ElementsByTagName(root, "running"), ctx);
      if r2.raised.Some? then r2 else Run(Localizations(r2.state, ctx), None)
  }

  /**
   * Fault isolation carried to the end of `handle_cleaner`: once the <var>
   * declarations went through, an option whose handler does not raise when
   * the option loop comes to it is an option of the cleaner the body
   * leaves, whatever the earlier options, the <running> entries and the
   * localizations did.
   */
  lemma OptionSurvivesBody(st: LoaderState, root: Node, ctx: Context, k: nat)
    requires DeclareVars(st.vars, ElementsByTagName(root, "var"), ctx).raised.None?
    requires k < |ElementsByTagName(root, "option")|
    requires OptionReached(st.(vars := DeclareVars(st.vars, ElementsByTagName(root, "var"), ctx).vars),
                           ElementsByTagName(root, "option"), k, ctx).raised.None?
    ensures GetAttribute(ElementsByTagName(root, "option")[k].element, "id") in CleanerBody(st, root, ctx).state.cleaner.options
  {
    var options := ElementsByTagName(root, "option");
    var start := st.(vars := DeclareVars(st.vars, ElementsByTagName(root, "var"), ctx).vars);
    LaterOptionsStillLoad(start, options, k, ctx);
    BodyKeepsOptions(st, root, ctx);
  }

  /** After the option loop, neither the <running> entries nor the localizations add or change an option. */
  lemma BodyKeepsOptions(st: LoaderState, root: Node, ctx: Context)
    requires DeclareVars(st.vars, ElementsByTagName(root, "var"), ctx).raised.None?
    ensures CleanerBody(st, root, ctx).state.cleaner.options ==
      Options(st.(vars := DeclareVars(st.vars, ElementsByTagName(root, "var"), ctx).vars), ElementsByTagName(root, "option"), ctx).cleaner.options
  {
  }

  /** The cleaner's name and, when the first <description> below the root is a child of it, its description. */
  function Described(st: LoaderState, root: Node, labelNode: Node): LoaderState
  {
    var named := st.cleaner.(name := Some(TextOf(labelNode)));
    var descriptions := ElementsByTagName(root, "description");
    st.(cleaner := if descriptions != [] && descriptions[0].direct
                   then named.(description := Some(TextOf(descriptions[0].element))) else named)
  }

  /** `handle_cleaner(root)`. */
  function CleanerStep(st: LoaderState, root: Node, ctx: Context): Run
  {
    match OsOf(root, ctx)
    case Err(e) => Run(st, Some(e))
    case Ok(false) => Run(st, None)
    case Ok(true) =>
      var s1 := st.(cleaner := st.cleaner.(id := Some(GetAttribute(root, "id"))));
      var labels := ElementsByTagName(root, "label");
      if labels == [] then Run(s1, Some(MissingElement("label")))
      else CleanerBody(Described(s1, root, labels[0].element), root, ctx)
  }

  /**
   * The same for the whole of `handle_cleaner`: for a matching root with a
   * <label>, an option whose handler does not raise when the loop reaches
   * it is an option of the loaded cleaner.
   */
  lemma OptionSurvivesCleaner(st: LoaderState, root: Node, ctx: Context, k: nat)
    requires OsOf(root, ctx) == Ok(true) && ElementsByTagName(root, "label") != []
    requires var d := Described(st.(cleaner := st.cleaner.(id := Some(GetAttribute(root, "id")))), root,
                                ElementsByTagName(root, "label")[0].element);
      var r := DeclareVars(d.vars, ElementsByTagName(root, "var"), ctx);
      r.raised.None? && k < |ElementsByTagName(root, "option")| &&
      OptionReached(d.(vars := r.vars), ElementsByTagName(root, "option"), k, ctx).raised.None?
    ensures GetAttribute(ElementsByTagName(root, "option")[k].element, "id") in CleanerStep(st, root, ctx).state.cleaner.options
  {
    var d := Described(st.(cleaner := st.cleaner.(id := Some(GetAttribute(root, "id")))), root,
                       ElementsByTagName(root, "label")[0].element);
    OptionSurvivesBody(d, root, ctx, k);
  }

  /** A root whose OS does not match leaves everything as it was: no id, name, option or action is set. */
  lemma RootMismatchDoesNothing(st: LoaderState, root: Node, ctx: Context)
    requires OsOf(root, ctx) == Ok(false)
    ensures CleanerStep(st, root, ctx) == Run(st, None)
  {
  }

  /** On posix, a cleaner whose root matched and that loaded without an exception is usable. */
  lemma PosixCleanerUsable(st: LoaderState, root: Node, ctx: Context)
    requires ctx.host.osName == "posix" && OsOf(root, ctx) == Ok(true)
    requires CleanerStep(st, root, ctx).raised.None?
    ensures CleanerStep(st, root, ctx).state.cleaner.IsUsable()
  {
  }

  /** A cleaner built from scratch that has an action has an id: the root matched, so the id was set. */
  lemma UsableHasId(st: LoaderState, root: Node, ctx: Context)
    requires st.cleaner.actions == [] && st.cleaner.id.None?
    ensures CleanerStep(st, root, ctx).state.cleaner.IsUsable() ==> CleanerStep(st, root, ctx).state.cleaner.id.Some?
  {
  }

  /** The `CleanerML(pathname)` constructor from a given state: parse, then handle the first <cleaner>. */
  function LoadFrom(st: LoaderState, pathname: string, ctx: Context): Run
  {
    match ctx.host.parseXml(pathname)
    case Err(e) => Run(st, Some(e))
    case Ok(document) =>
      var roots := ElementsByTagName(document, "cleaner");
      if roots == [] then Run(st, Some(MissingElement("cleaner")))
      else CleanerStep(st, roots[0].element, ctx)
  }

  /** A file loaded from scratch into a usable cleaner gave it an id. */
  lemma LoadedUsableHasId(pathname: string, ctx: Context)
    ensures var run := LoadFrom(Fresh, pathname, ctx);
      run.state.cleaner.IsUsable() ==> run.state.cleaner.id.Some?
  {
    match ctx.host.parseXml(pathname)
    case Err(_) =>
    case Ok(document) =>
      var roots := ElementsByTagName(document, "cleaner");
      if roots != [] { UsableHasId(Fresh, roots[0].element, ctx); }
  }

  /** `load_cleaners` constructs `CleanerML(pathname)` without a translation callback, so translation mode is off. */
  function Untranslated(ctx: Context): Context
  {
    ctx.(xlateMode := false)
  }

  /** The cleaner `load_cleaners` keeps from `pathname`: one that loaded without an exception and is usable. */
  function Admitted(pathname: string, ctx: Context): (r: Option<CleanerState>)
    ensures r.Some? ==> r.value.IsUsable() && r.value.id.Some?
  {
    var run := LoadFrom(Fresh, pathname, Untranslated(ctx));
    LoadedUsableHasId(pathname, Untranslated(ctx));
    if run.raised.None? && run.state.cleaner.IsUsable() then Some(run.state.cleaner) else None
  }

  /** A file whose <cleaner> root names another OS is never admitted, whatever mode the caller is in. */
  lemma OtherOsNotAdmitted(pathname: string, ctx: Context, document: Node)
    requires ctx.host.parseXml(pathname) == Ok(document)
    requires ElementsByTagName(document, "cleaner") != []
    requires OsMatch(GetAttribute(ElementsByTagName(document, "cleaner")[0].element, "os"), ctx.host.platform, false) == Ok(false)
    ensures Admitted(pathname, ctx) == None
  {
    RootMismatchDoesNothing(Fresh, ElementsByTagName(document, "cleaner")[0].element, Untranslated(ctx));
  }

  // ----------------------------------------------------------------------
  // The loader object

  class Loader {
    const ctx: Context
    const cleaner: Cleaner
    var optionId: Option<string>
    var optionName: Option<string>
    var optionDescription: Option<string>
    var optionWarning: Option<string>
    var vars: VarTable

    /** The loader's fields and the cleaner's, as a value. */
    function Snapshot(): LoaderState
      reads this, cleaner
    {
      LoaderState(optionId, optionName, optionDescription, optionWarning, vars, cleaner.State())
    }

    constructor (ctx: Context)
      ensures this.ctx == ctx && fresh(cleaner)
      ensures Snapshot() == Fresh
    {
      this.ctx := ctx;
      cleaner := new Cleaner();
      optionId, optionName, optionDescription, optionWarning := None, None, None, None;
      vars := map[];
    }

    /** The rest of the constructor: parse `pathname` and handle its first <cleaner> element. */
    method Parse(pathname: string) returns (raised: Option<Error>)
      modifies this, cleaner
      ensures Run(Snapshot(), raised) == LoadFrom(old(Snapshot()), pathname, ctx)
    {
      var parsed := ctx.host.parseXml(pathname);
      if parsed.Err? {
        return Some(parsed.error);
      }
      var roots := ElementsByTagName(parsed.value, "cleaner");
      if roots == [] {
        return Some(MissingElement("cleaner"));
      }
      raised := HandleCleaner(roots[0].element);
    }

    method HandleCleaner(root: Node) returns (raised: Option<Error>)
      modifies this, cleaner
      ensures Run(Snapshot(), raised) == CleanerStep(old(Snapshot()), root, ctx)
    {
      var m := OsMatch(GetAttribute(root, "os"), ctx.host.platform, ctx.xlateMode);
      if m.Err? {
        return Some(m.error);
      }
      if !m.value {
        return None;
      }
      cleaner.id := Some(GetAttribute(root, "id"));
      var labels := ElementsByTagName(root, "label");
      if labels == [] {
        return Some(MissingElement("label"));
      }
      ghost var s1 := Snapshot();
      cleaner.name := Some(TextOf(labels[0].element));
      var descriptions := ElementsByTagName(root, "description");
      if descriptions != [] && descriptions[0].direct {
        cleaner.description := Some(TextOf(descriptions[0].element));
      }
      assert Snapshot() == Described(s1, root, labels[0].element);
      raised := HandleBody(root);
    }

    /** The body of `handle_cleaner` after the description: variables, options, running entries, localizations. */
    method HandleBody(root: Node) returns (raised: Option<Error>)
      modifies this, cleaner
      ensures Run(Snapshot(), raised) == CleanerBody(old(Snapshot()), root, ctx)
    {
      raised := HandleVars(ElementsByTagName(root, "var"));
      if raised.Some? {
        return;
      }
      HandleOptions(ElementsByTagName(root, "option"));
      raised := HandleCleanerRunning(ElementsByTagName(root, "running"));
      if raised.Some? {
        return;
      }
      HandleLocalizations();
    }

    method HandleVars(vs: seq<Hit>) returns (raised: Option<Error>)
      modifies this
      ensures VarsRun(vars, raised) == DeclareVars(old(vars), vs, ctx)
      ensures Snapshot() == old(Snapshot()).(vars := vars)
    {
      var i := 0;
      while i < |vs|
        invariant 0 <= i <= |vs|
        invariant DeclareVars(old(vars), vs, ctx) == DeclareVars(vars, vs[i..], ctx)
        invariant Snapshot() == old(Snapshot()).(vars := vars)
      {
        assert vs[i..][1..] == vs[i + 1..];
        raised := HandleCleanerVar(vs[i].element);
        if raised.Some? {
          return;
        }
        i := i + 1;
      }
      return None;
    }

    /** The option loop of `handle_cleaner`: an exception in one option is swallowed. */
    method HandleOptions(options: seq<Hit>)
      modifies this, cleaner
      ensures Snapshot() == Options(old(Snapshot()), options, ctx)
    {
      var i := 0;
      while i < |options|
        invariant 0 <= i <= |options|
        invariant Options(old(Snapshot()), options, ctx) == Options(Snapshot(), options[i..], ctx)
      {
        assert options[i..][1..] == options[i + 1..];
        var _ := HandleCleanerOption(options[i].element);
        i := i + 1;
      }
    }

    /** `handle_cleaner_var(var)`. */
    method HandleCleanerVar(v: Node) returns (raised: Option<Error>)
      modifies this
      ensures VarsRun(vars, raised) == DeclareVar(old(vars), v, ctx)
      ensures Snapshot() == old(Snapshot()).(vars := vars)
    {
      var name := GetAttribute(v, "name");
      var values := ElementsByTagName(v, "value");
      var i := 0;
      while i < |values|
        invariant 0 <= i <= |values|
        invariant DeclareValues(old(vars), name, values, ctx) == DeclareValues(vars, name, values[i..], ctx)
        invariant Snapshot() == old(Snapshot()).(vars := vars)
      {
        assert values[i..][1..] == values[i + 1..];
        var value := values[i].element;
        var m := OsMatch(GetAttribute(value, "os"), ctx.host.platform, ctx.xlateMode);
        if m.Err? {
          return Some(m.error);
        }
        if m.value {
          var valueStr := TextOf(value);
          var valueList := if GetAttribute(value, "search") == "glob" then ctx.host.expandGlobJoin(valueStr, "") else [valueStr];
          if name in vars {
            vars := vars[name := valueList + vars[name]];
          } else {
            vars := vars[name := valueList];
          }
        }
        i := i + 1;
      }
      return None;
    }

    /** `handle_cleaner_option(option)`. */
    method HandleCleanerOption(option: Node) returns (raised: Option<Error>)
      modifies this, cleaner
      ensures Run(Snapshot(), raised) == OptionStep(old(Snapshot()), option, ctx)
    {
      var id := GetAttribute(option, "id");
      optionId := Some(id);
      optionDescription := None;
      optionName := None;
      var labels := ElementsByTagName(option, "label");
      if labels == [] {
        return Some(MissingElement("label"));
      }
      optionName := Some(TextOf(labels[0].element));
      var descriptions := ElementsByTagName(option, "description");
      if descriptions == [] {
        return Some(MissingElement("description"));
      }
      optionDescription := Some(TextOf(descriptions[0].element));
      var warnings := ElementsByTagName(option, "warning");
      if warnings != [] {
        optionWarning := Some(TextOf(warnings[0].element));
        if optionWarning.value != "" {
          cleaner.SetWarning(id, optionWarning.value);
        }
      }
      assert Run(Snapshot(), None) == OptionHeader(old(Snapshot()), option);
      raised := HandleOptionActions(ElementsByTagName(option, "action"));
      if raised.Some? {
        return;
      }
      cleaner.AddOption(id, optionName.value, optionDescription.value);
    }

    /** The action loop of `handle_cleaner_option`. */
    method HandleOptionActions(actions: seq<Hit>) returns (raised: Option<Error>)
      requires optionId.Some?
      modifies cleaner
      ensures Run(Snapshot(), raised) == OptionActions(old(Snapshot()), actions, ctx)
    {
      var i := 0;
      while i < |actions|
        invariant 0 <= i <= |actions|
        invariant optionId.Some?
        invariant OptionActions(old(Snapshot()), actions, ctx) == OptionActions(Snapshot(), actions[i..], ctx)
      {
        assert actions[i..][1..] == actions[i + 1..];
        raised := HandleCleanerOptionAction(actions[i].element);
        if raised.Some? {
          return;
        }
        i := i + 1;
      }
      return None;
    }

    /** `handle_cleaner_option_action(action)`. */
    method HandleCleanerOptionAction(action: Node) returns (raised: Option<Error>)
      requires optionId.Some?
      modifies cleaner
      ensures Run(Snapshot(), raised) == OptionAction(old(Snapshot()), action, ctx)
    {
      var m := OsMatch(GetAttribute(action, "os"), ctx.host.platform, ctx.xlateMode);
      if m.Err? {
        return Some(m.error);
      }
      if !m.value {
        return None;
      }
      var command := GetAttribute(action, "command");
      var provider: Option<Provider> := None;
      var i := 0;
      while i < |ctx.plugins|
        invariant 0 <= i <= |ctx.plugins|
        invariant Resolve(ctx.plugins, command, action, vars, None) == Resolve(ctx.plugins[i..], command, action, vars, provider)
      {
        assert ctx.plugins[i..][1..] == ctx.plugins[i + 1..];
        var plugin := ctx.plugins[i];
        if plugin.actionKey == command {
          var made := plugin.make(action, vars);
          if made.Err? {
            return Some(made.error);
          }
          provider := Some(made.value);
        }
        i := i + 1;
      }
      if provider.None? {
        return Some(InvalidCommand(command));
      }
      cleaner.AddAction(optionId.value, provider.value);
      return None;
    }

    /** `handle_cleaner_running(running_elements)`. */
    method HandleCleanerRunning(entries: seq<Hit>) returns (raised: Option<Error>)
      modifies cleaner
      ensures Run(Snapshot(), raised) == RunningEntries(old(Snapshot()), entries, ctx)
    {
      var i := 0;
      while i < |entries|
        invariant 0 <= i <= |entries|
        invariant RunningEntries(old(Snapshot()), entries, ctx) == RunningEntries(Snapshot(), entries[i..], ctx)
      {
        assert entries[i..][1..] == entries[i + 1..];
        var running := entries[i].element;
        var m := OsMatch(GetAttribute(running, "os"), ctx.host.platform, ctx.xlateMode);
        if m.Err? {
          return Some(m.error);
        }
        if m.value {
          cleaner.AddRunning(GetAttribute(running, "type"), TextOf(running));
        }
        i := i + 1;
      }
      return None;
    }

    /** `handle_localizations`: the dummy action, on posix only. */
    method HandleLocalizations()
      modifies cleaner
      ensures Snapshot() == Localizations(old(Snapshot()), ctx)
    {
      if ctx.host.osName == "posix" {
        cleaner.AddAction("localization", DummyProvider);
      }
    }
  }

  // ----------------------------------------------------------------------
  // Cleaner files

  /** The directories scanned: the local directory when set, else the personal one; then the system one unless `local_only`. */
  function CleanerDirs(host: Host, localOnly: bool): (r: seq<string>)
    ensures |r| == 1 || |r| == 2
    ensures r[0] == if host.localCleanersDir.Some? && host.localCleanersDir.value != "" then host.localCleanersDir.value
                    else host.personalCleanersDir
    ensures |r| == 2 <==> !localOnly && host.systemCleanersDir.Some? && host.systemCleanersDir.value != ""
    ensures |r| == 2 ==> r[1] == host.systemCleanersDir.value
  {
    var first := if host.localCleanersDir.Some? && host.localCleanersDir.value != "" then host.localCleanersDir.value
                 else host.personalCleanersDir;
    if !localOnly && host.systemCleanersDir.Some? && host.systemCleanersDir.value != "" then [first, host.systemCleanersDir.value]
    else [first]
  }

  /** `stat.S_IMODE(mode) & 2`: the write bit for others. */
  predicate WorldWritable(mode: nat)
  {
    (mode / 2) % 2 == 1
  }

  /** The entries `list_cleanerml_files` passes to `os.stat`: those ending in ".xml" in any case. */
  predicate IsXmlName(pathname: string)
  {
    EndsWith(Lower(pathname), ".xml")
  }

  /** An `.xml` entry whose `os.stat` raises: the listing generator stops there with that error. */
  predicate StatFails(pathname: string, host: Host)
  {
    IsXmlName(pathname) && host.fileMode(pathname).Err?
  }

  /** A directory entry is a cleaner file when it ends in ".xml" in any case, can be stat-ed and, off win32, is not world-writable. */
  predicate IsCleanerFile(pathname: string, host: Host)
  {
    IsXmlName(pathname) && host.fileMode(pathname).Ok? &&
    (host.platform == "win32" || !WorldWritable(host.fileMode(pathname).value))
  }

  /** What `list_cleanerml_files` yields, drained: the entries yielded in listing order, and the `os.stat` error that ended it, if any. */
  function SelectFiles(paths: seq<string>, host: Host): Yield<string>
  {
    if paths == [] then Yield([], None)
    else SelectNext(SelectFiles(paths[..|paths| - 1], host), paths[|paths| - 1], host)
  }

  /** One more entry for a listing that has yielded `y` so far. */
  function SelectNext(y: Yield<string>, pathname: string, host: Host): Yield<string>
  {
    if y.raised.Some? || !IsXmlName(pathname) then y
    else match host.fileMode(pathname)
      case Err(e) => Yield(y.items, Some(e))
      case Ok(mode) => if host.platform == "win32" || !WorldWritable(mode) then Yield(y.items + [pathname], None) else y
  }

  /** The listing of the first `i + 1` entries extends that of the first `i` by entry `i`. */
  lemma SelectFilesStep(entries: seq<string>, i: nat, host: Host)
    requires i < |entries|
    ensures SelectFiles(entries[..i + 1], host) == SelectNext(SelectFiles(entries[..i], host), entries[i], host)
  {
    assert entries[..i + 1][..i] == entries[..i];
  }

  /** The listing raises exactly when some `.xml` entry cannot be stat-ed. */
  lemma {:induction false} SelectFilesRaises(paths: seq<string>, host: Host)
    ensures SelectFiles(paths, host).raised.None? <==> forall i :: 0 <= i < |paths| ==> !StatFails(paths[i], host)
  {
    if paths != [] {
      var init := paths[..|paths| - 1];
      SelectFilesRaises(init, host);
      if SelectFiles(init, host).raised.Some? {
        var i :| 0 <= i < |init| && StatFails(init[i], host);
        assert paths[i] == init[i];
      } else {
        forall i | 0 <= i < |init|
          ensures paths[i] == init[i]
        {
        }
      }
    }
  }

  /** Whatever happens, every entry yielded is a listed cleaner file, and no entry is yielded twice over. */
  lemma {:induction false} SelectFilesSound(paths: seq<string>, host: Host)
    ensures forall p :: p in SelectFiles(paths, host).items ==> p in paths && IsCleanerFile(p, host)
    ensures |SelectFiles(paths, host).items| <= |paths|
  {
    if paths != [] {
      var init := paths[..|paths| - 1];
      SelectFilesSound(init, host);
      assert paths == init + [paths[|paths| - 1]];
    }
  }

  /** When no `os.stat` fails, exactly the cleaner files among the entries are yielded, each as often as it is listed, in listing order. */
  lemma {:induction false} SelectFilesExactly(paths: seq<string>, host: Host)
    requires SelectFiles(paths, host).raised.None?
    ensures forall p :: p in SelectFiles(paths, host).items <==> p in paths && IsCleanerFile(p, host)
  {
    SelectFilesSound(paths, host);
    if paths != [] {
      var init := paths[..|paths| - 1];
      var last := paths[|paths| - 1];
      assert paths == init + [last];
      assert SelectFiles(init, host).raised.None?;
      SelectFilesExactly(init, host);
    }
  }

  /**
   * The first entry whose `os.stat` fails ends the listing: what was yielded
   * before it is all that is yielded, and its error is the one raised.
   */
  lemma {:induction false} SelectFilesStopsAt(paths: seq<string>, host: Host, j: nat)
    requires j < |paths| && StatFails(paths[j], host)
    requires forall i :: 0 <= i < j ==> !StatFails(paths[i], host)
    ensures SelectFiles(paths, host) == Yield(SelectFiles(paths[..j], host).items, Some(host.fileMode(paths[j]).error))
  {
    var init := paths[..|paths| - 1];
    if j == |paths| - 1 {
      assert init == paths[..j];
      SelectFilesRaises(init, host);
    } else {
      assert init[..j] == paths[..j];
      SelectFilesStopsAt(init, host, j);
    }
  }

  /** `list_cleanerml_files(local_only)`, drained: an `os.stat` error ends it and is raised to the consumer. */
  method ListCleanerMLFiles(host: Host, localOnly: bool) returns (r: Yield<string>)
    ensures r == SelectFiles(host.listdir(CleanerDirs(host, localOnly)), host)
  {
    var cleanerDirs := [host.personalCleanersDir];
    if host.localCleanersDir.Some? && host.localCleanersDir.value != "" {
      cleanerDirs := [host.localCleanersDir.value];
    }
    if !localOnly && host.systemCleanersDir.Some? && host.systemCleanersDir.value != "" {
      cleanerDirs := cleanerDirs + [host.systemCleanersDir.value];
    }
    assert cleanerDirs == CleanerDirs(host, localOnly);
    var entries := host.listdir(cleanerDirs);
    var yielded := [];
    var i := 0;
    while i < |entries|
      invariant 0 <= i <= |entries|
      invariant SelectFiles(entries[..i], host) == Yield(yielded, None)
    {
      SelectFilesStep(entries, i, host);
      var pathname := entries[i];
      if EndsWith(Lower(pathname), ".xml") {
        var st := host.fileMode(pathname);
        if st.Err? {
          SelectFilesStopsHere(entries, i, host);
          return Yield(yielded, Some(st.error));
        }
        if host.platform == "win32" || !WorldWritable(st.value) {
          yielded := yielded + [pathname];
        }
      }
      i := i + 1;
    }
    assert entries[..i] == entries;
    r := Yield(yielded, None);
  }

  /** Once the listing up to `i` ran without error, a failing `os.stat` at `i` ends the whole listing. */
  lemma SelectFilesStopsHere(entries: seq<string>, i: nat, host: Host)
    requires i < |entries| && StatFails(entries[i], host)
    requires SelectFiles(entries[..i], host).raised.None?
    ensures SelectFiles(entries, host) == Yield(SelectFiles(entries[..i], host).items, Some(host.fileMode(entries[i]).error))
  {
    SelectFilesRaises(entries[..i], host);
    forall k | 0 <= k < i
      ensures !StatFails(entries[k], host)
    {
      assert entries[..i][k] == entries[k];
    }
    SelectFilesStopsAt(entries, host, i);
  }

  /** Every cleaner in `loaded` has an id, so `Cleaner.backends[cleaner.id]` has a key to store it under. */
  ghost predicate HaveIds(loaded: seq<Option<CleanerState>>)
  {
    forall i :: 0 <= i < |loaded| && loaded[i].Some? ==> loaded[i].value.id.Some?
  }

  /** What `load_cleaners` gets from each file, in order: the admitted cleaner, or nothing. */
  function Loads(files: seq<string>, ctx: Context): (r: seq<Option<CleanerState>>)
    ensures |r| == |files| && HaveIds(r)
  {
    if files == [] then []
    else
      var before := Loads(files[..|files| - 1], ctx);
      var last := Admitted(files[|files| - 1], ctx);
      assert forall i :: 0 <= i < |before| ==> (before + [last])[i] == before[i];
      before + [last]
  }

  /** The registry after storing the outcome of one file. */
  function Admit(backends: map<string, CleanerState>, outcome: Option<CleanerState>): map<string, CleanerState>
    requires outcome.Some? ==> outcome.value.id.Some?
  {
    if outcome.Some? then backends[outcome.value.id.value := outcome.value] else backends
  }

  /** The registry after `load_cleaners` has stored the cleaners `loaded`: each one replaces any earlier entry with its id. */
  function AdmitAll(backends: map<string, CleanerState>, loaded: seq<Option<CleanerState>>): map<string, CleanerState>
    requires HaveIds(loaded)
  {
    if loaded == [] then backends
    else
      Admit(AdmitAll(backends, loaded[..|loaded| - 1]), loaded[|loaded| - 1])
  }

  /** After loading, an id is registered exactly when it was before or some admitted cleaner has it. */
  lemma {:induction false} AdmitAllKeys(backends: map<string, CleanerState>, loaded: seq<Option<CleanerState>>)
    requires HaveIds(loaded)
    ensures forall k :: k in AdmitAll(backends, loaded) <==>
      k in backends || exists i :: 0 <= i < |loaded| && loaded[i].Some? && loaded[i].value.id == Some(k)
  {
    if loaded != [] {
      var init := loaded[..|loaded| - 1];
      AdmitAllKeys(backends, init);
      assert forall i :: 0 <= i < |init| ==> init[i] == loaded[i];
    }
  }

  /** The cleaner registered under an id is the last admitted one with that id. */
  lemma {:induction false} AdmitAllLastWins(backends: map<string, CleanerState>, loaded: seq<Option<CleanerState>>, j: nat)
    requires HaveIds(loaded) && j < |loaded| && loaded[j].Some?
    requires forall i :: j < i < |loaded| ==> loaded[i].None? || loaded[i].value.id != loaded[j].value.id
    ensures loaded[j].value.id.value in AdmitAll(backends, loaded)
    ensures AdmitAll(backends, loaded)[loaded[j].value.id.value] == loaded[j].value
  {
    if j < |loaded| - 1 {
      var init := loaded[..|loaded| - 1];
      assert init[j] == loaded[j];
      assert forall i :: j < i < |init| ==> init[i] == loaded[i];
      AdmitAllLastWins(backends, init, j);
    }
  }

  /** An id that no admitted cleaner has keeps the entry it had before loading. */
  lemma {:induction false} AdmitAllUntouched(backends: map<string, CleanerState>, loaded: seq<Option<CleanerState>>, k: string)
    requires HaveIds(loaded) && k in backends
    requires forall i :: 0 <= i < |loaded| ==> loaded[i].None? || loaded[i].value.id != Some(k)
    ensures k in AdmitAll(backends, loaded) && AdmitAll(backends, loaded)[k] == backends[k]
  {
    if loaded != [] {
      var init := loaded[..|loaded| - 1];
      assert forall i :: 0 <= i < |init| ==> init[i] == loaded[i];
      AdmitAllUntouched(backends, init, k);
    }
  }

  /** A file that raised, or loaded into a cleaner without actions, changes nothing. */
  lemma NotAdmittedChangesNothing(backends: map<string, CleanerState>, loaded: seq<Option<CleanerState>>)
    requires HaveIds(loaded)
    ensures HaveIds(loaded + [None]) && AdmitAll(backends, loaded + [None]) == AdmitAll(backends, loaded)
  {
    assert (loaded + [None])[..|loaded|] == loaded;
  }

  /** Loading one more file extends the outcomes by that file's. */
  lemma LoadsStep(files: seq<string>, i: nat, ctx: Context)
    requires i < |files|
    ensures Loads(files[..i + 1], ctx) == Loads(files[..i], ctx) + [Admitted(files[i], ctx)]
  {
    assert files[..i + 1][..i] == files[..i];
  }

  /** Storing one more outcome: its cleaner, if any, is put under its id. */
  lemma AdmitStep(backends: map<string, CleanerState>, loaded: seq<Option<CleanerState>>, x: Option<CleanerState>)
    requires HaveIds(loaded + [x])
    ensures HaveIds(loaded)
    ensures x.Some? ==> x.value.id.Some?
    ensures AdmitAll(backends, loaded + [x]) == Admit(AdmitAll(backends, loaded), x)
  {
    assert (loaded + [x])[|loaded|] == x;
    assert forall i :: 0 <= i < |loaded| ==> loaded[i] == (loaded + [x])[i];
    assert (loaded + [x])[..|loaded|] == loaded;
  }

  /**
   * `CleanerML(pathname).get_cleaner()`, with the exception the constructor
   * raised: the cleaner is admitted exactly when nothing was raised and it is usable.
   */
  method LoadFile(pathname: string, ctx: Context) returns (cleaner: Cleaner, raised: Option<Error>)
    ensures fresh(cleaner)
    ensures Admitted(pathname, ctx) == if raised.None? && cleaner.State().IsUsable() then Some(cleaner.State()) else None
  {
    var loader := new Loader(Untranslated(ctx));
    raised := loader.Parse(pathname);
    cleaner := loader.cleaner;
  }

  /** One iteration of `load_cleaners`: load `pathname` and store its cleaner if it is usable. */
  method LoadOne(registry: Registry, pathname: string, ctx: Context)
    modifies registry
    ensures registry.States() == Admit(old(registry.States()), Admitted(pathname, ctx))
  {
    var cleaner, raised := LoadFile(pathname, ctx);
    if raised.None? && cleaner.IsUsable() {
      registry.Register(cleaner.id.value, cleaner);
    }
  }

  /** The listing `load_cleaners` walks: `list_cleanerml_files()` over all the cleaner directories. */
  function Listed(host: Host): Yield<string>
  {
    SelectFiles(host.listdir(CleanerDirs(host, false)), host)
  }

  /**
   * `load_cleaners()`: every usable cleaner that loads is stored under its id,
   * later files overwriting earlier ones.  An `os.stat` error in the listing
   * is outside the `try`, so it ends the loop and reaches the caller.
   */
  method LoadCleaners(registry: Registry, ctx: Context) returns (raised: Option<Error>)
    modifies registry
    ensures registry.States() == AdmitAll(old(registry.States()), Loads(Listed(ctx.host).items, ctx))
    ensures raised == Listed(ctx.host).raised
  {
    var listing := ListCleanerMLFiles(ctx.host, false);
    var files := listing.items;
    var i := 0;
    while i < |files|
      invariant 0 <= i <= |files|
      invariant registry.States() == AdmitAll(old(registry.States()), Loads(files[..i], ctx))
    {
      LoadsStep(files, i, ctx);
      AdmitStep(old(registry.States()), Loads(files[..i], ctx), Admitted(files[i], ctx));
      LoadOne(registry, files[i], ctx);
      i := i + 1;
    }
    assert files[..i] == files;
    raised := listing.raised;
  }

  // ----------------------------------------------------------------------
  // .pot fragments

  /** `msgid.replace('"', '\\"')`. */
  function Escape(s: string): (r: string)
    ensures |r| >= |s|
  {
    if s == [] then [] else (if s[0] == '"' then ['\\', '"'] else [s[0]]) + Escape(s[1..])
  }

  /** Reading an escaped msgid back: `\"` is a quote, every other character stands for itself. */
  function Unescape(s: string): string
  {
    if |s| >= 2 && s[0] == '\\' && s[1] == '"' then ['"'] + Unescape(s[2..])
    else if s == [] then []
    else [s[0]] + Unescape(s[1..])
  }

  /** The escaped text never starts with a quote: every quote in it is preceded by its backslash. */
  lemma {:induction false} EscapeNoLeadingQuote(s: string)
    ensures Escape(s) == [] || Escape(s)[0] != '"'
  {
  }

  /** Escaping loses nothing: unescaping the escaped msgid gives it back. */
  lemma {:induction false} EscapeRoundTrip(s: string)
    ensures Unescape(Escape(s)) == s
  {
    if s != [] {
      EscapeRoundTrip(s[1..]);
      var rest := Escape(s[1..]);
      if s[0] == '"' {
        assert Escape(s) == ['\\', '"'] + rest;
        assert (['\\', '"'] + rest)[2..] == rest;
      } else {
        assert Escape(s) == [s[0]] + rest;
        EscapeNoLeadingQuote(s[1..]);
        assert ([s[0]] + rest)[1..] == rest;
        if s[0] == '\\' && rest != [] {
          assert ([s[0]] + rest)[1] == rest[0];
        }
      }
    }
  }

  /** Every quote of the escaped text is preceded by a backslash (backslashes themselves are not escaped). */
  lemma {:induction false} EscapeQuotesEscaped(s: string)
    ensures forall i :: 0 <= i < |Escape(s)| && Escape(s)[i] == '"' ==> i > 0 && Escape(s)[i - 1] == '\\'
  {
    if s != [] {
      EscapeQuotesEscaped(s[1..]);
      EscapeNoLeadingQuote(s[1..]);
      var head: string := if s[0] == '"' then ['\\', '"'] else [s[0]];
      var rest := Escape(s[1..]);
      assert Escape(s) == head + rest;
      forall i | 0 <= i < |head + rest| && (head + rest)[i] == '"'
        ensures i > 0 && (head + rest)[i - 1] == '\\'
      {
        if i >= |head| {
          assert (head + rest)[i] == rest[i - |head|];
          if i - |head| > 0 {
            assert (head + rest)[i - 1] == rest[i - |head| - 1];
          }
        }
      }
    }
  }

  /** `translators` is truthy: given and not blank. */
  predicate Truthy(translators: Option<string>)
  {
    translators.Some? && translators.value != ""
  }

  /** `pot_fragment(msgid, pathname, translators)`. */
  function PotFragment(msgid: string, pathname: string, translators: Option<string>): string
  {
    var header := if Truthy(translators) then "#. " + translators.value + "\n" else "";
    header + "#: " + pathname + "\nmsgid \"" + Escape(msgid) + "\"\nmsgstr \"\"\n\n"
  }

  /**
   * A fragment opens with a translators' comment exactly when translators is
   * truthy, and otherwise with the reference line; it always ends with the
   * escaped msgid's entry and an empty msgstr.
   */
  lemma PotFragmentShape(msgid: string, pathname: string, translators: Option<string>)
    ensures StartsWith(PotFragment(msgid, pathname, translators), "#. ") <==> Truthy(translators)
    ensures !Truthy(translators) ==> StartsWith(PotFragment(msgid, pathname, translators), "#: " + pathname + "\n")
    ensures EndsWith(PotFragment(msgid, pathname, translators), "msgid \"" + Escape(msgid) + "\"\nmsgstr \"\"\n\n")
  {
    var f := PotFragment(msgid, pathname, translators);
    var tail := "msgid \"" + Escape(msgid) + "\"\nmsgstr \"\"\n\n";
    var header := if Truthy(translators) then "#. " + translators.value + "\n" else "";
    assert f == (header + "#: " + pathname + "\n") + tail;
    assert f[|f| - |tail|..] == tail;
    if Truthy(translators) {
      assert f[..3] == "#. ";
    } else {
      assert f[..|"#: " + pathname + "\n"|] == "#: " + pathname + "\n";
      assert f[1] == ':';
    }
  }
}
