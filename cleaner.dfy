/**
 * The runtime facade of one cleaner (bleachbit/Cleaner.py, class Cleaner):
 * its options, the actions registered under them, running-detection entries,
 * warnings, the lazily compiled whitelist, and the process-wide registry of
 * cleaners.
 *
 * `CleanerState` is the value of a cleaner's fields; the loader's
 * specification works on it.  `Cleaner` is the object the source mutates in
 * place; its methods are proved against `CleanerState`.
 */
module Cleaners {
  import opened Base
  import opened Host
  import opened Order

  /** The effects a provider emits; the effect itself is not modelled. */
  datatype Command =
    | Delete(path: string)
    | Shred(path: string)
    | RegistryEdit(key: string, value: Option<string>)
    | Function(target: Option<string>, display: string)

  /** A deep-scan entry: a dictionary descriptor, or anything else a provider yields. */
  datatype DeepScanEntry =
    | DeepScanDict(fields: map<string, string>)
    | DeepScanOther(text: string)

  /**
   * An action provider as a cleaner sees it: its action key and what draining
   * its `get_commands()` and `get_deep_scan()` generators produces.
   */
  datatype Provider = Provider(actionKey: string, commands: Yield<Command>, deepScan: Yield<DeepScanEntry>)

  /** One `(option_id, provider)` pair of `actions`. */
  datatype Action = Action(optionId: string, provider: Provider)

  /** The `(name, description)` pair stored under an option id. */
  datatype OptionInfo = OptionInfo(name: string, description: string)

  /** One `(detection_type, pathname)` pair of `running`. */
  datatype Detection = Detection(test: string, value: string)

  /** What `cmd.execute(False)` does before it yields its first item. */
  datatype Preview = Yields | Silent | Raises(error: Error)

  /** Where probing one option in `auto_hide` ends. */
  datatype Verdict =
    | Show             // something to do: return False
    | Quiet            // nothing to do here
    | Failed(e: Error) // an exception, logged and swallowed

  /** The outcome of one running-detection entry. */
  datatype Detected = Running | NotRunning | UnknownTest

  datatype CleanerState = CleanerState(
    id: Option<string>,
    name: Option<string>,
    description: Option<string>,
    options: map<string, OptionInfo>,
    actions: seq<Action>,
    running: seq<Detection>,
    warnings: map<string, string>)
  {
    function AddAction(optionId: string, provider: Provider): CleanerState
    {
      this.(actions := actions + [Action(optionId, provider)])
    }

    function AddOption(optionId: string, name: string, description: string): CleanerState
    {
      this.(options := options[optionId := OptionInfo(name, description)])
    }

    function AddRunning(test: string, value: string): CleanerState
    {
      this.(running := running + [Detection(test, value)])
    }

    function SetWarning(optionId: string, text: string): CleanerState
    {
      this.(warnings := warnings[optionId := text])
    }

    function GetWarning(optionId: string): Option<string>
    {
      if optionId in warnings then Some(warnings[optionId]) else None
    }

    predicate IsUsable()
    {
      |actions| > 0
    }

    /** `get_commands(option_id)`, drained. */
    function Commands(optionId: string): Yield<Command>
    {
      CloseCommands(ChainCommands(Matching(actions, optionId)), optionId, options)
    }

    /** `get_deep_scan(option_id)`, drained. */
    function DeepScan(optionId: string): Yield<DeepScanEntry>
    {
      CloseDeepScan(ChainDeepScan(Matching(actions, optionId)), optionId, options)
    }
  }

  /** A freshly constructed Cleaner. */
  const EmptyCleaner := CleanerState(None, None, None, map[], [], [], map[])

  /** The providers registered under `optionId`, in registration order. */
  function Matching(actions: seq<Action>, optionId: string): seq<Provider>
  {
    if actions == [] then []
    else
      var last := actions[|actions| - 1];
      Matching(actions[..|actions| - 1], optionId) + (if last.optionId == optionId then [last.provider] else [])
  }

  /** The providers' command generators run one after another; the first one that raises ends the run. */
  function ChainCommands(ps: seq<Provider>): Yield<Command>
  {
    if ps == [] then Yield([], None)
    else
      var before := ChainCommands(ps[..|ps| - 1]);
      var last := ps[|ps| - 1].commands;
      if before.raised.Some? then before else Yield(before.items + last.items, last.raised)
  }

  function ChainDeepScan(ps: seq<Provider>): Yield<DeepScanEntry>
  {
    if ps == [] then Yield([], None)
    else
      var before := ChainDeepScan(ps[..|ps| - 1]);
      var last := ps[|ps| - 1].deepScan;
      if before.raised.Some? then before else Yield(before.items + last.items, last.raised)
  }

  /** What follows the providers' output: "Unknown option" unless the id is an option. */
  function CloseCommands(y: Yield<Command>, optionId: string, options: map<string, OptionInfo>): Yield<Command>
  {
    if y.raised.Some? || optionId in options then y else Yield(y.items, Some(UnknownOption(optionId)))
  }

  function CloseDeepScan(y: Yield<DeepScanEntry>, optionId: string, options: map<string, OptionInfo>): Yield<DeepScanEntry>
  {
    if y.raised.Some? || optionId in options then y else Yield(y.items, Some(UnknownOption(optionId)))
  }

  /** The commands of `ps`, concatenated in provider order. */
  function AllCommands(ps: seq<Provider>): seq<Command>
  {
    if ps == [] then [] else AllCommands(ps[..|ps| - 1]) + ps[|ps| - 1].commands.items
  }

  function AllDeepScan(ps: seq<Provider>): seq<DeepScanEntry>
  {
    if ps == [] then [] else AllDeepScan(ps[..|ps| - 1]) + ps[|ps| - 1].deepScan.items
  }

  /**
   * A cleaner with a single action registered under one of its options yields
   * that provider's commands for that option, and "Unknown option" for an id
   * that is neither that option nor any other.
   */
  lemma SoleActionCommands(st: CleanerState, other: string)
    requires |st.actions| == 1 && st.actions[0].optionId in st.options
    ensures st.Commands(st.actions[0].optionId) == st.actions[0].provider.commands
    ensures other != st.actions[0].optionId && other !in st.options ==>
      st.Commands(other) == Yield([], Some(UnknownOption(other)))
  {
    var a := st.actions[0];
    assert st.actions == [a];
    MatchingSingle(a, a.optionId);
    ChainSingle(a.provider);
    MatchingSingle(a, other);
  }

  lemma MatchingSingle(a: Action, optionId: string)
    ensures Matching([a], optionId) == if a.optionId == optionId then [a.provider] else []
  {
    assert [a][..0] == [];
  }

  lemma ChainSingle(p: Provider)
    ensures ChainCommands([p]) == p.commands
  {
    assert [p][..0] == [];
    assert [] + p.commands.items == p.commands.items;
  }

  /** Every provider registered under `optionId` is registered under it, and no other is. */
  lemma {:induction false} MatchingExactly(actions: seq<Action>, optionId: string)
    ensures forall p :: p in Matching(actions, optionId) <==> Action(optionId, p) in actions
  {
    if actions != [] {
      var init := actions[..|actions| - 1];
      MatchingExactly(init, optionId);
      assert actions == init + [actions[|actions| - 1]];
    }
  }

  lemma {:induction false} ChainCommandsSucceeds(ps: seq<Provider>)
    requires forall i :: 0 <= i < |ps| ==> ps[i].commands.raised == None
    ensures ChainCommands(ps) == Yield(AllCommands(ps), None)
  {
    if ps != [] {
      ChainCommandsSucceeds(ps[..|ps| - 1]);
    }
  }

  lemma {:induction false} ChainDeepScanSucceeds(ps: seq<Provider>)
    requires forall i :: 0 <= i < |ps| ==> ps[i].deepScan.raised == None
    ensures ChainDeepScan(ps) == Yield(AllDeepScan(ps), None)
  {
    if ps != [] {
      ChainDeepScanSucceeds(ps[..|ps| - 1]);
    }
  }

  /**
   * The first provider that raises ends `get_commands`: what is yielded is the
   * output of every provider up to and including it, then its exception.
   */
  lemma {:induction false} ChainCommandsStops(ps: seq<Provider>, k: nat)
    requires k < |ps| && ps[k].commands.raised.Some?
    requires forall i :: 0 <= i < k ==> ps[i].commands.raised == None
    ensures ChainCommands(ps) == Yield(AllCommands(ps[..k + 1]), ps[k].commands.raised)
  {
    if k + 1 == |ps| {
      ChainCommandsSucceeds(ps[..k]);
      assert ps[..k + 1] == ps;
    } else {
      ChainCommandsStops(ps[..|ps| - 1], k);
      assert ps[..|ps| - 1][..k + 1] == ps[..k + 1];
    }
  }

  /** The same for `get_deep_scan`: the first provider that raises ends the deep scan. */
  lemma {:induction false} ChainDeepScanStops(ps: seq<Provider>, k: nat)
    requires k < |ps| && ps[k].deepScan.raised.Some?
    requires forall i :: 0 <= i < k ==> ps[i].deepScan.raised == None
    ensures ChainDeepScan(ps) == Yield(AllDeepScan(ps[..k + 1]), ps[k].deepScan.raised)
  {
    if k + 1 == |ps| {
      ChainDeepScanSucceeds(ps[..k]);
      assert ps[..k + 1] == ps;
    } else {
      ChainDeepScanStops(ps[..|ps| - 1], k);
      assert ps[..|ps| - 1][..k + 1] == ps[..k + 1];
    }
  }

  /**
   * When no provider of `optionId` raises, get_commands yields exactly their
   * commands, registration order then provider order, and afterwards raises
   * "Unknown option" exactly when `optionId` is not an option.
   */
  lemma CommandsWhenProvidersSucceed(st: CleanerState, optionId: string)
    requires forall p :: p in Matching(st.actions, optionId) ==> p.commands.raised == None
    ensures st.Commands(optionId).items == AllCommands(Matching(st.actions, optionId))
    ensures st.Commands(optionId).raised == None <==> optionId in st.options
    ensures optionId !in st.options ==> st.Commands(optionId).raised == Some(UnknownOption(optionId))
  {
    var ps := Matching(st.actions, optionId);
    assert forall i :: 0 <= i < |ps| ==> ps[i] in ps;
    ChainCommandsSucceeds(ps);
  }

  lemma DeepScanWhenProvidersSucceed(st: CleanerState, optionId: string)
    requires forall p :: p in Matching(st.actions, optionId) ==> p.deepScan.raised == None
    ensures st.DeepScan(optionId).items == AllDeepScan(Matching(st.actions, optionId))
    ensures st.DeepScan(optionId).raised == None <==> optionId in st.options
    ensures optionId !in st.options ==> st.DeepScan(optionId).raised == Some(UnknownOption(optionId))
  {
    var ps := Matching(st.actions, optionId);
    assert forall i :: 0 <= i < |ps| ==> ps[i] in ps;
    ChainDeepScanSucceeds(ps);
  }

  /** `is_usable`: a cleaner is usable exactly when `get_commands` consults a provider for some option id. */
  lemma UsableIffSomeProvider(st: CleanerState)
    ensures st.IsUsable() <==> exists optionId :: Matching(st.actions, optionId) != []
  {
    if st.IsUsable() {
      var a := st.actions[0];
      MatchingExactly(st.actions, a.optionId);
      assert a.provider in Matching(st.actions, a.optionId);
    } else {
      forall optionId
        ensures Matching(st.actions, optionId) == []
      {
      }
    }
  }

  /** get_warning returns what set_warning stored last for that id and leaves other ids alone. */
  lemma WarningLastSet(st: CleanerState, optionId: string, text: string, other: string)
    requires other != optionId
    ensures st.SetWarning(optionId, text).GetWarning(optionId) == Some(text)
    ensures st.SetWarning(optionId, text).GetWarning(other) == st.GetWarning(other)
  {
  }

  /** Probing the commands of one option: the first command whose preview yields shows; one that raises fails. */
  function CommandVerdict(cmds: seq<Command>, raised: Option<Error>, preview: Command -> Preview): Verdict
  {
    if cmds == [] then (if raised.Some? then Failed(raised.value) else Quiet)
    else match preview(cmds[0])
      case Yields => Show
      case Raises(e) => Failed(e)
      case Silent => CommandVerdict(cmds[1..], raised, preview)
  }

  /** Probing the deep-scan entries of one option: any dictionary entry shows. */
  function DeepScanVerdict(entries: seq<DeepScanEntry>, raised: Option<Error>): Verdict
  {
    if entries == [] then (if raised.Some? then Failed(raised.value) else Quiet)
    else if entries[0].DeepScanDict? then Show
    else DeepScanVerdict(entries[1..], raised)
  }

  /** The body of `auto_hide`'s `try`, for one option. */
  function OptionVerdict(st: CleanerState, optionId: string, preview: Command -> Preview): Verdict
  {
    var c := st.Commands(optionId);
    var v := CommandVerdict(c.items, c.raised, preview);
    if v != Quiet then v
    else
      var d := st.DeepScan(optionId);
      DeepScanVerdict(d.items, d.raised)
  }

  lemma {:induction false} CommandVerdictShows(cmds: seq<Command>, raised: Option<Error>, preview: Command -> Preview)
    ensures CommandVerdict(cmds, raised, preview) == Show <==>
      exists k :: 0 <= k < |cmds| && preview(cmds[k]) == Yields && forall j :: 0 <= j < k ==> preview(cmds[j]) == Silent
  {
    if cmds != [] {
      CommandVerdictShows(cmds[1..], raised, preview);
      if preview(cmds[0]) == Silent {
        if CommandVerdict(cmds[1..], raised, preview) == Show {
          var k :| 0 <= k < |cmds[1..]| && preview(cmds[1..][k]) == Yields
            && forall j :: 0 <= j < k ==> preview(cmds[1..][j]) == Silent;
          assert preview(cmds[k + 1]) == Yields;
          assert forall j :: 0 <= j < k + 1 ==> preview(cmds[j]) == Silent by {
            forall j | 0 <= j < k + 1 ensures preview(cmds[j]) == Silent {
              if j > 0 { assert cmds[j] == cmds[1..][j - 1]; }
            }
          }
        } else {
          forall k | 0 <= k < |cmds| && preview(cmds[k]) == Yields
            ensures exists j :: 0 <= j < k && preview(cmds[j]) != Silent
          {
            assert k > 0 && cmds[1..][k - 1] == cmds[k];
            var j :| 0 <= j < k - 1 && preview(cmds[1..][j]) != Silent;
            assert cmds[1..][j] == cmds[j + 1];
          }
        }
      }
    }
  }

  lemma {:induction false} DeepScanVerdictShows(entries: seq<DeepScanEntry>, raised: Option<Error>)
    ensures DeepScanVerdict(entries, raised) == Show <==> exists k :: 0 <= k < |entries| && entries[k].DeepScanDict?
  {
    if entries != [] {
      DeepScanVerdictShows(entries[1..], raised);
      if !entries[0].DeepScanDict? {
        if DeepScanVerdict(entries[1..], raised) == Show {
          var k :| 0 <= k < |entries[1..]| && entries[1..][k].DeepScanDict?;
          assert entries[k + 1].DeepScanDict?;
        } else {
          forall k | 0 <= k < |entries|
            ensures !entries[k].DeepScanDict?
          {
            if k > 0 { assert entries[k] == entries[1..][k - 1]; }
          }
        }
      }
    }
  }

  /**
   * One option keeps a cleaner visible exactly when its first command whose
   * preview is not silent yields, or when all its commands are silent, its
   * command generator ends normally and some deep-scan entry is a dictionary.
   * An exception settles the option as not visible-making.
   */
  lemma OptionShowsIff(st: CleanerState, optionId: string, preview: Command -> Preview)
    ensures OptionVerdict(st, optionId, preview) == Show <==>
      var c := st.Commands(optionId);
      var d := st.DeepScan(optionId);
      (exists k :: 0 <= k < |c.items| && preview(c.items[k]) == Yields && forall j :: 0 <= j < k ==> preview(c.items[j]) == Silent)
      || (CommandVerdict(c.items, c.raised, preview) == Quiet && exists k :: 0 <= k < |d.items| && d.items[k].DeepScanDict?)
  {
    var c := st.Commands(optionId);
    var d := st.DeepScan(optionId);
    CommandVerdictShows(c.items, c.raised, preview);
    DeepScanVerdictShows(d.items, d.raised);
  }

  /** The outcome of one running-detection entry, as the loop body of `is_running` decides it. */
  function Detect(d: Detection, host: Host): Detected
  {
    if d.test == "exe" && (host.osName == "posix" || host.osName == "nt") then
      if host.processRunning(d.value) then Running else NotRunning
    else if d.test == "pathname" then
      var globbed := host.glob(host.expandPath(d.value));
      if exists k :: 0 <= k < |globbed| && host.pathExists(globbed[k]) then Running else NotRunning
    else UnknownTest
  }

  /** Entry `i` is the first that does not come out `NotRunning`. */
  ghost predicate FirstDecisive(running: seq<Detection>, i: int, host: Host)
  {
    0 <= i < |running| && Detect(running[i], host) != NotRunning
    && forall j :: 0 <= j < i ==> Detect(running[j], host) == NotRunning
  }

  /** The fixed whitelist of the generic sweep, anchored regular expressions in source order. */
  function WhitelistPatterns(host: Host): seq<string>
  {
    [ "^/tmp/.X0-lock$",
      "^/tmp/.truecrypt_aux_mnt.*/(control|volume)$",
      "^/tmp/.vbox-[^/]+-ipc/lock$",
      "^/tmp/.wine-[0-9]+/server-.*/lock$",
      "^/tmp/gconfd-[^/]+/lock/ior$",
      "^/tmp/fsa/",
      "^/tmp/kde-",
      "^/tmp/kdesudo-",
      "^/tmp/ksocket-",
      "^/tmp/orbit-[^/]+/bonobo-activation-register[a-z0-9-]*.lock$",
      "^/tmp/orbit-[^/]+/bonobo-activation-server-[a-z0-9-]*ior$",
      "^/tmp/pulse-[^/]+/pid$",
      "^/var/tmp/kdecache-",
      "^" + host.expandUser("~/.cache/wallpaper/"),
      "^" + host.expandUser("~/.cache/mozilla"),
      "^" + host.expandUser("~/.cache/google-chrome"),
      "^" + host.expandUser("~/.cache/gnome-control-center/"),
      "^" + host.expandUser("~/.cache/ibus/"),
      "^" + host.expandUser("~/.cache/obexd/") ]
  }

  /** `r` lists every option as `(id, name)`, in the order `sorted(options.keys())` gives. */
  ghost predicate ListsOptions(r: seq<(string, string)>, options: map<string, OptionInfo>)
  {
    var ks := SortedKeys(options.Keys);
    |r| == |ks| && forall i :: 0 <= i < |r| ==> r[i].0 == ks[i] && r[i].0 in options && r[i].1 == options[r[i].0].name
  }

  /** Such a listing is strictly ascending by id and names every option. */
  lemma ListsOptionsSorted(r: seq<(string, string)>, options: map<string, OptionInfo>)
    requires ListsOptions(r, options)
    ensures forall i, j :: 0 <= i < j < |r| ==> Below(r[i].0, r[j].0)
    ensures forall k :: k in options ==> exists i :: 0 <= i < |r| && r[i].0 == k
  {
    var ks := SortedKeys(options.Keys);
    SortedKeysSorted(options.Keys);
    forall k | k in options
      ensures exists i :: 0 <= i < |r| && r[i].0 == k
    {
      var i :| 0 <= i < |ks| && ks[i] == k;
      assert r[i].0 == k;
    }
  }

  /** Extending the action list by one entry extends the matching providers by at most that entry's. */
  lemma MatchingStep(actions: seq<Action>, i: nat, optionId: string)
    requires i < |actions|
    ensures actions[i].optionId == optionId ==>
      Matching(actions[..i + 1], optionId) == Matching(actions[..i], optionId) + [actions[i].provider]
    ensures actions[i].optionId != optionId ==> Matching(actions[..i + 1], optionId) == Matching(actions[..i], optionId)
  {
    assert actions[..i + 1][..i] == actions[..i];
    assert Matching(actions[..i], optionId) + [] == Matching(actions[..i], optionId);
  }

  /** Running one more provider after `ps`: its output is appended unless an earlier provider raised. */
  lemma ChainStep(ps: seq<Provider>, p: Provider)
    ensures ChainCommands(ps + [p]) == if ChainCommands(ps).raised.Some? then ChainCommands(ps)
      else Yield(ChainCommands(ps).items + p.commands.items, p.commands.raised)
    ensures ChainDeepScan(ps + [p]) == if ChainDeepScan(ps).raised.Some? then ChainDeepScan(ps)
      else Yield(ChainDeepScan(ps).items + p.deepScan.items, p.deepScan.raised)
  {
    assert (ps + [p])[..|ps|] == ps;
  }

  class Cleaner {
    var id: Option<string>
    var name: Option<string>
    var description: Option<string>
    var options: map<string, OptionInfo>
    var actions: seq<Action>
    var running: seq<Detection>
    var warnings: map<string, string>
    /** The compiled whitelist: the base class sets `regexes_compiled` to empty (Cleaner.py:81) and only System's `init_whitelist` fills it. */
    var regexesCompiled: seq<string>

    /** The cleaner's fields as a value (the whitelist cache aside). */
    function State(): CleanerState
      reads this
    {
      CleanerState(id, name, description, options, actions, running, warnings)
    }

    constructor ()
      ensures State() == EmptyCleaner && regexesCompiled == []
    {
      id, name, description := None, None, None;
      options, actions, running, warnings := map[], [], [], map[];
      regexesCompiled := [];
    }

    /** Registers `provider` under `optionId`, after everything registered before; duplicates are kept. */
    method AddAction(optionId: string, provider: Provider)
      modifies this`actions
      ensures actions == old(actions) + [Action(optionId, provider)]
      ensures State() == old(State()).AddAction(optionId, provider)
    {
      actions := actions + [Action(optionId, provider)];
    }

    /** Registers (or replaces) the name and description of `optionId`. */
    method AddOption(optionId: string, name: string, description: string)
      modifies this`options
      ensures options == old(options)[optionId := OptionInfo(name, description)]
      ensures State() == old(State()).AddOption(optionId, name, description)
    {
      options := options[optionId := OptionInfo(name, description)];
    }

    method AddRunning(test: string, value: string)
      modifies this`running
      ensures running == old(running) + [Detection(test, value)]
      ensures State() == old(State()).AddRunning(test, value)
    {
      running := running + [Detection(test, value)];
    }

    method SetWarning(optionId: string, text: string)
      modifies this`warnings
      ensures GetWarning(optionId) == Some(text)
      ensures forall other :: other != optionId ==> GetWarning(other) == old(GetWarning(other))
      ensures State() == old(State()).SetWarning(optionId, text)
    {
      warnings := warnings[optionId := text];
    }

    function GetWarning(optionId: string): Option<string>
      reads this
    {
      State().GetWarning(optionId)
    }

    predicate IsUsable()
      reads this
    {
      State().IsUsable()
    }

    /** `get_commands`: the matching providers' commands in order, then "Unknown option" for an unknown id. */
    method GetCommands(optionId: string) returns (r: Yield<Command>)
      ensures r == State().Commands(optionId)
    {
      var acc := Yield([], None);
      var i := 0;
      while i < |actions|
        invariant 0 <= i <= |actions|
        invariant acc == ChainCommands(Matching(actions[..i], optionId))
      {
        MatchingStep(actions, i, optionId);
        ChainStep(Matching(actions[..i], optionId), actions[i].provider);
        if optionId == actions[i].optionId && acc.raised.None? {
          var y := actions[i].provider.commands;
          acc := Yield(acc.items + y.items, y.raised);
        }
        i := i + 1;
      }
      assert actions[..i] == actions;
      if acc.raised.None? && optionId !in options {
        acc := Yield(acc.items, Some(UnknownOption(optionId)));
      }
      r := acc;
    }

    /** `get_deep_scan`: the matching providers' deep-scan entries in order, then "Unknown option" for an unknown id. */
    method GetDeepScan(optionId: string) returns (r: Yield<DeepScanEntry>)
      ensures r == State().DeepScan(optionId)
    {
      var acc := Yield([], None);
      var i := 0;
      while i < |actions|
        invariant 0 <= i <= |actions|
        invariant acc == ChainDeepScan(Matching(actions[..i], optionId))
      {
        MatchingStep(actions, i, optionId);
        ChainStep(Matching(actions[..i], optionId), actions[i].provider);
        if optionId == actions[i].optionId && acc.raised.None? {
          var y := actions[i].provider.deepScan;
          acc := Yield(acc.items + y.items, y.raised);
        }
        i := i + 1;
      }
      assert actions[..i] == actions;
      if acc.raised.None? && optionId !in options {
        acc := Yield(acc.items, Some(UnknownOption(optionId)));
      }
      r := acc;
    }

    /** `get_options`: one `(id, name)` per option, ids strictly ascending. */
    method GetOptions() returns (r: seq<(string, string)>)
      ensures ListsOptions(r, options)
      ensures forall i, j :: 0 <= i < j < |r| ==> Below(r[i].0, r[j].0)
      ensures forall k :: k in options ==> exists i :: 0 <= i < |r| && r[i].0 == k
    {
      ghost var ks := SortedKeys(options.Keys);
      var remaining := options.Keys;
      r := [];
      while remaining != {}
        invariant remaining <= options.Keys
        invariant |r| + |remaining| == |ks|
        invariant ks[|r|..] == SortedKeys(remaining)
        invariant forall i :: 0 <= i < |r| ==> r[i].0 == ks[i] && r[i].0 in options && r[i].1 == options[r[i].0].name
        decreases remaining
      {
        LeastExists(remaining);
        var key :| IsLeast(key, remaining);
        SortedKeysStep(ks, |r|, key, remaining);
        r := r + [(key, options[key].name)];
        remaining := remaining - {key};
      }
      ListsOptionsSorted(r, options);
    }

    /** `get_option_descriptions`: one `(name, description)` per option, in the order of `get_options`. */
    method GetOptionDescriptions() returns (r: seq<(string, string)>)
      ensures |r| == |options|
      ensures forall i :: 0 <= i < |r| ==>
        var k := SortedKeys(options.Keys)[i];
        k in options && r[i] == (options[k].name, options[k].description)
    {
      ghost var ks := SortedKeys(options.Keys);
      var remaining := options.Keys;
      r := [];
      while remaining != {}
        invariant remaining <= options.Keys
        invariant |r| + |remaining| == |ks|
        invariant ks[|r|..] == SortedKeys(remaining)
        invariant forall i :: 0 <= i < |r| ==> ks[i] in options && r[i] == (options[ks[i]].name, options[ks[i]].description)
        decreases remaining
      {
        LeastExists(remaining);
        var key :| IsLeast(key, remaining);
        SortedKeysStep(ks, |r|, key, remaining);
        r := r + [(options[key].name, options[key].description)];
        remaining := remaining - {key};
      }
    }

    /**
     * `is_running`: scans `running` in order; the first entry that detects the
     * program answers true, the first unknown test raises, and a scan that
     * finds neither answers false.
     */
    method IsRunning(host: Host) returns (r: Result<bool>)
      ensures r == Ok(true) <==> exists i :: FirstDecisive(running, i, host) && Detect(running[i], host) == Running
      ensures r == Ok(false) <==> forall i :: 0 <= i < |running| ==> Detect(running[i], host) == NotRunning
      ensures r.Err? ==> exists i :: FirstDecisive(running, i, host) && Detect(running[i], host) == UnknownTest
                                   && r.error == UnknownRunningTest(running[i].test)
    {
      var i := 0;
      while i < |running|
        invariant 0 <= i <= |running|
        invariant forall j :: 0 <= j < i ==> Detect(running[j], host) == NotRunning
      {
        var test := running[i].test;
        var pathname := running[i].value;
        if test == "exe" && host.osName == "posix" {
          if host.processRunning(pathname) {
            assert FirstDecisive(running, i, host);
            return Ok(true);
          }
        } else if test == "exe" && host.osName == "nt" {
          if host.processRunning(pathname) {
            assert FirstDecisive(running, i, host);
            return Ok(true);
          }
        } else if test == "pathname" {
          var globbed := host.glob(host.expandPath(pathname));
          var k := 0;
          while k < |globbed|
            invariant 0 <= k <= |globbed|
            invariant forall m :: 0 <= m < k ==> !host.pathExists(globbed[m])
          {
            if host.pathExists(globbed[k]) {
              assert FirstDecisive(running, i, host);
              return Ok(true);
            }
            k := k + 1;
          }
        } else {
          assert FirstDecisive(running, i, host);
          return Err(UnknownRunningTest(test));
        }
        i := i + 1;
      }
      return Ok(false);
    }

    /** The `try` body of `auto_hide` for one option. */
    method ProbeOption(optionId: string, preview: Command -> Preview) returns (v: Verdict)
      ensures v == OptionVerdict(State(), optionId, preview)
    {
      var cmds := GetCommands(optionId);
      var j := 0;
      while j < |cmds.items|
        invariant 0 <= j <= |cmds.items|
        invariant CommandVerdict(cmds.items, cmds.raised, preview) == CommandVerdict(cmds.items[j..], cmds.raised, preview)
      {
        var p := preview(cmds.items[j]);
        if p == Yields {
          return Show;
        }
        if p.Raises? {
          return Failed(p.error);
        }
        assert cmds.items[j..][1..] == cmds.items[j + 1..];
        j := j + 1;
      }
      if cmds.raised.Some? {
        return Failed(cmds.raised.value);
      }
      var scans := GetDeepScan(optionId);
      j := 0;
      while j < |scans.items|
        invariant 0 <= j <= |scans.items|
        invariant DeepScanVerdict(scans.items, scans.raised) == DeepScanVerdict(scans.items[j..], scans.raised)
      {
        if scans.items[j].DeepScanDict? {
          return Show;
        }
        assert scans.items[j..][1..] == scans.items[j + 1..];
        j := j + 1;
      }
      if scans.raised.Some? {
        return Failed(scans.raised.value);
      }
      return Quiet;
    }

    /**
     * `auto_hide`: false as soon as probing some option shows something to
     * do; an option whose probe raises is skipped; true when none shows.
     */
    method AutoHide(preview: Command -> Preview) returns (r: bool)
      ensures r <==> forall k :: k in options ==> OptionVerdict(State(), k, preview) != Show
    {
      var ids := GetOptions();
      var i := 0;
      while i < |ids|
        invariant 0 <= i <= |ids|
        invariant forall m :: 0 <= m < i ==> OptionVerdict(State(), ids[m].0, preview) != Show
      {
        var v := ProbeOption(ids[i].0, preview);
        if v == Show {
          return false;
        }
        i := i + 1;
      }
      forall k | k in options
        ensures OptionVerdict(State(), k, preview) != Show
      {
        var m :| 0 <= m < |ids| && ids[m].0 == k;
      }
      return true;
    }

    /** `System.init_whitelist`: appends the compiled whitelist patterns, in order (only System calls it). */
    method InitWhitelist(host: Host)
      modifies this`regexesCompiled
      ensures regexesCompiled == old(regexesCompiled) + WhitelistPatterns(host)
    {
      AppendCompiled(WhitelistPatterns(host));
    }

    /** The loop of `init_whitelist`: each pattern is compiled and appended in turn. */
    method AppendCompiled(regexes: seq<string>)
      modifies this`regexesCompiled
      ensures regexesCompiled == old(regexesCompiled) + regexes
    {
      var i := 0;
      while i < |regexes|
        invariant 0 <= i <= |regexes|
        invariant regexesCompiled == old(regexesCompiled) + regexes[..i]
      {
        regexesCompiled := regexesCompiled + [regexes[i]];
        assert regexes[..i + 1] == regexes[..i] + [regexes[i]];
        i := i + 1;
      }
      assert regexes[..i] == regexes;
    }

    /**
     * `System.whitelisted` (only System calls it): compiles the whitelist on first use only, then answers
     * whether some pattern matches at the start of `pathname`.
     */
    method Whitelisted(pathname: string, host: Host) returns (r: bool)
      modifies this`regexesCompiled
      ensures old(regexesCompiled) == [] ==> regexesCompiled == WhitelistPatterns(host)
      ensures old(regexesCompiled) != [] ==> regexesCompiled == old(regexesCompiled)
      ensures regexesCompiled != []
      ensures r <==> exists i :: 0 <= i < |regexesCompiled| && host.regexMatch(regexesCompiled[i], pathname)
    {
      if regexesCompiled == [] {
        InitWhitelist(host);
      }
      var i := 0;
      while i < |regexesCompiled|
        invariant 0 <= i <= |regexesCompiled|
        invariant forall j :: 0 <= j < i ==> !host.regexMatch(regexesCompiled[j], pathname)
      {
        if host.regexMatch(regexesCompiled[i], pathname) {
          return true;
        }
        i := i + 1;
      }
      return false;
    }
  }

  /** The module-level `backends` dictionary: cleaner id to cleaner. */
  class Registry {
    var backends: map<string, Cleaner>

    /** The registered cleaners' fields, by id. */
    function States(): map<string, CleanerState>
      reads this, backends.Values
    {
      map k | k in backends :: backends[k].State()
    }

    constructor ()
      ensures backends == map[] && States() == map[]
    {
      backends := map[];
    }

    /** `backends.clear()`. */
    method Clear()
      modifies this
      ensures backends == map[] && States() == map[]
    {
      backends := map[];
    }

    /** `backends[id] = cleaner`, replacing any earlier registration of `id`. */
    method Register(id: string, cleaner: Cleaner)
      modifies this
      ensures backends == old(backends)[id := cleaner]
      ensures States() == old(States())[id := cleaner.State()]
    {
      backends := backends[id := cleaner];
    }
  }
}
