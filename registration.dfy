/**
 * `register_cleaners()`: the registry is emptied, the two hard-coded
 * cleaners are stored under their ids, and then every CleanerML file found
 * is loaded on top of them.
 */
module Registration {
  import opened Base
  import opened Host
  import opened Cleaners
  import opened Builtins
  import opened CleanerML

  /** The registry once the hard-coded backends `office` and `system` are in place. */
  function HardCoded(office: CleanerState, system: CleanerState): (r: map<string, CleanerState>)
    ensures r.Keys == {"openofficeorg", "system"}
    ensures r["openofficeorg"] == office && r["system"] == system
  {
    map["openofficeorg" := office, "system" := system]
  }

  /** What `load_cleaners` loads, file by file, on this host. */
  ghost function LoadedFiles(ctx: Context): (r: seq<Option<CleanerState>>)
    ensures HaveIds(r)
  {
    Loads(Listed(ctx.host).items, ctx)
  }

  /**
   * The registry after `register_cleaners()`, whatever it held before, and
   * the `os.stat` error of the listing that escapes it, if any.
   */
  method RegisterCleaners(registry: Registry, ctx: Context) returns (raised: Option<Error>)
    modifies registry
    ensures registry.States() == AdmitAll(HardCoded(OpenOfficeOrgState(), SystemState(ctx.host)), LoadedFiles(ctx))
    ensures raised == Listed(ctx.host).raised
  {
    RegisterHardCoded(registry, ctx.host);
    raised := LoadCleaners(registry, ctx);
  }

  /** `backends.clear()`, then the two hard-coded cleaners under their ids. */
  method RegisterHardCoded(registry: Registry, host: Host)
    modifies registry
    ensures registry.States() == HardCoded(OpenOfficeOrgState(), SystemState(host))
  {
    registry.Clear();
    var office := NewOpenOfficeOrg();
    registry.Register("openofficeorg", office);
    ghost var first := registry.States();
    var system := NewSystem(host);
    assert registry.States() == first;
    registry.Register("system", system);
    StoredBoth(registry.States(), office.State(), system.State());
  }

  lemma StoredBoth(states: map<string, CleanerState>, office: CleanerState, system: CleanerState)
    requires states == map[]["openofficeorg" := office]["system" := system]
    ensures states == HardCoded(office, system)
  {
  }

  /**
   * A hard-coded cleaner survives registration unless some CleanerML file
   * loads a usable cleaner with the same id, which then replaces it.
   */
  lemma HardCodedUnlessOverridden(office: CleanerState, system: CleanerState, loaded: seq<Option<CleanerState>>, k: string)
    requires HaveIds(loaded)
    requires k == "openofficeorg" || k == "system"
    requires forall i :: 0 <= i < |loaded| ==> loaded[i].None? || loaded[i].value.id != Some(k)
    ensures k in AdmitAll(HardCoded(office, system), loaded)
    ensures AdmitAll(HardCoded(office, system), loaded)[k] == if k == "system" then system else office
  {
    AdmitAllUntouched(HardCoded(office, system), loaded, k);
  }

  /** Exactly the hard-coded ids and the ids of the usable CleanerML cleaners are registered. */
  lemma RegisteredIds(office: CleanerState, system: CleanerState, loaded: seq<Option<CleanerState>>)
    requires HaveIds(loaded)
    ensures forall k :: k in AdmitAll(HardCoded(office, system), loaded) <==>
      k == "openofficeorg" || k == "system" ||
      exists i :: 0 <= i < |loaded| && loaded[i].Some? && loaded[i].value.id == Some(k)
  {
    AdmitAllKeys(HardCoded(office, system), loaded);
  }
}
