/**
 * The plugin manager of backend/plugin_system.py: the hook registry (hook
 * name -> handlers in registration order, each tagged with its plugin id),
 * the dispatcher that folds those handlers over a payload, and the
 * install / activate / deactivate life cycle of plugin records.
 *
 * A plugin's backend/hooks.py is modelled as the map from the names it
 * exports to their behaviour; a handler's behaviour is a total function from
 * the payload it receives to what it does: return a dict, return None, or
 * raise.
 */
module PluginSystem {
  import opened Common
  import opened Values
  import opened Models

  // ---------------------------------------------------------------------------
  // Handlers and the dispatcher's fold
  // ---------------------------------------------------------------------------

  datatype HandlerOutcome =
    | Returned(value: Payload)
    | ReturnedNone
    | Raised(message: string)

  type HookFn = Payload -> HandlerOutcome

  /** A registered hook function with the plugin_id attribute set at registration. */
  datatype Handler = Handler(pluginId: string, run: HookFn)

  /** The functions a plugin's backend/hooks.py exports, by name. */
  type HooksModule = map<string, HookFn>

  /** hook_registry: hook name -> handlers in registration order. */
  type Registry = map<string, seq<Handler>>

  /** One entry of executed_hooks. */
  datatype ExecutedHook =
    | Succeeded(pluginId: string)
    | Failed(pluginId: string, error: string)

  /** What execute_hook returns: {"data": ..., "executed_hooks": [...]}. */
  datatype HookResult = HookResult(data: Payload, executedHooks: seq<ExecutedHook>)

  /** `data.copy() if data else {}` */
  function Initial(data: Option<Payload>): Payload {
    match data
    case None => map[]
    case Some(d) => d
  }

  /** The payload after one handler: its dict if it returned one, otherwise the payload it was given. */
  function Apply(h: Handler, p: Payload): Payload {
    match h.run(p)
    case Returned(q) => q
    case ReturnedNone => p
    case Raised(_) => p
  }

  /** The executed_hooks entry for running h on p. */
  function Outcome(h: Handler, p: Payload): ExecutedHook {
    match h.run(p)
    case Raised(e) => Failed(h.pluginId, e)
    case _ => Succeeded(h.pluginId)
  }

  /** The handlers run left to right, each on the result of the ones before it. */
  function Fold(hs: seq<Handler>, p: Payload): Payload {
    if hs == [] then p else Apply(hs[|hs| - 1], Fold(hs[..|hs| - 1], p))
  }

  /** executed_hooks for running hs on p. */
  function Trace(hs: seq<Handler>, p: Payload): seq<ExecutedHook> {
    if hs == [] then [] else Trace(hs[..|hs| - 1], p) + [Outcome(hs[|hs| - 1], Fold(hs[..|hs| - 1], p))]
  }

  function HandlersFor(reg: Registry, hookName: string): seq<Handler> {
    if hookName in reg then reg[hookName] else []
  }

  /** Running one more handler extends the fold and the trace by exactly that handler. */
  lemma FoldPrefixStep(hs: seq<Handler>, i: nat, p: Payload)
    requires i < |hs|
    ensures Fold(hs[..i + 1], p) == Apply(hs[i], Fold(hs[..i], p))
    ensures Trace(hs[..i + 1], p) == Trace(hs[..i], p) + [Outcome(hs[i], Fold(hs[..i], p))]
  {
    assert hs[..i + 1][..i] == hs[..i];
  }

  /** Folding a + b is folding b over the result of a. */
  lemma {:induction false} FoldAppend(a: seq<Handler>, b: seq<Handler>, p: Payload)
    ensures Fold(a + b, p) == Fold(b, Fold(a, p))
    decreases |b|
  {
    if b == [] {
      assert a + b == a;
    } else {
      var b' := b[..|b| - 1];
      assert (a + b)[..|a + b| - 1] == a + b';
      FoldAppend(a, b', p);
    }
  }

  /** executed_hooks has one entry per handler, the i-th being the outcome of handler i on the payload it was given. */
  lemma {:induction false} TraceAt(hs: seq<Handler>, p: Payload)
    ensures |Trace(hs, p)| == |hs|
    ensures forall i | 0 <= i < |hs| :: Trace(hs, p)[i] == Outcome(hs[i], Fold(hs[..i], p))
    decreases |hs|
  {
    if hs != [] {
      var hs' := hs[..|hs| - 1];
      TraceAt(hs', p);
      var t := Trace(hs, p);
      assert t == Trace(hs', p) + [Outcome(hs[|hs| - 1], Fold(hs', p))];
      forall i | 0 <= i < |hs|
        ensures t[i] == Outcome(hs[i], Fold(hs[..i], p))
      {
        if i < |hs'| {
          assert hs'[i] == hs[i];
          assert hs'[..i] == hs[..i];
        } else {
          assert hs[..i] == hs';
        }
      }
    }
  }

  /**
   * Every handler is reported, in order, under its own plugin id, and its
   * entry is a failure exactly when it raised on the payload it was given.
   */
  lemma TraceMatchesHandlers(hs: seq<Handler>, p: Payload)
    ensures |Trace(hs, p)| == |hs|
    ensures forall i | 0 <= i < |hs| :: Trace(hs, p)[i].pluginId == hs[i].pluginId
    ensures forall i | 0 <= i < |hs| :: Trace(hs, p)[i].Failed? <==> hs[i].run(Fold(hs[..i], p)).Raised?
  {
    TraceAt(hs, p);
  }

  /**
   * Fail-open dispatch: a handler that raises leaves the result exactly as if
   * it had not been registered, and the handlers after it still run.
   */
  lemma RaisingHandlerIsSkipped(hs: seq<Handler>, k: nat, p: Payload)
    requires k < |hs|
    requires hs[k].run(Fold(hs[..k], p)).Raised?
    ensures Fold(hs, p) == Fold(hs[..k] + hs[k + 1..], p)
  {
    assert hs == hs[..k + 1] + hs[k + 1..];
    FoldAppend(hs[..k + 1], hs[k + 1..], p);
    FoldPrefixStep(hs, k, p);
    FoldAppend(hs[..k], hs[k + 1..], p);
  }

  /** p and q agree on every key outside `keys`. */
  ghost predicate AgreeOutside(p: Payload, q: Payload, keys: set<string>) {
    forall k | k !in keys :: (k in p <==> k in q) && (k in p ==> p[k] == q[k])
  }

  /** Whenever h returns a dict, that dict keeps every key outside `keys` as it found it. */
  ghost predicate KeepsOutside(h: Handler, keys: set<string>) {
    forall p: Payload :: h.run(p).Returned? ==> AgreeOutside(p, h.run(p).value, keys)
  }

  /**
   * Fields that no handler touches pass through dispatch unchanged: if every
   * handler keeps the keys outside `keys`, so does the whole fold.
   */
  lemma {:induction false} FoldKeepsOutside(hs: seq<Handler>, p: Payload, keys: set<string>)
    requires forall i | 0 <= i < |hs| :: KeepsOutside(hs[i], keys)
    ensures AgreeOutside(p, Fold(hs, p), keys)
    decreases |hs|
  {
    if hs != [] {
      var hs' := hs[..|hs| - 1];
      FoldKeepsOutside(hs', p, keys);
      var mid := Fold(hs', p);
      var h := hs[|hs| - 1];
      assert KeepsOutside(h, keys);
      if h.run(mid).Returned? {
        assert AgreeOutside(mid, h.run(mid).value, keys);
      }
    }
  }

  // ---------------------------------------------------------------------------
  // Registration and unloading, as functions of the registry
  // ---------------------------------------------------------------------------

  /** The handlers of hs not tagged pid, in their original order (the list rebuilt by _unload_plugin_hooks). */
  function Without(hs: seq<Handler>, pid: string): (r: seq<Handler>)
    ensures |r| <= |hs|
    ensures forall i | 0 <= i < |r| :: r[i].pluginId != pid
    ensures forall h | h in r :: h in hs
  {
    if hs == [] then []
    else (if hs[0].pluginId == pid then [] else [hs[0]]) + Without(hs[1..], pid)
  }

  /** The handlers of hs tagged pid, in order. */
  function OnlyOf(hs: seq<Handler>, pid: string): seq<Handler> {
    if hs == [] then []
    else (if hs[0].pluginId == pid then [hs[0]] else []) + OnlyOf(hs[1..], pid)
  }

  /** Removing one plugin's handlers leaves every other plugin's handlers exactly as they were, in the same order. */
  lemma {:induction false} WithoutKeepsOthers(hs: seq<Handler>, pid: string, other: string)
    requires other != pid
    ensures OnlyOf(Without(hs, pid), other) == OnlyOf(hs, other)
    ensures OnlyOf(Without(hs, pid), pid) == []
  {
    if hs != [] {
      WithoutKeepsOthers(hs[1..], pid, other);
      var w := Without(hs, pid);
      if hs[0].pluginId == pid {
        assert w == Without(hs[1..], pid);
      } else {
        assert w == [hs[0]] + Without(hs[1..], pid);
        assert w[1..] == Without(hs[1..], pid);
      }
    }
  }

  predicate NotTagged(hs: seq<Handler>, pid: string) {
    forall i | 0 <= i < |hs| :: hs[i].pluginId != pid
  }

  lemma {:induction false} WithoutUntagged(hs: seq<Handler>, pid: string)
    requires NotTagged(hs, pid)
    ensures Without(hs, pid) == hs
  {
    if hs != [] {
      WithoutUntagged(hs[1..], pid);
    }
  }

  lemma {:induction false} WithoutAppend(a: seq<Handler>, b: seq<Handler>, pid: string)
    ensures Without(a + b, pid) == Without(a, pid) + Without(b, pid)
  {
    if a == [] {
      assert a + b == b;
    } else {
      var c := a + b;
      assert c[0] == a[0] && c[1..] == a[1..] + b;
      WithoutAppend(a[1..], b, pid);
      if a[0].pluginId == pid {
        calc {
          Without(c, pid);
          Without(a[1..] + b, pid);
          Without(a[1..], pid) + Without(b, pid);
          Without(a, pid) + Without(b, pid);
        }
      } else {
        calc {
          Without(c, pid);
          [a[0]] + Without(a[1..] + b, pid);
          [a[0]] + (Without(a[1..], pid) + Without(b, pid));
          ([a[0]] + Without(a[1..], pid)) + Without(b, pid);
          Without(a, pid) + Without(b, pid);
        }
      }
    }
  }

  /** No hook name maps to an empty list. */
  ghost predicate NoEmptyLists(reg: Registry) {
    forall name | name in reg :: reg[name] != []
  }

  /** Every registered handler carries one of `ids`. */
  ghost predicate TaggedWithin(reg: Registry, ids: set<string>) {
    forall name, i | name in reg && 0 <= i < |reg[name]| :: reg[name][i].pluginId in ids
  }

  ghost predicate NoHandlersOf(reg: Registry, pid: string) {
    forall name | name in reg :: NotTagged(reg[name], pid)
  }

  /** The registry after _unload_plugin_hooks(pid). */
  function Unloaded(reg: Registry, pid: string): (r: Registry)
    ensures NoHandlersOf(r, pid)
    ensures NoEmptyLists(r)
    ensures r.Keys <= reg.Keys
  {
    map name | name in reg && Without(reg[name], pid) != [] :: Without(reg[name], pid)
  }

  /**
   * The registry after _load_backend_hooks: every hook name that the plugin
   * declares and its module exports gets the exported function, tagged with
   * the plugin id, appended at the end of its list.
   */
  function Registered(reg: Registry, pid: string, declared: set<string>, exports: HooksModule): Registry {
    map name | name in reg.Keys + (declared * exports.Keys) ::
      HandlersFor(reg, name) + (if name in declared && name in exports then [Handler(pid, exports[name])] else [])
  }

  /** Registration appends: the new handler runs after every handler already registered for that hook. */
  lemma RegisteredRunsLast(reg: Registry, pid: string, declared: set<string>, exports: HooksModule, name: string, p: Payload)
    requires name in declared && name in exports
    ensures HandlersFor(Registered(reg, pid, declared, exports), name) == HandlersFor(reg, name) + [Handler(pid, exports[name])]
    ensures Fold(HandlersFor(Registered(reg, pid, declared, exports), name), p)
         == Apply(Handler(pid, exports[name]), Fold(HandlersFor(reg, name), p))
  {
    var hs := HandlersFor(reg, name) + [Handler(pid, exports[name])];
    assert hs[..|hs| - 1] == HandlersFor(reg, name);
  }

  /** Hook names the plugin does not both declare and export keep exactly their old handlers. */
  lemma RegisteredLeavesOthers(reg: Registry, pid: string, declared: set<string>, exports: HooksModule, name: string)
    requires !(name in declared && name in exports)
    ensures HandlersFor(Registered(reg, pid, declared, exports), name) == HandlersFor(reg, name)
  {
  }

  /**
   * Unloading a plugin that had no handlers before its registration restores
   * the registry exactly.
   */
  lemma UnloadUndoesRegister(reg: Registry, pid: string, declared: set<string>, exports: HooksModule)
    requires NoHandlersOf(reg, pid) && NoEmptyLists(reg)
    ensures Unloaded(Registered(reg, pid, declared, exports), pid) == reg
  {
    var reg' := Registered(reg, pid, declared, exports);
    var back := Unloaded(reg', pid);
    forall name: string
      ensures name in back <==> name in reg
      ensures name in back ==> back[name] == reg[name]
    {
      if name in reg' {
        WithoutRegistered(reg, pid, declared, exports, name);
      }
    }
    assert back.Keys == reg.Keys;
  }

  /** Filtering the plugin out of one hook's list after registration gives that hook's list from before. */
  lemma WithoutRegistered(reg: Registry, pid: string, declared: set<string>, exports: HooksModule, name: string)
    requires NoHandlersOf(reg, pid)
    requires name in Registered(reg, pid, declared, exports)
    ensures Without(Registered(reg, pid, declared, exports)[name], pid) == HandlersFor(reg, name)
  {
    var extra := if name in declared && name in exports then [Handler(pid, exports[name])] else [];
    assert Registered(reg, pid, declared, exports)[name] == HandlersFor(reg, name) + extra;
    WithoutAppend(HandlersFor(reg, name), extra, pid);
    if name in reg {
      WithoutUntagged(reg[name], pid);
    } else {
      assert HandlersFor(reg, name) == [];
    }
    assert Without(extra, pid) == [];
  }

  /**
   * Deactivation undoes activation for dispatch: after registering and then
   * unloading a plugin, every hook folds exactly as it did before.
   */
  lemma DispatchAfterRoundTrip(reg: Registry, pid: string, declared: set<string>, exports: HooksModule, hookName: string, p: Payload)
    requires NoHandlersOf(reg, pid) && NoEmptyLists(reg)
    ensures Fold(HandlersFor(Unloaded(Registered(reg, pid, declared, exports), pid), hookName), p)
         == Fold(HandlersFor(reg, hookName), p)
  {
    UnloadUndoesRegister(reg, pid, declared, exports);
  }

  lemma RegisteredKeepsShape(reg: Registry, pid: string, declared: set<string>, exports: HooksModule, ids: set<string>)
    requires NoEmptyLists(reg) && TaggedWithin(reg, ids)
    ensures NoEmptyLists(Registered(reg, pid, declared, exports))
    ensures TaggedWithin(Registered(reg, pid, declared, exports), ids + {pid})
  {
    var r: Registry := Registered(reg, pid, declared, exports);
    forall name: string, i: int | name in r && 0 <= i < |r[name]|
      ensures r[name][i].pluginId in ids + {pid}
    {
      if i >= |HandlersFor(reg, name)| {
        assert r[name][i] == Handler(pid, exports[name]);
      }
    }
  }

  /** _load_plugin_hooks keeps every list non-empty and tags new handlers with the plugin's id. */
  lemma LoadedKeepsShape(reg: Registry, plugin: Plugin, dirs: map<string, Option<HooksModule>>, ids: set<string>)
    requires NoEmptyLists(reg) && TaggedWithin(reg, ids)
    ensures NoEmptyLists(LoadedRegistry(reg, plugin, dirs))
    ensures TaggedWithin(LoadedRegistry(reg, plugin, dirs), ids + {plugin.id})
  {
    if DirectoryFound(plugin, dirs) && dirs[plugin.installPath.value].Some? {
      RegisteredKeepsShape(reg, plugin.id, plugin.hooks.Keys, dirs[plugin.installPath.value].value, ids);
    }
  }

  lemma UnloadedKeepsShape(reg: Registry, pid: string, ids: set<string>)
    requires TaggedWithin(reg, ids)
    ensures TaggedWithin(Unloaded(reg, pid), ids - {pid})
  {
    var r: Registry := Unloaded(reg, pid);
    forall name: string, i: int | name in r && 0 <= i < |r[name]|
      ensures r[name][i].pluginId in ids - {pid}
    {
      assert r[name][i] in reg[name];
    }
  }

  /** One more declared name: the exported function, if any, goes at the end of that hook's list. */
  lemma RegisteredStep(reg: Registry, pid: string, done: set<string>, name: string, exports: HooksModule)
    requires name !in done
    ensures Registered(reg, pid, done + {name}, exports) ==
      (var cur := Registered(reg, pid, done, exports);
       if name in exports then cur[name := HandlersFor(cur, name) + [Handler(pid, exports[name])]] else cur)
  {
    var cur := Registered(reg, pid, done, exports);
    var next := Registered(reg, pid, done + {name}, exports);
    var expected := if name in exports then cur[name := HandlersFor(cur, name) + [Handler(pid, exports[name])]] else cur;
    assert next.Keys == expected.Keys;
    forall n | n in next
      ensures next[n] == expected[n]
    {
    }
  }

  /** The registry when _unload_plugin_hooks has processed the names in `done`. */
  function PartlyUnloaded(reg: Registry, pid: string, done: set<string>): Registry {
    map name | name in reg && (name !in done || Without(reg[name], pid) != []) ::
      if name in done then Without(reg[name], pid) else reg[name]
  }

  /** Processing one more hook name replaces its list by the filtered one, deleting it when emptied. */
  lemma PartlyUnloadedStep(reg: Registry, pid: string, done: set<string>, name: string)
    requires name in reg && name !in done
    ensures PartlyUnloaded(reg, pid, done + {name}) ==
      (var cur := PartlyUnloaded(reg, pid, done);
       var kept := Without(reg[name], pid);
       if kept == [] then cur[name := kept] - {name} else cur[name := kept])
  {
    var cur := PartlyUnloaded(reg, pid, done);
    var next := PartlyUnloaded(reg, pid, done + {name});
    var kept := Without(reg[name], pid);
    var expected := if kept == [] then cur[name := kept] - {name} else cur[name := kept];
    assert next.Keys == expected.Keys;
  }

  lemma PartlyUnloadedAll(reg: Registry, pid: string)
    ensures PartlyUnloaded(reg, pid, reg.Keys) == Unloaded(reg, pid)
  {
    assert PartlyUnloaded(reg, pid, reg.Keys).Keys == Unloaded(reg, pid).Keys;
  }

  // ---------------------------------------------------------------------------
  // The plugin records: dependencies, installation
  // ---------------------------------------------------------------------------

  /** Some record in the collection has this name and status ACTIVE. */
  ghost predicate ActiveNamed(plugins: map<string, Plugin>, name: string) {
    exists id | id in plugins :: plugins[id].name == name && plugins[id].status == Active
  }

  ghost predicate DependenciesMet(plugins: map<string, Plugin>, deps: seq<string>) {
    forall i | 0 <= i < |deps| :: ActiveNamed(plugins, deps[i])
  }

  /** The directory plugins are installed under. */
  const PluginsDir := "/app/plugins"

  function InstallPath(pid: string): string {
    PluginsDir + "/" + pid
  }

  /** The parsed plugin.json: its string fields, and its list- and dict-valued fields when present. */
  datatype PluginConfig = PluginConfig(
    fields: map<string, string>,
    features: Option<seq<string>>,
    dependencies: Option<seq<string>>,
    hooks: Option<map<string, Value>>,
    settingsSchema: Option<map<string, Value>>)

  const RequiredFields: seq<string> := ["name", "version", "description", "author"]

  predicate HasRequiredFields(c: PluginConfig) {
    forall f | f in RequiredFields :: f in c.fields
  }

  /** `name.lower().replace(' ', '-')` */
  function PluginIdFor(name: string): (id: string)
    ensures |id| == |name|
    ensures forall i | 0 <= i < |id| :: id[i] != ' ' && !IsAsciiUpper(id[i])
    ensures forall i | 0 <= i < |id| :: name[i] == ' ' ==> id[i] == '-'
    ensures forall i | 0 <= i < |id| :: name[i] != ' ' ==> id[i] == LowerChar(name[i])
  {
    seq(|name|, i requires 0 <= i < |name| => if name[i] == ' ' then '-' else LowerChar(name[i]))
  }

  /** Deriving an id from an id changes nothing. */
  lemma PluginIdIdempotent(name: string)
    ensures PluginIdFor(PluginIdFor(name)) == PluginIdFor(name)
  {
    var id := PluginIdFor(name);
    assert forall i | 0 <= i < |id| :: PluginIdFor(id)[i] == id[i];
  }

  function FieldOr(c: PluginConfig, key: string, default: string): string {
    if key in c.fields then c.fields[key] else default
  }

  /** The record install_plugin stores, with status INSTALLED. */
  function InstalledRecord(c: PluginConfig, pid: string, now: int): (p: Plugin)
    requires HasRequiredFields(c)
    ensures p.id == pid && p.status == Installed
    ensures p.name == c.fields["name"] && p.version == c.fields["version"]
    ensures p.description == c.fields["description"] && p.author == c.fields["author"]
    ensures p.category == FieldOr(c, "category", "General") && p.price == FieldOr(c, "price", "Free")
    ensures p.settings == map[] && p.installPath == Some(InstallPath(pid))
  {
    Plugin(
      pid,
      c.fields["name"],
      c.fields["description"],
      c.fields["version"],
      c.fields["author"],
      FieldOr(c, "category", "General"),
      Installed,
      FieldOr(c, "price", "Free"),
      match c.features case Some(f) => f case None => [],
      match c.dependencies case Some(d) => d case None => [],
      match c.hooks case Some(h) => h case None => map[],
      match c.settingsSchema case Some(s) => s case None => map[],
      map[],
      Some(InstallPath(pid)),
      Some(now))
  }

  // ---------------------------------------------------------------------------
  // What _load_plugin_hooks does to the registry and to plugin_hooks
  // ---------------------------------------------------------------------------

  /** `plugin.hooks` is non-empty and `install_path` names an existing directory. */
  predicate DirectoryFound(plugin: Plugin, dirs: map<string, Option<HooksModule>>) {
    plugin.hooks != map[] && plugin.installPath.Some? && plugin.installPath.value != ""
    && plugin.installPath.value in dirs
  }

  function LoadedRegistry(reg: Registry, plugin: Plugin, dirs: map<string, Option<HooksModule>>): Registry {
    if DirectoryFound(plugin, dirs) && dirs[plugin.installPath.value].Some? then
      Registered(reg, plugin.id, plugin.hooks.Keys, dirs[plugin.installPath.value].value)
    else reg
  }

  function LoadedFrontendHooks(ph: map<string, map<string, Value>>, plugin: Plugin, dirs: map<string, Option<HooksModule>>): map<string, map<string, Value>> {
    if DirectoryFound(plugin, dirs) then ph[plugin.id := plugin.hooks] else ph
  }

  /** The directories after uninstall_plugin: the record's install path is removed when it is set and exists. */
  function RemovedInstallDir(dirs: map<string, Option<HooksModule>>, plugins: map<string, Plugin>, pid: string): map<string, Option<HooksModule>> {
    if pid in plugins && plugins[pid].installPath.Some? && plugins[pid].installPath.value != ""
       && plugins[pid].installPath.value in dirs
    then dirs - {plugins[pid].installPath.value}
    else dirs
  }

  // ---------------------------------------------------------------------------
  // The manager
  // ---------------------------------------------------------------------------

  class PluginManager {
    /** loaded_plugins: id -> the record as read when the plugin was activated. */
    var loadedPlugins: map<string, Plugin>
    /** hook_registry */
    var hookRegistry: Registry
    /** plugin_hooks: id -> the plugin's declared hooks, served to the frontend. */
    var pluginHooks: map<string, map<string, Value>>
    /** The "plugins" collection of the database, by _id. */
    var plugins: map<string, Plugin>
    /** Plugin directories on disk by path: Some(module) when backend/hooks.py is present. */
    var directories: map<string, Option<HooksModule>>

    ghost predicate Valid()
      reads this
    {
      && NoEmptyLists(hookRegistry)
      && TaggedWithin(hookRegistry, loadedPlugins.Keys)
      && pluginHooks.Keys <= loadedPlugins.Keys
      && loadedPlugins.Keys <= plugins.Keys
      && (forall id | id in plugins :: plugins[id].id == id)
    }

    constructor (plugins: map<string, Plugin>, directories: map<string, Option<HooksModule>>)
      requires forall id | id in plugins :: plugins[id].id == id
      ensures Valid()
      ensures loadedPlugins == map[] && hookRegistry == map[] && pluginHooks == map[]
      ensures this.plugins == plugins && this.directories == directories
    {
      loadedPlugins := map[];
      hookRegistry := map[];
      pluginHooks := map[];
      this.plugins := plugins;
      this.directories := directories;
    }

    /**
     * execute_hook(hook_name, data): folds the hook's handlers over a copy of
     * the payload and records one executed_hooks entry per handler.
     */
    method ExecuteHook(hookName: string, data: Option<Payload>) returns (r: HookResult)
      ensures r.data == Fold(HandlersFor(hookRegistry, hookName), Initial(data))
      ensures r.executedHooks == Trace(HandlersFor(hookRegistry, hookName), Initial(data))
      ensures hookName !in hookRegistry ==> r == HookResult(Initial(data), [])
    {
      var result := Initial(data);
      var executed: seq<ExecutedHook> := [];
      if hookName in hookRegistry {
        var handlers := hookRegistry[hookName];
        var i := 0;
        while i < |handlers|
          invariant 0 <= i <= |handlers|
          invariant result == Fold(handlers[..i], Initial(data))
          invariant executed == Trace(handlers[..i], Initial(data))
        {
          FoldPrefixStep(handlers, i, Initial(data));
          var h := handlers[i];
          match h.run(result) {
            case Returned(value) =>
              result := value;
              executed := executed + [Succeeded(h.pluginId)];
            case ReturnedNone =>
              executed := executed + [Succeeded(h.pluginId)];
            case Raised(e) =>
              executed := executed + [Failed(h.pluginId, e)];
          }
          i := i + 1;
        }
        assert handlers[..|handlers|] == handlers;
      }
      r := HookResult(result, executed);
    }

    /** get_plugin_settings(plugin_id): the record's settings, or {} for an unknown id. */
    function GetPluginSettings(pid: string): (s: map<string, Value>)
      reads this
      ensures pid !in plugins ==> s == map[]
      ensures pid in plugins ==> s == plugins[pid].settings
    {
      if pid in plugins then plugins[pid].settings else map[]
    }

    /** find_document("plugins", {"name": name, "status": ACTIVE}) is not None */
    method FindActiveByName(name: string) returns (found: bool)
      ensures found <==> ActiveNamed(plugins, name)
    {
      var ids := plugins.Keys;
      found := false;
      while ids != {} && !found
        invariant ids <= plugins.Keys
        invariant found ==> ActiveNamed(plugins, name)
        invariant !found ==> forall id | id in plugins && id !in ids :: !(plugins[id].name == name && plugins[id].status == Active)
        decreases ids
      {
        var id :| id in ids;
        if plugins[id].name == name && plugins[id].status == Active {
          found := true;
        }
        ids := ids - {id};
      }
    }

    /** _check_plugin_dependencies: every dependency is met by an ACTIVE record of that name. */
    method CheckPluginDependencies(deps: seq<string>) returns (ok: bool)
      ensures ok <==> DependenciesMet(plugins, deps)
    {
      var i := 0;
      while i < |deps|
        invariant 0 <= i <= |deps|
        invariant forall j | 0 <= j < i :: ActiveNamed(plugins, deps[j])
      {
        var found := FindActiveByName(deps[i]);
        if !found {
          return false;
        }
        i := i + 1;
      }
      return true;
    }

    /** The first of name, version, description, author that plugin.json lacks, if any. */
    method MissingRequiredField(c: PluginConfig) returns (missing: Option<string>)
      ensures missing.None? <==> HasRequiredFields(c)
      ensures missing.Some? ==> exists i | 0 <= i < |RequiredFields| ::
        RequiredFields[i] == missing.value && missing.value !in c.fields
        && forall j | 0 <= j < i :: RequiredFields[j] in c.fields
    {
      var i := 0;
      while i < |RequiredFields|
        invariant 0 <= i <= |RequiredFields|
        invariant forall j | 0 <= j < i :: RequiredFields[j] in c.fields
      {
        if RequiredFields[i] !in c.fields {
          return Some(RequiredFields[i]);
        }
        i := i + 1;
      }
      return None;
    }

    /**
     * install_plugin, from the parsed plugin.json and the package's
     * backend/hooks.py onward: validates the required fields, derives the id,
     * replaces the plugin directory and stores the record as INSTALLED.
     */
    method InstallPlugin(config: Option<PluginConfig>, package: Option<HooksModule>, now: int) returns (r: Result<string, string>)
      requires Valid()
      modifies this`plugins, this`directories
      ensures Valid()
      ensures r.Ok? <==> config.Some? && HasRequiredFields(config.value)
      ensures r.Ok? ==> r.value == PluginIdFor(config.value.fields["name"])
      ensures r.Ok? ==> plugins == old(plugins)[r.value := InstalledRecord(config.value, r.value, now)]
      ensures r.Ok? ==> directories == old(directories)[InstallPath(r.value) := package]
      ensures r.Err? ==> plugins == old(plugins) && directories == old(directories)
    {
      if config.None? {
        return Err("Plugin installation failed: Plugin must contain plugin.json file");
      }
      var c := config.value;
      var missing := MissingRequiredField(c);
      if missing.Some? {
        return Err("Plugin installation failed: Plugin missing required field: " + missing.value);
      }
      var pid := PluginIdFor(c.fields["name"]);
      directories := directories[InstallPath(pid) := package];
      plugins := plugins[pid := InstalledRecord(c, pid, now)];
      r := Ok(pid);
    }

    /** _load_backend_hooks: appends each declared and exported hook function, tagged with the plugin id. */
    method LoadBackendHooks(plugin: Plugin, exports: HooksModule)
      modifies this`hookRegistry
      ensures hookRegistry == Registered(old(hookRegistry), plugin.id, plugin.hooks.Keys, exports)
    {
      ghost var reg0 := hookRegistry;
      var pending := plugin.hooks.Keys;
      ghost var done: set<string> := {};
      assert Registered(reg0, plugin.id, {}, exports) == reg0 by {
        var start := Registered(reg0, plugin.id, {}, exports);
        assert start.Keys == reg0.Keys;
        forall n | n in start
          ensures start[n] == reg0[n]
        {
          assert start[n] == reg0[n] + [];
        }
      }
      while pending != {}
        invariant pending + done == plugin.hooks.Keys && pending !! done
        invariant hookRegistry == Registered(reg0, plugin.id, done, exports)
        decreases pending
      {
        var name :| name in pending;
        RegisteredStep(reg0, plugin.id, done, name, exports);
        ghost var before := hookRegistry;
        if name in exports {
          if name !in hookRegistry {
            hookRegistry := hookRegistry[name := []];
          }
          hookRegistry := hookRegistry[name := hookRegistry[name] + [Handler(plugin.id, exports[name])]];
          assert hookRegistry == before[name := HandlersFor(before, name) + [Handler(plugin.id, exports[name])]];
        }
        pending := pending - {name};
        done := done + {name};
      }
    }

    /** _load_plugin_hooks: registers backend hooks when the directory and hooks.py exist, and records the declared hooks. */
    method LoadPluginHooks(plugin: Plugin)
      modifies this`hookRegistry, this`pluginHooks
      ensures hookRegistry == LoadedRegistry(old(hookRegistry), plugin, directories)
      ensures pluginHooks == LoadedFrontendHooks(old(pluginHooks), plugin, directories)
    {
      if plugin.hooks == map[] {
        return;
      }
      if plugin.installPath.None? || plugin.installPath.value == "" || plugin.installPath.value !in directories {
        return;
      }
      var hooksFile := directories[plugin.installPath.value];
      if hooksFile.Some? {
        LoadBackendHooks(plugin, hooksFile.value);
      }
      pluginHooks := pluginHooks[plugin.id := plugin.hooks];
    }

    /** _unload_plugin_hooks: drops the plugin's handlers, deletes emptied hook lists and its plugin_hooks entry. */
    method UnloadPluginHooks(pid: string)
      modifies this`hookRegistry, this`pluginHooks
      ensures hookRegistry == Unloaded(old(hookRegistry), pid)
      ensures pluginHooks == old(pluginHooks) - {pid}
    {
      ghost var reg0 := hookRegistry;
      var names := hookRegistry.Keys;
      ghost var done: set<string> := {};
      assert PartlyUnloaded(reg0, pid, {}) == reg0;
      while names != {}
        invariant names + done == reg0.Keys && names !! done
        invariant hookRegistry == PartlyUnloaded(reg0, pid, done)
        invariant pluginHooks == old(pluginHooks)
        decreases names
      {
        var name :| name in names;
        PartlyUnloadedStep(reg0, pid, done, name);
        var kept := Without(hookRegistry[name], pid);
        hookRegistry := hookRegistry[name := kept];
        if |kept| == 0 {
          hookRegistry := hookRegistry - {name};
        }
        names := names - {name};
        done := done + {name};
      }
      PartlyUnloadedAll(reg0, pid);
      if pid in pluginHooks {
        pluginHooks := pluginHooks - {pid};
      } else {
        assert pluginHooks == pluginHooks - {pid};
      }
    }

    /**
     * activate_plugin(plugin_id): False for an unknown id or an unmet
     * dependency, True at once for an ACTIVE record; otherwise loads the
     * plugin's hooks, marks the record ACTIVE and remembers the plugin.
     */
    method ActivatePlugin(pid: string, now: int) returns (ok: bool)
      requires Valid()
      modifies this
      ensures Valid()
      ensures directories == old(directories)
      ensures pid !in old(plugins) ==> !ok && unchanged(this)
      ensures pid in old(plugins) && old(plugins[pid].status) == Active ==> ok && unchanged(this)
      ensures (pid in old(plugins) && old(plugins[pid].status) != Active
               && !DependenciesMet(old(plugins), old(plugins[pid].dependencies))) ==> !ok && unchanged(this)
      ensures (pid in old(plugins) && old(plugins[pid].status) != Active
               && DependenciesMet(old(plugins), old(plugins[pid].dependencies))) ==>
                && ok
                && plugins == old(plugins)[pid := old(plugins[pid]).(status := Active, updatedAt := Some(now))]
                && loadedPlugins == old(loadedPlugins)[pid := old(plugins[pid])]
                && hookRegistry == LoadedRegistry(old(hookRegistry), old(plugins[pid]), directories)
                && pluginHooks == LoadedFrontendHooks(old(pluginHooks), old(plugins[pid]), directories)
    {
      if pid !in plugins {
        return false;
      }
      var plugin := plugins[pid];
      if plugin.status == Active {
        return true;
      }
      var depsOk := CheckPluginDependencies(plugin.dependencies);
      if !depsOk {
        return false;
      }
      LoadedKeepsShape(hookRegistry, plugin, directories, loadedPlugins.Keys);
      LoadPluginHooks(plugin);
      plugins := plugins[pid := plugin.(status := Active, updatedAt := Some(now))];
      loadedPlugins := loadedPlugins[pid := plugin];
      assert loadedPlugins.Keys == old(loadedPlugins).Keys + {plugin.id};
      ok := true;
    }

    /**
     * deactivate_plugin(plugin_id): False for an unknown id; otherwise drops
     * the plugin's handlers, marks the record INSTALLED and forgets the
     * plugin, returning True whether or not it was active.
     */
    method DeactivatePlugin(pid: string, now: int) returns (ok: bool)
      requires Valid()
      modifies this
      ensures Valid()
      ensures directories == old(directories)
      ensures pid !in old(plugins) ==> !ok && unchanged(this)
      ensures pid in old(plugins) ==>
                && ok
                && plugins == old(plugins)[pid := old(plugins[pid]).(status := Installed, updatedAt := Some(now))]
                && loadedPlugins == old(loadedPlugins) - {pid}
                && hookRegistry == Unloaded(old(hookRegistry), pid)
                && pluginHooks == old(pluginHooks) - {pid}
      ensures NoHandlersOf(hookRegistry, pid)
    {
      if pid !in plugins {
        ok := false;
        return;
      }
      UnloadPluginHooks(pid);
      UnloadedKeepsShape(old(hookRegistry), pid, loadedPlugins.Keys);
      plugins := plugins[pid := plugins[pid].(status := Installed, updatedAt := Some(now))];
      if pid in loadedPlugins {
        loadedPlugins := loadedPlugins - {pid};
      }
      ok := true;
    }

    /** uninstall_plugin: deactivates, removes the plugin directory and deletes the record; always True. */
    method UninstallPlugin(pid: string, now: int) returns (ok: bool)
      requires Valid()
      modifies this
      ensures Valid()
      ensures ok
      ensures plugins == old(plugins) - {pid}
      ensures pid !in loadedPlugins && pid !in pluginHooks && NoHandlersOf(hookRegistry, pid)
      ensures pid in old(plugins) ==>
                && hookRegistry == Unloaded(old(hookRegistry), pid)
                && loadedPlugins == old(loadedPlugins) - {pid}
                && pluginHooks == old(pluginHooks) - {pid}
      ensures pid !in old(plugins) ==>
                hookRegistry == old(hookRegistry) && loadedPlugins == old(loadedPlugins) && pluginHooks == old(pluginHooks)
      ensures directories == RemovedInstallDir(old(directories), old(plugins), pid)
    {
      var _ := DeactivatePlugin(pid, now);
      if pid in plugins {
        var path := plugins[pid].installPath;
        if path.Some? && path.value != "" && path.value in directories {
          directories := directories - {path.value};
        }
      }
      plugins := plugins - {pid};
      ok := true;
    }
  }

  // ---------------------------------------------------------------------------
  // A client: activation, dispatch and deactivation of one plugin
  // ---------------------------------------------------------------------------

  /** A hook function that appends one entry to the payload's "menu" list. */
  function AppendMenuItem(item: Value): HookFn {
    (p: Payload) =>
      if "menu" in p && p["menu"].List? then Returned(p["menu" := List(p["menu"].items + [item])])
      else Raised("KeyError: 'menu'")
  }

  /** Registering one exported hook into an empty registry gives that hook a single handler. */
  lemma RegisteredSingle(pid: string, name: string, f: HookFn)
    ensures Registered(map[], pid, {name}, map[name := f]) == map[name := [Handler(pid, f)]]
  {
    var empty: Registry := map[];
    var exports := map[name := f];
    var r := Registered(empty, pid, {name}, exports);
    assert empty.Keys + ({name} * exports.Keys) == {name};
    assert r.Keys == {name};
    assert r[name] == HandlersFor(empty, name) + [Handler(pid, f)] == [Handler(pid, f)];
    var m: Registry := map[name := [Handler(pid, f)]];
    assert forall k | k in r :: r[k] == m[k];
    assert r == m;
  }

  /** The scenario's handler appends the menu item and is recorded as a success. */
  lemma MenuHandlerRuns(pid: string, item: Value, base: Payload)
    requires "menu" in base && base["menu"].List?
    ensures Fold([Handler(pid, AppendMenuItem(item))], base) == base["menu" := List(base["menu"].items + [item])]
    ensures Trace([Handler(pid, AppendMenuItem(item))], base) == [Succeeded(pid)]
  {
    assert [Handler(pid, AppendMenuItem(item))][..0] == [];
  }

  /** Activation of a known plugin on a fresh manager registers its one hook, which then runs. */
  method ActivationScenario()
  {
    var item := Dict(map["title" := Str("Social Share"), "path" := Str("/admin/social-share")]);
    var menuHook := AppendMenuItem(item);
    var exports: HooksModule := map["admin_menu" := menuHook];
    var path := InstallPath("social-share");
    var record := NewPlugin("social-share", "Social Share", "Share buttons", "1.0.0", "CMS Team", "Social", Installed)
                    .(hooks := map["admin_menu" := Dict(map[])], installPath := Some(path));
    var pm := new PluginManager(map["social-share" := record], map[path := Some(exports)]);
    var base: Payload := map["menu" := List([Str("Dashboard")])];

    var unknown := pm.ActivatePlugin("no-such-plugin", 0);
    assert !unknown && pm.hookRegistry == map[];

    var ok := pm.ActivatePlugin("social-share", 1);
    assert ok;
    assert pm.hookRegistry == Registered(map[], "social-share", {"admin_menu"}, exports) by {
      assert record.hooks.Keys == {"admin_menu"};
    }
    ghost var h := Handler("social-share", menuHook);
    assert HandlersFor(pm.hookRegistry, "admin_menu") == [h] by {
      RegisteredSingle("social-share", "admin_menu", menuHook);
    }
    MenuDispatchScenario(pm, "social-share", item, base);

    DeactivationScenario(pm, "social-share", {"admin_menu"}, exports, base);
  }

  /** With the menu handler registered, dispatching admin_menu appends the item and records one success. */
  method MenuDispatchScenario(pm: PluginManager, pid: string, item: Value, base: Payload)
    requires HandlersFor(pm.hookRegistry, "admin_menu") == [Handler(pid, AppendMenuItem(item))]
    requires "menu" in base && base["menu"].List?
  {
    var r := pm.ExecuteHook("admin_menu", Some(base));
    MenuHandlerRuns(pid, item, base);
    assert r.data["menu"] == List(base["menu"].items + [item]);
    assert r.executedHooks == [Succeeded(pid)];
  }

  /** Deactivating the only registered plugin empties the registry, so its hook no longer runs. */
  method DeactivationScenario(pm: PluginManager, pid: string, declared: set<string>, exports: HooksModule, base: Payload)
    requires pm.Valid() && pid in pm.plugins
    requires pm.hookRegistry == Registered(map[], pid, declared, exports)
    modifies pm
    ensures pm.hookRegistry == map[]
  {
    var ok := pm.DeactivatePlugin(pid, 2);
    UnloadUndoesRegister(map[], pid, declared, exports);
    var r := pm.ExecuteHook("admin_menu", Some(base));
    assert r.data == base && r.executedHooks == [];
  }
}
