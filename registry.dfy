/** Functional specification of the plugin handlers of pymel.core: each
    handler is a function from the state before to the state after and the
    exception, if any, that escapes it. */
module PluginRegistry {
  import opened PluginTypes
  import opened EventBridge
  import opened TypeHierarchy

  /** The state after a handler and what escaped from it. */
  datatype Step = Step(state: State, outcome: Outcome)

  // ------------------------------------------------------------------ commands

  /** One command of the binding loop: record its info, add it to the
      wrapped set, and bind the factory's function when there is one (also in
      `pymel.all` when that module is imported). */
  function BindCommand(s: State, c: string, host: Host): State {
    var s1 := s.(cmdList := s.cmdList[c := host.cmdInfo(c)], wrapped := s.wrapped + {c});
    match host.functionFactory(c)
    case None => s1
    case Some(f) =>
      s1.(moduleNs := s1.moduleNs[c := CommandFunc(f)],
          allNs := if host.allImported then s1.allNs[c := CommandFunc(f)] else s1.allNs)
  }

  /** The binding loop; it touches only the command-related parts of the state. */
  function BindCommands(s: State, cmds: seq<string>, host: Host): (r: State)
    ensures r.pluginData == s.pluginData && r.hierarchy == s.hierarchy
    ensures r.pending == s.pending && r.nextId == s.nextId
    ensures r.loadedCB == s.loadedCB && r.unloadedCB == s.unloadedCB && r.hooks == s.hooks
    ensures !host.allImported ==> r.allNs == s.allNs
    decreases |cmds|
  {
    if cmds == [] then s
    else BindCommands(BindCommand(s, cmds[0], host), cmds[1..], host)
  }

  // ---------------------------------------------------------------- node types

  /** Lines 99-105 of the batch: read the record's `'callbackId'` and remove
      that registration. A missing record or entry is the caught `KeyError`;
      removing an id that is no longer registered raises. */
  function DropCallback(s: State, name: string): (r: Step)
    ensures r.state.pluginData == s.pluginData && r.state.nextId == s.nextId
    ensures r.state.pending.Keys <= s.pending.Keys
    ensures r.outcome.Raised? ==> r.state == s
    ensures r.outcome.Raised? <==> name in s.pluginData && s.pluginData[name].callbackId.Id?
                                   && s.pluginData[name].callbackId.id !in s.pending
    ensures r.outcome.Raised? ==> r.outcome.error == StaleCallback(s.pluginData[name].callbackId.id)
    ensures r.outcome.Done? ==> r.state == s.(pending := if name in s.pluginData && s.pluginData[name].callbackId.Id?
                                                         then s.pending - {s.pluginData[name].callbackId.id}
                                                         else s.pending)
  {
    if name !in s.pluginData then Step(s, Done)
    else
      match s.pluginData[name].callbackId
      case Unset => Step(s, Done)
      case NoneId => Step(s, Done)
      case Id(i) =>
        if i in s.pending then Step(s.(pending := s.pending - {i}), Done)
        else Step(s, Raised(StaleCallback(i)))
  }

  /** Lines 107-127 of the batch for a tracked plugin: record every node
      type under `'dependNodes'` before any chain is resolved, then walk the
      resolvable chains into the hierarchy and, when imported, `pymel.all`. */
  function RecordAndInsert(t: State, name: string, types: seq<string>, host: Host): State
    requires name in t.pluginData
  {
    t.(pluginData := t.pluginData[name := t.pluginData[name].(dependNodes := Some(types))],
       hierarchy := InsertTypes(t.hierarchy, types, host.inheritance),
       allNs := if host.allImported
                then PublishTypes(t.allNs, types, host.inheritance, host.pyNodeName)
                else t.allNs)
  }

  /** `addPluginPyNodes`: drop the callback, then record and insert; the
      `'dependNodes'` write raises `KeyError` when the plugin is no longer
      tracked. */
  function RunBatch(s: State, name: string, types: seq<string>, host: Host): (r: Step)
    ensures r.state.pluginData.Keys == s.pluginData.Keys
    ensures r.state.pending.Keys <= s.pending.Keys && r.state.nextId == s.nextId
    ensures r.state.moduleNs == s.moduleNs && r.state.wrapped == s.wrapped && r.state.cmdList == s.cmdList
    ensures r.state.hooks == s.hooks && r.state.loadedCB == s.loadedCB && r.state.unloadedCB == s.unloadedCB
    ensures r.outcome.Done? <==> name in s.pluginData && DropCallback(s, name).outcome.Done?
    ensures DropCallback(s, name).outcome.Done? && name !in s.pluginData ==> r.outcome == Raised(KeyError(name))
    ensures r.outcome.Done? ==>
      && r.state.pluginData == s.pluginData[name := s.pluginData[name].(dependNodes := Some(types))]
      && r.state.hierarchy == InsertTypes(s.hierarchy, types, host.inheritance)
      && r.state.allNs == if host.allImported
                          then s.allNs + ClassMap(TypeNames(types, host.inheritance, host.pyNodeName))
                          else s.allNs
  {
    PublishTypesClosedForm(s.allNs, types, host.inheritance, host.pyNodeName);
    var d := DropCallback(s, name);
    if d.outcome.Raised? then d
    else if name !in d.state.pluginData then Step(d.state, Raised(KeyError(name)))
    else Step(RecordAndInsert(d.state, name, types, host), Done)
  }

  // ---------------------------------------------------------------------- load

  /** The record after the command query: `'commands'` is set only when the
      query returned a non-empty list. */
  function CommandRecord(q: Query): Record {
    if q.Returns? && q.items != [] then EmptyRecord.(commands := Some(q.items)) else EmptyRecord
  }

  /** Lines 65-91: a fresh record for the name, then the command query and
      the binding loop. */
  function LoadCommands(s: State, n: string, host: Host): (r: State)
    ensures r.pluginData == s.pluginData[n := CommandRecord(host.commandsOf(n))]
    ensures r.hierarchy == s.hierarchy && r.pending == s.pending && r.nextId == s.nextId
    ensures r.loadedCB == s.loadedCB && r.unloadedCB == s.unloadedCB && r.hooks == s.hooks
  {
    var q := host.commandsOf(n);
    var s1 := s.(pluginData := s.pluginData[n := CommandRecord(q)]);
    if CommandRecord(q).commands.Some? then BindCommands(s1, q.items, host) else s1
  }

  /** `_pluginLoaded` after the name check, for a non-empty name. */
  function LoadPlugin(s: State, n: string, host: Host): Step {
    var rec := CommandRecord(host.commandsOf(n));
    var s2 := LoadCommands(s, n, host);
    match host.nodeTypesOf(n)
    case Raises => Step(s2, Raised(QueryError(n)))
    case Returns(types) =>
      if types == [] then Step(s2, Done)
      else if Busy(host) then
        Step(s2.(pluginData := s2.pluginData[n := rec.(callbackId := Id(s2.nextId))],
                 pending := s2.pending[s2.nextId := Deferred(n, types)],
                 nextId := s2.nextId + 1),
             Done)
      else
        RunBatch(s2.(pluginData := s2.pluginData[n := rec.(callbackId := NoneId)]), n, types, host)
  }

  /** `_pluginLoaded(*args)`: an empty or absent name returns at once. */
  function Loaded(s: State, p: Payload, host: Host): Step {
    match LoadedName(p)
    case BadPayload => Step(s, Raised(IndexError))
    case NoName => Step(s, Done)
    case Name(n) => if n == "" then Step(s, Done) else LoadPlugin(s, n, host)
  }

  // -------------------------------------------------------------------- unload

  /** The command loop of unload: each recorded name leaves the wrapped set
      and the module; a name missing from the module is the caught `KeyError`. */
  function RemoveCommands(s: State, cmds: seq<string>): (r: State)
    ensures r == s.(wrapped := r.wrapped, moduleNs := r.moduleNs)
    decreases |cmds|
  {
    if cmds == [] then s
    else RemoveCommands(s.(wrapped := s.wrapped - {cmds[0]}, moduleNs := s.moduleNs - {cmds[0]}), cmds[1..])
  }

  /** The node loop of unload: `removePyNode` per recorded node type, with no
      `try` around it, so the first failure ends the loop and escapes. */
  function RemoveNodes(s: State, nodes: seq<string>, fails: string -> bool): (r: Step)
    ensures r.state == s.(hierarchy := r.state.hierarchy)
    decreases |nodes|
  {
    if nodes == [] then Step(s, Done)
    else if fails(nodes[0]) then Step(s, Raised(RemoveNodeError(nodes[0])))
    else RemoveNodes(s.(hierarchy := s.hierarchy - {nodes[0]}), nodes[1..], fails)
  }

  /** `_pluginUnloaded(*args)`: no empty-name check; an untracked name is the
      caught `KeyError` of `pop`. */
  function Unloaded(s: State, p: Payload, host: Host): Step {
    match UnloadedName(p)
    case BadPayload => Step(s, Raised(IndexError))
    case NoName => Step(s, Done)
    case Name(n) =>
      if n !in s.pluginData then Step(s, Done)
      else
        var rec := s.pluginData[n];
        var s1 := RemoveCommands(s.(pluginData := s.pluginData - {n}), rec.commands.GetOr([]));
        RemoveNodes(s1, rec.dependNodes.GetOr([]), host.removeFails)
  }

  // ------------------------------------------------------------- SceneOpened

  /** The host runs a registered deferred callback. */
  function SceneOpened(s: State, id: nat, host: Host): Step
    requires id in s.pending
  {
    RunBatch(s, s.pending[id].plugin, s.pending[id].mayaTypes, host)
  }

  // --------------------------------------------------------- installation

  /** The two guarded registrations of `_installCallbacks`. Before 2009 the
      load direction goes through a MEL `addCallback` and the unload flag is
      set with nothing registered. */
  function RegisterHooks(s: State, host: Host): State {
    var s1 := if s.loadedCB then s
              else s.(loadedCB := true, hooks := s.hooks + [if host.atLeast2009 then AfterLoadApi else AfterLoadMel]);
    if s1.unloadedCB then s1
    else s1.(unloadedCB := true, hooks := s1.hooks + if host.atLeast2009 then [AfterUnloadApi] else [])
  }

  /** The replay of the load handler for every pre-loaded plugin; an
      exception ends the replay and escapes. */
  function Replay(s: State, plugins: seq<string>, host: Host): Step
    decreases |plugins|
  {
    if plugins == [] then Step(s, Done)
    else
      var st := Loaded(s, Single(Some(plugins[0])), host);
      if st.outcome.Raised? then st else Replay(st.state, plugins[1..], host)
  }

  /** `_installCallbacks()`. */
  function Install(s: State, host: Host): Step {
    Replay(RegisterHooks(s, host), host.loadedPlugins, host)
  }
}
