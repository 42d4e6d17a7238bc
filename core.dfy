/** pymel.core's plugin bookkeeping as an object whose fields are the module
    globals the handlers mutate in place: `_pluginData`, the module
    namespaces, the node-type hierarchy, the wrapped-command set, the
    registered "SceneOpened" callbacks and the two registration flags. Each
    handler is proved to produce the state its specification function names. */
module Core {
  import opened PluginTypes
  import opened EventBridge
  import opened TypeHierarchy
  import opened PluginRegistry
  import opened RegistryProperties

  class Bookkeeping {
    var pluginData: map<string, Record>
    var moduleNs: map<string, Binding>
    var allNs: map<string, Binding>
    var hierarchy: map<string, string>
    var wrapped: set<string>
    var cmdList: map<string, CmdInfo>
    var pending: map<nat, Deferred>
    var nextId: nat
    var loadedCB: bool
    var unloadedCB: bool
    var hooks: seq<Hook>

    /** The abstract value of the object. */
    function Snapshot(): State
      reads this
    {
      State(pluginData, moduleNs, allNs, hierarchy, wrapped, cmdList, pending,
            nextId, loadedCB, unloadedCB, hooks)
    }

    ghost predicate Valid()
      reads this
    {
      ValidState(Snapshot())
    }

    /** The state at import: the built-in commands and node types, nothing
        tracked, no callback registered. */
    constructor (builtins: map<string, Binding>, allBuiltins: map<string, Binding>,
                 types: map<string, string>, wrappedCmds: set<string>, cmds: map<string, CmdInfo>)
      ensures Valid()
      ensures Snapshot() == State(map[], builtins, allBuiltins, types, wrappedCmds, cmds,
                                  map[], 0, false, false, [])
    {
      pluginData, moduleNs, allNs, hierarchy := map[], builtins, allBuiltins, types;
      wrapped, cmdList, pending, nextId := wrappedCmds, cmds, map[], 0;
      loadedCB, unloadedCB, hooks := false, false, [];
    }

    /** The command loop of `_pluginLoaded` (lines 78-91). */
    method BindCommandList(cmds: seq<string>, host: Host)
      modifies this
      ensures Snapshot() == BindCommands(old(Snapshot()), cmds, host)
    {
      ghost var target := BindCommands(Snapshot(), cmds, host);
      var i := 0;
      assert cmds[i..] == cmds;
      while i < |cmds|
        invariant 0 <= i <= |cmds|
        invariant BindCommands(Snapshot(), cmds[i..], host) == target
      {
        var c := cmds[i];
        ghost var before := Snapshot();
        cmdList := cmdList[c := host.cmdInfo(c)];
        wrapped := wrapped + {c};
        var func := host.functionFactory(c);
        if func.Some? {
          moduleNs := moduleNs[c := CommandFunc(func.value)];
          if host.allImported {
            allNs := allNs[c := CommandFunc(func.value)];
          }
        }
        assert Snapshot() == BindCommand(before, c, host);
        assert cmds[i..][1..] == cmds[i + 1..];
        i := i + 1;
      }
    }

    /** One chain of the batch (lines 120-127). */
    method WalkChain(chain: seq<string>, host: Host)
      modifies this
      ensures hierarchy == InsertChain(old(hierarchy), "dependNode", chain)
      ensures allNs == if host.allImported then PublishChain(old(allNs), chain, host.pyNodeName) else old(allNs)
      ensures Snapshot() == old(Snapshot()).(hierarchy := hierarchy, allNs := allNs)
    {
      ghost var snap := Snapshot();
      var parent := "dependNode";
      var j := 0;
      assert chain[j..] == chain;
      while j < |chain|
        invariant 0 <= j <= |chain|
        invariant InsertChain(hierarchy, parent, chain[j..]) == InsertChain(old(hierarchy), "dependNode", chain)
        invariant host.allImported ==> PublishChain(allNs, chain[j..], host.pyNodeName) == PublishChain(old(allNs), chain, host.pyNodeName)
        invariant !host.allImported ==> allNs == old(allNs)
        invariant Snapshot() == snap.(hierarchy := hierarchy, allNs := allNs)
      {
        var node := chain[j];
        hierarchy := AddPyNode(hierarchy, node, parent);
        var nodeName := host.pyNodeName(node);
        parent := node;
        if host.allImported {
          allNs := allNs[nodeName := NodeClass(nodeName)];
        }
        assert chain[j..][1..] == chain[j + 1..];
        j := j + 1;
      }
    }

    /** The nested `addPluginPyNodes` (lines 98-127), run at once or as the
        "SceneOpened" callback. */
    method AddPluginPyNodes(name: string, types: seq<string>, host: Host) returns (o: Outcome)
      modifies this
      ensures Snapshot() == RunBatch(old(Snapshot()), name, types, host).state
      ensures o == RunBatch(old(Snapshot()), name, types, host).outcome
    {
      if name in pluginData {
        var slot := pluginData[name].callbackId;
        if slot.Id? {
          if slot.id in pending {
            pending := pending - {slot.id};
          } else {
            return Raised(StaleCallback(slot.id));
          }
        }
      }
      if name !in pluginData {
        return Raised(KeyError(name));
      }
      pluginData := pluginData[name := pluginData[name].(dependNodes := Some(types))];
      ghost var snap := Snapshot();
      var i := 0;
      assert types[i..] == types;
      while i < |types|
        invariant 0 <= i <= |types|
        invariant InsertTypes(hierarchy, types[i..], host.inheritance) == InsertTypes(snap.hierarchy, types, host.inheritance)
        invariant host.allImported ==> PublishTypes(allNs, types[i..], host.inheritance, host.pyNodeName)
                                       == PublishTypes(snap.allNs, types, host.inheritance, host.pyNodeName)
        invariant !host.allImported ==> allNs == snap.allNs
        invariant Snapshot() == snap.(hierarchy := hierarchy, allNs := allNs)
      {
        var inheritance := host.inheritance(types[i]);
        if inheritance.Some? {
          WalkChain(inheritance.value, host);
        }
        assert types[i..][1..] == types[i + 1..];
        i := i + 1;
      }
      o := Done;
    }

    /** `_pluginLoaded(*args)` (lines 49-139). */
    method PluginLoaded(p: Payload, host: Host) returns (o: Outcome)
      requires Valid()
      modifies this
      ensures Valid()
      ensures Snapshot() == Loaded(old(Snapshot()), p, host).state
      ensures o == Loaded(old(Snapshot()), p, host).outcome
    {
      LoadedKeepsValid(Snapshot(), p, host);
      var name := LoadedName(p);
      if name.BadPayload? {
        return Raised(IndexError);
      }
      if name.NoName? || name.name == "" {
        return Done;
      }
      o := LoadPluginNamed(name.name, host);
    }

    /** The body of `_pluginLoaded` once the name is known (lines 62-139). */
    method LoadPluginNamed(pluginName: string, host: Host) returns (o: Outcome)
      modifies this
      ensures Snapshot() == LoadPlugin(old(Snapshot()), pluginName, host).state
      ensures o == LoadPlugin(old(Snapshot()), pluginName, host).outcome
    {
      RecordCommands(pluginName, host);
      var mayaTypes := host.nodeTypesOf(pluginName);
      if mayaTypes.Raises? {
        return Raised(QueryError(pluginName));
      }
      if mayaTypes.items != [] {
        if Busy(host) {
          var id := nextId;
          nextId := nextId + 1;
          pending := pending[id := Deferred(pluginName, mayaTypes.items)];
          pluginData := pluginData[pluginName := pluginData[pluginName].(callbackId := Id(id))];
        } else {
          pluginData := pluginData[pluginName := pluginData[pluginName].(callbackId := NoneId)];
          o := AddPluginPyNodes(pluginName, mayaTypes.items, host);
          return;
        }
      }
      o := Done;
    }

    /** Lines 65-91: a fresh record, the command query and the binding loop. */
    method RecordCommands(pluginName: string, host: Host)
      modifies this
      ensures Snapshot() == LoadCommands(old(Snapshot()), pluginName, host)
    {
      pluginData := pluginData[pluginName := EmptyRecord];
      var commands := host.commandsOf(pluginName);
      if commands.Returns? && commands.items != [] {
        pluginData := pluginData[pluginName := pluginData[pluginName].(commands := Some(commands.items))];
        assert Snapshot() == old(Snapshot()).(pluginData := old(pluginData)[pluginName := CommandRecord(commands)]);
        BindCommandList(commands.items, host);
      } else {
        assert Snapshot() == old(Snapshot()).(pluginData := old(pluginData)[pluginName := CommandRecord(commands)]);
      }
    }

    /** `_pluginUnloaded(*args)` (lines 145-178). */
    method PluginUnloaded(p: Payload, host: Host) returns (o: Outcome)
      requires Valid()
      modifies this
      ensures Valid()
      ensures Snapshot() == Unloaded(old(Snapshot()), p, host).state
      ensures o == Unloaded(old(Snapshot()), p, host).outcome
    {
      UnloadedKeepsValid(Snapshot(), p, host);
      var name := UnloadedName(p);
      if name.BadPayload? {
        return Raised(IndexError);
      }
      if name.NoName? || name.name !in pluginData {
        return Done;
      }
      var data := pluginData[name.name];
      pluginData := pluginData - {name.name};
      RemoveCommandList(data.commands.GetOr([]));
      o := RemoveNodeList(data.dependNodes.GetOr([]), host);
    }

    /** The command loop of `_pluginUnloaded` (lines 163-171). */
    method RemoveCommandList(commands: seq<string>)
      modifies this
      ensures Snapshot() == RemoveCommands(old(Snapshot()), commands)
    {
      ghost var target := RemoveCommands(Snapshot(), commands);
      var i := 0;
      assert commands[i..] == commands;
      while i < |commands|
        invariant 0 <= i <= |commands|
        invariant RemoveCommands(Snapshot(), commands[i..]) == target
      {
        wrapped := wrapped - {commands[i]};
        moduleNs := moduleNs - {commands[i]};
        assert commands[i..][1..] == commands[i + 1..];
        i := i + 1;
      }
    }

    /** The node loop of `_pluginUnloaded` (lines 174-178). */
    method RemoveNodeList(nodes: seq<string>, host: Host) returns (o: Outcome)
      modifies this
      ensures Snapshot() == RemoveNodes(old(Snapshot()), nodes, host.removeFails).state
      ensures o == RemoveNodes(old(Snapshot()), nodes, host.removeFails).outcome
    {
      ghost var target := RemoveNodes(Snapshot(), nodes, host.removeFails);
      var k := 0;
      assert nodes[k..] == nodes;
      while k < |nodes|
        invariant 0 <= k <= |nodes|
        invariant RemoveNodes(Snapshot(), nodes[k..], host.removeFails) == target
      {
        if host.removeFails(nodes[k]) {
          return Raised(RemoveNodeError(nodes[k]));
        }
        hierarchy := hierarchy - {nodes[k]};
        assert nodes[k..][1..] == nodes[k + 1..];
        k := k + 1;
      }
      o := Done;
    }

    /** The host runs the registered "SceneOpened" callback `id`. */
    method FireSceneOpened(id: nat, host: Host) returns (o: Outcome)
      requires Valid() && id in pending
      modifies this
      ensures Valid()
      ensures Snapshot() == SceneOpened(old(Snapshot()), id, host).state
      ensures o == SceneOpened(old(Snapshot()), id, host).outcome
    {
      SceneOpenedKeepsValid(Snapshot(), id, host);
      var deferred := pending[id];
      o := AddPluginPyNodes(deferred.plugin, deferred.mayaTypes, host);
    }

    /** The two guarded registrations of `_installCallbacks` (lines 191-221). */
    method RegisterCallbacks(host: Host)
      requires Valid()
      modifies this
      ensures Valid()
      ensures Snapshot() == RegisterHooks(old(Snapshot()), host)
    {
      RegisterHooksKeepsValid(Snapshot(), host);
      if !loadedCB {
        loadedCB := true;
        hooks := hooks + [if host.atLeast2009 then AfterLoadApi else AfterLoadMel];
      }
      if !unloadedCB {
        unloadedCB := true;
        if host.atLeast2009 {
          hooks := hooks + [AfterUnloadApi];
        }
      }
      assert Snapshot() == RegisterHooks(old(Snapshot()), host);
    }

    /** `_installCallbacks()` (lines 186-231). */
    method InstallCallbacks(host: Host) returns (o: Outcome)
      requires Valid()
      modifies this
      ensures Valid()
      ensures Snapshot() == Install(old(Snapshot()), host).state
      ensures o == Install(old(Snapshot()), host).outcome
    {
      RegisterCallbacks(host);
      var preLoaded := host.loadedPlugins;
      var i := 0;
      assert preLoaded[i..] == preLoaded;
      while i < |preLoaded|
        invariant 0 <= i <= |preLoaded|
        invariant Valid()
        invariant Replay(Snapshot(), preLoaded[i..], host) == Install(old(Snapshot()), host)
      {
        o := PluginLoaded(Single(Some(preLoaded[i])), host);
        if o.Raised? {
          return;
        }
        assert preLoaded[i..][1..] == preLoaded[i + 1..];
        i := i + 1;
      }
      o := Done;
    }
  }
}
