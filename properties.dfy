/** What the handlers of pymel.core's plugin bookkeeping promise, stated and
    proved over their specification functions. */
module RegistryProperties {
  import opened PluginTypes
  import opened EventBridge
  import opened TypeHierarchy
  import opened PluginRegistry

  // ------------------------------------------------------------ invariant

  lemma HookCountsAppend(hs: seq<Hook>, h: Hook)
    ensures LoadHooks(hs + [h]) == LoadHooks(hs) + (if h == AfterUnloadApi then 0 else 1)
    ensures UnloadHooks(hs + [h]) == UnloadHooks(hs) + (if h == AfterUnloadApi then 1 else 0)
  {
    assert (hs + [h])[..|hs|] == hs;
  }

  /** Each direction's host callback is registered at most once: a second
      call finds the flag set and registers nothing. */
  lemma RegisterHooksKeepsValid(s: State, host: Host)
    requires ValidState(s)
    ensures ValidState(RegisterHooks(s, host))
    ensures RegisterHooks(s, host).loadedCB && RegisterHooks(s, host).unloadedCB
    ensures LoadHooks(RegisterHooks(s, host).hooks) == 1
  {
    var s1 := if s.loadedCB then s
              else s.(loadedCB := true, hooks := s.hooks + [if host.atLeast2009 then AfterLoadApi else AfterLoadMel]);
    if !s.loadedCB {
      HookCountsAppend(s.hooks, if host.atLeast2009 then AfterLoadApi else AfterLoadMel);
    }
    if !s1.unloadedCB && host.atLeast2009 {
      HookCountsAppend(s1.hooks, AfterUnloadApi);
    }
    if !s1.unloadedCB && !host.atLeast2009 {
      assert s1.hooks + [] == s1.hooks;
    }
  }

  lemma LoadPluginKeepsValid(s: State, n: string, host: Host)
    requires ValidState(s) && n != ""
    ensures ValidState(LoadPlugin(s, n, host).state)
  {
    var rec := CommandRecord(host.commandsOf(n));
    var s2 := LoadCommands(s, n, host);
    assert ValidState(s2);
    match host.nodeTypesOf(n) {
      case Raises =>
      case Returns(types) =>
        if types != [] && Busy(host) {
          var s3 := s2.(pluginData := s2.pluginData[n := rec.(callbackId := Id(s2.nextId))],
                        pending := s2.pending[s2.nextId := Deferred(n, types)],
                        nextId := s2.nextId + 1);
          assert LoadPlugin(s, n, host).state == s3;
          assert ValidState(s3);
        } else if types != [] {
          var s3 := s2.(pluginData := s2.pluginData[n := rec.(callbackId := NoneId)]);
          assert ValidState(s3);
          assert LoadPlugin(s, n, host) == RunBatch(s3, n, types, host);
        }
    }
  }

  lemma LoadedKeepsValid(s: State, p: Payload, host: Host)
    requires ValidState(s)
    ensures ValidState(Loaded(s, p, host).state)
  {
    var name := LoadedName(p);
    if name.Name? && name.name != "" {
      LoadPluginKeepsValid(s, name.name, host);
    }
  }

  lemma UnloadedKeepsValid(s: State, p: Payload, host: Host)
    requires ValidState(s)
    ensures ValidState(Unloaded(s, p, host).state)
  {
  }

  lemma SceneOpenedKeepsValid(s: State, id: nat, host: Host)
    requires ValidState(s) && id in s.pending
    ensures ValidState(SceneOpened(s, id, host).state)
  {
  }

  lemma {:induction false} ReplayKeepsValid(s: State, plugins: seq<string>, host: Host)
    requires ValidState(s)
    ensures ValidState(Replay(s, plugins, host).state)
    decreases |plugins|
  {
    if plugins != [] {
      LoadedKeepsValid(s, Single(Some(plugins[0])), host);
      ReplayKeepsValid(Loaded(s, Single(Some(plugins[0])), host).state, plugins[1..], host);
    }
  }

  // --------------------------------------------------------------- commands

  /** Reference definition of the `factories.cmdlist` entries written for a
      command list. */
  function InfoMap(cmds: seq<string>, host: Host): map<string, CmdInfo> {
    map c | c in Elems(cmds) :: host.cmdInfo(c)
  }

  /** Reference definition of the functions bound for a command list: one
      per command the factory produced a function for. */
  function FuncMap(cmds: seq<string>, host: Host): map<string, Binding> {
    map c | c in Elems(cmds) && host.functionFactory(c).Some? :: CommandFunc(host.functionFactory(c).value)
  }

  /** The commands the binding loop runs over: the query's list when it
      returned a non-empty one, nothing when it raised or returned nothing. */
  function BoundCommands(n: string, host: Host): seq<string> {
    var q := host.commandsOf(n);
    if q.Returns? then q.items else []
  }

  lemma ElemsCons(cmds: seq<string>)
    requires cmds != []
    ensures Elems(cmds) == {cmds[0]} + Elems(cmds[1..])
  {
    assert cmds == [cmds[0]] + cmds[1..];
  }

  lemma InfoMapCons(m: map<string, CmdInfo>, cmds: seq<string>, host: Host)
    requires cmds != []
    ensures m[cmds[0] := host.cmdInfo(cmds[0])] + InfoMap(cmds[1..], host) == m + InfoMap(cmds, host)
  {
    ElemsCons(cmds);
  }

  lemma FuncMapCons(m: map<string, Binding>, cmds: seq<string>, host: Host)
    requires cmds != []
    ensures (match host.functionFactory(cmds[0])
             case None => m
             case Some(f) => m[cmds[0] := CommandFunc(f)]) + FuncMap(cmds[1..], host)
            == m + FuncMap(cmds, host)
  {
    ElemsCons(cmds);
  }

  /** The binding loop in closed form: every command joins the wrapped set
      and `factories.cmdlist`; exactly the commands the factory produced a
      function for are bound, in `pymel.all` too when it is imported; a
      command with no function is skipped and the rest still bind. */
  lemma {:induction false} BindCommandsClosedForm(s: State, cmds: seq<string>, host: Host)
    ensures BindCommands(s, cmds, host).wrapped == s.wrapped + Elems(cmds)
    ensures BindCommands(s, cmds, host).cmdList == s.cmdList + InfoMap(cmds, host)
    ensures BindCommands(s, cmds, host).moduleNs == s.moduleNs + FuncMap(cmds, host)
    ensures BindCommands(s, cmds, host).allNs == if host.allImported then s.allNs + FuncMap(cmds, host) else s.allNs
    decreases |cmds|
  {
    if cmds == [] {
      assert InfoMap(cmds, host) == map[];
      assert FuncMap(cmds, host) == map[];
      assert s.cmdList + map[] == s.cmdList;
      assert s.moduleNs + map[] == s.moduleNs;
      assert s.allNs + map[] == s.allNs;
    } else {
      var t := BindCommand(s, cmds[0], host);
      BindCommandsClosedForm(t, cmds[1..], host);
      assert BindCommands(s, cmds, host) == BindCommands(t, cmds[1..], host);
      ElemsCons(cmds);
      InfoMapCons(s.cmdList, cmds, host);
      FuncMapCons(s.moduleNs, cmds, host);
      FuncMapCons(s.allNs, cmds, host);
    }
  }

  /** The whole state after the command part of load, in closed form. */
  lemma LoadCommandsClosedForm(s: State, n: string, host: Host)
    ensures LoadCommands(s, n, host)
            == s.(pluginData := s.pluginData[n := CommandRecord(host.commandsOf(n))],
                  wrapped := s.wrapped + Elems(BoundCommands(n, host)),
                  cmdList := s.cmdList + InfoMap(BoundCommands(n, host), host),
                  moduleNs := s.moduleNs + FuncMap(BoundCommands(n, host), host),
                  allNs := if host.allImported then s.allNs + FuncMap(BoundCommands(n, host), host) else s.allNs)
  {
    var q := host.commandsOf(n);
    var s1 := s.(pluginData := s.pluginData[n := CommandRecord(q)]);
    BindCommandsClosedForm(s1, BoundCommands(n, host), host);
    if CommandRecord(q).commands.None? {
      assert Elems([]) == {};
      assert InfoMap([], host) == map[];
      assert FuncMap([], host) == map[];
      assert s.cmdList + map[] == s.cmdList;
      assert s.moduleNs + map[] == s.moduleNs;
      assert s.allNs + map[] == s.allNs;
    }
  }

  // ------------------------------------------------------------------- load

  /** The node types the load handler received (nothing when the query
      raised). */
  function NodeTypes(n: string, host: Host): seq<string> {
    var q := host.nodeTypesOf(n);
    if q.Returns? then q.items else []
  }

  /** Reference definition of the record a load leaves behind; `id` is the
      callback id the host hands out when the node types are deferred. */
  function FinalRecord(n: string, host: Host, id: nat): Record {
    var rec := CommandRecord(host.commandsOf(n));
    if host.nodeTypesOf(n).Raises? || NodeTypes(n, host) == [] then rec
    else if Busy(host) then rec.(callbackId := Id(id))
    else rec.(callbackId := NoneId, dependNodes := Some(NodeTypes(n, host)))
  }

  /** Load always replaces the record with one that reflects only the
      latest queries, whatever was tracked under the name before; it raises
      only when the node-type query raises. */
  lemma LoadReplacesRecord(s: State, n: string, host: Host)
    ensures LoadPlugin(s, n, host).state.pluginData == s.pluginData[n := FinalRecord(n, host, s.nextId)]
    ensures LoadPlugin(s, n, host).outcome == if host.nodeTypesOf(n).Raises? then Raised(QueryError(n)) else Done
  {
    var rec := CommandRecord(host.commandsOf(n));
    var s2 := LoadCommands(s, n, host);
    if host.nodeTypesOf(n).Returns? && NodeTypes(n, host) != [] && !Busy(host) {
      var s3 := s2.(pluginData := s2.pluginData[n := rec.(callbackId := NoneId)]);
      assert DropCallback(s3, n) == Step(s3, Done);
    }
  }

  /** Load changes the command-related state only in its command part. */
  lemma LoadPluginCommandFrame(s: State, n: string, host: Host)
    ensures var r := LoadPlugin(s, n, host).state;
      var c := LoadCommands(s, n, host);
      r.moduleNs == c.moduleNs && r.wrapped == c.wrapped && r.cmdList == c.cmdList
  {
  }

  /** A failing or empty command query leaves the namespaces, the wrapped
      set and `factories.cmdlist` as they were and records no `'commands'`;
      the handler does not raise for it. */
  lemma LoadSurvivesCommandQueryFailure(s: State, n: string, host: Host)
    requires host.commandsOf(n) == Raises || host.commandsOf(n) == Returns([])
    ensures var r := LoadPlugin(s, n, host);
      && r.state.moduleNs == s.moduleNs && r.state.wrapped == s.wrapped && r.state.cmdList == s.cmdList
      && r.state.pluginData[n].commands == None
      && (r.outcome.Raised? <==> host.nodeTypesOf(n).Raises?)
  {
    LoadReplacesRecord(s, n, host);
    LoadPluginCommandFrame(s, n, host);
    assert LoadCommands(s, n, host) == s.(pluginData := s.pluginData[n := EmptyRecord]);
  }

  /** While the host reads or opens a scene nothing is inserted: the
      hierarchy is untouched, no node class reaches `pymel.all` (only the
      command functions do), `'dependNodes'` is unset, and one "SceneOpened"
      callback for the plugin's node types is registered under a fresh id. */
  lemma DeferredLoadInsertsNothing(s: State, n: string, host: Host)
    requires ValidState(s) && Busy(host)
    requires host.nodeTypesOf(n).Returns? && host.nodeTypesOf(n).items != []
    ensures var r := LoadPlugin(s, n, host).state;
      && r.hierarchy == s.hierarchy
      && r.allNs == (if host.allImported then s.allNs + FuncMap(BoundCommands(n, host), host) else s.allNs)
      && r.pluginData[n].dependNodes == None
      && r.pluginData[n].callbackId == Id(s.nextId)
      && s.nextId !in s.pending
      && r.pending == s.pending[s.nextId := Deferred(n, host.nodeTypesOf(n).items)]
  {
    LoadReplacesRecord(s, n, host);
    LoadCommandsClosedForm(s, n, host);
  }

  /** The command part of load depends only on the command answers. */
  lemma {:induction false} BindCommandsSameAnswers(s: State, cmds: seq<string>, h1: Host, h2: Host)
    requires h1.cmdInfo == h2.cmdInfo && h1.functionFactory == h2.functionFactory && h1.allImported == h2.allImported
    ensures BindCommands(s, cmds, h1) == BindCommands(s, cmds, h2)
    decreases |cmds|
  {
    if cmds != [] {
      assert BindCommand(s, cmds[0], h1) == BindCommand(s, cmds[0], h2);
      BindCommandsSameAnswers(BindCommand(s, cmds[0], h1), cmds[1..], h1, h2);
    }
  }

  /** A load that defers, before its callback fires. */
  lemma BusyLoadShape(s: State, n: string, host: Host)
    requires Busy(host) && host.nodeTypesOf(n).Returns? && host.nodeTypesOf(n).items != []
    ensures var c := LoadCommands(s, n, host);
      LoadPlugin(s, n, host)
      == Step(c.(pluginData := c.pluginData[n := CommandRecord(host.commandsOf(n)).(callbackId := Id(s.nextId))],
                 pending := s.pending[s.nextId := Deferred(n, host.nodeTypesOf(n).items)],
                 nextId := s.nextId + 1),
              Done)
  {
  }

  /** A load that runs the batch at once. */
  lemma IdleLoadShape(s: State, n: string, host: Host)
    requires !Busy(host) && host.nodeTypesOf(n).Returns? && host.nodeTypesOf(n).items != []
    ensures var c := LoadCommands(s, n, host);
      var t := c.(pluginData := c.pluginData[n := CommandRecord(host.commandsOf(n)).(callbackId := NoneId)]);
      LoadPlugin(s, n, host) == Step(RecordAndInsert(t, n, host.nodeTypesOf(n).items, host), Done)
  {
    var c := LoadCommands(s, n, host);
    var t := c.(pluginData := c.pluginData[n := CommandRecord(host.commandsOf(n)).(callbackId := NoneId)]);
    assert DropCallback(t, n) == Step(t, Done);
  }

  lemma LoadCommandsIgnoresScene(s: State, n: string, host: Host)
    ensures LoadCommands(s, n, host) == LoadCommands(s, n, host.(readingFile := false, openingFile := false))
  {
    var rec := CommandRecord(host.commandsOf(n));
    if rec.commands.Some? {
      BindCommandsSameAnswers(s.(pluginData := s.pluginData[n := rec]), host.commandsOf(n).items,
                              host, host.(readingFile := false, openingFile := false));
    }
  }

  /** Firing the callback of a load that deferred, before anything else
      happens, removes its registration and runs the batch. */
  lemma FireAfterBusyLoad(s: State, n: string, host: Host, later: Host)
    requires ValidState(s) && Busy(host)
    requires host.nodeTypesOf(n).Returns? && host.nodeTypesOf(n).items != []
    ensures var d := LoadPlugin(s, n, host).state;
      && s.nextId in d.pending
      && SceneOpened(d, s.nextId, later)
         == Step(RecordAndInsert(d.(pending := s.pending), n, host.nodeTypesOf(n).items, later), Done)
  {
    BusyLoadShape(s, n, host);
    var d := LoadPlugin(s, n, host).state;
    assert DropCallback(d, n) == Step(d.(pending := s.pending), Done);
  }

  lemma RecordAndInsertSameTrees(a: State, b: State, n: string, types: seq<string>, host: Host, id: nat)
    requires n in b.pluginData
    requires a.hierarchy == b.hierarchy && a.allNs == b.allNs
    requires a == b.(pluginData := b.pluginData[n := b.pluginData[n].(callbackId := Id(id))], nextId := a.nextId)
    ensures RecordAndInsert(a, n, types, host)
            == RecordAndInsert(b, n, types, host).(pluginData := RecordAndInsert(b, n, types, host).pluginData[n := RecordAndInsert(b, n, types, host).pluginData[n].(callbackId := Id(id))],
                                                  nextId := a.nextId)
  {
  }

  /** The deferred path, once its callback fires, gives the same state as the
      immediate path, except that the record keeps the spent callback id and
      the host has handed out one id more. */
  lemma DeferredMatchesImmediate(s: State, n: string, host: Host)
    requires ValidState(s) && Busy(host)
    requires host.nodeTypesOf(n).Returns? && host.nodeTypesOf(n).items != []
    ensures var idle := host.(readingFile := false, openingFile := false);
      var d := LoadPlugin(s, n, host).state;
      var im := LoadPlugin(s, n, idle);
      && s.nextId in d.pending
      && var f := SceneOpened(d, s.nextId, idle);
      && f.outcome == im.outcome == Done
      && f.state == im.state.(pluginData := im.state.pluginData[n := im.state.pluginData[n].(callbackId := Id(s.nextId))],
                              nextId := s.nextId + 1)
  {
    var idle := host.(readingFile := false, openingFile := false);
    var types := host.nodeTypesOf(n).items;
    var rec := CommandRecord(host.commandsOf(n));
    var c := LoadCommands(s, n, host);
    LoadCommandsIgnoresScene(s, n, host);
    BusyLoadShape(s, n, host);
    IdleLoadShape(s, n, idle);
    FireAfterBusyLoad(s, n, host, idle);
    var d := LoadPlugin(s, n, host).state;
    var t := c.(pluginData := c.pluginData[n := rec.(callbackId := NoneId)]);
    RecordAndInsertSameTrees(d.(pending := s.pending), t, n, types, idle, s.nextId);
  }

  lemma OverlayTwice<V>(m: map<string, V>, a: map<string, V>, b: map<string, V>)
    ensures m + a + b + a + b == m + a + b
  {
  }

  lemma OverlayOnce<V>(m: map<string, V>, a: map<string, V>)
    ensures m + a + a == m + a
  {
  }

  /** The state after a load that does not defer, in closed form, field by
      field. */
  lemma LoadIdleFields(x: State, n: string, host: Host)
    requires !Busy(host)
    ensures var r := LoadPlugin(x, n, host).state;
      var cmds := BoundCommands(n, host);
      var types := NodeTypes(n, host);
      && r.pluginData == x.pluginData[n := FinalRecord(n, host, x.nextId)]
      && r.wrapped == x.wrapped + Elems(cmds)
      && r.cmdList == x.cmdList + InfoMap(cmds, host)
      && r.moduleNs == x.moduleNs + FuncMap(cmds, host)
      && r.hierarchy == InsertTypes(x.hierarchy, types, host.inheritance)
      && r.allNs == (if host.allImported
                     then x.allNs + FuncMap(cmds, host) + ClassMap(TypeNames(types, host.inheritance, host.pyNodeName))
                     else x.allNs)
      && r.pending == x.pending && r.nextId == x.nextId
      && r.loadedCB == x.loadedCB && r.unloadedCB == x.unloadedCB && r.hooks == x.hooks
  {
    LoadReplacesRecord(x, n, host);
    LoadCommandsClosedForm(x, n, host);
    var c := LoadCommands(x, n, host);
    var types := NodeTypes(n, host);
    if types == [] {
      ClassMapEmpty(c.allNs);
      assert LoadPlugin(x, n, host).state == c;
    } else {
      IdleLoadShape(x, n, host);
      PublishTypesClosedForm(c.allNs, types, host.inheritance, host.pyNodeName);
    }
  }

  /** Loading the same plugin twice with the same answers from the host,
      while no scene is being read, leaves exactly the state one load leaves. */
  lemma LoadIdempotent(s: State, n: string, host: Host)
    requires !Busy(host)
    ensures LoadPlugin(LoadPlugin(s, n, host).state, n, host) == LoadPlugin(s, n, host)
  {
    var u := LoadPlugin(s, n, host).state;
    var cmds := BoundCommands(n, host);
    var types := NodeTypes(n, host);
    var names := TypeNames(types, host.inheritance, host.pyNodeName);
    LoadIdleFields(s, n, host);
    LoadIdleFields(u, n, host);
    LoadReplacesRecord(s, n, host);
    LoadReplacesRecord(u, n, host);
    InsertTypesIdempotent(s.hierarchy, types, host.inheritance);
    OverlayOnce(s.cmdList, InfoMap(cmds, host));
    OverlayOnce(s.moduleNs, FuncMap(cmds, host));
    OverlayTwice(s.allNs, FuncMap(cmds, host), ClassMap(names));
    var r := LoadPlugin(u, n, host).state;
    assert r.pluginData == u.pluginData;
    assert r.allNs == u.allNs;
    assert r.wrapped == u.wrapped;
  }

  // ----------------------------------------------------------------- unload

  /** The command loop of unload in closed form: exactly the recorded names
      leave the wrapped set and the module namespace. */
  lemma {:induction false} RemoveCommandsClosedForm(s: State, cmds: seq<string>)
    ensures RemoveCommands(s, cmds) == s.(wrapped := s.wrapped - Elems(cmds), moduleNs := s.moduleNs - Elems(cmds))
    decreases |cmds|
  {
    if cmds == [] {
      assert Elems(cmds) == {};
      assert s.wrapped - {} == s.wrapped;
      assert s.moduleNs - {} == s.moduleNs;
    } else {
      RemoveCommandsClosedForm(s.(wrapped := s.wrapped - {cmds[0]}, moduleNs := s.moduleNs - {cmds[0]}), cmds[1..]);
      ElemsCons(cmds);
      assert s.moduleNs - {cmds[0]} - Elems(cmds[1..]) == s.moduleNs - Elems(cmds);
    }
  }

  /** When no removal fails, every recorded node type leaves the hierarchy
      and nothing else does (in particular, no ancestor). */
  lemma {:induction false} RemoveNodesAll(s: State, nodes: seq<string>, fails: string -> bool)
    requires forall x :: x in nodes ==> !fails(x)
    ensures RemoveNodes(s, nodes, fails) == Step(s.(hierarchy := s.hierarchy - Elems(nodes)), Done)
    decreases |nodes|
  {
    if nodes == [] {
      assert Elems(nodes) == {};
      assert s.hierarchy - {} == s.hierarchy;
    } else {
      assert nodes[0] in nodes;
      RemoveNodesAll(s.(hierarchy := s.hierarchy - {nodes[0]}), nodes[1..], fails);
      ElemsCons(nodes);
      assert s.hierarchy - {nodes[0]} - Elems(nodes[1..]) == s.hierarchy - Elems(nodes);
    }
  }

  /** Node removal is not guarded: the first failing `removePyNode` escapes,
      the node types before it are gone and those after it stay. */
  lemma {:induction false} RemoveNodesStopsAtFailure(s: State, nodes: seq<string>, fails: string -> bool, k: nat)
    requires k < |nodes| && fails(nodes[k])
    requires forall j :: 0 <= j < k ==> !fails(nodes[j])
    ensures RemoveNodes(s, nodes, fails)
            == Step(s.(hierarchy := s.hierarchy - Elems(nodes[..k])), Raised(RemoveNodeError(nodes[k])))
    decreases |nodes|
  {
    if k == 0 {
      assert Elems(nodes[..0]) == {};
      assert s.hierarchy - {} == s.hierarchy;
    } else {
      assert !fails(nodes[0]);
      var s' := s.(hierarchy := s.hierarchy - {nodes[0]});
      forall j | 0 <= j < k - 1 ensures !fails(nodes[1..][j]) {
        assert nodes[1..][j] == nodes[j + 1];
      }
      RemoveNodesStopsAtFailure(s', nodes[1..], fails, k - 1);
      assert nodes[1..][..k - 1] == nodes[..k][1..];
      ElemsCons(nodes[..k]);
      assert s.hierarchy - {nodes[0]} - Elems(nodes[1..][..k - 1]) == s.hierarchy - Elems(nodes[..k]);
    }
  }

  /** Unloading a name that is not tracked (including the empty name, which
      load never tracks, and a payload that only carries the path) changes
      nothing. */
  lemma UnloadUntrackedIsNoOp(s: State, p: Payload, host: Host)
    requires UnloadedName(p).NoName? || (UnloadedName(p).Name? && UnloadedName(p).name !in s.pluginData)
    ensures Unloaded(s, p, host) == Step(s, Done)
  {
  }

  /** Unload has no empty-name check, and needs none: the invariant keeps the
      empty name out of `_pluginData`. */
  lemma UnloadEmptyNameIsNoOp(s: State, host: Host)
    requires ValidState(s)
    ensures Unloaded(s, Single(Some("")), host) == Step(s, Done)
  {
  }

  /** Unloading a tracked plugin pops its record and removes exactly its
      recorded commands from the wrapped set and the module; it leaves
      `pymel.all`, `factories.cmdlist` and the registered callbacks alone; then
      it removes exactly the recorded node types, stopping at a failure. */
  lemma UnloadTracked(s: State, n: string, host: Host)
    requires n in s.pluginData
    ensures var cmds := s.pluginData[n].commands.GetOr([]);
      var nodes := s.pluginData[n].dependNodes.GetOr([]);
      var u := Unloaded(s, Single(Some(n)), host);
      && u.state.pluginData == s.pluginData - {n}
      && u.state.wrapped == s.wrapped - Elems(cmds)
      && u.state.moduleNs == s.moduleNs - Elems(cmds)
      && u.state.allNs == s.allNs && u.state.cmdList == s.cmdList
      && u.state.pending == s.pending && u.state.nextId == s.nextId
      && ((forall x :: x in nodes ==> !host.removeFails(x))
          ==> u == Step(u.state.(hierarchy := s.hierarchy - Elems(nodes)), Done))
  {
    var cmds := s.pluginData[n].commands.GetOr([]);
    var nodes := s.pluginData[n].dependNodes.GetOr([]);
    var s1 := s.(pluginData := s.pluginData - {n});
    RemoveCommandsClosedForm(s1, cmds);
    if forall x :: x in nodes ==> !host.removeFails(x) {
      RemoveNodesAll(RemoveCommands(s1, cmds), nodes, host.removeFails);
    }
  }

  /** A load followed by an unload of the same plugin restores `_pluginData`,
      the wrapped set and the module namespace, provided the plugin's
      commands did not collide with names already there. `pymel.all` and
      `factories.cmdlist` are not restored. */
  lemma LoadUnloadRestoresCommands(s: State, n: string, host: Host)
    requires n != "" && n !in s.pluginData
    requires Elems(BoundCommands(n, host)) !! s.wrapped
    requires Elems(BoundCommands(n, host)) !! s.moduleNs.Keys
    ensures var u := Unloaded(LoadPlugin(s, n, host).state, Single(Some(n)), host).state;
      u.pluginData == s.pluginData && u.wrapped == s.wrapped && u.moduleNs == s.moduleNs
  {
    var cmds := BoundCommands(n, host);
    var l := LoadPlugin(s, n, host).state;
    LoadReplacesRecord(s, n, host);
    LoadCommandsClosedForm(s, n, host);
    LoadPluginCommandFrame(s, n, host);
    assert l.pluginData[n].commands.GetOr([]) == cmds;
    UnloadTracked(l, n, host);
    assert l.pluginData - {n} == s.pluginData;
    assert s.moduleNs + FuncMap(cmds, host) - Elems(cmds) == s.moduleNs;
  }

  /** Removing the added keys from a map that only grew gives the original. */
  lemma RemoveAdded(h: map<string, string>, g: map<string, string>, added: set<string>)
    requires h.Keys <= g.Keys && g.Keys <= h.Keys + added && added !! h.Keys
    requires forall k :: k in h ==> g[k] == h[k]
    ensures g - added == h
  {
  }

  /** The case of `LoadUnloadRestoresHierarchy` where the batch runs at once. */
  lemma IdleLoadUnloadRestoresHierarchy(s: State, n: string, host: Host)
    requires n != "" && !Busy(host)
    requires Elems(NodeTypes(n, host)) !! s.hierarchy.Keys
    requires ChainNodes(NodeTypes(n, host), host.inheritance) <= s.hierarchy.Keys + Elems(NodeTypes(n, host))
    requires forall x :: x in NodeTypes(n, host) ==> !host.removeFails(x)
    ensures Unloaded(LoadPlugin(s, n, host).state, Single(Some(n)), host).state.hierarchy == s.hierarchy
  {
    var types := NodeTypes(n, host);
    var l := LoadPlugin(s, n, host).state;
    LoadIdleFields(s, n, host);
    assert l.hierarchy == InsertTypes(s.hierarchy, types, host.inheritance);
    InsertTypesKeys(s.hierarchy, types, host.inheritance);
    assert n in l.pluginData && l.pluginData[n] == FinalRecord(n, host, s.nextId);
    var nodes := l.pluginData[n].dependNodes.GetOr([]);
    assert nodes == [] || nodes == types;
    UnloadTracked(l, n, host);
    var u := Unloaded(l, Single(Some(n)), host);
    assert u.state.hierarchy == l.hierarchy - Elems(nodes);
    if nodes == [] {
      assert types == [] || host.nodeTypesOf(n).Raises?;
      assert ChainNodes(types, host.inheritance) == {};
      assert Elems(nodes) == {};
    } else {
      RemoveAdded(s.hierarchy, l.hierarchy, Elems(types));
    }
  }

  /** The case of `LoadUnloadRestoresHierarchy` where the batch is deferred:
      nothing was inserted and nothing is recorded to remove. */
  lemma BusyLoadUnloadRestoresHierarchy(s: State, n: string, host: Host)
    requires n != "" && Busy(host)
    ensures Unloaded(LoadPlugin(s, n, host).state, Single(Some(n)), host).state.hierarchy == s.hierarchy
  {
    var l := LoadPlugin(s, n, host).state;
    LoadReplacesRecord(s, n, host);
    assert l.hierarchy == s.hierarchy;
    assert l.pluginData[n].dependNodes == None;
    UnloadTracked(l, n, host);
    RemoveNodesAll(RemoveCommands(l.(pluginData := l.pluginData - {n}), l.pluginData[n].commands.GetOr([])),
                   [], host.removeFails);
    assert Elems([]) == {};
  }

  /** When the plug-in's node types were absent before, its chains added no
      other node type, and removal does not fail, load then unload restores
      the hierarchy, whether the batch ran at once or was deferred. Ancestors
      a chain added stay behind otherwise. */
  lemma LoadUnloadRestoresHierarchy(s: State, n: string, host: Host)
    requires n != ""
    requires Elems(NodeTypes(n, host)) !! s.hierarchy.Keys
    requires ChainNodes(NodeTypes(n, host), host.inheritance) <= s.hierarchy.Keys + Elems(NodeTypes(n, host))
    requires forall x :: x in NodeTypes(n, host) ==> !host.removeFails(x)
    ensures Unloaded(LoadPlugin(s, n, host).state, Single(Some(n)), host).state.hierarchy == s.hierarchy
  {
    if Busy(host) {
      BusyLoadUnloadRestoresHierarchy(s, n, host);
    } else {
      IdleLoadUnloadRestoresHierarchy(s, n, host);
    }
  }

  // ---------------------------------------------------- deferred callbacks

  /** Unload does not remove a pending "SceneOpened" callback. When it then
      fires, the `KeyError` of the callback-id lookup is caught, but the
      `'dependNodes'` write raises `KeyError` again, uncaught, and the
      callback stays registered for the next scene. */
  lemma UnloadLeavesDeferredCallback(s: State, n: string, host: Host, later: Host)
    requires ValidState(s) && n != "" && Busy(host)
    requires host.nodeTypesOf(n).Returns? && host.nodeTypesOf(n).items != []
    ensures var d := LoadPlugin(s, n, host).state;
      var u := Unloaded(d, Single(Some(n)), host);
      && u.outcome == Done
      && s.nextId in u.state.pending
      && SceneOpened(u.state, s.nextId, later) == Step(u.state, Raised(KeyError(n)))
  {
    DeferredLoadInsertsNothing(s, n, host);
    var d := LoadPlugin(s, n, host).state;
    UnloadTracked(d, n, host);
    assert d.pluginData[n].dependNodes.GetOr([]) == [];
  }

  /** Loading a plugin again while its first deferred callback is pending
      leaves two callbacks. The first one to fire removes the second one's
      registration (the record names the newer id), runs the batch, and stays
      registered itself; when it fires again, the id it reads is no longer
      registered and the removal raises. */
  lemma ReloadWhilePendingOrphansCallback(s: State, n: string, host: Host, later: Host)
    requires ValidState(s) && n != "" && Busy(host)
    requires host.nodeTypesOf(n).Returns? && host.nodeTypesOf(n).items != []
    ensures var a := LoadPlugin(s, n, host).state;
      var b := LoadPlugin(a, n, host).state;
      && s.nextId in b.pending && s.nextId + 1 in b.pending
      && var f := SceneOpened(b, s.nextId, later);
      && f.outcome == Done
      && s.nextId in f.state.pending && s.nextId + 1 !in f.state.pending
      && SceneOpened(f.state, s.nextId, later) == Step(f.state, Raised(StaleCallback(s.nextId + 1)))
  {
    var a := LoadPlugin(s, n, host).state;
    DeferredLoadInsertsNothing(s, n, host);
    LoadPluginKeepsValid(s, n, host);
    DeferredLoadInsertsNothing(a, n, host);
    var b := LoadPlugin(a, n, host).state;
    assert b.pluginData[n].callbackId == Id(s.nextId + 1);
    assert DropCallback(b, n) == Step(b.(pending := b.pending - {s.nextId + 1}), Done);
  }

  // ------------------------------------------------------ installation

  /** Load never drops a tracked name, and tracks the name it loads. */
  lemma LoadPluginTracks(s: State, n: string, host: Host)
    ensures LoadPlugin(s, n, host).state.pluginData.Keys == s.pluginData.Keys + {n}
    ensures LoadPlugin(s, n, host).state.hooks == s.hooks
    ensures LoadPlugin(s, n, host).state.loadedCB == s.loadedCB
    ensures LoadPlugin(s, n, host).state.unloadedCB == s.unloadedCB
  {
    LoadReplacesRecord(s, n, host);
  }

  /** The startup replay leaves the registrations alone and, unless a load
      raised, tracks every non-empty pre-loaded plugin name. */
  lemma {:induction false} ReplayTracksAll(s: State, plugins: seq<string>, host: Host)
    ensures var r := Replay(s, plugins, host);
      && r.state.hooks == s.hooks && r.state.loadedCB == s.loadedCB && r.state.unloadedCB == s.unloadedCB
      && s.pluginData.Keys <= r.state.pluginData.Keys
      && (r.outcome.Done? ==> forall p :: p in plugins && p != "" ==> p in r.state.pluginData)
    decreases |plugins|
  {
    if plugins != [] {
      var p0 := plugins[0];
      if p0 != "" {
        LoadPluginTracks(s, p0, host);
      }
      var st := Loaded(s, Single(Some(p0)), host);
      ReplayTracksAll(st.state, plugins[1..], host);
      if Replay(s, plugins, host).outcome.Done? {
        forall p | p in plugins && p != "" ensures p in Replay(s, plugins, host).state.pluginData {
          if p != p0 {
            assert p in plugins[1..];
          }
        }
      }
    }
  }

  /** Installation registers the plugin-loaded callback exactly once and the
      plugin-unloaded callback at most once (only from 2009 on), however
      often it runs; a second call registers nothing new. */
  lemma InstallRegistersOnce(s: State, host: Host)
    requires ValidState(s)
    ensures var r := Install(s, host).state;
      && r.loadedCB && r.unloadedCB
      && LoadHooks(r.hooks) == 1
      && (!s.unloadedCB ==> UnloadHooks(r.hooks) == if host.atLeast2009 then 1 else 0)
      && Install(r, host).state.hooks == r.hooks
  {
    RegisterHooksKeepsValid(s, host);
    var s1 := RegisterHooks(s, host);
    ReplayTracksAll(s1, host.loadedPlugins, host);
    var r := Install(s, host).state;
    ReplayTracksAll(RegisterHooks(r, host), host.loadedPlugins, host);
    if !s.unloadedCB {
      var s0 := if s.loadedCB then s
                else s.(loadedCB := true, hooks := s.hooks + [if host.atLeast2009 then AfterLoadApi else AfterLoadMel]);
      if !s.loadedCB {
        HookCountsAppend(s.hooks, if host.atLeast2009 then AfterLoadApi else AfterLoadMel);
      }
      if host.atLeast2009 {
        HookCountsAppend(s0.hooks, AfterUnloadApi);
      } else {
        assert s0.hooks + [] == s0.hooks;
      }
    }
  }

  // ---------------------------------------------------------------- payload

  /** A bare name and the two-element array of each direction, with the name
      where that direction reads it, have identical effects. */
  lemma PayloadShapesAgree(s: State, n: string, path: string, host: Host)
    ensures Loaded(s, Single(Some(n)), host) == Loaded(s, WithClientData([path, n]), host)
    ensures Unloaded(s, Single(Some(n)), host) == Unloaded(s, WithClientData([n, path]), host)
    ensures Unloaded(s, Single(Some(n)), host) == Unloaded(s, WithClientData([n]), host)
  {
  }

  /** Load returns at once, changing nothing, for a missing or empty name;
      an argument array too short for the load direction raises `IndexError`
      before anything changes. */
  lemma LoadIgnoresEmptyName(s: State, p: Payload, host: Host)
    ensures LoadedName(p).NoName? || LoadedName(p) == Name("") ==> Loaded(s, p, host) == Step(s, Done)
    ensures LoadedName(p).BadPayload? ==> Loaded(s, p, host) == Step(s, Raised(IndexError))
  {
  }

  // -------------------------------------------------------- hierarchy shape

  /** The batch leaves no dangling parent link in the hierarchy. */
  lemma RunBatchKeepsClosed(s: State, name: string, types: seq<string>, host: Host)
    requires Closed(s.hierarchy)
    ensures Closed(RunBatch(s, name, types, host).state.hierarchy)
  {
    InsertTypesKeepsClosed(s.hierarchy, types, host.inheritance);
  }

  /** Neither a load nor a fired deferred callback leaves a dangling parent
      link in the hierarchy. */
  lemma LoadKeepsClosed(s: State, n: string, host: Host)
    requires Closed(s.hierarchy)
    ensures Closed(LoadPlugin(s, n, host).state.hierarchy)
  {
    var c := LoadCommands(s, n, host);
    if host.nodeTypesOf(n).Returns? && host.nodeTypesOf(n).items != [] && !Busy(host) {
      RunBatchKeepsClosed(c.(pluginData := c.pluginData[n := CommandRecord(host.commandsOf(n)).(callbackId := NoneId)]),
                          n, host.nodeTypesOf(n).items, host);
    }
  }

  lemma SceneOpenedKeepsClosed(s: State, id: nat, host: Host)
    requires Closed(s.hierarchy) && id in s.pending
    ensures Closed(SceneOpened(s, id, host).state.hierarchy)
  {
    RunBatchKeepsClosed(s, s.pending[id].plugin, s.pending[id].mayaTypes, host);
  }

  /** Unload removes node types with no leaf test: removing a recorded type
      that another type still names as its parent leaves that link dangling. */
  lemma RemoveNodesCanOrphan(s: State, a: string, b: string, fails: string -> bool)
    requires b in s.hierarchy && s.hierarchy[b] == a && a != b && a != "dependNode" && !fails(a)
    ensures !Closed(RemoveNodes(s, [a], fails).state.hierarchy)
  {
    RemoveNodesAll(s, [a], fails);
    assert Elems([a]) == {a};
    var r := RemoveNodes(s, [a], fails).state.hierarchy;
    assert b in r && r[b] == a && a !in r;
  }
}
