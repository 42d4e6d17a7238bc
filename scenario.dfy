/** The `sample` plugin: one command `doThing` and one node type `sampleNode`
    whose ancestor chain is `["baseNode", "sampleNode"]`. */
module SampleScenario {
  import opened PluginTypes
  import opened EventBridge
  import opened TypeHierarchy
  import opened PluginRegistry
  import opened RegistryProperties

  /** What the host answers about `sample` while no scene is being read. */
  predicate SampleHost(host: Host) {
    && host.commandsOf("sample") == Returns(["doThing"])
    && host.nodeTypesOf("sample") == Returns(["sampleNode"])
    && host.inheritance("sampleNode") == Some(["baseNode", "sampleNode"])
    && host.functionFactory("doThing").Some?
    && !host.removeFails("sampleNode")
    && !Busy(host)
  }

  /** The batch over `sampleNode` alone. */
  lemma SampleChain(h: map<string, string>, inh: string -> Option<seq<string>>)
    requires inh("sampleNode") == Some(["baseNode", "sampleNode"])
    requires "sampleNode" !in h && "baseNode" !in h
    ensures var r := InsertTypes(h, ["sampleNode"], inh);
      && r.Keys == h.Keys + {"baseNode", "sampleNode"}
      && r["sampleNode"] == "baseNode" && r["baseNode"] == "dependNode"
  {
    var chain := ["baseNode", "sampleNode"];
    assert InsertTypes(h, ["sampleNode"], inh) == InsertChain(h, "dependNode", chain);
    InsertChainKeys(h, "dependNode", chain);
    assert Elems(chain) == {"baseNode", "sampleNode"};
    InsertChainParent(h, "dependNode", chain, 0);
    InsertChainParent(h, "dependNode", chain, 1);
  }

  /** Binding the factory's function for `doThing` over a namespace. */
  lemma SampleBinding(m: map<string, Binding>, host: Host)
    requires host.functionFactory("doThing").Some?
    ensures (m + FuncMap(["doThing"], host)).Keys == m.Keys + {"doThing"}
    ensures (m + FuncMap(["doThing"], host))["doThing"] == CommandFunc(host.functionFactory("doThing").value)
  {
    assert Elems(["doThing"]) == {"doThing"};
    assert FuncMap(["doThing"], host) == map["doThing" := CommandFunc(host.functionFactory("doThing").value)];
  }

  /** Loading `sample` binds `doThing` and inserts `sampleNode` under
      `baseNode`, itself under `dependNode`, and records both. */
  lemma LoadSample(s: State, host: Host)
    requires SampleHost(host)
    requires "sampleNode" !in s.hierarchy && "baseNode" !in s.hierarchy
    ensures var l := LoadPlugin(s, "sample", host);
      && l.outcome == Done
      && l.state.pluginData["sample"] == Record(Some(["doThing"]), Some(["sampleNode"]), NoneId)
      && l.state.moduleNs.Keys == s.moduleNs.Keys + {"doThing"}
      && l.state.moduleNs["doThing"] == CommandFunc(host.functionFactory("doThing").value)
      && l.state.hierarchy.Keys == s.hierarchy.Keys + {"baseNode", "sampleNode"}
      && l.state.hierarchy["sampleNode"] == "baseNode"
      && l.state.hierarchy["baseNode"] == "dependNode"
  {
    LoadIdleFields(s, "sample", host);
    LoadReplacesRecord(s, "sample", host);
    assert NodeTypes("sample", host) == ["sampleNode"];
    assert BoundCommands("sample", host) == ["doThing"];
    SampleBinding(s.moduleNs, host);
    SampleChain(s.hierarchy, host.inheritance);
  }

  /** Unloading `sample` after that removes `doThing` and `sampleNode` and
      nothing else from the hierarchy. */
  lemma UnloadSample(l: State, host: Host)
    requires SampleHost(host)
    requires "sample" in l.pluginData
    requires l.pluginData["sample"] == Record(Some(["doThing"]), Some(["sampleNode"]), NoneId)
    ensures var u := Unloaded(l, Single(Some("sample")), host);
      && u.outcome == Done
      && "sample" !in u.state.pluginData
      && "doThing" !in u.state.moduleNs
      && u.state.hierarchy == l.hierarchy - {"sampleNode"}
  {
    UnloadTracked(l, "sample", host);
    assert Elems(["doThing"]) == {"doThing"};
    assert Elems(["sampleNode"]) == {"sampleNode"};
  }

  /** The round trip: after load and unload, `doThing` and `sampleNode` are
      gone and the ancestor `baseNode` stays, still under `dependNode`. */
  lemma LoadThenUnloadSample(s: State, host: Host)
    requires SampleHost(host)
    requires "sampleNode" !in s.hierarchy && "baseNode" !in s.hierarchy
    ensures var l := LoadPlugin(s, "sample", host).state;
      var u := Unloaded(l, Single(Some("sample")), host);
      && u.outcome == Done
      && "doThing" !in u.state.moduleNs
      && u.state.hierarchy.Keys == s.hierarchy.Keys + {"baseNode"}
      && u.state.hierarchy["baseNode"] == "dependNode"
  {
    LoadSample(s, host);
    var l := LoadPlugin(s, "sample", host).state;
    UnloadSample(l, host);
    var h := Unloaded(l, Single(Some("sample")), host).state.hierarchy;
    assert h == l.hierarchy - {"sampleNode"};
    assert h.Keys == l.hierarchy.Keys - {"sampleNode"};
    assert h["baseNode"] == l.hierarchy["baseNode"];
  }

  /** When `baseNode` is already in the hierarchy (shared with other node
      types), loading `sample` puts `sampleNode` under it, and unloading
      `sample` gives back exactly the hierarchy from before. */
  lemma SharedBaseSurvivesUnload(s: State, host: Host)
    requires SampleHost(host)
    requires "baseNode" in s.hierarchy && "sampleNode" !in s.hierarchy
    ensures var l := LoadPlugin(s, "sample", host).state;
      var u := Unloaded(l, Single(Some("sample")), host);
      && l.hierarchy == s.hierarchy["sampleNode" := "baseNode"]
      && u.outcome == Done
      && u.state.hierarchy == s.hierarchy
  {
    var chain := ["baseNode", "sampleNode"];
    LoadIdleFields(s, "sample", host);
    assert NodeTypes("sample", host) == ["sampleNode"];
    assert InsertTypes(s.hierarchy, ["sampleNode"], host.inheritance)
           == InsertChain(s.hierarchy, "dependNode", chain);
    assert InsertChain(s.hierarchy, "dependNode", chain) == s.hierarchy["sampleNode" := "baseNode"];
    assert ChainNodes(["sampleNode"], host.inheritance) == {"baseNode", "sampleNode"} by {
      assert Elems(chain) == {"baseNode", "sampleNode"};
    }
    assert Elems(["sampleNode"]) == {"sampleNode"};
    LoadUnloadRestoresHierarchy(s, "sample", host);
    LoadReplacesRecord(s, "sample", host);
    var l := LoadPlugin(s, "sample", host).state;
    assert l.pluginData["sample"].dependNodes == Some(["sampleNode"]);
    UnloadTracked(l, "sample", host);
  }
}
