/** Data model of pymel.core's plugin bookkeeping: the values the load and
    unload handlers read from the host and the state they keep. */
module PluginTypes {

  datatype Option<+T> = None | Some(value: T) {
    function GetOr(default: T): T {
      if Some? then value else default
    }
  }

  /** Outcome of a host introspection query: it raised, or it returned a list
      (an empty list also stands for a `None` answer; both are falsy). */
  datatype Query = Raises | Returns(items: seq<string>)

  /** An opaque callable produced by the command factory. */
  datatype Callable = Callable(tag: nat)

  /** What `factories.getCmdInfoBasic` records for a command. */
  datatype CmdInfo = CmdInfo(tag: nat)

  /** A value bound in a module namespace: a command function or a node class. */
  datatype Binding = CommandFunc(fn: Callable) | NodeClass(className: string)

  /** The `'callbackId'` entry of a plugin record: absent, `None`, or the id
      of a registered "SceneOpened" callback. */
  datatype CallbackSlot = Unset | NoneId | Id(id: nat)

  /** A `_pluginData` record: the optional `'commands'`, `'dependNodes'` and
      `'callbackId'` entries. */
  datatype Record = Record(commands: Option<seq<string>>,
                           dependNodes: Option<seq<string>>,
                           callbackId: CallbackSlot)

  const EmptyRecord: Record := Record(None, None, Unset)

  /** A registered one-shot "SceneOpened" callback: the closure of
      `addPluginPyNodes` captures the plugin name and its node types. */
  datatype Deferred = Deferred(plugin: string, mayaTypes: seq<string>)

  /** Host-side registrations made by `_installCallbacks`. */
  datatype Hook = AfterLoadApi | AfterLoadMel | AfterUnloadApi

  /** Exceptions that escape a handler. */
  datatype Error =
    | IndexError                   // the payload has no element at the index read
    | KeyError(key: string)        // `_pluginData[name]` on a name no longer tracked
    | QueryError(plugin: string)   // the node-type query raised
    | StaleCallback(id: nat)       // removing a callback id that is no longer registered
    | RemoveNodeError(node: string)  // `removePyNode` raised

  datatype Outcome = Done | Raised(error: Error)

  /** Everything the handlers ask the host and the factories at call time. */
  datatype Host = Host(
    commandsOf: string -> Query,                   // pluginInfo(name, query=1, command=1)
    nodeTypesOf: string -> Query,                  // pluginInfo(name, query=1, dependNode=1)
    inheritance: string -> Option<seq<string>>,    // getInheritance; None when not iterable
    functionFactory: string -> Option<Callable>,   // None when the factory returns nothing
    cmdInfo: string -> CmdInfo,                    // getCmdInfoBasic
    pyNodeName: string -> string,                  // the class name addPyNode returns
    removeFails: string -> bool,                   // removePyNode raises for this node type
    readingFile: bool,                             // MFileIO.isReadingFile()
    openingFile: bool,                             // MFileIO.isOpeningFile()
    atLeast2008: bool,                             // _version.CURRENT >= v2008
    atLeast2009: bool,                             // _version.CURRENT >= v2009
    allImported: bool,                             // 'pymel.all' in sys.modules
    loadedPlugins: seq<string>)                    // pluginInfo(q=1, listPlugins=1)

  /** The host is in the middle of reading or opening a scene; isOpeningFile
      is only asked from version 2008 on. */
  predicate Busy(host: Host) {
    host.readingFile || (host.atLeast2008 && host.openingFile)
  }

  /** The process-wide state the handlers mutate. */
  datatype State = State(
    pluginData: map<string, Record>,     // _pluginData
    moduleNs: map<string, Binding>,      // pymel.core's namespace
    allNs: map<string, Binding>,         // pymel.all's namespace
    hierarchy: map<string, string>,      // node type -> parent node type
    wrapped: set<string>,                // pmcmds wrapped-command set
    cmdList: map<string, CmdInfo>,       // factories.cmdlist
    pending: map<nat, Deferred>,         // registered "SceneOpened" callbacks by id
    nextId: nat,                         // next id the host hands out
    loadedCB: bool,                      // _pluginLoadedCB is set
    unloadedCB: bool,                    // _pluginUnloadedCB is set
    hooks: seq<Hook>)                    // host callbacks registered so far

  function Elems(s: seq<string>): set<string> {
    set x | x in s
  }

  /** Number of plugin-loaded registrations. */
  function LoadHooks(hs: seq<Hook>): nat {
    if hs == [] then 0
    else LoadHooks(hs[..|hs| - 1]) + (if hs[|hs| - 1] == AfterUnloadApi then 0 else 1)
  }

  /** Number of plugin-unloaded registrations. */
  function UnloadHooks(hs: seq<Hook>): nat {
    if hs == [] then 0
    else UnloadHooks(hs[..|hs| - 1]) + (if hs[|hs| - 1] == AfterUnloadApi then 1 else 0)
  }

  /** The invariant every handler keeps: the empty name is never tracked,
      callback ids in use are below the next fresh one, and each direction's
      host callback is registered at most once, exactly when its flag is set
      (the unloaded flag is set without a registration before 2009). */
  predicate ValidState(s: State) {
    && "" !in s.pluginData
    && (forall i :: i in s.pending ==> i < s.nextId)
    && LoadHooks(s.hooks) == (if s.loadedCB then 1 else 0)
    && UnloadHooks(s.hooks) <= (if s.unloadedCB then 1 else 0)
  }
}
