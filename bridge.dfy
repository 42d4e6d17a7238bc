/** Normalisation of the argument tuple the host passes to the plugin
    callbacks (`_pluginLoaded(*args)` and `_pluginUnloaded(*args)`). */
module EventBridge {
  import opened PluginTypes

  /** The shapes of `args`: none at all, one argument (a bare name or None),
      or a string array followed by client data (the 2009 API callback). */
  datatype Payload =
    | NoArgs
    | Single(arg: Option<string>)
    | WithClientData(strings: seq<string>)

  /** The plugin name a handler extracts, or the `IndexError` of reading an
      element that is not there. */
  datatype PluginName = Name(name: string) | NoName | BadPayload

  /** Load direction: the array is `[pathToPlugin, pluginName]`. */
  function LoadedName(p: Payload): (r: PluginName)
    ensures r.Name? <==> (p.Single? && p.arg.Some?) || (p.WithClientData? && |p.strings| >= 2)
    ensures r.Name? && p.WithClientData? ==> r.name == p.strings[1]
    ensures p.Single? && p.arg.Some? ==> r == Name(p.arg.value)
    ensures r.NoName? <==> p == Single(None)
  {
    match p
    case NoArgs => BadPayload
    case Single(a) => if a.Some? then Name(a.value) else NoName
    case WithClientData(ss) => if |ss| > 1 then Name(ss[1]) else BadPayload
  }

  /** Unload direction: the array is `[pluginName, pathToPlugin]` or
      `[pathToPlugin]`; element 0 is taken either way. */
  function UnloadedName(p: Payload): (r: PluginName)
    ensures r.Name? <==> (p.Single? && p.arg.Some?) || (p.WithClientData? && |p.strings| >= 1)
    ensures r.Name? && p.WithClientData? ==> r.name == p.strings[0]
    ensures p.Single? && p.arg.Some? ==> r == Name(p.arg.value)
    ensures r.NoName? <==> p == Single(None)
  {
    match p
    case NoArgs => BadPayload
    case Single(a) => if a.Some? then Name(a.value) else NoName
    case WithClientData(ss) => if |ss| > 0 then Name(ss[0]) else BadPayload
  }

  /** The two directions read different ends of the same two-element array,
      and agree on a bare name. */
  lemma DirectionsDiffer(a: string, b: string)
    ensures LoadedName(WithClientData([a, b])) == Name(b)
    ensures UnloadedName(WithClientData([a, b])) == Name(a)
    ensures LoadedName(Single(Some(a))) == UnloadedName(Single(Some(a))) == Name(a)
  {
  }
}
