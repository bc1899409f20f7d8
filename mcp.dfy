/** The tool registry of `src/mcp.py`: a table from tool name to callable,
    description and optional input model. A callable is modelled by what
    it returns or raises for given keyword arguments; an input model by
    the validated fields it produces or the validation error it raises. */
module Mcp {
  import opened Wrappers
  import opened Json

  /** The keyword arguments of a call. */
  type Kwargs = map<string, Json>

  /** One registered tool. */
  datatype ToolEntry = ToolEntry(func: Kwargs -> Result<Json, string>, description: string,
                                 inputModel: Option<Kwargs -> Result<Kwargs, string>>)

  /** `call(name, **kwargs)` over a tool table: an unknown name raises
      ValueError, whose message (what the `Err` carries here) names the
      tool; with an input model the arguments are validated first and
      only the validated fields reach the callable; without one they pass
      through unchanged. The callable's result or exception propagates. */
  function Dispatch(tools: map<string, ToolEntry>, name: string, kwargs: Kwargs): Result<Json, string> {
    if name !in tools then Err("Tool '" + name + "' not registered")
    else
      var entry := tools[name];
      match entry.inputModel
      case None => entry.func(kwargs)
      case Some(model) =>
        match model(kwargs)
        case Err(e) => Err(e)
        case Ok(validated) => entry.func(validated)
  }

  /** Calling a name that was never registered raises the ValueError
      "Tool '<name>' not registered", whatever the arguments. */
  lemma UnknownToolRaises(tools: map<string, ToolEntry>, name: string, kwargs: Kwargs)
    requires name !in tools
    ensures Dispatch(tools, name, kwargs) == Err("Tool '" + name + "' not registered")
  {
  }

  /** A failed validation is the call's outcome whatever the callable
      would do: the callable is never invoked. */
  lemma FailedValidationSkipsTool(tools: map<string, ToolEntry>, name: string, kwargs: Kwargs,
                                  other: Kwargs -> Result<Json, string>)
    requires name in tools && tools[name].inputModel.Some?
    requires tools[name].inputModel.value(kwargs).Err?
    ensures Dispatch(tools, name, kwargs) == Err(tools[name].inputModel.value(kwargs).error)
    ensures Dispatch(tools[name := tools[name].(func := other)], name, kwargs) == Dispatch(tools, name, kwargs)
  {
  }

  /** A successful validation hands the callable the validated fields, and
      no model hands it the arguments as given. */
  lemma ToolSeesArguments(tools: map<string, ToolEntry>, name: string, kwargs: Kwargs)
    requires name in tools
    ensures tools[name].inputModel.None? ==> Dispatch(tools, name, kwargs) == tools[name].func(kwargs)
    ensures tools[name].inputModel.Some? && tools[name].inputModel.value(kwargs).Ok? ==>
      Dispatch(tools, name, kwargs) == tools[name].func(tools[name].inputModel.value(kwargs).value)
  {
  }

  /** The call on one name depends on that name's entry alone. */
  lemma DispatchLocal(tools: map<string, ToolEntry>, name: string, other: string, entry: ToolEntry, kwargs: Kwargs)
    requires other != name
    ensures Dispatch(tools[other := entry], name, kwargs) == Dispatch(tools, name, kwargs)
  {
  }

  class McpRegistry {
    var tools: map<string, ToolEntry>

    constructor ()
      ensures tools == map[]
    {
      tools := map[];
    }

    /** `register`: a fresh name gets its entry; a taken one raises the
        ValueError "Tool <name> already registered" (the `Err` carries the
        message) and the table stays as it was. Nothing registered is
        ever removed or replaced. */
    method Register(name: string, func: Kwargs -> Result<Json, string>, description: string,
                    inputModel: Option<Kwargs -> Result<Kwargs, string>>)
      returns (r: Result<(), string>)
      modifies this
      ensures name in old(tools) ==> r == Err("Tool " + name + " already registered") && tools == old(tools)
      ensures name !in old(tools) ==> r == Ok(()) && tools == old(tools)[name := ToolEntry(func, description, inputModel)]
      ensures forall n | n in old(tools) :: n in tools && tools[n] == old(tools)[n]
    {
      if name in tools {
        return Err("Tool " + name + " already registered");
      }
      tools := tools[name := ToolEntry(func, description, inputModel)];
      return Ok(());
    }

    /** `call`: the table is only read. */
    method Call(name: string, kwargs: Kwargs) returns (r: Result<Json, string>)
      ensures r == Dispatch(tools, name, kwargs)
      ensures name !in tools ==> r.Err?
    {
      r := Dispatch(tools, name, kwargs);
    }
  }
}
