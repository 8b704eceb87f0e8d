/** The tools' shared result record and error formatter. `data` may be any
    Python value; its `str` rendering is a parameter. Python's `None` is
    `None` of `Option`. */
module Base {
  import opened PyStr

  /** `ToolResult(success, data, error)`: the fields are stored as given. */
  datatype ToolResult<D> = ToolResult(success: bool, data: Option<D>, error: Option<string>)

  /** A value of the dictionary `to_dict` returns. */
  datatype Value<D> = Flag(b: bool) | Data(d: Option<D>) | Message(m: Option<string>)

  /** `to_dict`: exactly the keys "success", "data" and "error". */
  function ToDict<D>(r: ToolResult<D>): (m: map<string, Value<D>>)
    ensures m.Keys == {"success", "data", "error"}
  {
    map["success" := Flag(r.success), "data" := Data(r.data), "error" := Message(r.error)]
  }

  /** Reads a result back from a dictionary of the shape `to_dict` produces. */
  function FromDict<D>(m: map<string, Value<D>>): Option<ToolResult<D>> {
    if "success" in m && m["success"].Flag? && "data" in m && m["data"].Data?
       && "error" in m && m["error"].Message?
    then Some(ToolResult(m["success"].b, m["data"].d, m["error"].m))
    else None
  }

  /** Nothing is lost by `to_dict`. */
  lemma {:induction false} DictRoundTrip<D>(r: ToolResult<D>)
    ensures FromDict(ToDict(r)) == Some(r)
  {
    var m := ToDict(r);
    assert m["success"] == Flag(r.success);
    assert m["data"] == Data(r.data);
    assert m["error"] == Message(r.error);
  }

  /** `__str__`: `str(data)` or "Success" for a success, "Error: " and the
      error (`None` prints as "None") for a failure. */
  function Render<D>(r: ToolResult<D>, show: D -> string): string {
    if r.success then (if r.data.Some? then show(r.data.value) else "Success")
    else "Error: " + (if r.error.Some? then r.error.value else "None")
  }

  /** A success renders as its data, or "Success" without data, whatever the
      error; a failure always renders with the "Error: " prefix followed by
      its message. */
  lemma {:induction false} RenderCases<D>(r: ToolResult<D>, show: D -> string, e: Option<string>)
    ensures r.success && r.data.Some? ==> Render(r, show) == show(r.data.value)
    ensures r.success && r.data.None? ==> Render(r, show) == "Success"
    ensures !r.success && r.error.Some? ==> Render(r, show)[|"Error: "|..] == r.error.value
    ensures !r.success ==> StartsWith(Render(r, show), "Error: ")
    ensures r.success ==> Render(r, show) == Render(r.(error := e), show)
  {
  }

  /** `handle_tool_error`: "<type name>: <message>". */
  function HandleToolError(typeName: string, message: string): string {
    typeName + ": " + message
  }

  /** A type name holds no ':', so the first ": " ends it and both parts can be
      read back from the message. */
  lemma {:induction false} HandleToolErrorSplits(typeName: string, message: string)
    requires forall k :: 0 <= k < |typeName| ==> typeName[k] != ':'
    ensures var s := HandleToolError(typeName, message);
      Find(s, ": ") == Some(|typeName|) && s[..|typeName|] == typeName && s[|typeName| + 2..] == message
  {
    var s := HandleToolError(typeName, message);
    assert OccursAt(s, ": ", |typeName|);
    forall j: nat | j < |typeName| ensures !OccursAt(s, ": ", j) {
      NoOccurrenceAtMismatch(s, ": ", j);
    }
    var f := Find(s, ": ");
    assert f.Some? && f.value <= |typeName|;
  }
}
