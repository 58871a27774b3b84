/// i2i_src/backend/intent.py: picks the manifest row for a prompt out of
/// whichever response shape the database client returns, falling back to
/// the echo demo manifest. The database call itself is an input: the
/// response is given, not fetched.
module Intent {
  import opened Py
  import opened Values

  /** One element of an old-style tuple response: a nested tuple, or
      anything else. */
  datatype Part = Tup(elems: seq<Value>) | Other(v: Value)

  /** The response shapes: an object with a `data` attribute (newer
      clients), a tuple (older clients), or anything else. */
  datatype Response = WithData(data: Value) | Tuple(parts: seq<Part>) | Unknown

  /** The manifest used when nothing matches. */
  const Fallback: Dict := map[
    "task" := Str("echo_fields"),
    "required_fields" := List([]),
    "processor_chain_id" := Str("debug_echo_chain"),
    "output_type" := Str("text"),
    "metadata" := Dict(map[])]

  /** `rows[0]` */
  function First(rows: Value): (r: Result<Value>)
    requires Truthy(rows)
    ensures rows.List? ==> r == Ok(rows.items[0])
  {
    match rows
    case List(items) => Ok(items[0])
    case Str(s) => Ok(Str([s[0]]))
    case Dict(_) => Err(KeyError("0"))
    case _ => Err(TypeError("'" + TypeName(rows) + "' object is not subscriptable"))
  }

  /** `rows[0] if rows else None` */
  function FirstOrNone(rows: Value): (r: Result<Value>)
    ensures !Truthy(rows) ==> r == Ok(Null)
    ensures rows.List? && rows.items != [] ==> r == Ok(rows.items[0])
  {
    if Truthy(rows) then First(rows) else Ok(Null)
  }

  /** `_first_row(res)` (`None` is `Null`). */
  function FirstRow(res: Response): (r: Result<Value>)
    ensures res.WithData? ==> r == FirstOrNone(res.data)
    ensures res.Unknown? ==> r == Ok(Null)
    ensures res.Tuple? && (res.parts == [] || !res.parts[0].Tup?) ==> r == Ok(Null)
    ensures res.Tuple? && res.parts != [] && res.parts[0].Tup? && |res.parts[0].elems| >= 2 ==>
      r == FirstOrNone(res.parts[0].elems[1])
    ensures res.Tuple? && res.parts != [] && res.parts[0].Tup? && |res.parts[0].elems| < 2 ==>
      r == Err(IndexError("tuple index out of range"))
  {
    match res
    case WithData(rows) => FirstOrNone(rows)
    case Tuple(parts) =>
      if parts != [] && parts[0].Tup? then
        if |parts[0].elems| < 2 then Err(IndexError("tuple index out of range"))
        else FirstOrNone(parts[0].elems[1])
      else Ok(Null)
    case Unknown => Ok(Null)
  }

  /** `detect_intent(text)` given the database's response: the first row
      when it is truthy, else the fallback manifest. */
  function DetectIntent(res: Response): (r: Result<Value>)
    ensures r.Ok? <==> FirstRow(res).Ok?
    ensures r.Ok? && Truthy(FirstRow(res).value) ==> r.value == FirstRow(res).value
    ensures r.Ok? && !Truthy(FirstRow(res).value) ==> r.value == Dict(Fallback)
  {
    var row :- FirstRow(res);
    Ok(Or(row, Dict(Fallback)))
  }

  /** `detect_intent` never returns `None` or an empty manifest. */
  lemma IntentNeverFalsy(res: Response)
    requires DetectIntent(res).Ok?
    ensures Truthy(DetectIntent(res).value)
  {
    assert "task" in Fallback;
  }

  /** The fallback has no required fields and routes to the echo chain. */
  lemma FallbackShape()
    ensures Get(Fallback, "required_fields", Null) == List([])
    ensures Get(Fallback, "processor_chain_id", Null) == Str("debug_echo_chain")
    ensures Get(Fallback, "metadata", Null) == Dict(map[])
  {
  }

  /** Both response styles carrying the same row list give the same
      manifest. */
  lemma ShapesAgree(rows: Value, count: Value)
    ensures DetectIntent(WithData(rows)) == DetectIntent(Tuple([Tup([Str("data"), rows]), Tup([Str("count"), count])]))
  {
  }
}
