/** The reply-extraction chain of `handleSubmit`: which value of the parsed
    body is looked at, and which of its fields becomes the assistant's text. */
module Reply {
  import opened Wrappers
  import opened Json

  /** The text a truthy field contributes: a string as it is, any other
      truthy value in its serialised form. */
  function AsText(v: Value): (r: string)
    ensures Truthy(v) ==> r != ""
  {
    if v.Str? then v.s else Stringify(v)
  }

  /** `t.saída || t.output || JSON.stringify(t)` for the chosen value `t`;
      reading a field of `null` throws. */
  function ReplyFrom(t: Value): (r: Result<string>)
    ensures r.Err? <==> t.Null?
    ensures r.Err? ==> r.message == NullAccessMessage("saída")
    ensures r.Ok? ==> r.value != ""
  {
    match Property(t, "saída")
    case Err(m) => Err(m)
    case Ok(saida) =>
      if saida.Some? && Truthy(saida.value) then Ok(AsText(saida.value))
      else
        match Property(t, "output")
        case Err(m) => Err(m)
        case Ok(output) =>
          if output.Some? && Truthy(output.value) then Ok(AsText(output.value))
          else Ok(Stringify(t))
  }

  /** The value the chain is applied to: the first element of a non-empty
      array, otherwise the body itself. */
  function Target(data: Value): (t: Value)
    ensures t == data || (data.Arr? && data.items != [] && t == data.items[0])
    ensures data.Arr? && data.items != [] ==> t < data
    ensures !data.Arr? ==> t == data
  {
    if data.Arr? && |data.items| > 0 then data.items[0] else data
  }

  /** The reply text of a parsed body. It throws exactly when the body is an
      array whose first element is `null`, and a reply it yields is never
      empty, so the empty-reply check after it never fires. */
  function Extract(data: Value): (r: Result<string>)
    ensures r.Err? <==> data.Arr? && |data.items| > 0 && data.items[0] == Null
    ensures r.Err? ==> r.message == NullAccessMessage("saída")
    ensures r.Ok? ==> r.value != ""
  {
    if data.Arr? && |data.items| > 0 then ReplyFrom(data.items[0])
    else if data.Arr? || data.Obj? then ReplyFrom(data)
    else Ok(Stringify(data))
  }

  // A reference reading of the chain: an ordered list of candidate texts,
  // of which the first non-empty one is the reply.

  /** The first non-empty text among `candidates`. */
  function FirstNonEmpty(candidates: seq<string>): (r: Option<string>)
    ensures r.None? <==> forall i | 0 <= i < |candidates| :: candidates[i] == ""
    ensures r.Some? ==> exists i | 0 <= i < |candidates| ::
                          candidates[i] == r.value && r.value != "" &&
                          forall j | 0 <= j < i :: candidates[j] == ""
  {
    if candidates == [] then None
    else if candidates[0] != "" then Some(candidates[0])
    else
      var r := FirstNonEmpty(candidates[1..]);
      if r.Some? then
        ghost var i :| 0 <= i < |candidates[1..]| && candidates[1..][i] == r.value &&
                       forall j | 0 <= j < i :: candidates[1..][j] == "";
        assert candidates[i + 1] == r.value;
        r
      else r
  }

  /** The field `key` of `t`, or nothing when `t` is not an object. */
  function Field(t: Value, key: string): Option<Value>
  {
    if t.Obj? then Lookup(t.members, key) else None
  }

  /** The text a field offers: empty when it is missing or falsy. */
  function FieldText(f: Option<Value>): string
  {
    if f.Some? && Truthy(f.value) then AsText(f.value) else ""
  }

  /** The candidates, in the order the chain tries them. */
  function Candidates(t: Value): seq<string>
  {
    [FieldText(Field(t, "saída")), FieldText(Field(t, "output")), Stringify(t)]
  }

  /** Extraction agrees with the reference reading: unless the first array
      element is `null`, the reply is the first non-empty candidate of the
      target. */
  lemma ExtractIsFirstNonEmptyCandidate(data: Value)
    ensures FirstNonEmpty(Candidates(Target(data))).Some?
    ensures Extract(data) ==
            if data.Arr? && |data.items| > 0 && data.items[0] == Null
            then Err(NullAccessMessage("saída"))
            else Ok(FirstNonEmpty(Candidates(Target(data))).value)
  {
    var t := Target(data);
    var c := Candidates(t);
    assert c[2] != "";
    assert c[1..][1..] == [c[2]];
    assert c[1..] == [c[1], c[2]];
  }

  /** Only the first element of an array body matters. */
  lemma OnlyFirstElementMatters(x: Value, rest1: seq<Value>, rest2: seq<Value>)
    ensures Extract(Arr([x] + rest1)) == Extract(Arr([x] + rest2))
  {
  }

  /** An array whose first element is an object replies as that object would. */
  lemma ArrayDelegatesToFirst(x: Value, rest: seq<Value>)
    requires x.Obj?
    ensures Extract(Arr([x] + rest)) == Extract(x)
  {
  }

  /** A non-empty `saída` string is the reply, whatever `output` holds. */
  lemma SaidaComesFirst(members: seq<(string, Value)>, s: string)
    requires Lookup(members, "saída") == Some(Str(s)) && s != ""
    ensures Extract(Obj(members)) == Ok(s)
  {
  }

  /** When `saída` is missing or falsy (the empty string included), a
      non-empty `output` string is the reply. */
  lemma OutputComesSecond(members: seq<(string, Value)>, o: string)
    requires FieldText(Lookup(members, "saída")) == ""
    requires Lookup(members, "output") == Some(Str(o)) && o != ""
    ensures Extract(Obj(members)) == Ok(o)
  {
  }

  /** When neither field of the chosen object or array offers text, it
      replies with its own serialisation, which is never empty: an empty
      object or empty array body is a reply, not a failure. */
  lemma SerialisedWhenNoField(t: Value)
    requires t.Obj? || t.Arr?
    requires FieldText(Field(t, "saída")) == "" && FieldText(Field(t, "output")) == ""
    ensures ReplyFrom(t) == Ok(Stringify(t))
    ensures t == Obj([]) ==> Extract(t) == Ok("{}")
    ensures t == Arr([]) ==> Extract(t) == Ok("[]")
  {
    EmptyContainers();
  }

  /** A primitive body replies with its serialisation. */
  lemma PrimitiveSerialised(data: Value)
    requires !data.Obj? && !data.Arr?
    ensures Extract(data) == Ok(Stringify(data))
    ensures data == Null ==> Extract(data) == Ok("null")
  {
  }
}
