/** The library's own request class, restricted to how it classifies a response and the
    error it raises; the connection itself is not modelled. */
module RuntimeRequest {
  import opened Wrappers
  import opened Strings
  import opened RubyValue

  datatype Response = Response(status: int, body: Value)

  /** `Wrappix::Error`: a message plus the optional body and status. */
  datatype Error = Error(message: Value, body: Value, status: Option<int>)

  /** `Error.new(message)`: body and status default to `nil`. */
  function NewError(message: Value): (err: Error)
    ensures err.message == message && err.body == Nil && err.status == None
  {
    Error(message, Nil, None)
  }

  /** `Error.new(message, body, status)`. */
  function NewErrorWith(message: Value, body: Value, status: int): (err: Error)
    ensures err.message == message && err.body == body && err.status == Some(status)
  {
    Error(message, body, Some(status))
  }

  const ErrorClassName: string := "Wrappix::Error"

  /** `Exception#message`: the constructor argument through `to_s`, except that a `nil`
      argument gives the class name. */
  function Message(err: Error): (text: string)
    ensures err.message == Nil ==> text == ErrorClassName
    ensures err.message.Str? ==> text == err.message.s
    ensures err.message != Nil ==> text == ToS(err.message)
  {
    if err.message == Nil then ErrorClassName else ToS(err.message)
  }

  datatype Outcome = Returns(response: Response) | Raises(error: Error)

  function StatusText(status: int): Value
  {
    Str("Error " + IntToString(status))
  }

  /** The message: for a hash body its `:message`, else its `:error`, else the status text;
      for any other body the status text. The connection parses JSON with symbol keys. */
  function ErrorMessage(r: Response): Value
  {
    match r.body
    case Hash(entries) => Or(Lookup(entries, Sym("message")), Or(Lookup(entries, Sym("error")), StatusText(r.status)))
    case _ => StatusText(r.status)
  }

  /** `handle_response`. */
  function HandleResponse(r: Response): (o: Outcome)
    ensures o.Returns? <==> 200 <= r.status <= 299
    ensures o.Returns? ==> o.response == r
    ensures o.Raises? ==> o.error.body == r.body && o.error.status == Some(r.status)
    ensures o.Raises? ==> Truthy(o.error.message)
  {
    if 200 <= r.status <= 299 then Returns(r)
    else Raises(NewErrorWith(ErrorMessage(r), r.body, r.status))
  }

  /** The message prefers a truthy `:message`, then a truthy `:error`, then the status
      text; a body that is not a hash always gives the status text. */
  lemma MessageChoice(r: Response)
    ensures !r.body.Hash? ==> ErrorMessage(r) == StatusText(r.status)
    ensures r.body.Hash? ==>
      var m, e := Lookup(r.body.entries, Sym("message")), Lookup(r.body.entries, Sym("error"));
      && (Truthy(m) ==> ErrorMessage(r) == m)
      && (!Truthy(m) && Truthy(e) ==> ErrorMessage(r) == e)
      && (!Truthy(m) && !Truthy(e) ==> ErrorMessage(r) == StatusText(r.status))
  {
  }

  /** A raised error's message is never `nil`, so its text is the chosen message through
      `to_s`; for a body that is not a hash it is `Error <status>`. */
  lemma RaisedMessageText(r: Response)
    requires !(200 <= r.status <= 299)
    ensures HandleResponse(r).Raises?
    ensures Message(HandleResponse(r).error) == ToS(ErrorMessage(r))
    ensures !r.body.Hash? ==> Message(HandleResponse(r).error) == "Error " + IntToString(r.status)
  {
  }

  /** A body whose keys are strings, as a connection without symbolised keys would give,
      never supplies the message: `{"message" => "x"}` with status 404 gives "Error 404". */
  lemma StringKeysAreNotRead()
    ensures ErrorMessage(Response(404, Hash([(Str("message"), Str("x"))]))) == Str("Error 404")
  {
    assert IntToString(404) == "404" by {
      assert NatToString(404) == NatToString(40) + [DigitChar(4)];
      assert NatToString(40) == NatToString(4) + [DigitChar(0)];
    }
  }
}
