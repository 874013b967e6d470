/**
 * The two controller decorators of vehicle/exceptions/exception_handler.py:
 * `http_exception_handler` turns an error into a response record, and
 * `event_exception_handlers` swallows every error.
 */
module ExceptionHandler {
  import opened Wrappers
  import opened Fields
  import opened Exceptions
  import opened OrmExceptions

  /** A value of the JSON body: a text, or pydantic's list of field errors. */
  datatype BodyValue = Text(text: string) | Details(errors: seq<FieldError>)

  /** `{'statusCode': ..., 'body': json.dumps({...})}`, the body as its key/value pairs in order. */
  datatype Response = Response(statusCode: int, body: seq<(string, BodyValue)>)

  /** What the wrapper returns: the wrapped call's own value, or an error response. */
  datatype Handled<T> = Returned(value: T) | Responded(response: Response)

  /**
   * `str(KeyError(key))`, which is `repr(key)`: the key in single quotes,
   * or in double quotes when it holds a single quote and no double quote;
   * a backslash, the chosen quote, newline, carriage return and tab are
   * escaped.
   */
  function KeyErrorStr(key: string): (r: string)
    ensures |r| >= |key| + 2
    ensures r[0] == r[|r| - 1] == QuoteFor(key)
  {
    [QuoteFor(key)] + Escaped(key, QuoteFor(key)) + [QuoteFor(key)]
  }

  /** The quote `repr` of a string chooses. */
  function QuoteFor(s: string): (q: char)
    ensures q == '"' <==> '\'' in s && '"' !in s
  {
    if '\'' in s && '"' !in s then '"' else '\''
  }

  /** A character as it appears inside a `repr` quoted with `q`. */
  function EscapedChar(c: char, q: char): string {
    if c == '\\' then "\\\\"
    else if c == q then ['\\', q]
    else if c == '\n' then "\\n"
    else if c == '\r' then "\\r"
    else if c == '\t' then "\\t"
    else [c]
  }

  /** A character `repr` writes as itself: not a quote, a backslash, or one of the escaped controls. */
  predicate Plain(c: char) {
    c != '\'' && c != '"' && c != '\\' && c != '\n' && c != '\r' && c != '\t'
  }

  function Escaped(s: string, q: char): (r: string)
    ensures |r| >= |s|
  {
    if s == [] then [] else EscapedChar(s[0], q) + Escaped(s[1..], q)
  }

  /** A key of plain characters is written as itself, in single quotes. */
  lemma PlainKeyErrorStr(key: string)
    requires forall i :: 0 <= i < |key| ==> Plain(key[i])
    ensures KeyErrorStr(key) == "'" + key + "'"
  {
    UnescapedText(key, QuoteFor(key));
  }

  /** A text with no backslash, no `q` and no escaped control is its own escape. */
  lemma {:induction false} UnescapedText(s: string, q: char)
    requires forall i :: 0 <= i < |s| ==> EscapedChar(s[i], q) == [s[i]]
    ensures Escaped(s, q) == s
  {
    if s != [] {
      assert EscapedChar(s[0], q) == [s[0]];
      UnescapedText(s[1..], q);
      assert s == [s[0]] + s[1..];
    }
  }

  /** A plain key is printed in single quotes. */
  lemma PlainKeyExample()
    ensures KeyErrorStr("body") == "'body'"
  {
    PlainKeyErrorStr("body");
  }

  /** A key holding a single quote and no double quote is printed in double quotes. */
  lemma SingleQuoteKeyExample()
    ensures KeyErrorStr("it's") == "\"it's\""
  {
    assert "it's"[2] == '\'';
    UnescapedText("it's", '"');
  }

  /** A key holding both quotes keeps single quotes and escapes the single one. */
  lemma BothQuotesKeyExample()
    ensures KeyErrorStr("a'b\"c") == "'a\\'b\"c'"
  {
    var s := "a'b\"c";
    assert s[3] == '"';
    assert s[1..] == "'b\"c" && s[1..][1..] == "b\"c";
    UnescapedText("b\"c", '\'');
    assert Escaped(s, '\'') == "a" + "\\'" + "b\"c";
  }

  /** The response of one of the eight custom kinds. */
  function CustomResponse(c: CustomException): Response {
    Response(c.statusCode, [("message", Text(c.message)), ("error", Text(AsString(c)))])
  }

  /** The except clauses in order: validation, the eight kinds, KeyError, ValueError, anything else. */
  function ErrorResponse(e: Error): Response {
    if e.ValidationError? then
      Response(400, [("message", Text("Validation error")), ("errors", Details(e.errors))])
    else if e.Custom? then
      CustomResponse(e.exception)
    else if e.KeyError? then
      Response(400, [("message", Text("Key error")), ("error", Text(KeyErrorStr(e.key)))])
    else if IsValueError(e) then
      Response(400, [("   message", Text("Key error")), ("error", Text(e.message))])
    else
      Response(500, [("message", Text("An error occurred"))])
  }

  /** `http_exception_handler` applied to the outcome of the wrapped call. */
  function HttpExceptionHandler<T>(outcome: Result<T, Error>): (r: Handled<T>)
    ensures outcome.Success? <==> r.Returned?
  {
    match outcome
    case Success(v) => Returned(v)
    case Failure(e) => Responded(ErrorResponse(e))
  }

  /** `event_exception_handlers` applied to the outcome: every error is logged and dropped. */
  function EventExceptionHandlers<T>(outcome: Result<T, Error>): (r: Option<T>)
    ensures outcome.Failure? ==> r == None
    ensures outcome.Success? ==> r == Some(outcome.value)
  {
    match outcome
    case Success(v) => Some(v)
    case Failure(_) => None
  }

  /** The status code of every error, clause by clause. */
  lemma StatusCodeTable(e: Error)
    ensures ErrorResponse(e).statusCode ==
      if e.Custom? then e.exception.statusCode
      else if e.ValidationError? || e.KeyError? || e.ValueError? then 400
      else 500
  {
  }

  /** Each custom kind answers with its own status code, and its message under both keys. */
  lemma CustomKindsKeepStatus(c: CustomException)
    ensures ErrorResponse(Custom(c)).statusCode == c.statusCode
    ensures ErrorResponse(Custom(c)).body == [("message", Text(c.message)), ("error", Text(c.message))]
  {
  }

  /** A validation error is a ValueError, yet it is caught first, as "Validation error". */
  lemma ValidationBeforeValueError(errs: seq<FieldError>)
    ensures IsValueError(ValidationError(errs))
    ensures ErrorResponse(ValidationError(errs))
      == Response(400, [("message", Text("Validation error")), ("errors", Details(errs))])
  {
  }

  /** A plain ValueError: 400, under the key "   message" (leading spaces), saying "Key error". */
  lemma ValueErrorResponse(message: string)
    ensures ErrorResponse(ValueError(message))
      == Response(400, [("   message", Text("Key error")), ("error", Text(message))])
    ensures forall i :: (0 <= i < |ErrorResponse(ValueError(message)).body|
      ==> ErrorResponse(ValueError(message)).body[i].0 != "message")
  {
  }

  /** Any error outside the named clauses: 500 and a generic message, no detail. */
  lemma OtherErrorsHideDetail(e: Error)
    requires !e.ValidationError? && !e.Custom? && !e.KeyError? && !e.ValueError?
    ensures ErrorResponse(e) == Response(500, [("message", Text("An error occurred"))])
  {
  }

  /** A KeyError gets 400 "Key error", with `str(error)` (the key's repr) as the error. */
  lemma KeyErrorResponse(key: string)
    ensures ErrorResponse(KeyError(key)) ==
      Response(400, [("message", Text("Key error")), ("error", Text(KeyErrorStr(key)))])
    ensures (forall i :: 0 <= i < |key| ==> Plain(key[i])) ==>
      ErrorResponse(KeyError(key)).body[1] == ("error", Text("'" + key + "'"))
  {
    if forall i :: 0 <= i < |key| ==> Plain(key[i]) {
      PlainKeyErrorStr(key);
    }
  }

  /** With no error, both wrappers hand back the wrapped call's value unchanged. */
  lemma NoErrorPassesThrough<T>(v: T)
    ensures HttpExceptionHandler(Success(v)) == Returned(v)
    ensures EventExceptionHandlers(Success(v)) == Some(v)
  {
  }

  /**
   * Three controllers (initialize_sale_controller.py, cancel_sale_controller.py,
   * list_sold_vehicles_controller.py) stack `http_exception_handler` over
   * `handle_sqlalchemy_exceptions`: under both decorators a storage error
   * becomes the status code and message of its domain error.
   */
  lemma StackedHandlers(s: StorageError)
    ensures
      var c := Translate(s);
      HttpExceptionHandler<()>(HandleSqlAlchemyExceptions(Failure(Storage(s))))
        == Responded(Response(c.statusCode, [("message", Text(c.message)), ("error", Text(c.message))]))
    ensures s == IntegrityError ==>
      HttpExceptionHandler<()>(HandleSqlAlchemyExceptions(Failure(Storage(s))))
        == Responded(Response(409, [("message", Text("Vehicle already exists")), ("error", Text("Vehicle already exists"))]))
    ensures s == NoResultFound ==>
      HttpExceptionHandler<()>(HandleSqlAlchemyExceptions(Failure(Storage(s)))).response.statusCode == 404
  {
  }
}
