/**
 * The error classifier `wrapError` of src/pgtools.es6.js and the `DBError` it
 * builds. A raw driver error either names an application reason after a `$`
 * (in its constraint, or in its message when its code is "TOTEM") and becomes a
 * client validation error with status 422, or it becomes a generic `DBError`.
 */
module Errors {
  import opened Text
  import Json

  /**
   * The fields of a driver error that the classifier reads. An absent `code` or
   * `constraint` and the empty string are both falsy in JavaScript, so "" stands
   * for both; the `message` is always a string.
   */
  datatype RawError = RawError(code: string, constraint: string, message: string)

  /** A `DBError`'s code: the driver's code, or the number -1 when it had none. */
  datatype ErrorCode = Code(s: string) | MinusOne

  datatype WrappedError =
    | ClientError(status: int, reason: string)
    | DBError(code: ErrorCode, message: string, query: string, data: string)
  {
    /** `DBError.prototype.toString`: `code=… message=… query=… data=…`. */
    function ToString(): (s: string)
      requires DBError?
      ensures |s| == |CodeText(code)| + |message| + |query| + |data| + 27
      ensures var c := |CodeText(code)|;
              && s[..5] == "code="
              && s[5..5 + c] == CodeText(code)
              && s[5 + c..14 + c] == " message="
              && s[14 + c..14 + c + |message|] == message
              && s[14 + c + |message|..21 + c + |message|] == " query="
              && s[21 + c + |message|..21 + c + |message| + |query|] == query
              && s[21 + c + |message| + |query|..27 + c + |message| + |query|] == " data="
              && s[|s| - |data|..] == data
    {
      "code=" + CodeText(code) + " message=" + message + " query=" + query + " data=" + data
    }
  }

  /** The HTTP status of a client validation error. */
  const ValidationStatus := 422

  /** The code under which the application raises its own errors. */
  const TotemCode := "TOTEM"

  /** The message prefix with which the client reports a missing named parameter. */
  const MissingParameterPrefix := "No value found for parameter: "

  /** How a code appears inside a template string: the driver's code itself, or the number -1 printed as "-1". */
  function CodeText(code: ErrorCode): (text: string)
    ensures code.Code? ==> text == code.s
    ensures code.MinusOne? ==> text == "-1"
  {
    match code
    case Code(s) => s
    case MinusOne => "-1"
  }

  /**
   * `new DBError(code, message, query, data)`: the code falls back to -1 when it
   * is falsy, and the data is kept in serialised form.
   */
  function NewDBError(code: string, message: string, query: string, data: Json.Value,
                      stringify: Json.Value -> string): (e: WrappedError)
    ensures e.DBError?
    ensures e.code == MinusOne <==> code == ""
    ensures e.code.Code? ==> e.code.s == code
    ensures e.message == message && e.query == query && e.data == stringify(data)
  {
    DBError(if code != "" then Code(code) else MinusOne, message, query, stringify(data))
  }

  /**
   * The code a `DBError` prints is `code || -1` of the code it was built from:
   * never empty, and "-1" exactly when that code was falsy or was itself "-1".
   */
  lemma DBErrorCodeText(code: string, message: string, query: string, data: Json.Value,
                        stringify: Json.Value -> string)
    ensures var text := CodeText(NewDBError(code, message, query, data, stringify).code);
            text != "" && (text == "-1" <==> code == "" || code == "-1")
  {
  }

  /** `wrapError(err, query, data)`, branch by branch. */
  function WrapError(err: RawError, query: string, data: Json.Value,
                     stringify: Json.Value -> string): (r: WrappedError)
    ensures r.ClientError? ==> r.status == ValidationStatus
    ensures r.ClientError? <==>
              err.code != "" && ('$' in err.constraint || (err.code == TotemCode && '$' in err.message))
    ensures r.DBError? ==> r == NewDBError(err.code, err.message, query, data, stringify)
  {
    if err.code != "" then
      var constraintIndex := if err.constraint != "" then IndexOf(err.constraint, '$') else -1;
      if constraintIndex != -1 then
        ClientError(ValidationStatus, err.constraint[constraintIndex + 1..])
      else
        var messageIndex := if err.code == TotemCode then IndexOf(err.message, '$') else -1;
        if messageIndex != -1 then
          ClientError(ValidationStatus, err.message[messageIndex + 1..])
        else
          NewDBError(err.code, err.message, query, data, stringify)
    else if MissingParameterPrefix <= err.message then
      NewDBError(err.code, err.message, query, data, stringify)
    else
      NewDBError(err.code, err.message, query, data, stringify)
  }

  /**
   * A constraint named `name$REASON` (no `$` in `name`) on an error with a code
   * yields the reason `REASON`, whatever the code and the message say: this
   * branch comes before the TOTEM one.
   */
  lemma ConstraintReason(err: RawError, name: string, reason: string, query: string, data: Json.Value,
                         stringify: Json.Value -> string)
    requires err.code != ""
    requires '$' !in name && err.constraint == name + "$" + reason
    ensures WrapError(err, query, data, stringify) == ClientError(422, reason)
  {
    IndexOfAfterPrefix(name, '$', reason);
    assert err.constraint[|name| + 1..] == reason;
  }

  /**
   * An error with code "TOTEM", no `$` in its constraint and the message
   * `text$REASON` (no `$` in `text`) yields the reason `REASON`.
   */
  lemma TotemReason(err: RawError, text: string, reason: string, query: string, data: Json.Value,
                    stringify: Json.Value -> string)
    requires err.code == TotemCode && '$' !in err.constraint
    requires '$' !in text && err.message == text + "$" + reason
    ensures WrapError(err, query, data, stringify) == ClientError(422, reason)
  {
    IndexOfAfterPrefix(text, '$', reason);
    assert err.message[|text| + 1..] == reason;
  }

  /**
   * An error without a code is always a generic error with code -1 and its own
   * message, even when its constraint or message holds a `$`; the branch for a
   * missing named parameter gives exactly this result too.
   */
  lemma FalsyCodeIsGeneric(err: RawError, query: string, data: Json.Value, stringify: Json.Value -> string)
    requires err.code == ""
    ensures WrapError(err, query, data, stringify) == DBError(MinusOne, err.message, query, stringify(data))
  {
  }

  /** A code that is neither "TOTEM" nor backed by a `$` constraint keeps the error generic, with that code. */
  lemma UnclassifiedCodeIsGeneric(err: RawError, query: string, data: Json.Value, stringify: Json.Value -> string)
    requires err.code != "" && err.code != TotemCode && '$' !in err.constraint
    ensures WrapError(err, query, data, stringify) == DBError(Code(err.code), err.message, query, stringify(data))
  {
  }

  /** Worked example: a unique-constraint violation named with an application reason. */
  lemma ConstraintExample(query: string, data: Json.Value, stringify: Json.Value -> string)
    ensures WrapError(RawError("23505", "uniq_email$EMAIL_TAKEN", "duplicate key"), query, data, stringify)
            == ClientError(422, "EMAIL_TAKEN")
  {
    var name, reason := "uniq_email", "EMAIL_TAKEN";
    assert name + "$" + reason == "uniq_email$EMAIL_TAKEN";
    ConstraintReason(RawError("23505", name + "$" + reason, "duplicate key"), name, reason, query, data, stringify);
  }

  /** Worked example: an application error raised with code "TOTEM". */
  lemma TotemExample(query: string, data: Json.Value, stringify: Json.Value -> string)
    ensures WrapError(RawError("TOTEM", "", "failed$BAD_INPUT"), query, data, stringify)
            == ClientError(422, "BAD_INPUT")
  {
    var text, reason := "failed", "BAD_INPUT";
    assert text + "$" + reason == "failed$BAD_INPUT";
    TotemReason(RawError("TOTEM", "", text + "$" + reason), text, reason, query, data, stringify);
  }
}
