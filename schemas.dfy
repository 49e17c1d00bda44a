/** The request and response bodies of the chat endpoint
    (app/models/schemas.py): the field bounds of a chat request and the
    required and optional fields of the two response bodies. */
module Schemas {
  import opened Wrappers
  import opened PyJson

  const MinMessageLength: nat := 1
  const MaxMessageLength: nat := 4096
  const MinTemperature: real := 0.0
  const MaxTemperature: real := 2.0
  const MinMaxTokens: int := 1
  const MaxMaxTokens: int := 2048

  /** The constrained fields of a chat request. */
  datatype Field = MessageField | TemperatureField | MaxTokensField

  /** The kinds of constraint a field can break, as the validator names
      them: `string_too_short`, `string_too_long`, `greater_than_equal`,
      `less_than_equal`. */
  datatype ErrorType = StringTooShort | StringTooLong | GreaterThanEqual | LessThanEqual

  /** One failed field constraint. */
  datatype Violation = Violation(field: Field, errorType: ErrorType)

  datatype ChatRequest = ChatRequest(
    message: string,
    conversationId: Option<string>,
    temperature: Option<real>,
    maxTokens: Option<int>)
  {
    /** The field constraints: a message of 1 to 4096 characters, a
        temperature in [0, 2] and a token limit in [1, 2048] when given; the
        conversation id is unconstrained and may be absent. */
    predicate Valid()
    {
      MinMessageLength <= |message| <= MaxMessageLength
      && (temperature.Some? ==> MinTemperature <= temperature.value <= MaxTemperature)
      && (maxTokens.Some? ==> MinMaxTokens <= maxTokens.value <= MaxMaxTokens)
    }

    /** Every constraint the request breaks, in field order. */
    function Violations(): (errors: seq<Violation>)
      ensures errors == [] <==> Valid()
      ensures Violation(MessageField, StringTooShort) in errors <==> |message| < MinMessageLength
      ensures Violation(MessageField, StringTooLong) in errors <==> |message| > MaxMessageLength
      ensures Violation(TemperatureField, GreaterThanEqual) in errors <==>
                temperature.Some? && temperature.value < MinTemperature
      ensures Violation(TemperatureField, LessThanEqual) in errors <==>
                temperature.Some? && temperature.value > MaxTemperature
      ensures Violation(MaxTokensField, GreaterThanEqual) in errors <==>
                maxTokens.Some? && maxTokens.value < MinMaxTokens
      ensures Violation(MaxTokensField, LessThanEqual) in errors <==>
                maxTokens.Some? && maxTokens.value > MaxMaxTokens
    {
      (if |message| < MinMessageLength then [Violation(MessageField, StringTooShort)]
       else if |message| > MaxMessageLength then [Violation(MessageField, StringTooLong)]
       else [])
      + (if temperature.None? then []
         else if temperature.value < MinTemperature then [Violation(TemperatureField, GreaterThanEqual)]
         else if temperature.value > MaxTemperature then [Violation(TemperatureField, LessThanEqual)]
         else [])
      + (if maxTokens.None? then []
         else if maxTokens.value < MinMaxTokens then [Violation(MaxTokensField, GreaterThanEqual)]
         else if maxTokens.value > MaxMaxTokens then [Violation(MaxTokensField, LessThanEqual)]
         else [])
    }
  }

  /** The success body: all three fields are required strings. */
  datatype ChatResponse = ChatResponse(response: string, conversationId: string, model: string)
  {
    function ToJson(): Json
    {
      JObject([("response", JString(response)),
               ("conversation_id", JString(conversationId)),
               ("model", JString(model))])
    }
  }

  /** The error body: `detail` is required, `error_code` optional. */
  datatype ErrorResponse = ErrorResponse(detail: string, errorCode: Option<string>)
  {
    function ToJson(): Json
    {
      JObject([("detail", JString(detail)),
               ("error_code", if errorCode.Some? then JString(errorCode.value) else JNull)])
    }
  }

  /** A required string field. */
  function RequiredString(members: seq<(string, Json)>, key: string): (r: Option<string>)
    ensures r.Some? <==> Lookup(members, key).Some? && Lookup(members, key).value.JString?
    ensures r.Some? ==> Lookup(members, key) == Some(JString(r.value))
  {
    match Lookup(members, key)
    case Some(JString(s)) => Some(s)
    case _ => None
  }

  /** Reads a success body; unknown members are ignored. */
  function ParseChatResponse(body: Json): (r: Option<ChatResponse>)
    ensures r.Some? <==>
      body.JObject?
      && RequiredString(body.members, "response").Some?
      && RequiredString(body.members, "conversation_id").Some?
      && RequiredString(body.members, "model").Some?
    ensures r.Some? ==>
      Lookup(body.members, "response") == Some(JString(r.value.response))
      && Lookup(body.members, "conversation_id") == Some(JString(r.value.conversationId))
      && Lookup(body.members, "model") == Some(JString(r.value.model))
  {
    if !body.JObject? then None
    else
      var response := RequiredString(body.members, "response");
      var conversationId := RequiredString(body.members, "conversation_id");
      var model := RequiredString(body.members, "model");
      if response.Some? && conversationId.Some? && model.Some?
      then Some(ChatResponse(response.value, conversationId.value, model.value))
      else None
  }

  /** Reads an error body: `error_code` may be absent or null. */
  function ParseErrorResponse(body: Json): (r: Option<ErrorResponse>)
    ensures r.Some? <==>
      body.JObject?
      && RequiredString(body.members, "detail").Some?
      && (Lookup(body.members, "error_code").None? || Lookup(body.members, "error_code").value.JNull?
          || Lookup(body.members, "error_code").value.JString?)
    ensures r.Some? ==> body.JObject? && Lookup(body.members, "detail") == Some(JString(r.value.detail))
    ensures r.Some? && r.value.errorCode.None? ==>
      Lookup(body.members, "error_code") in {None, Some(JNull)}
    ensures r.Some? && r.value.errorCode.Some? ==>
      Lookup(body.members, "error_code") == Some(JString(r.value.errorCode.value))
  {
    if !body.JObject? then None
    else
      var detail := RequiredString(body.members, "detail");
      var errorCode: Option<Option<string>> :=
        match Lookup(body.members, "error_code")
        case None => Some(None)
        case Some(JNull) => Some(None)
        case Some(JString(code)) => Some(Some(code))
        case Some(_) => None;
      if detail.Some? && errorCode.Some? then Some(ErrorResponse(detail.value, errorCode.value)) else None
  }

  /** A success body written out is read back unchanged. */
  lemma ChatResponseRoundTrip(r: ChatResponse)
    ensures ParseChatResponse(r.ToJson()) == Some(r)
  {
    var members := r.ToJson().members;
    assert RequiredString(members, "response") == Some(r.response) by {
      assert Lookup(members, "response") == Some(JString(r.response));
    }
    assert RequiredString(members, "conversation_id") == Some(r.conversationId) by {
      assert Lookup(members[1..], "conversation_id") == Some(JString(r.conversationId));
    }
    assert RequiredString(members, "model") == Some(r.model) by {
      assert Lookup(members[2..], "model") == Some(JString(r.model));
    }
  }

  /** An error body written out is read back unchanged. */
  lemma ErrorResponseRoundTrip(r: ErrorResponse)
    ensures ParseErrorResponse(r.ToJson()) == Some(r)
  {
    var members := r.ToJson().members;
    assert Lookup(members, "detail") == Some(JString(r.detail));
    assert Lookup(members[1..], "error_code") == Some(members[1].1);
  }

  /** Each of the three success fields is required. */
  lemma ChatResponseFieldsRequired(body: Json, key: string)
    requires body.JObject?
    requires key in {"response", "conversation_id", "model"}
    requires Lookup(body.members, key).None?
    ensures ParseChatResponse(body).None?
  {
  }

  /** `detail` is required, while a body without `error_code` is accepted. */
  lemma ErrorResponseFields(detail: string)
    ensures ParseErrorResponse(JObject([])).None?
    ensures ParseErrorResponse(JObject([("detail", JString(detail))])) == Some(ErrorResponse(detail, None))
  {
  }
}
