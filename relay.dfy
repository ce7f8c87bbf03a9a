/**
 * The request flow of the mail relay endpoint: load and validate the mail
 * configuration, check the HTTP method, the body and its required fields,
 * fill in the outgoing message and map the send outcome to a JSON reply.
 * Every check that fails ends the request at once.
 */
module Relay {
  import opened Optional
  import opened Php
  import Scan
  import Config

  /** The request fields that must be present and non-empty, in the order they are checked. */
  const RequiredFields: seq<string> := ["toEmail", "toName", "subject", "htmlBody"]

  /**
   * What the mailer reports, in the order the script calls it. `setFrom` and
   * `addAddress` run first and throw for an address they reject
   * (AddressRejected); then `send` either delivers the message (Sent) or
   * throws for a connection, authentication or protocol error (Failed).
   */
  datatype SendOutcome = Sent | AddressRejected(error: string) | Failed(error: string)

  /**
   * The fields of the mail object set before the send. Configuration values
   * are strings; request values are handed over as decoded, whatever their
   * JSON type. The port is the raw MAIL_PORT string, before the `(int)` cast.
   */
  datatype Message = Message(
    host: string,
    port: string,
    username: string,
    password: string,
    fromAddress: string,
    fromName: string,
    toAddress: Value,
    toName: Value,
    subject: Value,
    body: Value,
    altBody: Value)

  /**
   * What the client receives: a status code with a `{success, message}` JSON
   * body, or PHP's own fatal-error response when an uncaught error ends the
   * script before any JSON is written.
   */
  datatype Reply = Json(status: int, success: bool, message: string) | Fatal

  /** The reply, and the message handed to the mailer when the flow gets that far. */
  datatype Outcome = Outcome(reply: Reply, handed: Option<Message>)

  /** The index in RequiredFields of the first empty field, or None when all pass. */
  function FieldFailure(input: Value): Option<nat> {
    Scan.FirstFailing(RequiredFields, f => Empty(Field(input, f)))
  }

  /**
   * `$input['textBody'] ?? strip_tags($input['htmlBody'])`. None stands for the
   * TypeError `strip_tags` raises under strict types when htmlBody is not a
   * string.
   */
  function AltBody(input: Value): Option<Value> {
    var text := Field(input, "textBody");
    if text != Null then Some(text)
    else
      match Field(input, "htmlBody")
      case Str(html) => Some(Str(StripTags(html)))
      case _ => None
  }

  /** The message built from a complete configuration and a validated request. */
  function BuildMessage(env: map<string, string>, input: Value, altBody: Value): Message
    requires Config.ConfigFailure(env).None?
  {
    Config.ConfigCompleteHasKeys(env);
    assert "MAIL_HOST" == Config.RequiredEnv[0] && "MAIL_PORT" == Config.RequiredEnv[1];
    assert "MAIL_USERNAME" == Config.RequiredEnv[2] && "MAIL_PASSWORD" == Config.RequiredEnv[3];
    assert "MAIL_FROM_ADDRESS" == Config.RequiredEnv[4] && "MAIL_FROM_NAME" == Config.RequiredEnv[5];
    Message(
      host := env["MAIL_HOST"],
      port := env["MAIL_PORT"],
      username := env["MAIL_USERNAME"],
      password := env["MAIL_PASSWORD"],
      fromAddress := env["MAIL_FROM_ADDRESS"],
      fromName := env["MAIL_FROM_NAME"],
      toAddress := Field(input, "toEmail"),
      toName := Field(input, "toName"),
      subject := Field(input, "subject"),
      body := Field(input, "htmlBody"),
      altBody := altBody)
  }

  /** `$_ENV` after the `.env` file has been loaded; a file that fails to parse adds nothing. */
  function LoadedEnv(parsed: Option<seq<(string, string)>>, prior: map<string, string>): map<string, string> {
    if parsed.Some? then Config.Merged(prior, parsed.value) else prior
  }

  /** The JSON reply for a check that fails. */
  function Error(status: int, message: string): Outcome {
    Outcome(Json(status, false, message), None)
  }

  /**
   * The whole flow as one function of its inputs: whether `.env` exists, what
   * `parse_ini_file` returned for it, `$_ENV` before loading, the request
   * method, the decoded body and what the mailer reports.
   */
  function Decide(
    envFileExists: bool, parsed: Option<seq<(string, string)>>, prior: map<string, string>,
    requestMethod: string, input: Value, send: SendOutcome): Outcome
  {
    if !envFileExists then Error(500, ".env file not found")
    else AfterLoad(LoadedEnv(parsed, prior), requestMethod, input, send)
  }

  /** The flow once `$_ENV` holds the loaded configuration. */
  function AfterLoad(env: map<string, string>, requestMethod: string, input: Value, send: SendOutcome): Outcome {
    match Config.ConfigFailure(env)
    case Some(k) => Error(500, "Missing env key: " + Config.RequiredEnv[k])
    case None =>
      if requestMethod != "POST" then Error(405, "Method not allowed")
      else if !IsArray(input) then Error(400, "Invalid JSON body")
      else AfterBodyCheck(env, input, send)
  }

  /** The flow once the configuration, the method and the body's shape are accepted. */
  function AfterBodyCheck(env: map<string, string>, input: Value, send: SendOutcome): Outcome
    requires Config.ConfigFailure(env).None?
  {
    match FieldFailure(input)
    case Some(f) => Error(422, "Missing field: " + RequiredFields[f])
    case None =>
      if send.AddressRejected? then Error(500, "Email sending failed")
      else
        match AltBody(input)
        case None => Outcome(Fatal, None)
        case Some(alt) => Dispatch(BuildMessage(env, input, alt), send)
  }

  /** The reply for a message handed to `send`; the exception text is only logged. */
  function Dispatch(msg: Message, send: SendOutcome): Outcome {
    if send == Sent then Outcome(Json(200, true, "Email sent"), Some(msg))
    else Outcome(Json(500, false, "Email sending failed"), Some(msg))
  }

  /** The foreach over the required fields that stops at the first empty one. */
  method FindMissingField(input: Value) returns (missing: Option<nat>)
    ensures missing == FieldFailure(input)
  {
    for i := 0 to |RequiredFields|
      invariant forall j :: 0 <= j < i ==> !Empty(Field(input, RequiredFields[j]))
    {
      if Empty(Field(input, RequiredFields[i])) {
        Scan.FirstFailingIs(RequiredFields, f => Empty(Field(input, f)), i);
        return Some(i);
      }
    }
    return None;
  }

  /** The endpoint script: load `.env`, then hand over to the validation stage. */
  method HandleRequest(
    envFileExists: bool, parsed: Option<seq<(string, string)>>, prior: map<string, string>,
    requestMethod: string, input: Value, send: SendOutcome) returns (outcome: Outcome)
    ensures outcome == Decide(envFileExists, parsed, prior, requestMethod, input, send)
  {
    if !envFileExists {
      return Error(500, ".env file not found");
    }
    var env := prior;
    if parsed.Some? {
      env := Config.LoadEnv(prior, parsed.value);
    }
    outcome := ValidateAndSend(env, requestMethod, input, send);
  }

  /** Validation of the configuration and the request, each failure ending the request. */
  method ValidateAndSend(env: map<string, string>, requestMethod: string, input: Value, send: SendOutcome)
    returns (outcome: Outcome)
    ensures outcome == AfterLoad(env, requestMethod, input, send)
  {
    var missingKey := Config.FindMissingEnvKey(env);
    if missingKey.Some? {
      return Error(500, "Missing env key: " + Config.RequiredEnv[missingKey.value]);
    }
    if requestMethod != "POST" {
      return Error(405, "Method not allowed");
    }
    if !IsArray(input) {
      return Error(400, "Invalid JSON body");
    }
    var missingField := FindMissingField(input);
    if missingField.Some? {
      return Error(422, "Missing field: " + RequiredFields[missingField.value]);
    }
    outcome := SendEmail(env, input, send);
  }

  /** Filling in the mail object and sending it, for a configuration and request that passed. */
  method SendEmail(env: map<string, string>, input: Value, send: SendOutcome) returns (outcome: Outcome)
    requires Config.ConfigFailure(env).None? && FieldFailure(input).None?
    ensures outcome == AfterBodyCheck(env, input, send)
  {
    if send.AddressRejected? {
      return Error(500, "Email sending failed");
    }

    var altBody: Value;
    var text := Field(input, "textBody");
    if text != Null {
      altBody := text;
    } else {
      var html := Field(input, "htmlBody");
      if !html.Str? {
        return Outcome(Fatal, None);
      }
      altBody := Str(StripTags(html.s));
    }
    var msg := BuildMessage(env, input, altBody);

    if send == Sent {
      outcome := Outcome(Json(200, true, "Email sent"), Some(msg));
    } else {
      outcome := Outcome(Json(500, false, "Email sending failed"), Some(msg));
    }
  }
}
