/**
 * What the request flow promises, stated about Relay.Decide and so, through
 * HandleRequest's postcondition, about the endpoint script itself.
 */
module RelayProperties {
  import opened Optional
  import opened Php
  import opened Relay
  import Config
  import Scan

  /** Every check before the send accepts: configuration, method, body shape and fields. */
  predicate ChecksPass(parsed: Option<seq<(string, string)>>, prior: map<string, string>, requestMethod: string, input: Value) {
    && Config.ConfigFailure(LoadedEnv(parsed, prior)).None?
    && requestMethod == "POST"
    && IsArray(input)
    && FieldFailure(input).None?
  }

  lemma PrefixCancel(a: string, b: string, c: string)
    requires a + b == a + c
    ensures b == c
  {
    assert b == (a + b)[|a|..];
    assert c == (a + c)[|a|..];
  }

  /** Without a `.env` file the reply is the same 500 whatever else the request holds. */
  lemma EnvFileMissing(parsed: Option<seq<(string, string)>>, prior: map<string, string>, requestMethod: string, input: Value, send: SendOutcome)
    ensures Decide(false, parsed, prior, requestMethod, input, send) == Outcome(Json(500, false, ".env file not found"), None)
  {
  }

  /**
   * The configuration error names key K exactly when K is the first of the
   * required keys, in their fixed order, that is unset or PHP-empty.
   */
  lemma ConfigErrorNamesFirstMissingKey(
    parsed: Option<seq<(string, string)>>, prior: map<string, string>, requestMethod: string, input: Value, send: SendOutcome, i: nat)
    requires i < |Config.RequiredEnv|
    ensures var env := LoadedEnv(parsed, prior);
      Decide(true, parsed, prior, requestMethod, input, send).reply == Json(500, false, "Missing env key: " + Config.RequiredEnv[i])
      <==>
      Config.EnvEmpty(env, Config.RequiredEnv[i]) && forall j :: 0 <= j < i ==> !Config.EnvEmpty(env, Config.RequiredEnv[j])
  {
    var env := LoadedEnv(parsed, prior);
    var key := Config.RequiredEnv[i];
    var o := Decide(true, parsed, prior, requestMethod, input, send);
    if Config.EnvEmpty(env, key) && forall j :: 0 <= j < i ==> !Config.EnvEmpty(env, Config.RequiredEnv[j]) {
      Scan.FirstFailingIs(Config.RequiredEnv, k => Config.EnvEmpty(env, k), i);
    }
    if o.reply == Json(500, false, "Missing env key: " + key) && Config.ConfigFailure(env).Some? {
      var k := Config.ConfigFailure(env).value;
      PrefixCancel("Missing env key: ", Config.RequiredEnv[k], key);
    }
  }

  /** A configuration error ends the request before the method or the body is looked at. */
  lemma ConfigErrorPrecedesRequest(
    parsed: Option<seq<(string, string)>>, prior: map<string, string>,
    method1: string, input1: Value, send1: SendOutcome, method2: string, input2: Value, send2: SendOutcome)
    requires Config.ConfigFailure(LoadedEnv(parsed, prior)).Some?
    ensures Decide(true, parsed, prior, method1, input1, send1) == Decide(true, parsed, prior, method2, input2, send2)
    ensures Decide(true, parsed, prior, method1, input1, send1).reply.Json?
    ensures Decide(true, parsed, prior, method1, input1, send1).reply.status == 500
    ensures Decide(true, parsed, prior, method1, input1, send1).handed == None
  {
  }

  /** With a valid configuration, the reply is 405 exactly when the method is not "POST". */
  lemma OnlyPostAccepted(parsed: Option<seq<(string, string)>>, prior: map<string, string>, requestMethod: string, input: Value, send: SendOutcome)
    requires Config.ConfigFailure(LoadedEnv(parsed, prior)).None?
    ensures Decide(true, parsed, prior, requestMethod, input, send).reply == Json(405, false, "Method not allowed")
      <==> requestMethod != "POST"
  {
  }

  /**
   * With a valid configuration and a POST, the reply is 400 exactly when the
   * decoded body is not a PHP array. Invalid JSON decodes to Null, so it is
   * rejected here too, and so are scalars.
   */
  lemma BodyMustBeArray(parsed: Option<seq<(string, string)>>, prior: map<string, string>, input: Value, send: SendOutcome)
    requires Config.ConfigFailure(LoadedEnv(parsed, prior)).None?
    ensures Decide(true, parsed, prior, "POST", input, send).reply == Json(400, false, "Invalid JSON body")
      <==> !IsArray(input)
  {
  }

  /** A JSON list passes the array check and then fails on the first required field. */
  lemma ListBodyMissesToEmail(parsed: Option<seq<(string, string)>>, prior: map<string, string>, items: seq<Value>, send: SendOutcome)
    requires Config.ConfigFailure(LoadedEnv(parsed, prior)).None?
    ensures Decide(true, parsed, prior, "POST", List(items), send) == Outcome(Json(422, false, "Missing field: toEmail"), None)
  {
    Scan.FirstFailingIs(RequiredFields, f => Empty(Field(List(items), f)), 0);
    assert "Missing field: " + RequiredFields[0] == "Missing field: toEmail";
  }

  /**
   * Once the configuration, the method and the body's shape pass, the field
   * error names F exactly when F is the first of toEmail, toName, subject,
   * htmlBody that is missing or PHP-empty.
   */
  lemma FieldErrorNamesFirstMissingField(
    parsed: Option<seq<(string, string)>>, prior: map<string, string>, input: Value, send: SendOutcome, i: nat)
    requires Config.ConfigFailure(LoadedEnv(parsed, prior)).None? && IsArray(input)
    requires i < |RequiredFields|
    ensures Decide(true, parsed, prior, "POST", input, send).reply == Json(422, false, "Missing field: " + RequiredFields[i])
      <==>
      Empty(Field(input, RequiredFields[i])) && forall j :: 0 <= j < i ==> !Empty(Field(input, RequiredFields[j]))
  {
    var o := Decide(true, parsed, prior, "POST", input, send);
    if Empty(Field(input, RequiredFields[i])) && forall j :: 0 <= j < i ==> !Empty(Field(input, RequiredFields[j])) {
      Scan.FirstFailingIs(RequiredFields, f => Empty(Field(input, f)), i);
    }
    if o.reply == Json(422, false, "Missing field: " + RequiredFields[i]) && FieldFailure(input).Some? {
      var k := FieldFailure(input).value;
      PrefixCancel("Missing field: ", RequiredFields[k], RequiredFields[i]);
    }
  }

  /**
   * The mailer's `send` is handed a message exactly when every check passes,
   * the addresses are accepted and the alternative body can be computed; the
   * message carries the configuration and the request fields unchanged, and
   * the alternative body is textBody when it is present and not null (even
   * ""), and otherwise htmlBody with its tags stripped. When the addresses
   * were accepted, a non-string htmlBody without a textBody makes
   * `strip_tags` throw, and the script dies with nothing sent.
   */
  lemma MessageFields(parsed: Option<seq<(string, string)>>, prior: map<string, string>, requestMethod: string, input: Value, send: SendOutcome)
    ensures var o := Decide(true, parsed, prior, requestMethod, input, send);
      o.handed.Some? <==>
        && ChecksPass(parsed, prior, requestMethod, input)
        && !send.AddressRejected?
        && (Field(input, "textBody") != Null || Field(input, "htmlBody").Str?)
    ensures var o := Decide(true, parsed, prior, requestMethod, input, send);
      && ChecksPass(parsed, prior, requestMethod, input)
      && !send.AddressRejected?
      && Field(input, "textBody") == Null && !Field(input, "htmlBody").Str?
      ==> o == Outcome(Fatal, None)
    ensures var o := Decide(true, parsed, prior, requestMethod, input, send);
      var env := LoadedEnv(parsed, prior);
      o.handed.Some? ==>
        && o.handed.value.host == env["MAIL_HOST"]
        && o.handed.value.port == env["MAIL_PORT"]
        && o.handed.value.username == env["MAIL_USERNAME"]
        && o.handed.value.password == env["MAIL_PASSWORD"]
        && o.handed.value.fromAddress == env["MAIL_FROM_ADDRESS"]
        && o.handed.value.fromName == env["MAIL_FROM_NAME"]
        && o.handed.value.toAddress == Field(input, "toEmail")
        && o.handed.value.toName == Field(input, "toName")
        && o.handed.value.subject == Field(input, "subject")
        && o.handed.value.body == Field(input, "htmlBody")
        && o.handed.value.altBody ==
             if Field(input, "textBody") != Null then Field(input, "textBody")
             else Str(StripTags(Field(input, "htmlBody").s))
  {
  }

  /**
   * `setFrom` and `addAddress` run before the alternative body is computed: an
   * address they reject is caught and answered with 500 "Email sending
   * failed", whatever the body fields hold, and nothing is sent.
   */
  lemma AddressRejectedReply(parsed: Option<seq<(string, string)>>, prior: map<string, string>, input: Value, error: string)
    requires ChecksPass(parsed, prior, "POST", input)
    ensures Decide(true, parsed, prior, "POST", input, AddressRejected(error))
         == Outcome(Json(500, false, "Email sending failed"), None)
  {
  }

  /**
   * Once the message is handed over, the reply depends only on whether the send
   * succeeded: 200 "Email sent", or 500 "Email sending failed".
   */
  lemma SendOutcomeReply(parsed: Option<seq<(string, string)>>, prior: map<string, string>, requestMethod: string, input: Value, send: SendOutcome)
    requires Decide(true, parsed, prior, requestMethod, input, send).handed.Some?
    ensures send == Sent ==> Decide(true, parsed, prior, requestMethod, input, send).reply == Json(200, true, "Email sent")
    ensures send.Failed? ==> Decide(true, parsed, prior, requestMethod, input, send).reply == Json(500, false, "Email sending failed")
  {
  }

  /**
   * The exception text never reaches the reply: two failures at the same
   * stage with different texts answer alike.
   */
  lemma ErrorTextNotReplied(
    envFileExists: bool, parsed: Option<seq<(string, string)>>, prior: map<string, string>,
    requestMethod: string, input: Value, error1: string, error2: string)
    ensures Decide(envFileExists, parsed, prior, requestMethod, input, Failed(error1))
         == Decide(envFileExists, parsed, prior, requestMethod, input, Failed(error2))
    ensures Decide(envFileExists, parsed, prior, requestMethod, input, AddressRejected(error1))
         == Decide(envFileExists, parsed, prior, requestMethod, input, AddressRejected(error2))
  {
  }

  /**
   * Every JSON reply uses one of the five documented status codes, and
   * `success` is true exactly for 200.
   */
  lemma ReplyShape(
    envFileExists: bool, parsed: Option<seq<(string, string)>>, prior: map<string, string>,
    requestMethod: string, input: Value, send: SendOutcome)
    ensures var r := Decide(envFileExists, parsed, prior, requestMethod, input, send).reply;
      r.Json? ==> r.status in {200, 400, 405, 422, 500} && (r.success <==> r.status == 200)
  {
  }

  /** A reply reports success exactly when a message was handed to `send` and sent. */
  lemma SuccessMeansSent(
    envFileExists: bool, parsed: Option<seq<(string, string)>>, prior: map<string, string>,
    requestMethod: string, input: Value, send: SendOutcome)
    ensures var o := Decide(envFileExists, parsed, prior, requestMethod, input, send);
      o.reply.Json? && o.reply.success <==> o.handed.Some? && send == Sent
  {
  }

  lemma StripTagsExample()
    ensures StripTags("<p>Hello</p>") == "Hello"
  {
    assert "<p>Hello</p>" == "<" + "p" + ">" + ("Hello" + ("<" + "/p" + ">" + ""));
    StripTagsDropsTag("p", "Hello" + ("<" + "/p" + ">" + ""));
    StripTagsKeepsText("Hello", "<" + "/p" + ">" + "");
    StripTagsDropsTag("/p", "");
  }

  /** A complete configuration used by the two concrete requests below. */
  function SampleEnv(): map<string, string> {
    map[
      "MAIL_HOST" := "smtp.example.com", "MAIL_PORT" := "587",
      "MAIL_USERNAME" := "user", "MAIL_PASSWORD" := "secret",
      "MAIL_FROM_ADDRESS" := "noreply@example.com", "MAIL_FROM_NAME" := "Relay"]
  }

  /** The request body of the sample POST. */
  function SampleBody(): Value {
    Object(map[
      "toEmail" := Str("a@b.com"), "toName" := Str("A"),
      "subject" := Str("Hi"), "htmlBody" := Str("<p>Hello</p>")])
  }

  lemma SampleEnvComplete()
    ensures Config.ConfigFailure(SampleEnv()) == None
  {
    var env := SampleEnv();
    assert forall j :: 0 <= j < |Config.RequiredEnv| ==> !Config.EnvEmpty(env, Config.RequiredEnv[j]);
  }

  lemma SampleBodyComplete()
    ensures FieldFailure(SampleBody()) == None
    ensures AltBody(SampleBody()) == Some(Str("Hello"))
  {
    var input := SampleBody();
    assert forall j :: 0 <= j < |RequiredFields| ==> !Empty(Field(input, RequiredFields[j]));
    assert Field(input, "textBody") == Null;
    assert Field(input, "htmlBody") == Str("<p>Hello</p>");
    StripTagsExample();
  }

  /** A POST of the four required fields is sent, with the tag-stripped HTML as alternative body. */
  lemma SampleRequestSent()
    ensures var o := Decide(true, None, SampleEnv(), "POST", SampleBody(), Sent);
      o.reply == Json(200, true, "Email sent") && o.handed.Some? && o.handed.value.altBody == Str("Hello")
  {
    SampleEnvComplete();
    SampleBodyComplete();
  }

  /** The same configuration with a GET is refused before the body is read. */
  lemma SampleGetRefused(input: Value, send: SendOutcome)
    ensures Decide(true, None, SampleEnv(), "GET", input, send) == Outcome(Json(405, false, "Method not allowed"), None)
  {
    SampleEnvComplete();
  }
}
