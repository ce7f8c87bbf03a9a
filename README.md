# Mail relay endpoint: request flow model

A Dafny model of `send-email.php`, a single-endpoint PHP script. It accepts a
JSON request describing an email and hands the message to an SMTP mailer
library (PHPMailer). The script is a straight line of checks. The first check
that fails ends the request with a JSON reply `{success, message}` and an HTTP
status:

1. the `.env` file must exist (500 ".env file not found");
2. the parsed `.env` pairs are copied into `$_ENV`;
3. the keys MAIL_HOST, MAIL_PORT, MAIL_USERNAME, MAIL_PASSWORD,
   MAIL_FROM_ADDRESS and MAIL_FROM_NAME must each be set and not PHP-empty.
   Otherwise 500 "Missing env key: K" names the first key that fails;
4. the method must be exactly "POST" (405 "Method not allowed");
5. the decoded body must be a PHP array (400 "Invalid JSON body");
6. the fields toEmail, toName, subject and htmlBody must each be present and
   not PHP-empty. Otherwise 422 "Missing field: F" names the first field that
   fails;
7. the mail object is filled in. The alternative body is
   `textBody ?? strip_tags(htmlBody)`;
8. the send outcome is mapped to a reply: 200 "Email sent", or 500 "Email
   sending failed". The exception text goes only to the error log.

Modules:

- `Optional` (optional.dfy): the Option datatype.
- `Php` (php.dfy): the slice of PHP value semantics the script uses. It covers
  the values `json_decode($body, true)` produces, `empty()`, `is_array`, a
  string-key lookup that yields null when the key is missing, and a
  simplified `strip_tags`.
- `Scan` (scan.dfy): `FirstFailing`, the index of the first name that fails a
  test. It specifies both foreach loops that return early.
- `Config` (config.dfy): merging the parsed `.env` pairs into `$_ENV`
  (`Merged`, and the loop `LoadEnv`), and the required-key loop
  (`FindMissingEnvKey`).
- `Relay` (relay.dfy): the reply and message types, and `Decide`, the whole
  flow as one function. It also holds the imperative handler: `HandleRequest`,
  `ValidateAndSend` and `SendEmail`, with early returns and loops, each
  proved equal to the matching stage of `Decide`.
- `RelayProperties` (properties.dfy): what the flow promises, stated as
  lemmas about `Decide`.

The script's inputs are parameters of `HandleRequest`:

- whether `.env` exists;
- what `parse_ini_file` returned. `None` stands for `false`: the file exists
  but could not be parsed. `foreach` over `false` only warns, so `$_ENV` is
  left as it was;
- `$_ENV` before loading;
- the request method;
- the decoded body. Invalid JSON decodes to `Null`;
- the mailer's outcome, in call order. `AddressRejected(text)` means
  `setFrom` or `addAddress` threw (send-email.php:115-116). `Failed(text)`
  means `send` threw (send-email.php:122). `Sent` means the message was
  delivered.

Behaviour of the code worth knowing:

- Lists pass the body check. `is_array` accepts a JSON list as well as an
  object. A list has only integer keys, so it then fails on `toEmail`.
- An empty `textBody` is used. `??` only falls back when `textBody` is
  missing or null, so `textBody: ""` becomes the alternative body.
- Any falsy value counts as missing. A required field is rejected when it is
  null, false, 0, "", "0" or an empty array; a config value is rejected when
  it is "" or "0".
- The model covers one crash path. The file declares `strict_types=1`
  (send-email.php:2), so `strip_tags` throws a TypeError when htmlBody is not
  a string and textBody is missing or null. The `catch` at send-email.php:129
  names `Exception`, which the `use` at send-email.php:5 binds to PHPMailer's
  own exception class, so the TypeError is not caught. The script dies with
  PHP's fatal-error response, and nothing is sent; the model's reply is
  `Fatal`. This only happens when `setFrom` and `addAddress` accepted the
  addresses: they run first, and their exception is caught and answered with
  500 "Email sending failed".

## Model

| member | source | states |
|---|---|---|
| `Php.EmptyValues` | send-email.php:85 | PHP `empty()` holds exactly for null, false, 0, "", "0" and the empty list or object |
| `Php.StripTags` | send-email.php:120 | the stripped text is never longer than the input and contains no '<' |
| `Php.StripTagsKeepsPlainText` | send-email.php:120 | a string with no '<' comes out of `strip_tags` unchanged |
| `Php.StripTagsDropsTag` | send-email.php:120 | a closed tag `<...>` is removed with everything inside it |
| `Php.StripTagsKeepsText` | send-email.php:120 | text before the first '<' is kept verbatim |
| `Php.StripTagsIdempotent` | send-email.php:120 | stripping twice gives the same text as stripping once |
| `Scan.FirstFailing` | send-email.php:46-55 | the result is the index of an item that fails with every earlier item passing, or None when every item passes |
| `Config.MergedFileKey` | send-email.php:27-30 | after loading, a key of the file maps to the value of its last occurrence in the file (with PHP's unique array keys, to its file value) |
| `Config.MergedOtherKey` | send-email.php:27-30 | after loading, a key the file does not mention keeps its prior value, or stays unset |
| `Config.LoadEnv` | send-email.php:28-30 | the foreach leaves `$_ENV` equal to the prior map merged with the file's pairs in order |
| `Config.FindMissingEnvKey` | send-email.php:46-55 | the foreach returns the first required key that is unset or PHP-empty, or none |
| `Config.ConfigCompleteHasKeys` | send-email.php:37-55 | when no key fails, each of the six keys is set to a string other than "" and "0" |
| `Relay.FindMissingField` | send-email.php:82-93 | the foreach returns the first required field that is missing or PHP-empty, or none |
| `Relay.HandleRequest` | send-email.php:16-137 | the script's outcome, that is the reply and the message handed to `send`, is the one `Decide` gives for the same inputs |
| `Relay.ValidateAndSend` | send-email.php:46-93 | the checks after loading, in their fixed order, give the reply of the matching stage of `Decide` |
| `Relay.SendEmail` | send-email.php:100-137 | filling in the mail object in source order (addresses, then the alternative body, then `send`) gives the reply of the send stage of `Decide` |
| `RelayProperties.EnvFileMissing` | send-email.php:18-25 | without `.env` the reply is 500 ".env file not found" and nothing is sent, whatever the other inputs are |
| `RelayProperties.ConfigErrorNamesFirstMissingKey` | send-email.php:37-55 | the reply is 500 "Missing env key: K" exactly when K is the first required key, in fixed order, that is unset, "" or "0" |
| `RelayProperties.ConfigErrorPrecedesRequest` | send-email.php:46-69 | with a configuration error, the reply is a 500 that does not depend on the method, body or send outcome, and nothing is sent |
| `RelayProperties.OnlyPostAccepted` | send-email.php:62-69 | with a valid configuration, the reply is 405 "Method not allowed" exactly when the method is not "POST" |
| `RelayProperties.BodyMustBeArray` | send-email.php:71-80 | with a valid configuration and a POST, the reply is 400 "Invalid JSON body" exactly when the body is not a list or object, so null (and invalid JSON) and scalars are rejected |
| `RelayProperties.ListBodyMissesToEmail` | send-email.php:73-93 | a JSON list passes the array check and then gets 422 "Missing field: toEmail" |
| `RelayProperties.FieldErrorNamesFirstMissingField` | send-email.php:82-93 | the reply is 422 "Missing field: F" exactly when F is the first of toEmail, toName, subject, htmlBody that is missing or PHP-empty |
| `RelayProperties.MessageFields` | send-email.php:103-120 | `send` gets a message exactly when all checks pass, the addresses are accepted and the alternative body can be computed; the message copies the config values and request fields; the alternative body is textBody when present and not null (even ""), otherwise htmlBody with tags stripped; once the addresses are accepted, a non-string htmlBody without textBody ends in the fatal reply |
| `RelayProperties.AddressRejectedReply` | send-email.php:115-136 | an address rejected by `setFrom` or `addAddress` is answered with 500 "Email sending failed" before the alternative body is computed, whatever the body fields hold, and nothing is sent |
| `RelayProperties.SendOutcomeReply` | send-email.php:122-136 | once a message is handed over, success replies 200 "Email sent" and any exception replies 500 "Email sending failed" |
| `RelayProperties.ErrorTextNotReplied` | send-email.php:129-136 | two failures at the same stage (address or send) with different exception texts give identical outcomes, so the text never reaches the reply |
| `RelayProperties.ReplyShape` | send-email.php:18-136 | every JSON reply has status 200, 400, 405, 422 or 500, and success is true exactly for 200 |
| `RelayProperties.SuccessMeansSent` | send-email.php:122-128 | a reply reports success exactly when a message was handed to `send` and sent |
| `RelayProperties.StripTagsExample` | send-email.php:120 | `strip_tags("<p>Hello</p>")` is "Hello" |
| `RelayProperties.SampleRequestSent` | send-email.php:100-128 | a POST of the four required fields with a complete configuration answers 200 "Email sent", with alternative body "Hello" |
| `RelayProperties.SampleGetRefused` | send-email.php:62-69 | a GET with a complete configuration answers 405 "Method not allowed" |

## Left out

- PHPMailer and SMTP are not modelled: STARTTLS, authentication, the 10-second timeout, UTF-8 charset, HTML content type and MIME building are library behaviour. The library's answers are one abstract input, in call order: `AddressRejected(text)` for `setFrom`/`addAddress`, then `Failed(text)` or `Sent` for `send`. PHPMailer's address validation itself is not modelled, so which addresses are rejected is not tied to the message.
- The constant settings on the mail object (`SMTPAuth`, `SMTPSecure`, `CharSet`, `isHTML`, `Timeout`) are not fields of `Message`, because they do not depend on any input.
- Type errors raised inside PHPMailer for request fields of the wrong JSON type are not modelled. An example is a list passed as the address, which trim() rejects. The model treats them like any other send outcome.
- Relay.Message: `port` is the raw MAIL_PORT string. PHP's `(int)` cast is not modelled.
- Reading `.env`, `parse_ini_file`, reading the request body, and `json_decode` are I/O and library parsing, so their results are inputs. INI array keys (`key[] = v`) and numeric INI keys are not modelled.
- JSON numbers with a fraction or exponent, and integers beyond PHP's 64-bit range (which `json_decode` turns into floats), are not in `Php.Value`. `empty(0.0)` and `strip_tags` on a float are therefore not covered.
- Php.Field: a lookup of an integer-like key in a list array (`$list["0"]`) is not modelled. The script only looks up non-numeric field names, which a list never has.
- Php.StripTags: a simplified stand-in for PHP's `strip_tags`. It removes each `<...>` span, and an unclosed `<` removes the rest. PHP's own rules for a `<` followed by whitespace, quotes inside tags, comments and PHP tags are not modelled. Nor are nested `<` inside a tag: PHP tracks the depth, so `"<a<b>c>d"` gives `"d"` where the model gives `"c>d"`. Nor are NUL bytes: PHP drops `'\0'`, so `StripTagsKeepsPlainText` does not hold of PHP for a string such as `"a\0b"`.
- `header()`, `http_response_code`, `echo json_encode` and `error_log` are output plumbing. They become the returned `Outcome`; the logged exception text is not part of it.
- A missing `REQUEST_METHOD` (command-line runs) is not modelled; the method is always a string.
- Where the prior `$_ENV` comes from (the process environment and `variables_order`) is not modelled; it is an input map.
- Loading `.env` is modelled as returning the new map (a local variable updated in the loop), not as a mutation of a global. Nothing else reads `$_ENV` after the script ends.
