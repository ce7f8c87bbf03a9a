/**
 * The slice of PHP's value semantics that the mail relay handler relies on:
 * the values `json_decode($body, true)` can produce, the `empty()` test,
 * `is_array`, array lookups of string keys, and `strip_tags`.
 */
module Php {

  /**
   * A decoded JSON request body. With `true` as its second argument,
   * `json_decode` turns a JSON object into an associative array (Object) and
   * a JSON list into a list array (List). Invalid JSON also decodes to Null.
   */
  datatype Value =
    | Null
    | Bool(b: bool)
    | Int(i: int)
    | Str(s: string)
    | List(items: seq<Value>)
    | Object(fields: map<string, Value>)

  /** `empty($s)` for a string: only "" and "0" are empty. */
  predicate EmptyString(s: string) {
    s == "" || s == "0"
  }

  /** `empty($v)`: PHP's falsy values. */
  predicate Empty(v: Value) {
    match v
    case Null => true
    case Bool(b) => !b
    case Int(i) => i == 0
    case Str(s) => EmptyString(s)
    case List(items) => |items| == 0
    case Object(fields) => |fields| == 0
  }

  /** `is_array($v)`: both JSON lists and JSON objects decode to PHP arrays. */
  predicate IsArray(v: Value) {
    v.List? || v.Object?
  }

  /**
   * `$v[$key]` inside `empty()` or on the left of `??`, where a missing key
   * yields null without a warning. A list array has only integer keys, so a
   * lookup of a non-numeric key such as a field name misses it.
   */
  function Field(v: Value, key: string): Value {
    match v
    case Object(fields) => if key in fields then fields[key] else Null
    case _ => Null
  }

  /** The rest of `s` after the first '>', or nothing when the tag is never closed. */
  function SkipTag(s: string): (r: string)
    ensures |r| <= |s|
    ensures r == [] || (exists k :: 0 <= k < |s| && s[k] == '>' && r == s[k + 1..])
  {
    if s == [] then []
    else if s[0] == '>' then s[1..]
    else
      var r := SkipTag(s[1..]);
      assert r != [] ==> exists k :: 0 <= k < |s| && s[k] == '>' && r == s[k + 1..] by {
        if r != [] {
          var k :| 0 <= k < |s[1..]| && s[1..][k] == '>' && r == s[1..][k + 1..];
          assert s[k + 1] == '>' && r == s[k + 2..];
        }
      }
      r
  }

  /**
   * `strip_tags($s)`, simplified: every span from a '<' up to and including
   * the next '>' is removed; a '<' that is never closed removes the rest.
   */
  function StripTags(s: string): (r: string)
    ensures |r| <= |s|
    ensures '<' !in r
    decreases |s|
  {
    if s == [] then []
    else if s[0] == '<' then StripTags(SkipTag(s[1..]))
    else [s[0]] + StripTags(s[1..])
  }

  /** A string without markup passes through `strip_tags` unchanged. */
  lemma {:induction false} StripTagsKeepsPlainText(s: string)
    requires '<' !in s
    ensures StripTags(s) == s
  {
    if s != [] {
      StripTagsKeepsPlainText(s[1..]);
    }
  }

  /** A closed tag is removed together with its contents. */
  lemma {:induction false} StripTagsDropsTag(inner: string, rest: string)
    requires '>' !in inner
    ensures StripTags("<" + inner + ">" + rest) == StripTags(rest)
  {
    SkipTagPastClose(inner, rest);
    assert ("<" + inner + ">" + rest)[1..] == inner + ">" + rest;
  }

  lemma {:induction false} SkipTagPastClose(inner: string, rest: string)
    requires '>' !in inner
    ensures SkipTag(inner + ">" + rest) == rest
  {
    if inner == [] {
      assert ([] + ">" + rest)[1..] == rest;
    } else {
      assert (inner + ">" + rest)[1..] == inner[1..] + ">" + rest;
      SkipTagPastClose(inner[1..], rest);
    }
  }

  /** Text before the first '<' is kept as it is. */
  lemma {:induction false} StripTagsKeepsText(text: string, rest: string)
    requires '<' !in text
    ensures StripTags(text + rest) == text + StripTags(rest)
  {
    if text != [] {
      assert (text + rest)[1..] == text[1..] + rest;
      StripTagsKeepsText(text[1..], rest);
    } else {
      assert text + rest == rest;
    }
  }

  /** Stripping tags twice is the same as stripping them once. */
  lemma StripTagsIdempotent(s: string)
    ensures StripTags(StripTags(s)) == StripTags(s)
  {
    StripTagsKeepsPlainText(StripTags(s));
  }

  /** The PHP-empty values are exactly null, false, 0, "", "0" and the empty array. */
  lemma EmptyValues(v: Value)
    ensures Empty(v) <==>
      v == Null || v == Bool(false) || v == Int(0) || v == Str("") || v == Str("0")
      || v == List([]) || v == Object(map[])
  {
  }
}
