/** What the reply extractor promises, stated over all payloads. */
module ReplyProperties {
  import opened JsonValue
  import opened JsText
  import opened ReplyExtractor

  /** Null, numbers, booleans, an empty array and an empty object carry no
      reply. */
  lemma NothingFromEmptyShapes(parse: string -> Option<Json>, b: bool)
    requires ValidParser(parse)
    ensures Resolve(parse, JNull) == ""
    ensures Resolve(parse, JNum) == ""
    ensures Resolve(parse, JBool(b)) == ""
    ensures Resolve(parse, JArr([])) == ""
    ensures Resolve(parse, JObj([])) == ""
  {
  }

  /** A string is its own reply, untrimmed and even when empty, unless its
      trimmed form is bracket-delimited and parses. */
  lemma StringVerbatim(parse: string -> Option<Json>, s: string)
    requires ValidParser(parse)
    requires !Bracketed(Trim(s)) || parse(Trim(s)).None?
    ensures Resolve(parse, JStr(s)) == s
  {
  }

  /** A string whose trimmed form is bracket-delimited and parses gives the
      reply of the parsed value. */
  lemma ParsedStringResolved(parse: string -> Option<Json>, s: string, parsed: Json)
    requires ValidParser(parse)
    requires Bracketed(Trim(s)) && parse(Trim(s)) == Some(parsed)
    ensures Resolve(parse, JStr(s)) == Resolve(parse, parsed)
  {
    assert IsContainer(parsed);
  }

  /** A JSON text, possibly with white space around it, that parses to an
      object holding under `reply` a non-empty string that is not re-parsed
      gives that string. */
  lemma ReplyOfJsonText(parse: string -> Option<Json>, text: string, obj: seq<(string, Json)>, s: string)
    requires ValidParser(parse)
    requires Bracketed(Trim(text)) && parse(Trim(text)) == Some(JObj(obj))
    requires Lookup(obj, "reply") == Some(JStr(s)) && s != ""
    requires !Bracketed(Trim(s)) || parse(Trim(s)).None?
    ensures Resolve(parse, JStr(text)) == s
  {
    ParsedStringResolved(parse, text, JObj(obj));
    ReplyKeyWins(parse, obj, s);
  }

  /** `'{not json'` is returned as it is: it does not end with `}`, so it is
      never handed to the parser. */
  lemma MalformedTextExample(parse: string -> Option<Json>, text: string)
    requires ValidParser(parse)
    requires text == "{not json"
    ensures Resolve(parse, JStr(text)) == text
  {
    assert Trim(text) == text && !Bracketed(text) by {
      TrimOfTrimmed(text);
    }
    StringVerbatim(parse, text);
  }

  /** A non-empty array gives exactly the reply of its first element. */
  lemma ArrayGivesFirst(parse: string -> Option<Json>, items: seq<Json>)
    requires ValidParser(parse)
    requires |items| > 0
    ensures Resolve(parse, JArr(items)) == Resolve(parse, items[0])
  {
  }

  /** Later elements of an array are never consulted, even when the first one
      gives `""`. */
  lemma ArrayIgnoresRest(parse: string -> Option<Json>, first: Json, rest: seq<Json>, other: seq<Json>)
    requires ValidParser(parse)
    ensures Resolve(parse, JArr([first] + rest)) == Resolve(parse, JArr([first] + other))
  {
    ArrayGivesFirst(parse, [first] + rest);
    ArrayGivesFirst(parse, [first] + other);
  }

  /** `key` is absent from the object, or its value gives no reply. */
  ghost predicate KeyMisses(parse: string -> Option<Json>, fields: seq<(string, Json)>, key: string)
    requires ValidParser(parse)
  {
    Lookup(fields, key).None? || Resolve(parse, Lookup(fields, key).value) == ""
  }

  lemma {:induction false} SearchKeysFirstHit(parse: string -> Option<Json>, fields: seq<(string, Json)>, keys: seq<string>, j: nat)
    requires ValidParser(parse)
    requires j < |keys| && !KeyMisses(parse, fields, keys[j])
    requires forall k :: 0 <= k < j ==> KeyMisses(parse, fields, keys[k])
    ensures SearchKeys(parse, fields, keys) == Resolve(parse, Lookup(fields, keys[j]).value)
  {
    if j > 0 {
      SearchKeysFirstHit(parse, fields, keys[1..], j - 1);
    }
  }

  lemma {:induction false} SearchKeysAllMiss(parse: string -> Option<Json>, fields: seq<(string, Json)>, keys: seq<string>)
    requires ValidParser(parse)
    requires forall k :: 0 <= k < |keys| ==> KeyMisses(parse, fields, keys[k])
    ensures SearchKeys(parse, fields, keys) == ""
  {
    if |keys| > 0 {
      SearchKeysAllMiss(parse, fields, keys[1..]);
    }
  }

  lemma {:induction false} SearchValuesFirstHit(parse: string -> Option<Json>, fields: seq<(string, Json)>, i: nat)
    requires ValidParser(parse)
    requires i < |fields| && Resolve(parse, fields[i].1) != ""
    requires forall k :: 0 <= k < i ==> Resolve(parse, fields[k].1) == ""
    ensures SearchValues(parse, fields) == Resolve(parse, fields[i].1)
  {
    if i > 0 {
      SearchValuesFirstHit(parse, fields[1..], i - 1);
    }
  }

  lemma {:induction false} SearchValuesAllMiss(parse: string -> Option<Json>, fields: seq<(string, Json)>)
    requires ValidParser(parse)
    requires forall k :: 0 <= k < |fields| ==> Resolve(parse, fields[k].1) == ""
    ensures SearchValues(parse, fields) == ""
  {
    if |fields| > 0 {
      SearchValuesAllMiss(parse, fields[1..]);
    }
  }

  /** An object gives the reply of its first preferred key, in the order
      reply, response, message, text, content, output, that is present and
      gives a non-empty reply; the keys after it are not examined. */
  lemma ObjectPreferredKey(parse: string -> Option<Json>, fields: seq<(string, Json)>, j: nat)
    requires ValidParser(parse)
    requires j < |PreferredKeys| && !KeyMisses(parse, fields, PreferredKeys[j])
    requires forall k :: 0 <= k < j ==> KeyMisses(parse, fields, PreferredKeys[k])
    ensures Resolve(parse, JObj(fields)) == Resolve(parse, Lookup(fields, PreferredKeys[j]).value)
  {
    SearchKeysFirstHit(parse, fields, PreferredKeys, j);
  }

  /** Only when no preferred key gives a reply are all values scanned, in
      property order, and the first non-empty reply among them is the reply. */
  lemma ObjectFallbackValue(parse: string -> Option<Json>, fields: seq<(string, Json)>, i: nat)
    requires ValidParser(parse)
    requires forall k :: 0 <= k < |PreferredKeys| ==> KeyMisses(parse, fields, PreferredKeys[k])
    requires i < |fields| && Resolve(parse, fields[i].1) != ""
    requires forall k :: 0 <= k < i ==> Resolve(parse, fields[k].1) == ""
    ensures Resolve(parse, JObj(fields)) == Resolve(parse, fields[i].1)
  {
    SearchKeysAllMiss(parse, fields, PreferredKeys);
    SearchValuesFirstHit(parse, fields, i);
  }

  /** An object in which neither a preferred key nor any value gives a reply
      gives `""`. */
  lemma ObjectNoReply(parse: string -> Option<Json>, fields: seq<(string, Json)>)
    requires ValidParser(parse)
    requires forall k :: 0 <= k < |PreferredKeys| ==> KeyMisses(parse, fields, PreferredKeys[k])
    requires forall k :: 0 <= k < |fields| ==> Resolve(parse, fields[k].1) == ""
    ensures Resolve(parse, JObj(fields)) == ""
  {
    SearchKeysAllMiss(parse, fields, PreferredKeys);
    SearchValuesAllMiss(parse, fields);
  }

  /** A non-empty string under the preferred key `PreferredKeys[j]` that is
      not re-parsed (its trimmed form is not bracket-delimited, or does not
      parse) is the reply when none of the keys before it is present. */
  lemma PlainStringUnderPreferredKey(parse: string -> Option<Json>, fields: seq<(string, Json)>, j: nat, s: string)
    requires ValidParser(parse)
    requires j < |PreferredKeys| && forall k :: 0 <= k < j ==> Lookup(fields, PreferredKeys[k]).None?
    requires Lookup(fields, PreferredKeys[j]) == Some(JStr(s)) && s != ""
    requires !Bracketed(Trim(s)) || parse(Trim(s)).None?
    ensures Resolve(parse, JObj(fields)) == s
  {
    StringVerbatim(parse, s);
    ObjectPreferredKey(parse, fields, j);
  }

  /** A non-empty string under `reply` that is not re-parsed is the reply,
      whatever else the object holds. A string that is itself
      bracket-delimited JSON is parsed again, so it is excluded here. */
  lemma ReplyKeyWins(parse: string -> Option<Json>, fields: seq<(string, Json)>, s: string)
    requires ValidParser(parse)
    requires Lookup(fields, "reply") == Some(JStr(s)) && s != ""
    requires !Bracketed(Trim(s)) || parse(Trim(s)).None?
    ensures Resolve(parse, JObj(fields)) == s
  {
    PreferredKeyNames();
    PlainStringUnderPreferredKey(parse, fields, 0, s);
  }

  /** A non-empty string under `text` that is not re-parsed is the reply
      when `reply`, `response` and `message` are absent. */
  lemma TextKeyWhenHigherKeysAbsent(parse: string -> Option<Json>, fields: seq<(string, Json)>, s: string)
    requires ValidParser(parse)
    requires Lookup(fields, "reply").None? && Lookup(fields, "response").None? && Lookup(fields, "message").None?
    requires Lookup(fields, "text") == Some(JStr(s)) && s != ""
    requires !Bracketed(Trim(s)) || parse(Trim(s)).None?
    ensures Resolve(parse, JObj(fields)) == s
  {
    PreferredKeyNames();
    forall k | 0 <= k < 3
      ensures Lookup(fields, PreferredKeys[k]).None?
    {
      if k == 0 {
        assert PreferredKeys[k] == "reply";
      } else if k == 1 {
        assert PreferredKeys[k] == "response";
      } else {
        assert PreferredKeys[k] == "message";
      }
    }
    PlainStringUnderPreferredKey(parse, fields, 3, s);
  }
}
