/** `parseMaybeJson` and `extractReplyText` / `resolve`: the search for a
    human-readable reply inside whatever the chat webhook answered. */
module ReplyExtractor {
  import opened JsonValue
  import opened JsText

  /** The keys consulted, in this order, before the blind scan of all values. */
  const PreferredKeys: seq<string> := ["reply", "response", "message", "text", "content", "output"]

  lemma PreferredKeyNames()
    ensures |PreferredKeys| == 6
    ensures PreferredKeys[0] == "reply" && PreferredKeys[1] == "response" && PreferredKeys[2] == "message"
    ensures PreferredKeys[3] == "text" && PreferredKeys[4] == "content" && PreferredKeys[5] == "output"
  {
  }

  predicate IsContainer(v: Json) {
    v.JArr? || v.JObj?
  }

  /** What the model assumes of `JSON.parse`, given as `parse` (None when it
      throws): a text that starts with `{` or `[` and ends with the matching
      bracket denotes an object or an array, and every JSON text is longer
      than the size of the array or object it denotes. */
  ghost predicate ValidParser(parse: string -> Option<Json>) {
    forall t :: Bracketed(t) && parse(t).Some? ==>
      IsContainer(parse(t).value) && Size(parse(t).value) < |t|
  }

  /** `parseMaybeJson`: a string whose trimmed form is bracket-delimited is
      replaced by what `JSON.parse` makes of the trimmed form; every other
      value, and a string that fails to parse, is returned untouched. */
  function ParseMaybeJson(parse: string -> Option<Json>, value: Json): (r: Json)
    requires ValidParser(parse)
    ensures !value.JStr? ==> r == value
    ensures r.JStr? ==> r == value
    ensures r != value <==> value.JStr? && Bracketed(Trim(value.s)) && parse(Trim(value.s)).Some?
    ensures r != value ==> IsContainer(r) && Size(r) < Size(value)
  {
    if !value.JStr? then value
    else
      var trimmed := Trim(value.s);
      if Bracketed(trimmed) then
        match parse(trimmed)
        case Some(parsed) => parsed
        case None => value
      else value
  }

  /** A string whose trimmed form is bracket-delimited and parses becomes
      exactly what `JSON.parse` makes of the trimmed form. */
  lemma ParseMaybeJsonParses(parse: string -> Option<Json>, s: string)
    requires ValidParser(parse)
    requires Bracketed(Trim(s)) && parse(Trim(s)).Some?
    ensures ParseMaybeJson(parse, JStr(s)) == parse(Trim(s)).value
  {
  }

  /** `x` is the text of a string inside `v`: a string leaf, where a string
      that `ParseMaybeJson` turns into a container stands for the strings
      inside that container. This is the reference against which
      `Resolve` is proved never to invent text. */
  ghost predicate Mentions(parse: string -> Option<Json>, v: Json, x: string)
    requires ValidParser(parse)
    decreases Size(v), 1
  {
    match v
    case JStr(s) =>
      var p := ParseMaybeJson(parse, v);
      if p.JStr? then x == s else Mentions(parse, p, x)
    case JArr(items) => MentionedInItems(parse, items, x)
    case JObj(fields) => MentionedInFields(parse, fields, x)
    case _ => false
  }

  ghost predicate MentionedInItems(parse: string -> Option<Json>, items: seq<Json>, x: string)
    requires ValidParser(parse)
    decreases ItemsSize(items) + 1, 0
  {
    |items| > 0 && (Mentions(parse, items[0], x) || MentionedInItems(parse, items[1..], x))
  }

  ghost predicate MentionedInFields(parse: string -> Option<Json>, fields: seq<(string, Json)>, x: string)
    requires ValidParser(parse)
    decreases FieldsSize(fields), 0
  {
    |fields| > 0 && (Mentions(parse, fields[0].1, x) || MentionedInFields(parse, fields[1..], x))
  }

  /** `resolve(input)`: `""` for null, otherwise the search on the value that
      `parseMaybeJson` makes of `input`. A non-empty reply is always the text
      of some string found in the payload. */
  function Resolve(parse: string -> Option<Json>, input: Json): (r: string)
    requires ValidParser(parse)
    ensures r != "" ==> Mentions(parse, input, r)
    decreases Size(input), 3
  {
    if input.JNull? then ""
    else Examine(parse, ParseMaybeJson(parse, input))
  }

  /** The part of `resolve` after `parseMaybeJson`: a string is the reply,
      a non-empty array gives the reply of its first element only, an object
      the first non-empty reply under a preferred key and otherwise the first
      non-empty reply among all its values. An empty array takes the object
      path in JavaScript (`typeof [] === "object"`), where it has none of the
      preferred keys and no values, so it gives `""` like numbers and
      booleans. */
  function Examine(parse: string -> Option<Json>, parsed: Json): (r: string)
    requires ValidParser(parse)
    ensures parsed.JStr? ==> r == parsed.s
    ensures r != "" && !parsed.JStr? ==> Mentions(parse, parsed, r)
    decreases Size(parsed), 2
  {
    match parsed
    case JStr(s) => s
    case JArr(items) =>
      if |items| > 0 then
        assert ItemsSize(items) == Size(items[0]) + ItemsSize(items[1..]);
        Resolve(parse, items[0])
      else ""
    case JObj(fields) =>
      var r := SearchKeys(parse, fields, PreferredKeys);
      if r != "" then r else SearchValues(parse, fields)
    case _ => ""
  }

  /** The `for (const key of preferredKeys)` loop: the first key of `keys`
      present in the object whose value resolves to a non-empty reply gives
      that reply; `""` when there is none. */
  function SearchKeys(parse: string -> Option<Json>, fields: seq<(string, Json)>, keys: seq<string>): (r: string)
    requires ValidParser(parse)
    ensures r != "" ==> MentionedInFields(parse, fields, r)
    decreases FieldsSize(fields), 1, |keys|
  {
    if |keys| == 0 then ""
    else
      match Lookup(fields, keys[0])
      case Some(v) =>
        var r := Resolve(parse, v);
        if r != "" then LookupMentioned(parse, fields, keys[0], r); r
        else SearchKeys(parse, fields, keys[1..])
      case None => SearchKeys(parse, fields, keys[1..])
  }

  /** The `for (const value of Object.values(parsed))` loop: the first value,
      in property order, that resolves to a non-empty reply gives it; `""`
      when there is none. */
  function SearchValues(parse: string -> Option<Json>, fields: seq<(string, Json)>): (r: string)
    requires ValidParser(parse)
    ensures r != "" ==> MentionedInFields(parse, fields, r)
    decreases FieldsSize(fields), 1, 0
  {
    if |fields| == 0 then ""
    else
      var r := Resolve(parse, fields[0].1);
      if r != "" then r else SearchValues(parse, fields[1..])
  }

  /** `extractReplyText(payload)`: `""`, or the text of a string found in
      the payload. */
  function ExtractReplyText(parse: string -> Option<Json>, payload: Json): (r: string)
    requires ValidParser(parse)
    ensures r != "" ==> Mentions(parse, payload, r)
  {
    Resolve(parse, payload)
  }

  /** A string inside the value bound to a key is a string inside the object. */
  lemma {:induction false} LookupMentioned(parse: string -> Option<Json>, fields: seq<(string, Json)>, key: string, x: string)
    requires ValidParser(parse)
    requires Lookup(fields, key).Some? && Mentions(parse, Lookup(fields, key).value, x)
    ensures MentionedInFields(parse, fields, x)
  {
    if fields[0].0 != key {
      LookupMentioned(parse, fields[1..], key, x);
    }
  }
}
