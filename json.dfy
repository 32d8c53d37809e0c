/**
 * Parsed JSON values, the TypeBox object schemas the two analysis routes
 * declare, what it means for a value to conform to such a schema, and
 * JSON.stringify on string arrays (used to embed the label lists in a prompt).
 */
module Json {
  import opened Wrappers
  import opened JsString

  /** A value JSON.parse can produce. Object members keep their textual order. */
  datatype Json =
    | JNull
    | JBool(b: bool)
    | JNumber(n: real)
    | JString(s: string)
    | JArray(items: seq<Json>)
    | JObject(members: seq<(string, Json)>)

  /** The TypeBox constructors the routes use: Integer (with optional bounds), Number, String, Array, Object. */
  datatype Schema =
    | SInteger(minimum: Option<int>, maximum: Option<int>)
    | SNumber
    | SString
    | SArray(item: Schema)
    | SObject(props: seq<Property>)

  /** One property of Type.Object; `optional` is Type.Optional around it. */
  datatype Property = Property(name: string, schema: Schema, optional: bool)

  /** obj[key] after JSON.parse: when a key repeats, the last occurrence wins. */
  function Lookup(members: seq<(string, Json)>, key: string): (r: Option<Json>)
    ensures r.None? <==> forall k :: 0 <= k < |members| ==> members[k].0 != key
    ensures r.Some? ==> (key, r.value) in members
  {
    if members == [] then None
    else
      var last := members[|members| - 1];
      if last.0 == key then Some(last.1)
      else
        var r := Lookup(members[..|members| - 1], key);
        assert r.Some? ==> (key, r.value) in members[..|members| - 1];
        r
  }

  /** A found value comes from the last member with the key: no later member has it. */
  lemma {:induction false} LookupIsLast(members: seq<(string, Json)>, key: string)
    requires Lookup(members, key).Some?
    ensures exists k :: 0 <= k < |members| && members[k] == (key, Lookup(members, key).value)
                        && forall j :: k < j < |members| ==> members[j].0 != key
    decreases |members|
  {
    var n := |members| - 1;
    if members[n].0 != key {
      var init := members[..n];
      LookupIsLast(init, key);
      var k :| 0 <= k < |init| && init[k] == (key, Lookup(init, key).value)
               && forall j :: k < j < |init| ==> init[j].0 != key;
      assert members[k] == init[k];
      assert forall j :: k < j < n ==> members[j] == init[j];
    }
  }

  predicate IsInteger(x: real)
  {
    x.Floor as real == x
  }

  predicate WithinBounds(x: real, minimum: Option<int>, maximum: Option<int>)
  {
    (minimum.Some? ==> minimum.value as real <= x) && (maximum.Some? ==> x <= maximum.value as real)
  }

  /**
   * Conformance as TypeBox reads these schemas: required properties present,
   * optional ones absent or conforming, additional properties allowed.
   */
  predicate Conforms(j: Json, s: Schema)
    decreases s
  {
    match s
    case SInteger(lo, hi) => j.JNumber? && IsInteger(j.n) && WithinBounds(j.n, lo, hi)
    case SNumber => j.JNumber?
    case SString => j.JString?
    case SArray(item) => j.JArray? && forall k :: 0 <= k < |j.items| ==> Conforms(j.items[k], item)
    case SObject(props) =>
      j.JObject? &&
      forall k :: 0 <= k < |props| ==>
        match Lookup(j.members, props[k].name)
        case None => props[k].optional
        case Some(v) => Conforms(v, props[k].schema)
  }

  /** The property with a given name, searched from the front. */
  function FindProperty(props: seq<Property>, name: string): (r: Option<nat>)
    ensures r.Some? ==> r.value < |props| && props[r.value].name == name
    ensures r.None? ==> forall k :: 0 <= k < |props| ==> props[k].name != name
  {
    if props == [] then None
    else if props[0].name == name then Some(0)
    else
      match FindProperty(props[1..], name)
      case None => None
      case Some(k) => Some(k + 1)
  }

  /**
   * A value conforming to an object schema has every required bounded integer
   * property present, integral and inside its bounds.
   */
  lemma RequiredIntegerProperty(j: Json, props: seq<Property>, k: nat, lo: int, hi: int)
    requires Conforms(j, SObject(props))
    requires k < |props| && props[k].schema == SInteger(Some(lo), Some(hi)) && !props[k].optional
    ensures j.JObject?
    ensures var v := Lookup(j.members, props[k].name);
      v.Some? && v.value.JNumber? && IsInteger(v.value.n) && lo as real <= v.value.n <= hi as real
  {
  }

  /** A value conforming to an object schema has every required property, conforming to its schema. */
  lemma RequiredProperty(j: Json, props: seq<Property>, k: nat)
    requires Conforms(j, SObject(props))
    requires k < |props| && !props[k].optional
    ensures j.JObject?
    ensures var v := Lookup(j.members, props[k].name);
      v.Some? && Conforms(v.value, props[k].schema)
  {
  }

  /** An absent optional property never makes an object fail. */
  lemma OptionalPropertyMayBeAbsent(j: Json, props: seq<Property>, k: nat)
    requires j.JObject? && k < |props| && props[k].optional
    requires Lookup(j.members, props[k].name).None?
    requires forall i :: 0 <= i < |props| && i != k ==>
      match Lookup(j.members, props[i].name)
      case None => props[i].optional
      case Some(v) => Conforms(v, props[i].schema)
    ensures Conforms(j, SObject(props))
  {
  }

  // ---------------------------------------------------------------------------
  // JSON.stringify on strings and string arrays.

  function HexDigit(d: nat): (c: char)
    requires d < 16
    ensures IsHexDigit(c) && HexValue(c) == d
  {
    if d < 10 then ('0' as int + d) as char else ('a' as int + d - 10) as char
  }

  predicate IsHexDigit(c: char)
  {
    ('0' <= c <= '9') || ('a' <= c <= 'f') || ('A' <= c <= 'F')
  }

  function HexValue(c: char): nat
    requires IsHexDigit(c)
  {
    if '0' <= c <= '9' then c as int - '0' as int
    else if 'a' <= c <= 'f' then c as int - 'a' as int + 10
    else c as int - 'A' as int + 10
  }

  /** How JSON.stringify writes one character inside a string literal. */
  function EscapeChar(c: char): (r: string)
    ensures |r| >= 1
  {
    if c == '"' then "\\\""
    else if c == '\\' then "\\\\"
    else if c == '\U{0008}' then "\\b"
    else if c == '\U{000C}' then "\\f"
    else if c == '\n' then "\\n"
    else if c == '\r' then "\\r"
    else if c == '\t' then "\\t"
    else if (c as int) < 0x20 then "\\u00" + [HexDigit(c as int / 16), HexDigit(c as int % 16)]
    else [c]
  }

  function Escape(s: string): string
  {
    if s == [] then "" else EscapeChar(s[0]) + Escape(s[1..])
  }

  /** JSON.stringify on a string. */
  function Quote(s: string): string
  {
    "\"" + Escape(s) + "\""
  }

  function JoinQuoted(xs: seq<string>): string
  {
    if xs == [] then ""
    else if |xs| == 1 then Quote(xs[0])
    else Quote(xs[0]) + "," + JoinQuoted(xs[1..])
  }

  /** JSON.stringify on an array of strings (no indentation). */
  function StringifyStrings(xs: seq<string>): (r: string)
    ensures |r| >= 2 && r[0] == '[' && r[|r| - 1] == ']'
  {
    "[" + JoinQuoted(xs) + "]"
  }

  /** Reads back the escaped text of a string literal (the inverse of Escape). */
  function Unescape(t: string): Option<string>
    decreases |t|
  {
    if t == [] then Some("")
    else if t[0] != '\\' then
      if t[0] == '"' || (t[0] as int) < 0x20 then None
      else match Unescape(t[1..]) case None => None case Some(r) => Some([t[0]] + r)
    else if |t| < 2 then None
    else
      var e := t[1];
      var simple :=
        if e == '"' then Some('"') else if e == '\\' then Some('\\') else if e == '/' then Some('/')
        else if e == 'b' then Some('\U{0008}') else if e == 'f' then Some('\U{000C}')
        else if e == 'n' then Some('\n') else if e == 'r' then Some('\r') else if e == 't' then Some('\t')
        else None;
      if simple.Some? then
        match Unescape(t[2..]) case None => None case Some(r) => Some([simple.value] + r)
      else if e == 'u' && |t| >= 6 && t[2] == '0' && t[3] == '0' && IsHexDigit(t[4]) && IsHexDigit(t[5]) then
        var code := HexValue(t[4]) * 16 + HexValue(t[5]);
        match Unescape(t[6..]) case None => None case Some(r) => Some([code as char] + r)
      else None
  }

  lemma UnescapeChar(c: char, rest: string)
    ensures Unescape(EscapeChar(c) + rest) == match Unescape(rest) case None => None case Some(r) => Some([c] + r)
  {
    var t := EscapeChar(c) + rest;
    if (c as int) < 0x20 && c != '\U{0008}' && c != '\U{000C}' && c != '\n' && c != '\r' && c != '\t' {
      assert t[6..] == rest;
      assert (c as int / 16) * 16 + c as int % 16 == c as int;
    } else if c == '"' || c == '\\' || c == '\U{0008}' || c == '\U{000C}' || c == '\n' || c == '\r' || c == '\t' {
      assert t[2..] == rest;
    } else {
      assert t[1..] == rest;
    }
  }

  /** Escaping loses nothing: the escaped text reads back as the original string. */
  lemma {:induction false} EscapeRoundTrip(s: string)
    ensures Unescape(Escape(s)) == Some(s)
  {
    if s != [] {
      EscapeRoundTrip(s[1..]);
      UnescapeChar(s[0], Escape(s[1..]));
      assert [s[0]] + s[1..] == s;
    }
  }

  /** A character that JSON.stringify copies unchanged. */
  predicate PlainChar(c: char)
  {
    c != '"' && c != '\\' && (c as int) >= 0x20
  }

  lemma {:induction false} EscapePlain(s: string)
    requires forall i :: 0 <= i < |s| ==> PlainChar(s[i])
    ensures Escape(s) == s
  {
    if s != [] {
      EscapePlain(s[1..]);
      assert [s[0]] + s[1..] == s;
    }
  }

  /** The quoted form of every string of the list appears in the list's joined encoding. */
  lemma {:induction false} JoinQuotedHasEach(xs: seq<string>, k: nat)
    requires k < |xs|
    ensures Contains(JoinQuoted(xs), Quote(xs[k]))
  {
    if k == 0 {
      ContainsSelf(Quote(xs[0]));
      if |xs| > 1 {
        ContainsExtendRight(Quote(xs[0]), ",", Quote(xs[0]));
        ContainsExtendRight(Quote(xs[0]) + ",", JoinQuoted(xs[1..]), Quote(xs[0]));
      }
    } else {
      JoinQuotedHasEach(xs[1..], k - 1);
      ContainsExtendLeft(Quote(xs[0]) + ",", JoinQuoted(xs[1..]), Quote(xs[k]));
    }
  }

  /** Every string of the list appears, quoted and escaped, in the stringified array. */
  lemma StringifyHasEach(xs: seq<string>, k: nat)
    requires k < |xs|
    ensures Contains(StringifyStrings(xs), Quote(xs[k]))
  {
    JoinQuotedHasEach(xs, k);
    ContainsExtendLeft("[", JoinQuoted(xs), Quote(xs[k]));
    ContainsExtendRight("[" + JoinQuoted(xs), "]", Quote(xs[k]));
  }
}
