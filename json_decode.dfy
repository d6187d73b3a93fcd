/** A JSON reader for the values of module Json: what a consumer of the
    configuration document (Vector itself, or a structural comparison such
    as the controller's test makes) recovers from the encoder's text. Its
    use here is the round trip: reading back what `Json.Encode` wrote gives
    the value that was written. */
module JsonDecode {
  import opened Results
  import opened Json

  predicate IsSpace(c: char) {
    c == ' ' || c == '\t' || c == '\n' || c == '\r'
  }

  function SkipSpace(s: string): (r: string)
    ensures |r| <= |s|
  {
    if s != [] && IsSpace(s[0]) then SkipSpace(s[1..]) else s
  }

  function HexValue(c: char): Option<nat> {
    if '0' <= c <= '9' then Some(c as int - '0' as int)
    else if 'a' <= c <= 'f' then Some(c as int - 'a' as int + 10)
    else if 'A' <= c <= 'F' then Some(c as int - 'A' as int + 10)
    else None
  }

  function ParseHex4(s: string): (r: Option<nat>)
    requires |s| == 4
    ensures r.Some? ==> r.value < 0x10000
  {
    match (HexValue(s[0]), HexValue(s[1]), HexValue(s[2]), HexValue(s[3]))
    case (Some(a), Some(b), Some(c), Some(d)) =>
      if a < 16 && b < 16 && c < 16 && d < 16 then Some(a * 4096 + b * 256 + c * 16 + d) else None
    case _ => None
  }

  /** The text after a backslash: the character the escape stands for and the
      number of characters it spans. */
  function ParseEscape(s: string): (r: Result<(char, nat)>)
    ensures r.Ok? ==> 1 <= r.value.1 <= |s|
  {
    if s == [] then Err("unexpected end of JSON input")
    else if s[0] == '"' || s[0] == '\\' || s[0] == '/' then Ok((s[0], 1))
    else if s[0] == 'b' then Ok((0x08 as char, 1))
    else if s[0] == 'f' then Ok((0x0C as char, 1))
    else if s[0] == 'n' then Ok(('\n', 1))
    else if s[0] == 'r' then Ok(('\r', 1))
    else if s[0] == 't' then Ok(('\t', 1))
    else if s[0] == 'u' && |s| >= 5 then
      match ParseHex4(s[1..5])
      case Some(n) =>
        if n < 0xD800 || 0xE000 <= n then Ok((n as char, 5))
        else Err("surrogate escapes are not read")
      case None => Err("invalid character in \\u hexadecimal character escape")
    else Err("invalid character in string escape code")
  }

  /** The text after an opening quote, up to and including the closing one. */
  function ParseStringBody(s: string): (r: Result<(string, string)>)
    ensures r.Ok? ==> |r.value.1| < |s|
    decreases |s|
  {
    if s == [] then Err("unexpected end of JSON input")
    else if s[0] == '"' then Ok(([], s[1..]))
    else if s[0] == '\\' then
      var e :- ParseEscape(s[1..]);
      var p :- ParseStringBody(s[1 + e.1..]);
      Ok(([e.0] + p.0, p.1))
    else if s[0] < ' ' then Err("invalid character in string literal")
    else
      var p :- ParseStringBody(s[1..]);
      Ok(([s[0]] + p.0, p.1))
  }

  /** One value, after optional white space; returns the text that follows. */
  function ParseValue(s: string): (r: Result<(Value, string)>)
    ensures r.Ok? ==> |r.value.1| < |s|
    decreases |s|, 0
  {
    var t := SkipSpace(s);
    if t == [] then Err("unexpected end of JSON input")
    else if t[0] == '[' then ParseArrayRest(t[1..])
    else if t[0] == '{' then ParseObjectRest(t[1..])
    else if t[0] == '"' then
      var p :- ParseStringBody(t[1..]);
      Ok((Str(p.0), p.1))
    else ParseLiteral(t)
  }

  function ParseLiteral(t: string): (r: Result<(Value, string)>)
    ensures r.Ok? ==> |r.value.1| < |t|
  {
    if |t| >= 4 && t[..4] == "null" then Ok((Null, t[4..]))
    else if |t| >= 4 && t[..4] == "true" then Ok((Bool(true), t[4..]))
    else if |t| >= 5 && t[..5] == "false" then Ok((Bool(false), t[5..]))
    else Err("invalid character looking for beginning of value")
  }

  /** The text after an opening bracket. */
  function ParseArrayRest(s: string): (r: Result<(Value, string)>)
    ensures r.Ok? ==> |r.value.1| < |s|
    decreases |s|, 2
  {
    var u := SkipSpace(s);
    if u != [] && u[0] == ']' then Ok((Arr([]), u[1..]))
    else
      var p :- ParseItems(u);
      Ok((Arr(p.0), p.1))
  }

  /** The text after an opening brace. */
  function ParseObjectRest(s: string): (r: Result<(Value, string)>)
    ensures r.Ok? ==> |r.value.1| < |s|
    decreases |s|, 2
  {
    var u := SkipSpace(s);
    if u != [] && u[0] == '}' then Ok((Obj(map[]), u[1..]))
    else
      var p :- ParseMembers(u);
      Ok((Obj(p.0), p.1))
  }

  /** The elements of a non-empty array and its closing bracket. */
  function ParseItems(s: string): (r: Result<(seq<Value>, string)>)
    ensures r.Ok? ==> |r.value.1| < |s|
    decreases |s|, 1
  {
    var p :- ParseValue(s);
    ParseItemsAfter(p.0, p.1)
  }

  /** What follows array element `x`: more elements, or the closing bracket. */
  function ParseItemsAfter(x: Value, s: string): (r: Result<(seq<Value>, string)>)
    ensures r.Ok? ==> |r.value.1| < |s|
    decreases |s|, 1
  {
    var t := SkipSpace(s);
    if t != [] && t[0] == ',' then
      var q :- ParseItems(t[1..]);
      Ok(([x] + q.0, q.1))
    else if t != [] && t[0] == ']' then Ok(([x], t[1..]))
    else Err("invalid character after array element")
  }

  /** The members of a non-empty object and its closing brace; a later member
      with the same name replaces an earlier one. */
  function ParseMembers(s: string): (r: Result<(map<string, Value>, string)>)
    ensures r.Ok? ==> |r.value.1| < |s|
    decreases |s|, 1
  {
    var t := SkipSpace(s);
    if t == [] || t[0] != '"' then Err("invalid character looking for beginning of object key string")
    else
      var k :- ParseStringBody(t[1..]);
      ParseMemberValue(k.0, k.1)
  }

  /** What follows the name `key` of a member: a colon and the value. */
  function ParseMemberValue(key: string, s: string): (r: Result<(map<string, Value>, string)>)
    ensures r.Ok? ==> |r.value.1| < |s|
    decreases |s|, 1
  {
    var u := SkipSpace(s);
    if u == [] || u[0] != ':' then Err("invalid character after object key")
    else
      var p :- ParseValue(u[1..]);
      ParseMembersAfter(key, p.0, p.1)
  }

  /** What follows member `key: x`: more members, or the closing brace. */
  function ParseMembersAfter(key: string, x: Value, s: string): (r: Result<(map<string, Value>, string)>)
    ensures r.Ok? ==> |r.value.1| < |s|
    decreases |s|, 1
  {
    var w := SkipSpace(s);
    if w != [] && w[0] == ',' then
      var q :- ParseMembers(w[1..]);
      Ok((map[key := x] + q.0, q.1))
    else if w != [] && w[0] == '}' then Ok((map[key := x], w[1..]))
    else Err("invalid character after object key:value pair")
  }

  /** A whole document: one value, then nothing but white space. */
  function Decode(s: string): Result<Value> {
    var p :- ParseValue(s);
    if SkipSpace(p.1) == [] then Ok(p.0) else Err("invalid character after top-level value")
  }

  // ---------------------------------------------------------------------------
  // Round trip: reading back the encoder's text.

  lemma SkipSpaceStops(s: string)
    requires s != [] && !IsSpace(s[0])
    ensures SkipSpace(s) == s
  {
  }

  lemma HexDigitRoundTrip(d: nat)
    requires d < 16
    ensures HexValue(HexDigit(d)) == Some(d)
  {
  }

  lemma Hex4RoundTrip(n: nat)
    requires n < 0x10000
    ensures ParseHex4(Hex4(n)) == Some(n)
  {
    var q1 := n / 16;
    var q2 := q1 / 16;
    var q3 := q2 / 16;
    HexDigitRoundTrip(q3);
    HexDigitRoundTrip(q2 % 16);
    HexDigitRoundTrip(q1 % 16);
    HexDigitRoundTrip(n % 16);
    assert n == q1 * 16 + n % 16;
    assert q1 == q2 * 16 + q1 % 16;
    assert q2 == q3 * 16 + q2 % 16;
  }

  /** Reading one escaped character back gives the character. */
  lemma EscapeCharRoundTrip(c: char, tail: string)
    requires ParseStringBody(tail).Ok?
    ensures ParseStringBody(EscapeChar(c) + tail) == Ok(([c] + ParseStringBody(tail).value.0, ParseStringBody(tail).value.1))
  {
    var s := EscapeChar(c) + tail;
    if NeedsUnicodeEscape(c) && c != '"' && c != '\\' && c as int != 0x08 && c as int != 0x0C
       && c != '\n' && c != '\r' && c != '\t' {
      var n := c as int;
      var h := Hex4(n);
      assert s == ['\\', 'u'] + h + tail;
      assert |h| == 4 && s[2..6] == h;
      assert s[1..][1..5] == s[2..6];
      Hex4RoundTrip(n);
      assert ParseEscape(s[1..]) == Ok((c, 5));
      assert s[6..] == tail;
    } else if |EscapeChar(c)| == 2 {
      assert s[0] == '\\' && s[1..] == [EscapeChar(c)[1]] + tail;
      assert ParseEscape(s[1..]) == Ok((c, 1));
      assert s[2..] == tail;
    } else {
      assert s[1..] == tail;
    }
  }

  lemma {:induction false} StringRoundTrip(x: string, rest: string)
    ensures ParseStringBody(Escape(x) + "\"" + rest) == Ok((x, rest))
  {
    if x == [] {
      assert Escape(x) + "\"" + rest == "\"" + rest;
    } else {
      var tail := Escape(x[1..]) + "\"" + rest;
      assert Escape(x) + "\"" + rest == EscapeChar(x[0]) + tail;
      StringRoundTrip(x[1..], rest);
      EscapeCharRoundTrip(x[0], tail);
      assert [x[0]] + x[1..] == x;
    }
  }

  /** The first character of an encoded value opens that value. */
  lemma EncodeStarts(v: Value, text: string)
    requires Encode(v) == Ok(text)
    ensures text != [] && !IsSpace(text[0]) && text[0] != ']' && text[0] != '}'
  {
  }

  lemma ItemsStart(parent: Value, items: seq<Value>, text: string)
    requires forall i :: 0 <= i < |items| ==> items[i] < parent
    requires items != [] && EncodeItems(parent, items) == Ok(text)
    ensures text != [] && !IsSpace(text[0]) && text[0] != ']'
  {
    EncodeStarts(items[0], Encode(items[0]).value);
  }

  lemma {:induction false} MapOfAgrees(members: seq<(string, Value)>, m: map<string, Value>)
    requires forall i :: 0 <= i < |members| ==> members[i].0 in m && members[i].1 == m[members[i].0]
    ensures forall k :: k in MapOf(members) ==> k in m && MapOf(members)[k] == m[k]
    ensures forall i :: 0 <= i < |members| ==> members[i].0 in MapOf(members)
  {
    if members != [] {
      MapOfAgrees(members[1..], m);
      assert forall i :: 1 <= i < |members| ==> members[i] == members[1..][i - 1];
    }
  }

  /** Reading back a map's sorted entries rebuilds the map. */
  lemma MapOfEntries(m: map<string, Value>)
    ensures MapOf(Entries(m)) == m
  {
    var es := Entries(m);
    MapOfAgrees(es, m);
    forall k | k in m
      ensures k in MapOf(es)
    {
      var i := EntryIndex(m, k);
      assert es[i].0 == k;
    }
    SameMaps(MapOf(es), m);
  }

  lemma SameMaps(a: map<string, Value>, b: map<string, Value>)
    requires forall k :: k in a ==> k in b && a[k] == b[k]
    requires forall k :: k in b ==> k in a
    ensures a == b
  {
    assert a.Keys == b.Keys;
  }

  /** Where a key sits among a map's sorted entries. */
  lemma EntryIndex(m: map<string, Value>, k: string) returns (i: nat)
    requires k in m
    ensures i < |Entries(m)| && Entries(m)[i].0 == k
  {
    var keys := SortedKeys(m.Keys);
    assert k in keys;
    i :| 0 <= i < |keys| && keys[i] == k;
  }

  lemma {:induction false} ValueRoundTrip(v: Value, text: string, rest: string)
    requires Encode(v) == Ok(text)
    ensures ParseValue(text + rest) == Ok((v, rest))
    decreases v, 2, 0
  {
    match v
    case Arr(items) => ArrRoundTrip(v, text, rest);
    case Obj(fields) => ObjRoundTrip(v, text, rest);
    case _ => ScalarRoundTrip(v, text, rest);
  }

  lemma ScalarRoundTrip(v: Value, text: string, rest: string)
    requires !v.Arr? && !v.Obj?
    requires Encode(v) == Ok(text)
    ensures ParseValue(text + rest) == Ok((v, rest))
  {
    var s := text + rest;
    EncodeStarts(v, text);
    SkipSpaceStops(s);
    match v
    case Null =>
      assert s[..4] == "null" && s[4..] == rest;
    case Bool(b) =>
      if b {
        assert s[..4] == "true" && s[4..] == rest;
      } else {
        assert s[..5] == "false" && s[5..] == rest;
      }
    case Str(x) =>
      assert s[1..] == Escape(x) + "\"" + rest;
      StringRoundTrip(x, rest);
  }

  // What the reader does on the shapes the encoder writes.

  lemma ParseEmptyContainer(open: char, close: char, v: Value, rest: string)
    requires (open == '[' && close == ']' && v == Arr([])) || (open == '{' && close == '}' && v == Obj(map[]))
    ensures ParseValue([open, close] + rest) == Ok((v, rest))
  {
    var s := [open, close] + rest;
    assert s[1..] == [close] + rest;
    SkipSpaceStops(s);
    SkipSpaceStops(s[1..]);
    assert s[1..][1..] == rest;
  }

  lemma ParseArray(inner: string, rest: string, items: seq<Value>)
    requires inner != [] && !IsSpace(inner[0]) && inner[0] != ']'
    requires ParseItems(inner + "]" + rest) == Ok((items, rest))
    ensures ParseValue("[" + inner + "]" + rest) == Ok((Arr(items), rest))
  {
    var body := inner + "]" + rest;
    Regroup("[", inner, "]", rest);
    assert body[0] == inner[0];
    OpenArray(body, items, rest);
  }

  /** An opening bracket followed by elements. */
  lemma OpenArray(body: string, items: seq<Value>, rest: string)
    requires body != [] && !IsSpace(body[0]) && body[0] != ']'
    requires ParseItems(body) == Ok((items, rest))
    ensures ParseValue("[" + body) == Ok((Arr(items), rest))
  {
    var s := "[" + body;
    assert s[1..] == body;
    SkipSpaceStops(s);
    SkipSpaceStops(body);
  }

  lemma ParseObject(inner: string, rest: string, m: map<string, Value>)
    requires inner != [] && inner[0] == '"'
    requires ParseMembers(inner + "}" + rest) == Ok((m, rest))
    ensures ParseValue("{" + inner + "}" + rest) == Ok((Obj(m), rest))
  {
    var body := inner + "}" + rest;
    Regroup("{", inner, "}", rest);
    assert body[0] == inner[0];
    OpenObject(body, m, rest);
  }

  /** An opening brace followed by members. */
  lemma OpenObject(body: string, m: map<string, Value>, rest: string)
    requires body != [] && body[0] == '"'
    requires ParseMembers(body) == Ok((m, rest))
    ensures ParseValue("{" + body) == Ok((Obj(m), rest))
  {
    var s := "{" + body;
    assert s[1..] == body;
    SkipSpaceStops(s);
    SkipSpaceStops(body);
  }

  lemma ParseLastItem(text: string, x: Value, rest: string)
    requires ParseValue(text + ("]" + rest)) == Ok((x, "]" + rest))
    ensures ParseItems(text + "]" + rest) == Ok(([x], rest))
  {
    assert text + "]" + rest == text + ("]" + rest);
    SkipSpaceStops("]" + rest);
  }

  lemma ParseNextItem(text: string, tail: string, x: Value, xs: seq<Value>, rest: string)
    requires ParseValue(text + ("," + tail)) == Ok((x, "," + tail))
    requires ParseItems(tail) == Ok((xs, rest))
    ensures ParseItems(text + ("," + tail)) == Ok(([x] + xs, rest))
  {
    SkipSpaceStops("," + tail);
    assert ("," + tail)[1..] == tail;
  }

  /** Reading one member `"key":text` stops at what follows it. */
  lemma ParseMember(key: string, text: string, after: string, x: Value)
    requires ParseValue(text + after) == Ok((x, after))
    ensures ParseMembers(Quote(key) + ":" + text + after) == ParseMembersAfter(key, x, after)
  {
    var afterKey := ":" + text + after;
    Regroup(Quote(key), ":", text, after);
    ParseKey(key, afterKey);
    ParseColon(key, text, after, x);
  }

  lemma ParseKey(key: string, afterKey: string)
    ensures ParseMembers(Quote(key) + afterKey) == ParseMemberValue(key, afterKey)
  {
    var s := Quote(key) + afterKey;
    assert s == "\"" + (Escape(key) + "\"" + afterKey);
    SkipSpaceStops(s);
    assert s[1..] == Escape(key) + "\"" + afterKey;
    StringRoundTrip(key, afterKey);
  }

  lemma ParseColon(key: string, text: string, after: string, x: Value)
    requires ParseValue(text + after) == Ok((x, after))
    ensures ParseMemberValue(key, ":" + text + after) == ParseMembersAfter(key, x, after)
  {
    var afterKey := ":" + text + after;
    SkipSpaceStops(afterKey);
    assert afterKey[1..] == text + after;
  }

  lemma ParseLastMember(key: string, text: string, x: Value, rest: string)
    requires ParseValue(text + ("}" + rest)) == Ok((x, "}" + rest))
    ensures ParseMembers(Quote(key) + ":" + text + "}" + rest) == Ok((map[key := x], rest))
  {
    ParseMember(key, text, "}" + rest, x);
    assert Quote(key) + ":" + text + "}" + rest == Quote(key) + ":" + text + ("}" + rest);
    CloseMembers(key, x, rest);
  }

  /** A closing brace ends the members. */
  lemma CloseMembers(key: string, x: Value, rest: string)
    ensures ParseMembersAfter(key, x, "}" + rest) == Ok((map[key := x], rest))
  {
    SkipSpaceStops("}" + rest);
  }

  lemma ParseNextMember(key: string, text: string, tail: string, x: Value, m: map<string, Value>, rest: string)
    requires ParseValue(text + ("," + tail)) == Ok((x, "," + tail))
    requires ParseMembers(tail) == Ok((m, rest))
    ensures ParseMembers(Quote(key) + ":" + text + ("," + tail)) == Ok((map[key := x] + m, rest))
  {
    ParseMember(key, text, "," + tail, x);
    MoreMembers(key, x, tail, m, rest);
  }

  lemma Regroup(a: string, b: string, c: string, d: string)
    ensures a + b + c + d == a + (b + c + d)
  {
  }

  lemma RegroupItems(head: string, more: string, rest: string)
    ensures head + "," + more + "]" + rest == head + ("," + (more + "]" + rest))
  {
  }

  lemma RegroupMembers(head: string, more: string, rest: string)
    ensures head + "," + more + "}" + rest == head + ("," + (more + "}" + rest))
  {
  }

  /** A comma is followed by the remaining members. */
  lemma MoreMembers(key: string, x: Value, tail: string, m: map<string, Value>, rest: string)
    requires ParseMembers(tail) == Ok((m, rest))
    ensures ParseMembersAfter(key, x, "," + tail) == Ok((map[key := x] + m, rest))
  {
    SkipSpaceStops("," + tail);
    assert ("," + tail)[1..] == tail;
  }

  // The round trip, by induction on the value.

  lemma {:induction false} ArrRoundTrip(v: Value, text: string, rest: string)
    requires v.Arr? && Encode(v) == Ok(text)
    ensures ParseValue(text + rest) == Ok((v, rest))
    decreases v, 1, 0
  {
    var items := v.items;
    var inner := EncodeItems(v, items).value;
    assert text == "[" + inner + "]";
    if items == [] {
      assert text + rest == ['[', ']'] + rest;
      ParseEmptyContainer('[', ']', v, rest);
    } else {
      ItemsStart(v, items, inner);
      ItemsRoundTrip(v, items, inner, rest);
      ParseArray(inner, rest, items);
    }
  }

  lemma {:induction false} ObjRoundTrip(v: Value, text: string, rest: string)
    requires v.Obj? && Encode(v) == Ok(text)
    ensures ParseValue(text + rest) == Ok((v, rest))
    decreases v, 1, 0
  {
    var es := Entries(v.fields);
    var inner := EncodeMembers(v, es).value;
    assert text == "{" + inner + "}";
    MembersTextRoundTrip(v, es, inner, rest);
    MapOfEntries(v.fields);
  }

  /** Reading back `{` members `}` gives the map of the members. */
  lemma {:induction false} MembersTextRoundTrip(parent: Value, members: seq<(string, Value)>, inner: string, rest: string)
    requires forall i :: 0 <= i < |members| ==> members[i].1 < parent
    requires EncodeMembers(parent, members) == Ok(inner)
    ensures ParseValue("{" + inner + "}" + rest) == Ok((Obj(MapOf(members)), rest))
    decreases parent, 0, |members| + 1
  {
    if members == [] {
      assert "{" + inner + "}" + rest == ['{', '}'] + rest;
      ParseEmptyContainer('{', '}', Obj(map[]), rest);
    } else {
      MembersStart(parent, members, inner);
      MembersRoundTrip(parent, members, inner, rest);
      ParseObject(inner, rest, MapOf(members));
    }
  }

  lemma {:induction false} ItemsRoundTrip(parent: Value, items: seq<Value>, text: string, rest: string)
    requires forall i :: 0 <= i < |items| ==> items[i] < parent
    requires items != [] && EncodeItems(parent, items) == Ok(text)
    ensures ParseItems(text + "]" + rest) == Ok((items, rest))
    decreases parent, 0, |items|
  {
    var first := Encode(items[0]).value;
    if |items| == 1 {
      assert text == first;
      ValueRoundTrip(items[0], first, "]" + rest);
      ParseLastItem(first, items[0], rest);
      assert [items[0]] == items;
    } else {
      ItemsText(parent, items, text);
      var more := EncodeItems(parent, items[1..]).value;
      var tail := more + "]" + rest;
      RegroupItems(first, more, rest);
      ValueRoundTrip(items[0], first, "," + tail);
      ItemsRoundTrip(parent, items[1..], more, rest);
      ParseNextItem(first, tail, items[0], items[1..], rest);
      assert [items[0]] + items[1..] == items;
    }
  }

  /** The text of two or more elements: the first, a comma, the rest. */
  lemma ItemsText(parent: Value, items: seq<Value>, text: string)
    requires forall i :: 0 <= i < |items| ==> items[i] < parent
    requires |items| > 1 && EncodeItems(parent, items) == Ok(text)
    ensures forall i :: 0 <= i < |items[1..]| ==> items[1..][i] < parent
    ensures Encode(items[0]).Ok? && EncodeItems(parent, items[1..]).Ok?
    ensures text == Encode(items[0]).value + "," + EncodeItems(parent, items[1..]).value
  {
  }

  lemma MembersStart(parent: Value, members: seq<(string, Value)>, text: string)
    requires forall i :: 0 <= i < |members| ==> members[i].1 < parent
    requires members != [] && EncodeMembers(parent, members) == Ok(text)
    ensures text != [] && text[0] == '"'
  {
  }

  lemma {:induction false} MembersRoundTrip(parent: Value, members: seq<(string, Value)>, text: string, rest: string)
    requires forall i :: 0 <= i < |members| ==> members[i].1 < parent
    requires members != [] && EncodeMembers(parent, members) == Ok(text)
    ensures ParseMembers(text + "}" + rest) == Ok((MapOf(members), rest))
    decreases parent, 0, |members|
  {
    var key := members[0].0;
    var first := Encode(members[0].1).value;
    if |members| == 1 {
      assert text == Quote(key) + ":" + first;
      ValueRoundTrip(members[0].1, first, "}" + rest);
      ParseLastMember(key, first, members[0].1, rest);
      assert ParseMembers(text + "}" + rest) == Ok((map[key := members[0].1], rest));
      assert members[1..] == [];
      assert MapOf(members) == map[key := members[0].1] + map[];
      assert map[key := members[0].1] + map[] == map[key := members[0].1];
    } else {
      var more := EncodeMembers(parent, members[1..]).value;
      var tail := more + "}" + rest;
      assert text == Quote(key) + ":" + first + "," + more;
      RegroupMembers(Quote(key) + ":" + first, more, rest);
      ValueRoundTrip(members[0].1, first, "," + tail);
      MembersRoundTrip(parent, members[1..], more, rest);
      ParseNextMember(key, first, tail, members[0].1, MapOf(members[1..]), rest);
    }
  }

  /** Reading a document back, with or without the encoder's final newline,
      gives the value that was encoded. */
  lemma DecodeEncoded(v: Value, text: string)
    requires Encode(v) == Ok(text)
    ensures Decode(text) == Ok(v)
    ensures Decode(text + "\n") == Ok(v)
  {
    ValueRoundTrip(v, text, "");
    assert text + "" == text;
    ValueRoundTrip(v, text, "\n");
  }

  /** Reading back an encoded struct gives the object of its fields. */
  lemma DecodeEncodedStruct(fields: seq<(string, Value)>, text: string)
    requires EncodeStruct(fields) == Ok(text)
    ensures Decode(text) == Ok(Obj(MapOf(fields)))
    ensures Decode(text + "\n") == Ok(Obj(MapOf(fields)))
  {
    var parent := Arr(FieldValues(fields));
    var inner := EncodeMembers(parent, fields).value;
    assert text == "{" + inner + "}";
    MembersTextRoundTrip(parent, fields, inner, "");
    assert "{" + inner + "}" + "" == text;
    MembersTextRoundTrip(parent, fields, inner, "\n");
  }
}
