/** The part of Go's `encoding/json` encoder that the configuration relies on:
    dynamically typed values (`any`), map encoding with sorted keys, struct
    encoding in field order, and string escaping as `json.Encoder` does it
    (HTML escaping on, Go 1.22 short escapes). */
module Json {
  import opened Results

  /** A Go `any` as it occurs in the configuration: `nil`, `bool`, `string`,
      `[]string` / `[]any`, `map[string]any`, or a value of some other type
      `Unsupported(typeName)` that the encoder refuses (a channel, a function). */
  datatype Value =
    | Null
    | Bool(b: bool)
    | Str(s: string)
    | Arr(items: seq<Value>)
    | Obj(fields: map<string, Value>)
    | Unsupported(typeName: string)

  /** No part of `v` is of a type that the encoder refuses. */
  predicate Encodable(v: Value) {
    match v
    case Unsupported(_) => false
    case Arr(items) => forall i :: 0 <= i < |items| ==> Encodable(items[i])
    case Obj(fields) => forall k :: k in fields ==> Encodable(fields[k])
    case _ => true
  }

  // ---------------------------------------------------------------------------
  // Key order. Go sorts map keys by comparing their UTF-8 bytes; on Unicode
  // scalar values that is the lexicographic order of code points.

  predicate LexLeq(a: string, b: string) {
    |a| == 0 || (|b| > 0 && (a[0] < b[0] || (a[0] == b[0] && LexLeq(a[1..], b[1..]))))
  }

  predicate LexLess(a: string, b: string) {
    LexLeq(a, b) && a != b
  }

  lemma {:induction false} LexLeqAntisymmetric(a: string, b: string)
    requires LexLeq(a, b) && LexLeq(b, a)
    ensures a == b
  {
    if |a| > 0 {
      LexLeqAntisymmetric(a[1..], b[1..]);
    }
  }

  lemma {:induction false} LexLeqTotal(a: string, b: string)
    ensures LexLeq(a, b) || LexLeq(b, a)
  {
    if |a| > 0 && |b| > 0 && a[0] == b[0] {
      LexLeqTotal(a[1..], b[1..]);
    }
  }

  lemma {:induction false} LexLeqTransitive(a: string, b: string, c: string)
    requires LexLeq(a, b) && LexLeq(b, c)
    ensures LexLeq(a, c)
  {
    if |a| > 0 && a[0] == b[0] && b[0] == c[0] {
      LexLeqTransitive(a[1..], b[1..], c[1..]);
    }
  }

  /** Every finite non-empty set of strings has a least element. */
  lemma {:induction false} LeastKeyExists(s: set<string>)
    requires s != {}
    ensures exists k :: k in s && forall j :: j in s ==> LexLeq(k, j)
  {
    var x :| x in s;
    if s == {x} {
      LexLeqTotal(x, x);
      assert forall j :: j in s ==> LexLeq(x, j);
    } else {
      LeastKeyExists(s - {x});
      var k :| k in s - {x} && forall j :: j in s - {x} ==> LexLeq(k, j);
      LexLeqTotal(k, x);
      if LexLeq(k, x) {
        assert forall j :: j in s ==> LexLeq(k, j);
      } else {
        forall j | j in s
          ensures LexLeq(x, j)
        {
          if j == x {
            LexLeqTotal(x, x);
          } else {
            LexLeqTransitive(x, k, j);
          }
        }
      }
    }
  }

  function LeastKey(s: set<string>): (k: string)
    requires s != {}
    ensures k in s && forall j :: j in s ==> LexLeq(k, j)
  {
    LeastKeyExists(s);
    assert forall a, b :: LexLeq(a, b) && LexLeq(b, a) ==> a == b by {
      forall a, b | LexLeq(a, b) && LexLeq(b, a)
        ensures a == b
      {
        LexLeqAntisymmetric(a, b);
      }
    }
    var k :| k in s && forall j :: j in s ==> LexLeq(k, j);
    k
  }

  /** The `n` least keys of `s`, in increasing order. */
  function LeastKeys(s: set<string>, n: nat): (r: seq<string>)
    requires n <= |s|
    ensures |r| == n
    ensures forall k :: k in r ==> k in s
    ensures n == |s| ==> forall k :: k in s ==> k in r
    ensures forall i, j :: 0 <= i < j < |r| ==> LexLess(r[i], r[j])
    decreases n
  {
    if n == 0 then []
    else
      var k := LeastKey(s);
      [k] + LeastKeys(s - {k}, n - 1)
  }

  /** The keys of a map in the order the encoder writes them. */
  function SortedKeys(s: set<string>): (r: seq<string>)
    ensures |r| == |s|
    ensures forall k :: k in r <==> k in s
    ensures forall i, j :: 0 <= i < j < |r| ==> LexLess(r[i], r[j])
  {
    LeastKeys(s, |s|)
  }

  /** The least key comes first, then the others in order. */
  lemma SortedKeysStep(s: set<string>)
    requires s != {}
    ensures SortedKeys(s) == [LeastKey(s)] + SortedKeys(s - {LeastKey(s)})
  {
    assert |s - {LeastKey(s)}| == |s| - 1;
  }

  /** The entries of `m` for the given keys, in their order. */
  function Listed(m: map<string, Value>, keys: seq<string>): (r: seq<(string, Value)>)
    requires forall k :: k in keys ==> k in m
    ensures |r| == |keys|
    ensures forall i :: 0 <= i < |r| ==> r[i].0 == keys[i] && r[i].0 in m && r[i].1 == m[r[i].0]
  {
    seq(|keys|, i requires 0 <= i < |keys| => (keys[i], m[keys[i]]))
  }

  /** The entries of a map, in the order of its sorted keys. */
  function Entries(m: map<string, Value>): (r: seq<(string, Value)>)
    ensures |r| == |m|
    ensures forall i :: 0 <= i < |r| ==> r[i].0 == SortedKeys(m.Keys)[i] && r[i].0 in m && r[i].1 == m[r[i].0]
  {
    Listed(m, SortedKeys(m.Keys))
  }

  // ---------------------------------------------------------------------------
  // Strings.

  /** The lower-case hexadecimal digit for `d`, as in Go's "0123456789abcdef". */
  function HexDigit(d: nat): char
    requires d < 16
  {
    if d < 10 then ('0' as int + d) as char else ('a' as int + d - 10) as char
  }

  /** Four hexadecimal digits, as in a `\uXXXX` escape. */
  function Hex4(n: nat): string
    requires n < 0x10000
  {
    var q1 := n / 16;
    var q2 := q1 / 16;
    var q3 := q2 / 16;
    [HexDigit(q3), HexDigit(q2 % 16), HexDigit(q1 % 16), HexDigit(n % 16)]
  }

  /** The characters the encoder writes as `\uXXXX`: control characters
      without a short escape, the HTML-sensitive `<`, `>` and `&`, and the
      line and paragraph separators U+2028 and U+2029. */
  predicate NeedsUnicodeEscape(c: char) {
    (c < ' ' && c as int != 0x08 && c as int != 0x0C && c != '\n' && c != '\r' && c != '\t')
    || c == '<' || c == '>' || c == '&'
    || c as int == 0x2028 || c as int == 0x2029
  }

  function EscapeChar(c: char): string {
    if c == '"' then "\\\""
    else if c == '\\' then "\\\\"
    else if c as int == 0x08 then "\\b"
    else if c as int == 0x0C then "\\f"
    else if c == '\n' then "\\n"
    else if c == '\r' then "\\r"
    else if c == '\t' then "\\t"
    else if NeedsUnicodeEscape(c) then "\\u" + Hex4(c as int)
    else [c]
  }

  function Escape(s: string): string {
    if s == [] then [] else EscapeChar(s[0]) + Escape(s[1..])
  }

  function Quote(s: string): string {
    "\"" + Escape(s) + "\""
  }

  // ---------------------------------------------------------------------------
  // Values. `parent` is a ghost bound that lets the mutual recursion go down
  // into the elements of an array or the values of a map or a struct.

  function Encode(v: Value): Result<string>
    decreases v, 1, 0
  {
    match v
    case Null => Ok("null")
    case Bool(b) => Ok(if b then "true" else "false")
    case Str(s) => Ok(Quote(s))
    case Arr(items) =>
      var inner :- EncodeItems(v, items);
      Ok("[" + inner + "]")
    case Obj(fields) =>
      // The entries in key order, that is `Entries(fields)`.
      var inner :- EncodeMembers(v, Listed(fields, LeastKeys(fields.Keys, |fields|)));
      Ok("{" + inner + "}")
    case Unsupported(t) => Err("json: unsupported type: " + t)
  }

  /** The elements of an array, separated by commas. */
  function EncodeItems(ghost parent: Value, items: seq<Value>): Result<string>
    requires forall i :: 0 <= i < |items| ==> items[i] < parent
    decreases parent, 0, |items|
  {
    if items == [] then Ok("")
    else
      var first :- Encode(items[0]);
      if |items| == 1 then Ok(first)
      else
        var more :- EncodeItems(parent, items[1..]);
        Ok(first + "," + more)
  }

  /** The members of an object (a map's sorted entries, or a struct's fields
      in declaration order), as `"name":value` separated by commas. */
  function EncodeMembers(ghost parent: Value, members: seq<(string, Value)>): Result<string>
    requires forall i :: 0 <= i < |members| ==> members[i].1 < parent
    decreases parent, 0, |members|
  {
    if members == [] then Ok("")
    else
      var first :- Encode(members[0].1);
      var member := Quote(members[0].0) + ":" + first;
      if |members| == 1 then Ok(member)
      else
        var more :- EncodeMembers(parent, members[1..]);
        Ok(member + "," + more)
  }

  /** A Go struct: `{` its fields as `"name":value` in declaration order `}`.
      The caller has already dropped each `omitempty` field whose value is empty. */
  function EncodeStruct(fields: seq<(string, Value)>): Result<string> {
    var inner :- EncodeMembers(Arr(FieldValues(fields)), fields);
    Ok("{" + inner + "}")
  }

  function FieldValues(fields: seq<(string, Value)>): (r: seq<Value>)
    ensures |r| == |fields| && forall i :: 0 <= i < |r| ==> r[i] == fields[i].1
  {
    seq(|fields|, i requires 0 <= i < |fields| => fields[i].1)
  }

  /** The map a JSON reader builds from a list of members: a later member
      with the same name replaces an earlier one. */
  function MapOf(members: seq<(string, Value)>): map<string, Value> {
    if members == [] then map[] else map[members[0].0 := members[0].1] + MapOf(members[1..])
  }

  // ---------------------------------------------------------------------------
  // When encoding fails.

  /** Encoding succeeds exactly on the values with no refused part. */
  lemma {:induction false} EncodeSucceedsIff(v: Value)
    ensures Encode(v).Ok? <==> Encodable(v)
    decreases v, 1, 0
  {
    match v
    case Arr(items) =>
      ItemsSucceedIff(v, items);
    case Obj(fields) =>
      var es := Entries(fields);
      MembersSucceedIff(v, es);
      var keys := SortedKeys(fields.Keys);
      if Encode(v).Ok? {
        forall k | k in fields
          ensures Encodable(fields[k])
        {
          var i :| 0 <= i < |keys| && keys[i] == k;
          assert es[i].1 == fields[k];
        }
      }
    case _ =>
  }

  lemma {:induction false} ItemsSucceedIff(parent: Value, items: seq<Value>)
    requires forall i :: 0 <= i < |items| ==> items[i] < parent
    ensures EncodeItems(parent, items).Ok? <==> forall i :: 0 <= i < |items| ==> Encodable(items[i])
    decreases parent, 0, |items|
  {
    if items != [] {
      EncodeSucceedsIff(items[0]);
      if |items| > 1 {
        ItemsSucceedIff(parent, items[1..]);
        assert forall i :: 1 <= i < |items| ==> items[i] == items[1..][i - 1];
      }
    }
  }

  lemma {:induction false} MembersSucceedIff(parent: Value, members: seq<(string, Value)>)
    requires forall i :: 0 <= i < |members| ==> members[i].1 < parent
    ensures EncodeMembers(parent, members).Ok? <==> forall i :: 0 <= i < |members| ==> Encodable(members[i].1)
    decreases parent, 0, |members|
  {
    if members != [] {
      EncodeSucceedsIff(members[0].1);
      if |members| > 1 {
        MembersSucceedIff(parent, members[1..]);
        assert forall i :: 1 <= i < |members| ==> members[i] == members[1..][i - 1];
      }
    }
  }

  lemma EncodeStructSucceedsIff(fields: seq<(string, Value)>)
    ensures EncodeStruct(fields).Ok? <==> forall i :: 0 <= i < |fields| ==> Encodable(fields[i].1)
  {
    MembersSucceedIff(Arr(FieldValues(fields)), fields);
  }

  // ---------------------------------------------------------------------------
  // The text of a given object.

  lemma {:induction false} LexLeqReflexive(a: string)
    ensures LexLeq(a, a)
  {
    LexLeqTotal(a, a);
  }

  /** A listing sorted step by step is sorted throughout. */
  lemma {:induction false} ChainSorted(r: seq<string>)
    requires forall i :: 0 <= i < |r| - 1 ==> LexLess(r[i], r[i + 1])
    ensures forall i, j :: 0 <= i < j < |r| ==> LexLess(r[i], r[j])
  {
    if |r| > 1 {
      var t := r[1..];
      assert forall i :: 0 <= i < |t| ==> t[i] == r[i + 1];
      ChainSorted(t);
      forall j | 1 < j < |r|
        ensures LexLess(r[0], r[j])
      {
        assert LexLess(t[0], t[j - 1]);
        LexLeqTransitive(r[0], r[1], r[j]);
        if r[0] == r[j] {
          LexLeqAntisymmetric(r[0], r[1]);
        }
      }
    }
  }

  /** A strictly sorted listing of a set is the order the encoder uses. */
  lemma {:induction false} SortedKeysUnique(s: set<string>, r: seq<string>)
    requires forall i, j :: 0 <= i < j < |r| ==> LexLess(r[i], r[j])
    requires forall k :: k in s <==> k in r
    ensures SortedKeys(s) == r
    decreases |r|
  {
    if r == [] {
      assert s == {};
    } else {
      assert r[0] in s;
      var k := LeastKey(s);
      forall j | j in s
        ensures LexLeq(r[0], j)
      {
        var i :| 0 <= i < |r| && r[i] == j;
        if i == 0 {
          LexLeqReflexive(j);
        }
      }
      LexLeqAntisymmetric(k, r[0]);
      var t := r[1..];
      assert forall i :: 0 <= i < |t| ==> t[i] == r[i + 1];
      forall x
        ensures x in s - {k} <==> x in t
      {
        if x in t {
          var i :| 0 <= i < |t| && t[i] == x;
          assert LexLess(r[0], r[i + 1]);
        }
        if x in s && x != k {
          var i :| 0 <= i < |r| && r[i] == x;
          assert i != 0;
          assert t[i - 1] == x;
        }
      }
      SortedKeysUnique(s - {k}, t);
      SortedKeysStep(s);
    }
  }

  /** A listing without repeats has as many elements as its set. */
  lemma {:induction false} DistinctCard(r: seq<string>)
    requires forall i, j :: 0 <= i < j < |r| ==> LexLess(r[i], r[j])
    ensures |set k | k in r| == |r|
  {
    if r != [] {
      var t := r[1..];
      assert forall i :: 0 <= i < |t| ==> t[i] == r[i + 1];
      DistinctCard(t);
      assert (set k | k in r) == {r[0]} + (set k | k in t);
    }
  }

  lemma SubsetSameCard(a: set<string>, b: set<string>)
    requires a <= b && |a| == |b|
    ensures a == b
  {
    var d := b - a;
    assert b == a + d && a * d == {};
    assert |d| == 0;
  }

  function Names(members: seq<(string, Value)>): (r: seq<string>)
    ensures |r| == |members| && forall i :: 0 <= i < |r| ==> r[i] == members[i].0
  {
    seq(|members|, i requires 0 <= i < |members| => members[i].0)
  }

  /** The members `"name":text` separated by commas. */
  function MemberList(members: seq<(string, Value)>, texts: seq<string>): string
    requires |members| == |texts|
  {
    if members == [] then ""
    else
      var member := Quote(members[0].0) + ":" + texts[0];
      if |members| == 1 then member else member + "," + MemberList(members[1..], texts[1..])
  }

  lemma {:induction false} MembersListed(parent: Value, members: seq<(string, Value)>, texts: seq<string>)
    requires |members| == |texts|
    requires forall i :: 0 <= i < |members| ==> members[i].1 < parent && Encode(members[i].1) == Ok(texts[i])
    ensures EncodeMembers(parent, members) == Ok(MemberList(members, texts))
    decreases |members|
  {
    if |members| > 1 {
      var t := members[1..];
      assert forall i :: 0 <= i < |t| ==> t[i] == members[i + 1];
      MembersListed(parent, t, texts[1..]);
    }
  }

  /** The text of an object, given its members in sorted order and the text
      of each member's value. */
  lemma EncodeObjectListed(m: map<string, Value>, members: seq<(string, Value)>, texts: seq<string>)
    requires |members| == |texts|
    requires forall i :: 0 <= i < |members| - 1 ==> LexLess(members[i].0, members[i + 1].0)
    requires |m| == |members|
    requires forall i :: 0 <= i < |members| ==> members[i].0 in m && m[members[i].0] == members[i].1
    requires forall i :: 0 <= i < |members| ==> Encode(members[i].1) == Ok(texts[i])
    ensures Encode(Obj(m)) == Ok("{" + MemberList(members, texts) + "}")
  {
    var names := Names(members);
    ChainSorted(names);
    DistinctCard(names);
    var listed := set k | k in names;
    assert listed <= m.Keys;
    SubsetSameCard(listed, m.Keys);
    SortedKeysUnique(m.Keys, names);
    var es := Entries(m);
    assert es == members;
    MembersListed(Obj(m), members, texts);
  }
}
