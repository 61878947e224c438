/**
  JSON values as serde_json represents them (`serde_json::Value`), and the compact text
  serde_json prints for them (`to_string`, `Display`, `to_writer`).

  Numbers are integers only. An object keeps its members in the order in which iterating the
  underlying map yields them.
*/
module Json {
  import opened Wrappers

  datatype Value =
    | Null
    | Bool(b: bool)
    | Number(n: int)
    | String(s: string)
    | Array(items: seq<Value>)
    | Object(members: seq<(string, Value)>)

  /** No two members of an object share a key. */
  predicate DistinctKeys(members: seq<(string, Value)>) {
    forall i, j :: 0 <= i < j < |members| ==> members[i].0 != members[j].0
  }

  /** Rust's `Ord` on `String`: lexicographic, character by character. */
  predicate Less(a: string, b: string)
  {
    if a == [] then b != []
    else b != [] && (a[0] < b[0] || (a[0] == b[0] && Less(a[1..], b[1..])))
  }

  /** The members in strictly increasing key order, as a `BTreeMap` iterates them. */
  predicate SortedKeys(members: seq<(string, Value)>) {
    forall i, j :: 0 <= i < j < |members| ==> Less(members[i].0, members[j].0)
  }

  /** A value serde_json can actually hold: every object, at every depth, is a map, which
      yields its entries in increasing key order. */
  ghost predicate Canonical(v: Value)
    decreases v
  {
    match v
    case Array(items) => forall i :: 0 <= i < |items| ==> Canonical(items[i])
    case Object(ms) => SortedKeys(ms) && forall i :: 0 <= i < |ms| ==> Canonical(ms[i].1)
    case _ => true
  }

  /** The value of the first member named `key`, if any. */
  function Lookup(members: seq<(string, Value)>, key: string): (r: Option<Value>)
    ensures r.None? <==> forall i :: 0 <= i < |members| ==> members[i].0 != key
    ensures r.Some? ==> exists i :: 0 <= i < |members| && members[i] == (key, r.value)
                                    && forall j :: 0 <= j < i ==> members[j].0 != key
  {
    if members == [] then None
    else if members[0].0 == key then Some(members[0].1)
    else
      var r := Lookup(members[1..], key);
      assert forall i :: 1 <= i < |members| ==> members[i] == members[1..][i - 1];
      r
  }

  /** `Value::get(key)`: the member `key` of an object; None for a missing key or a non-object. */
  function Get(v: Value, key: string): (r: Option<Value>)
    ensures r.Some? <==> v.Object? && exists i :: 0 <= i < |v.members| && v.members[i].0 == key
    ensures r.Some? ==> exists i :: 0 <= i < |v.members| && v.members[i] == (key, r.value)
  {
    if v.Object? then Lookup(v.members, key) else None
  }

  // ---------------------------------------------------------------------------------------
  // Building a map: what serde_json does with the members of an object it reads

  lemma {:induction false} LessIrreflexive(a: string)
    ensures !Less(a, a)
  {
    if a != [] {
      LessIrreflexive(a[1..]);
    }
  }

  lemma {:induction false} LessTransitive(a: string, b: string, c: string)
    requires Less(a, b) && Less(b, c)
    ensures Less(a, c)
  {
    if a != [] && a[0] == b[0] && b[0] == c[0] {
      LessTransitive(a[1..], b[1..], c[1..]);
    }
  }

  lemma {:induction false} LessTotal(a: string, b: string)
    requires a != b
    ensures Less(a, b) || Less(b, a)
  {
    if a != [] && b != [] && a[0] == b[0] {
      assert a == [a[0]] + a[1..] && b == [b[0]] + b[1..];
      LessTotal(a[1..], b[1..]);
    }
  }

  lemma LessAsymmetric(a: string, b: string)
    requires Less(a, b)
    ensures !Less(b, a) && a != b
  {
    LessIrreflexive(a);
    if Less(b, a) {
      LessTransitive(a, b, a);
    }
  }

  /** Keys in increasing order are distinct. */
  lemma SortedDistinct(members: seq<(string, Value)>)
    requires SortedKeys(members)
    ensures DistinctKeys(members)
  {
    forall i, j | 0 <= i < j < |members| ensures members[i].0 != members[j].0 {
      LessAsymmetric(members[i].0, members[j].0);
    }
  }

  /** `BTreeMap::insert`: the entry for `key` gets `value`, every other entry stays, and the
      entries stay in key order. */
  function Insert(members: seq<(string, Value)>, key: string, value: Value): (r: seq<(string, Value)>)
    requires SortedKeys(members)
    ensures SortedKeys(r)
    ensures forall k :: Lookup(r, k) == if k == key then Some(value) else Lookup(members, k)
    ensures forall i :: 0 <= i < |r| ==> r[i] == (key, value) || r[i] in members
  {
    if members == [] then [(key, value)]
    else if members[0].0 == key then
      var r := [(key, value)] + members[1..];
      assert r[1..] == members[1..];
      assert forall k :: k != key ==> Lookup(members, k) == Lookup(members[1..], k);
      r
    else if Less(key, members[0].0) then
      var r := [(key, value)] + members;
      assert r[1..] == members;
      forall j | 0 <= j < |members| ensures Less(key, members[j].0) {
        if j > 0 {
          LessTransitive(key, members[0].0, members[j].0);
        }
      }
      r
    else
      LessTotal(key, members[0].0);
      var rest := Insert(members[1..], key, value);
      var r := [members[0]] + rest;
      assert r[1..] == rest;
      assert forall k :: Lookup(members, k) == if k == members[0].0 then Some(members[0].1) else Lookup(members[1..], k);
      forall j | 0 <= j < |rest| ensures Less(members[0].0, rest[j].0) {
        if rest[j] != (key, value) {
          var m :| m in members[1..] && m == rest[j];
          var t :| 0 <= t < |members[1..]| && members[1..][t] == m;
          assert members[t + 1] == m;
        }
      }
      r
  }

  /** The value of the last member named `key`, if any: later members win. */
  function LookupLast(members: seq<(string, Value)>, key: string): Option<Value>
  {
    if members == [] then None
    else if members[|members| - 1].0 == key then Some(members[|members| - 1].1)
    else LookupLast(members[..|members| - 1], key)
  }

  /** The map serde_json builds from an object's members, inserted one after another. */
  function BuildMap(members: seq<(string, Value)>): (r: seq<(string, Value)>)
    ensures SortedKeys(r)
    ensures forall k :: Lookup(r, k) == LookupLast(members, k)
    ensures forall i :: 0 <= i < |r| ==> r[i] in members
  {
    if members == [] then []
    else
      var last := members[|members| - 1];
      var init := BuildMap(members[..|members| - 1]);
      var r := Insert(init, last.0, last.1);
      assert forall i :: 0 <= i < |init| ==> init[i] in members[..|members| - 1];
      assert forall m :: m in members[..|members| - 1] ==> m in members;
      r
  }

  /** The `serde_json::Value` read from a value: at every depth each object becomes a map in
      which the last of several members with one key wins. */
  function Normalize(v: Value): (r: Value)
    ensures Canonical(r)
    decreases v
  {
    match v
    case Array(items) =>
      var normal := seq(|items|, i requires 0 <= i < |items| => Normalize(items[i]));
      assert forall i :: 0 <= i < |items| ==> Canonical(normal[i]);
      Array(normal)
    case Object(ms) =>
      var normal := seq(|ms|, i requires 0 <= i < |ms| => (ms[i].0, Normalize(ms[i].1)));
      assert forall i :: 0 <= i < |ms| ==> Canonical(normal[i].1);
      var r := BuildMap(normal);
      forall i | 0 <= i < |r| ensures Canonical(r[i].1) {
        var j :| 0 <= j < |normal| && normal[j] == r[i];
      }
      Object(r)
    case _ => v
  }

  /** Inserting a key above every key already present appends it. */
  lemma {:induction false} InsertAbove(members: seq<(string, Value)>, key: string, value: Value)
    requires SortedKeys(members)
    requires forall i :: 0 <= i < |members| ==> Less(members[i].0, key)
    ensures Insert(members, key, value) == members + [(key, value)]
  {
    if members != [] {
      LessAsymmetric(members[0].0, key);
      InsertAbove(members[1..], key, value);
    }
  }

  /** An object already in key order is its own map. */
  lemma {:induction false} BuildMapSorted(members: seq<(string, Value)>)
    requires SortedKeys(members)
    ensures BuildMap(members) == members
  {
    if members != [] {
      var n := |members| - 1;
      BuildMapSorted(members[..n]);
      InsertAbove(members[..n], members[n].0, members[n].1);
      assert members[..n] + [members[n]] == members;
    }
  }

  /** A value serde_json holds is read back as itself. */
  lemma {:induction false} NormalizeCanonical(v: Value)
    requires Canonical(v)
    ensures Normalize(v) == v
    decreases v
  {
    match v
    case Array(items) =>
      forall i | 0 <= i < |items| ensures Normalize(items[i]) == items[i] {
        NormalizeCanonical(items[i]);
      }
      assert seq(|items|, i requires 0 <= i < |items| => Normalize(items[i])) == items;
    case Object(ms) =>
      forall i | 0 <= i < |ms| ensures (ms[i].0, Normalize(ms[i].1)) == ms[i] {
        NormalizeCanonical(ms[i].1);
      }
      assert seq(|ms|, i requires 0 <= i < |ms| => (ms[i].0, Normalize(ms[i].1))) == ms;
      BuildMapSorted(ms);
    case _ =>
  }

  /** Of several members with one key, the map keeps the last. */
  lemma {:induction false} NormalizeLastWins(ms: seq<(string, Value)>, key: string)
    ensures Get(Normalize(Object(ms)), key) ==
              match LookupLast(ms, key)
              case None => None
              case Some(x) => Some(Normalize(x))
  {
    var normal := seq(|ms|, i requires 0 <= i < |ms| => (ms[i].0, Normalize(ms[i].1)));
    LookupLastNormal(ms, normal, key);
  }

  lemma {:induction false} LookupLastNormal(ms: seq<(string, Value)>, normal: seq<(string, Value)>, key: string)
    requires |normal| == |ms|
    requires forall i :: 0 <= i < |ms| ==> normal[i] == (ms[i].0, Normalize(ms[i].1))
    ensures LookupLast(normal, key) ==
              match LookupLast(ms, key)
              case None => None
              case Some(x) => Some(Normalize(x))
  {
    if ms != [] {
      var n := |ms| - 1;
      LookupLastNormal(ms[..n], normal[..n], key);
    }
  }

  // ---------------------------------------------------------------------------------------
  // Compact text

  function Digit(d: nat): char
    requires d < 10
  {
    "0123456789"[d]
  }

  function HexDigit(d: nat): char
    requires d < 16
  {
    "0123456789abcdef"[d]
  }

  /** Decimal digits of n, without leading zeros. */
  function NatText(n: nat): string
  {
    if n < 10 then [Digit(n)] else NatText(n / 10) + [Digit(n % 10)]
  }

  function IntText(i: int): string
  {
    if i < 0 then "-" + NatText(-i) else NatText(i)
  }

  /** serde_json's escape table: quote, backslash, and the control characters below 0x20. */
  function EscapeChar(c: char): string
  {
    if c == '"' then ['\\', '"']
    else if c == '\\' then ['\\', '\\']
    else if c as int == 0x08 then ['\\', 'b']
    else if c == '\t' then ['\\', 't']
    else if c == '\n' then ['\\', 'n']
    else if c as int == 0x0C then ['\\', 'f']
    else if c == '\r' then ['\\', 'r']
    else if (c as int) < 0x20 then ['\\', 'u', '0', '0', HexDigit(c as int / 16), HexDigit(c as int % 16)]
    else [c]
  }

  /** A character that serde_json writes as itself inside a string literal. */
  predicate Plain(c: char) {
    c != '"' && c != '\\' && (c as int) >= 0x20
  }

  function Escaped(s: string): string
  {
    if s == [] then [] else EscapeChar(s[0]) + Escaped(s[1..])
  }

  function Quoted(s: string): string
  {
    "\"" + Escaped(s) + "\""
  }

  /** The parts separated by commas. */
  function Join(parts: seq<string>): string
  {
    if |parts| == 0 then ""
    else if |parts| == 1 then parts[0]
    else parts[0] + "," + Join(parts[1..])
  }

  /** The compact JSON text of v: no whitespace, members in order. */
  function Compact(v: Value): string
    decreases v
  {
    match v
    case Null => "null"
    case Bool(b) => if b then "true" else "false"
    case Number(n) => IntText(n)
    case String(s) => Quoted(s)
    case Array(items) =>
      "[" + Join(seq(|items|, i requires 0 <= i < |items| => Compact(items[i]))) + "]"
    case Object(ms) =>
      "{" + Join(seq(|ms|, i requires 0 <= i < |ms| => Quoted(ms[i].0) + ":" + Compact(ms[i].1))) + "}"
  }

  // ---------------------------------------------------------------------------------------
  // Properties of the compact text

  lemma {:induction false} NatTextDigits(n: nat)
    ensures |NatText(n)| > 0
    ensures forall k :: 0 <= k < |NatText(n)| ==> '0' <= NatText(n)[k] <= '9'
  {
    if n >= 10 {
      NatTextDigits(n / 10);
    }
  }

  lemma {:induction false} EscapedNoNewline(s: string)
    ensures '\n' !in Escaped(s)
  {
    if s != [] {
      EscapedNoNewline(s[1..]);
      assert '\n' !in EscapeChar(s[0]);
    }
  }

  /** A string made of plain characters is written between quotes as it is. */
  lemma {:induction false} EscapedPlain(s: string)
    requires forall k :: 0 <= k < |s| ==> Plain(s[k])
    ensures Escaped(s) == s
  {
    if s != [] {
      EscapedPlain(s[1..]);
      assert s == [s[0]] + s[1..];
    }
  }

  /** A string of plain characters is printed between quotes exactly as it is. */
  lemma QuotedPlain(s: string)
    requires forall k :: 0 <= k < |s| ==> Plain(s[k])
    ensures Quoted(s) == "\"" + s + "\""
  {
    EscapedPlain(s);
  }

  lemma {:induction false} JoinNoNewline(parts: seq<string>)
    requires forall k :: 0 <= k < |parts| ==> '\n' !in parts[k]
    ensures '\n' !in Join(parts)
  {
    if |parts| > 1 {
      JoinNoNewline(parts[1..]);
    }
  }

  /** Compact text never holds a raw line feed, so it fits on one line. */
  lemma {:induction false} CompactNoNewline(v: Value)
    ensures '\n' !in Compact(v)
    decreases v
  {
    match v
    case Null =>
    case Bool(b) =>
    case Number(n) =>
      NatTextDigits(if n < 0 then -n else n);
    case String(s) =>
      EscapedNoNewline(s);
    case Array(items) =>
      var parts := seq(|items|, i requires 0 <= i < |items| => Compact(items[i]));
      forall k | 0 <= k < |parts| ensures '\n' !in parts[k] {
        CompactNoNewline(items[k]);
      }
      JoinNoNewline(parts);
    case Object(ms) =>
      var parts := seq(|ms|, i requires 0 <= i < |ms| => Quoted(ms[i].0) + ":" + Compact(ms[i].1));
      forall k | 0 <= k < |parts| ensures '\n' !in parts[k] {
        EscapedNoNewline(ms[k].0);
        CompactNoNewline(ms[k].1);
      }
      JoinNoNewline(parts);
  }
}
