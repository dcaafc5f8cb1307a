/** JavaScript values as the stores see them: JSON-shaped data with
    JavaScript's truthiness, plain objects as ordered key/value entries with
    the object-spread merge, and `JSON.stringify`. */
module Json {
  import opened Wrappers
  import Text

  /** A JSON value. Objects keep their keys in insertion order, as
      JavaScript objects with non-numeric keys do. */
  datatype Value =
    | Null
    | Bool(b: bool)
    | Num(n: int)
    | Str(s: string)
    | Obj(entries: seq<(string, Value)>)

  type Entries = seq<(string, Value)>

  /** JavaScript truthiness: `null`, `false`, `0` and `""` are falsy, every object is truthy. */
  predicate Truthy(v: Value) {
    match v
    case Null => false
    case Bool(b) => b
    case Num(n) => n != 0
    case Str(s) => s != ""
    case Obj(_) => true
  }

  /** Truthiness of a value that may be absent: `undefined` is falsy. */
  predicate Present(v: Option<Value>) {
    v.Some? && Truthy(v.value)
  }

  /** `x || d` for a string-valued property: the default replaces a missing or empty string. */
  function OrDefault(s: Option<string>, d: string): (r: string)
    ensures r == d || (s.Some? && r == s.value)
    ensures s.Some? && s.value != "" ==> r == s.value
  {
    if s.Some? && s.value != "" then s.value else d
  }

  // ---------------------------------------------------------------------------
  // Plain objects as ordered entries

  predicate UniqueKeys(es: Entries) {
    forall i, j :: 0 <= i < j < |es| ==> es[i].0 != es[j].0
  }

  /** `obj[k]`: the value stored under k, if any. */
  function Get(es: Entries, k: string): (r: Option<Value>)
    ensures r.Some? <==> exists i :: 0 <= i < |es| && es[i].0 == k
  {
    if |es| == 0 then None
    else if es[0].0 == k then Some(es[0].1)
    else Get(es[1..], k)
  }

  /** `obj[k] = v`: an existing key keeps its position, a new key goes last. */
  function Put(es: Entries, k: string, v: Value): (r: Entries)
    ensures |r| == if Get(es, k).Some? then |es| else |es| + 1
    decreases |es|
  {
    if |es| == 0 then [(k, v)]
    else if es[0].0 == k then [(k, v)] + es[1..]
    else [es[0]] + Put(es[1..], k, v)
  }

  /** `{ ...a, ...b }`: the keys of a, then those of b that a lacks; b's values win. */
  function Merge(a: Entries, b: Entries): Entries
    decreases |b|
  {
    if |b| == 0 then a else Merge(Put(a, b[0].0, b[0].1), b[1..])
  }

  lemma {:induction false} GetPut(es: Entries, k: string, v: Value, q: string)
    ensures Get(Put(es, k, v), q) == if q == k then Some(v) else Get(es, q)
    decreases |es|
  {
    if |es| > 0 && es[0].0 != k {
      GetPut(es[1..], k, v, q);
      assert Put(es, k, v)[1..] == Put(es[1..], k, v);
    }
  }

  lemma {:induction false} PutKeepsUnique(es: Entries, k: string, v: Value)
    requires UniqueKeys(es)
    ensures UniqueKeys(Put(es, k, v))
  {
    var r := Put(es, k, v);
    forall j | 0 <= j < |es| ensures r[j].0 == es[j].0 {
      PutKeyAt(es, k, v, j);
    }
    if Get(es, k).None? {
      PutNew(es, k, v);
      assert forall i :: 0 <= i < |es| ==> r[i].0 != r[|es|].0;
    }
  }

  /** Put changes no key at a position the entries already have. */
  lemma {:induction false} PutKeyAt(es: Entries, k: string, v: Value, j: nat)
    requires j < |es|
    ensures Put(es, k, v)[j].0 == es[j].0
    decreases |es|
  {
    if es[0].0 != k && j > 0 {
      PutKeyAt(es[1..], k, v, j - 1);
    }
  }

  /** A key not yet present is appended. */
  lemma {:induction false} PutNew(es: Entries, k: string, v: Value)
    requires Get(es, k).None?
    ensures Put(es, k, v) == es + [(k, v)]
    decreases |es|
  {
    if |es| > 0 {
      PutNew(es[1..], k, v);
      assert es == [es[0]] + es[1..];
    }
  }

  /** The merge is right-biased and keeps every key of the left operand that the right one lacks. */
  lemma {:induction false} GetMerge(a: Entries, b: Entries, q: string)
    requires UniqueKeys(b)
    ensures Get(Merge(a, b), q) == if Get(b, q).Some? then Get(b, q) else Get(a, q)
    decreases |b|
  {
    if |b| > 0 {
      var a' := Put(a, b[0].0, b[0].1);
      GetMerge(a', b[1..], q);
      GetPut(a, b[0].0, b[0].1, q);
      if q == b[0].0 {
        assert Get(b[1..], q).None? by {
          assert forall i :: 0 <= i < |b[1..]| ==> b[1..][i].0 == b[i + 1].0;
        }
      }
    }
  }

  /** Merging objects with distinct keys gives an object with distinct keys. */
  lemma {:induction false} MergeKeepsUnique(a: Entries, b: Entries)
    requires UniqueKeys(a)
    ensures UniqueKeys(Merge(a, b))
    decreases |b|
  {
    if |b| > 0 {
      PutKeepsUnique(a, b[0].0, b[0].1);
      MergeKeepsUnique(Put(a, b[0].0, b[0].1), b[1..]);
    }
  }

  // ---------------------------------------------------------------------------
  // JSON.stringify

  /** How `JSON.stringify` writes one character inside a string literal. */
  function EscapeChar(c: char): (r: string)
    ensures |r| > 0
  {
    if c == '"' then "\\\""
    else if c == '\\' then "\\\\"
    else if c == '\U{8}' then "\\b"
    else if c == '\t' then "\\t"
    else if c == '\n' then "\\n"
    else if c == '\U{c}' then "\\f"
    else if c == '\r' then "\\r"
    else if c as int < 0x20 then "\\u00" + [Text.HexDigitChar(c as int / 16), Text.HexDigitChar(c as int % 16)]
    else [c]
  }

  function Escape(s: string): string {
    if |s| == 0 then "" else EscapeChar(s[0]) + Escape(s[1..])
  }

  /** A string as a JSON string literal. */
  function Quote(s: string): (r: string)
    ensures |r| >= 2 && r[0] == '"'
  {
    "\"" + Escape(s) + "\""
  }

  /** `JSON.stringify(v)`. */
  function Serialize(v: Value): (r: string)
    ensures |r| > 0
    decreases v, 1
  {
    match v
    case Null => "null"
    case Bool(b) => if b then "true" else "false"
    case Num(n) => Text.IntToString(n)
    case Str(s) => Quote(s)
    case Obj(es) => "{" + SerializeMembers(v, 0) + "}"
  }

  /** The members of object `v` from index `i` on, separated by commas. */
  function SerializeMembers(v: Value, i: nat): string
    requires v.Obj? && i <= |v.entries|
    decreases v, 0, |v.entries| - i
  {
    if i == |v.entries| then ""
    else
      var e := v.entries[i];
      assert e.1 < v by { assert e in v.entries; }
      Quote(e.0) + ":" + Serialize(e.1) + (if i + 1 == |v.entries| then "" else "," + SerializeMembers(v, i + 1))
  }

  // ---------------------------------------------------------------------------
  // Reading back JSON string literals: a left inverse of Quote, used to show
  // that keys built from serialised parameters are injective.

  /** The character an escape sequence (or a plain character) at the start of t stands for, and its length. */
  function DecodeChar(t: string): (r: (char, nat))
    requires |t| > 0
    ensures 1 <= r.1 <= |t|
  {
    if t[0] == '\\' && |t| >= 2 && t[1] in "\"\\btnfr" then
      var c := t[1];
      (if c == 'b' then '\U{8}' else if c == 't' then '\t' else if c == 'n' then '\n'
       else if c == 'f' then '\U{c}' else if c == 'r' then '\r' else c, 2)
    else if t[0] == '\\' && |t| >= 6 && t[1] == 'u' && t[2] == '0' && t[3] == '0'
            && Text.IsHexDigit(t[4]) && Text.IsHexDigit(t[5]) then
      ((Text.HexDigitValue(t[4]) * 16 + Text.HexDigitValue(t[5])) as char, 6)
    else (t[0], 1)
  }

  /** Reads the body of a string literal up to its closing quote; gives the
      string and what follows the quote. */
  function DecodeString(t: string): (r: Option<(string, string)>)
    ensures r.Some? ==> |r.value.1| < |t|
    decreases |t|
  {
    if |t| == 0 then None
    else if t[0] == '"' then Some(("", t[1..]))
    else
      var (c, n) := DecodeChar(t);
      match DecodeString(t[n..])
      case None => None
      case Some((s, rest)) => Some(([c] + s, rest))
  }

  lemma DecodeEscapeChar(c: char, t: string)
    ensures DecodeString(EscapeChar(c) + t)
         == match DecodeString(t)
            case None => None
            case Some((s, rest)) => Some(([c] + s, rest))
  {
    var e := EscapeChar(c);
    var u := e + t;
    if c as int < 0x20 && c !in "\U{8}\t\n\U{c}\r" {
      Text.HexDigitRoundTrip(c as int / 16);
      Text.HexDigitRoundTrip(c as int % 16);
      assert u[1] == 'u' && u[4] == Text.HexDigitChar(c as int / 16);
    }
    assert DecodeChar(u) == (c, |e|);
    assert u[|e|..] == t;
  }

  /** Reading a quoted string back gives the string and exactly what followed it. */
  lemma {:induction false} DecodeQuoted(s: string, rest: string)
    ensures DecodeString(Escape(s) + "\"" + rest) == Some((s, rest))
    decreases |s|
  {
    if |s| == 0 {
      assert Escape(s) + "\"" + rest == "\"" + rest;
    } else {
      var tail := Escape(s[1..]) + "\"" + rest;
      assert Escape(s) + "\"" + rest == EscapeChar(s[0]) + tail;
      DecodeQuoted(s[1..], rest);
      DecodeEscapeChar(s[0], tail);
      assert [s[0]] + s[1..] == s;
    }
  }

  // ---------------------------------------------------------------------------
  // Objects whose values are all strings (request parameters)

  function Pair(p: (string, string)): string {
    Quote(p.0) + ":" + Quote(p.1)
  }

  /** The members of a string-valued object followed by its closing brace. */
  function StringMembers(ps: seq<(string, string)>): (r: string)
    ensures |r| > 0
  {
    if |ps| == 0 then "}"
    else Pair(ps[0]) + (if |ps| == 1 then "}" else "," + StringMembers(ps[1..]))
  }

  /** `JSON.stringify` of an object whose values are strings, keys in the given order. */
  function StringObject(ps: seq<(string, string)>): (r: string)
    ensures |r| >= 2 && r[0] == '{'
  {
    "{" + StringMembers(ps)
  }

  /** Reads one `"key":"value"` member at the start of t; gives it and what follows. */
  function DecodePair(t: string): (r: Option<((string, string), string)>)
    ensures r.Some? ==> |r.value.1| < |t|
  {
    if |t| == 0 || t[0] != '"' then None
    else match DecodeString(t[1..])
      case None => None
      case Some((k, r1)) =>
        if |r1| < 2 || r1[0] != ':' || r1[1] != '"' then None
        else match DecodeString(r1[2..])
          case None => None
          case Some((v, r2)) => Some(((k, v), r2))
  }

  function DecodeMembers(t: string): Option<seq<(string, string)>>
    decreases |t|
  {
    if t == "}" then Some([])
    else match DecodePair(t)
      case None => None
      case Some((p, rest)) =>
        if rest == "}" then Some([p])
        else if |rest| == 0 || rest[0] != ',' then None
        else match DecodeMembers(rest[1..])
          case None => None
          case Some(more) => Some([p] + more)
  }

  lemma DecodeQuotedPrefix(s: string, rest: string)
    ensures DecodeString((Quote(s) + rest)[1..]) == Some((s, rest))
  {
    assert (Quote(s) + rest)[1..] == Escape(s) + "\"" + rest;
    DecodeQuoted(s, rest);
  }

  lemma DecodePairOf(p: (string, string), x: string)
    ensures DecodePair(Pair(p) + x) == Some((p, x))
  {
    var r1 := ":" + Quote(p.1) + x;
    PairParts(p, x, r1);
    DecodeQuotedPrefix(p.0, r1);
    DecodeQuotedPrefix(p.1, x);
  }

  lemma PairParts(p: (string, string), x: string, r1: string)
    requires r1 == ":" + Quote(p.1) + x
    ensures Pair(p) + x == Quote(p.0) + r1 && (Quote(p.0) + r1)[0] == '"'
    ensures |r1| >= 2 && r1[0] == ':' && r1[1] == '"' && r1[2..] == (Quote(p.1) + x)[1..]
  {
    assert Pair(p) + x == Quote(p.0) + r1;
  }

  lemma {:induction false} DecodeStringMembers(ps: seq<(string, string)>)
    ensures DecodeMembers(StringMembers(ps)) == Some(ps)
    decreases |ps|
  {
    if |ps| == 1 {
      var t := StringMembers(ps);
      DecodePairOf(ps[0], "}");
      assert t == Pair(ps[0]) + "}";
      assert t != "}" by { assert |t| > 1; }
      assert [ps[0]] == ps;
    } else if |ps| > 1 {
      var more := StringMembers(ps[1..]);
      var x := "," + more;
      var t := StringMembers(ps);
      assert t == Pair(ps[0]) + x;
      DecodePairOf(ps[0], x);
      assert t != "}" by { assert |t| > 1; }
      assert DecodePair(t) == Some((ps[0], x));
      assert x != "}" && x[0] == ',' && x[1..] == more;
      DecodeStringMembers(ps[1..]);
      assert DecodeMembers(t) == Some([ps[0]] + ps[1..]);
      assert [ps[0]] + ps[1..] == ps;
    }
  }

  /** Distinct parameter lists serialise to distinct strings. */
  lemma StringObjectInjective(p: seq<(string, string)>, q: seq<(string, string)>)
    requires StringObject(p) == StringObject(q)
    ensures p == q
  {
    assert StringObject(p)[1..] == StringMembers(p);
    assert StringObject(q)[1..] == StringMembers(q);
    DecodeStringMembers(p);
    DecodeStringMembers(q);
  }
}
