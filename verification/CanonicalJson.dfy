/** The canonical JSON writer behind token signatures
    (canonicalJSON in internal/api/http/middleware/auth/token_request.go). */
module CanonicalJson {

  /** A decoded JSON value.  A number is held as the text the encoder prints for it. */
  datatype Value =
    | Null
    | Bool(truth: bool)
    | Number(text: string)
    | String(chars: string)
    | Array(items: seq<Value>)
    | Object(members: map<string, Value>)

  // ---- strings ----

  function HexDigit(d: nat): (c: char)
    requires d < 16
  {
    "0123456789abcdef"[d]
  }

  function UnicodeEscape(c: char): (code: string)
    requires c as int < 0x10000
    ensures |code| == 6
  {
    var n := c as int;
    ['\\', 'u', HexDigit(n / 16 / 16 / 16), HexDigit(n / 16 / 16 % 16), HexDigit(n / 16 % 16), HexDigit(n % 16)]
  }

  /** How the encoder writes one character inside a string; it also escapes the characters that matter
      to HTML and the two Unicode line separators. */
  function Escape(c: char): (code: string)
    ensures code != ""
  {
    if c == '\"' then "\\\""
    else if c == '\\' then "\\\\"
    else if c as int == 0x08 then "\\b"
    else if c as int == 0x0C then "\\f"
    else if c == '\n' then "\\n"
    else if c == '\r' then "\\r"
    else if c == '\t' then "\\t"
    else if c as int < 0x20 || c == '<' || c == '>' || c == '&' || c as int == 0x2028 || c as int == 0x2029
    then UnicodeEscape(c)
    else [c]
  }

  /** The value of a lower-case hexadecimal digit, or -1. */
  ghost function HexValue(c: char): int {
    if '0' <= c <= '9' then c as int - '0' as int
    else if 'a' <= c <= 'f' then 10 + (c as int - 'a' as int)
    else -1
  }

  /** The code of each character: the two-character escapes of section 7 of RFC 8259, without the one for the solidus;
      \u and four lower-case digits for the other control characters, for <, > and &, and for U+2028 and U+2029;
      itself for any other. */
  lemma EscapeCodes(c: char)
    ensures
      var code, n := Escape(c), c as int;
      if n == 0x22 then code == ['\\', '\"']
      else if n == 0x5C then code == ['\\', '\\']
      else if n == 0x08 then code == ['\\', 'b']
      else if n == 0x09 then code == ['\\', 't']
      else if n == 0x0A then code == ['\\', 'n']
      else if n == 0x0C then code == ['\\', 'f']
      else if n == 0x0D then code == ['\\', 'r']
      else if n < 0x20 || n == 0x26 || n == 0x3C || n == 0x3E || n == 0x2028 || n == 0x2029 then
        && |code| == 6 && code[0] == '\\' && code[1] == 'u'
        && (forall i :: 2 <= i < 6 ==> 0 <= HexValue(code[i]) < 16)
        && n == 4096 * HexValue(code[2]) + 256 * HexValue(code[3]) + 16 * HexValue(code[4]) + HexValue(code[5])
      else code == [c]
  {
    hide UnicodeEscape, HexValue;
    if c as int < 0x10000 { UnicodeCode(c); }
  }

  lemma UnicodeCode(c: char)
    requires c as int < 0x10000
    ensures
      var code := UnicodeEscape(c);
      && code[0] == '\\' && code[1] == 'u' && (forall i :: 2 <= i < 6 ==> 0 <= HexValue(code[i]) < 16)
      && c as int
         == 4096 * HexValue(code[2]) + 256 * HexValue(code[3]) + 16 * HexValue(code[4]) + HexValue(code[5])
  {
    hide HexDigit, HexValue;
    var n := c as int;
    HexDigitValue(n / 16 / 16 / 16);
    HexDigitValue(n / 16 / 16 % 16);
    HexDigitValue(n / 16 % 16);
    HexDigitValue(n % 16);
  }

  lemma HexDigitValue(d: nat)
    requires d < 16
    ensures HexValue(HexDigit(d)) == d
  {
  }

  function Escaped(s: string): string {
    if s == "" then "" else Escape(s[0]) + Escaped(s[1..])
  }

  function Quote(s: string): string {
    "\"" + Escaped(s) + "\""
  }

  lemma SplitAt(a: string, x: string, b: string, y: string)
    requires a + x == b + y && |a| == |b|
    ensures a == b && x == y
  {
    assert a == (a + x)[..|a|] && x == (a + x)[|a|..];
    assert b == (b + y)[..|b|] && y == (b + y)[|b|..];
  }

  lemma HexInjective(d: nat, e: nat)
    requires d < 16 && e < 16 && HexDigit(d) == HexDigit(e)
    ensures d == e
  {
  }

  lemma UnicodeEscapeInjective(c: char, d: char)
    requires c as int < 0x10000 && d as int < 0x10000 && UnicodeEscape(c) == UnicodeEscape(d)
    ensures c == d
  {
    var n, m := c as int, d as int;
    var s, t := UnicodeEscape(c), UnicodeEscape(d);
    assert s[2] == t[2] && s[3] == t[3] && s[4] == t[4] && s[5] == t[5];
    HexInjective(n / 16 / 16 / 16, m / 16 / 16 / 16);
    HexInjective(n / 16 / 16 % 16, m / 16 / 16 % 16);
    HexInjective(n / 16 % 16, m / 16 % 16);
    HexInjective(n % 16, m % 16);
    SameDigit(n / 16 / 16, m / 16 / 16);
    SameDigit(n / 16, m / 16);
    SameDigit(n, m);
  }

  lemma SameDigit(n: nat, m: nat)
    requires n / 16 == m / 16 && n % 16 == m % 16
    ensures n == m
  {
  }

  /** No escape is the start of another, and none starts like the closing quote. */
  lemma EscapeIsPrefixFree(c: char, x: string, d: char, y: string)
    requires Escape(c) + x == Escape(d) + y
    ensures c == d && x == y
    ensures Escape(c)[0] != '\"'
  {
    var s, t := Escape(c), Escape(d);
    assert (s + x)[0] == s[0] && (t + y)[0] == t[0];
    assert |s| > 1 && |t| > 1 ==> s[1] == (s + x)[1] == (t + y)[1] == t[1];
    hide HexDigit;
    assert |s| == |t|;
    SplitAt(s, x, t, y);
    if |s| == 6 { UnicodeEscapeInjective(c, d); }
  }

  lemma {:induction false} EscapedIsUnique(s: string, x: string, t: string, y: string)
    requires Escaped(s) + ("\"" + x) == Escaped(t) + ("\"" + y)
    ensures s == t && x == y
  {
    EscapedStart(s, x);
    EscapedStart(t, y);
    if s == "" {
      SplitAt("\"", x, "\"", y);
    } else {
      var s', t' := Escaped(s[1..]) + ("\"" + x), Escaped(t[1..]) + ("\"" + y);
      EscapeIsPrefixFree(s[0], s', t[0], t');
      EscapedIsUnique(s[1..], x, t[1..], y);
      assert s == [s[0]] + s[1..] && t == [t[0]] + t[1..];
    }
  }

  /** The first character after the opening quote tells an empty string from another. */
  lemma EscapedStart(s: string, x: string)
    ensures
      var e := Escaped(s) + ("\"" + x);
      if s == "" then e == "\"" + x
      else e[0] != '\"' && e == Escape(s[0]) + (Escaped(s[1..]) + ("\"" + x))
  {
    if s != "" {
      EscapeIsPrefixFree(s[0], "", s[0], "");
      hide Escape;
      Regroup(Escape(s[0]), Escaped(s[1..]), "\"" + x);
    }
  }

  lemma Regroup(a: string, b: string, c: string)
    ensures (a + b) + c == a + (b + c)
  {
  }

  lemma QuoteIsUnique(s: string, x: string, t: string, y: string)
    requires Quote(s) + x == Quote(t) + y
    ensures s == t && x == y
  {
    QuoteParts(s, x);
    QuoteParts(t, y);
    SplitAt("\"", Escaped(s) + ("\"" + x), "\"", Escaped(t) + ("\"" + y));
    EscapedIsUnique(s, x, t, y);
  }

  lemma QuoteParts(s: string, x: string)
    ensures Quote(s) + x == "\"" + (Escaped(s) + ("\"" + x))
  {
  }

  // ---- sorted keys ----

  /** Strings in code point order, which is also the order of their UTF-8 bytes. */
  predicate Less(s: string, t: string) {
    t != "" && (s == "" || s[0] < t[0] || (s[0] == t[0] && Less(s[1..], t[1..])))
  }

  lemma {:induction false} LessTransitive(s: string, t: string, u: string)
    requires Less(s, t) && Less(t, u)
    ensures Less(s, u)
  {
    if s != "" && s[0] == t[0] == u[0] {
      LessTransitive(s[1..], t[1..], u[1..]);
    }
  }

  lemma {:induction false} LessTrichotomy(s: string, t: string)
    ensures !(Less(s, t) && Less(t, s)) && !Less(s, s)
    ensures Less(s, t) || s == t || Less(t, s)
  {
    if s != "" {
      LessTrichotomy(s[1..], s[1..]);
      if t != "" {
        LessTrichotomy(s[1..], t[1..]);
        assert s[0] == t[0] && s[1..] == t[1..] ==> s == t by {
          assert s == [s[0]] + s[1..] && t == [t[0]] + t[1..];
        }
      }
    }
  }

  /** The strings agree up to the `i`-th character, and there `s` has the smaller one. */
  ghost predicate SmallerAt(s: string, t: string, i: nat) {
    i < |s| && i < |t| && s[..i] == t[..i] && s[i] < t[i]
  }

  /** One string comes before another if it is a proper prefix of it, or has the smaller character where they first
      differ. */
  lemma {:induction false} LessMeans(s: string, t: string)
    ensures Less(s, t) <==> (|s| < |t| && s == t[..|s|]) || exists i: nat :: SmallerAt(s, t, i)
  {
    if t == "" {
    } else if s == "" {
      assert s == t[..0];
    } else if s[0] == t[0] {
      LessMeans(s[1..], t[1..]);
      PrefixShift(s, t);
      SmallerShift(s, t);
      hide SmallerAt;
    } else if s[0] < t[0] {
      assert SmallerAt(s, t, 0);
    } else {
      forall i: nat ensures !SmallerAt(s, t, i) {
        if 0 < i <= |s| && i <= |t| { assert s[..i][0] == s[0] && t[..i][0] == t[0]; }
      }
      assert |s| <= |t| ==> t[..|s|][0] == t[0];
    }
  }

  lemma PrefixShift(s: string, t: string)
    requires s != "" && t != "" && s[0] == t[0]
    ensures |s| < |t| && s == t[..|s|] <==> |s[1..]| < |t[1..]| && s[1..] == t[1..][..|s[1..]|]
  {
    if |s| < |t| {
      assert t[..|s|] == [t[0]] + t[1..][..|s| - 1] && s == [s[0]] + s[1..];
      assert t[..|s|][1..] == t[1..][..|s| - 1];
    }
  }

  lemma SmallerShift(s: string, t: string)
    requires s != "" && t != "" && s[0] == t[0]
    ensures (exists i: nat :: SmallerAt(s, t, i)) <==> exists i: nat :: SmallerAt(s[1..], t[1..], i)
  {
    if i: nat :| SmallerAt(s, t, i) {
      SmallerNext(s, t, i - 1);
    }
    if i: nat :| SmallerAt(s[1..], t[1..], i) {
      SmallerNext(s, t, i);
    }
  }

  lemma SmallerNext(s: string, t: string, i: nat)
    requires s != "" && t != "" && s[0] == t[0]
    ensures SmallerAt(s, t, i + 1) <==> SmallerAt(s[1..], t[1..], i)
  {
    if i < |s| - 1 && i < |t| - 1 {
      assert s[..i + 1] == [s[0]] + s[1..][..i] && t[..i + 1] == [t[0]] + t[1..][..i];
      assert s[..i + 1][1..] == s[1..][..i] && t[..i + 1][1..] == t[1..][..i];
    }
  }

  predicate Ascending(keys: seq<string>) {
    forall i, j :: 0 <= i < j < |keys| ==> Less(keys[i], keys[j])
  }

  ghost function Elements(keys: seq<string>): set<string> {
    set k | k in keys
  }

  lemma SameEmptiness(s: seq<string>, t: seq<string>)
    requires Elements(s) == Elements(t)
    ensures s == [] <==> t == []
    ensures s != [] ==> s[0] in Elements(t) && t[0] in Elements(s)
  {
    assert s != [] ==> s[0] in Elements(s);
    assert t != [] ==> t[0] in Elements(t);
  }

  /** A set of keys has one ascending order. */
  lemma {:induction false} AscendingIsUnique(s: seq<string>, t: seq<string>)
    requires Ascending(s) && Ascending(t) && Elements(s) == Elements(t)
    ensures s == t
  {
    SameEmptiness(s, t);
    if s != [] {
      LessTrichotomy(s[0], t[0]);
      assert s[0] == t[0];
      forall k | k in Elements(s[1..]) ensures k in Elements(t[1..]) {
        LessTrichotomy(k, s[0]);
        assert k in Elements(s);
      }
      forall k | k in Elements(t[1..]) ensures k in Elements(s[1..]) {
        LessTrichotomy(k, t[0]);
        assert k in Elements(t);
      }
      AscendingIsUnique(s[1..], t[1..]);
      assert s == [s[0]] + s[1..] && t == [t[0]] + t[1..];
    }
  }

  function Insert(keys: seq<string>, key: string): seq<string> {
    if keys == [] || Less(key, keys[0]) then [key] + keys else [keys[0]] + Insert(keys[1..], key)
  }

  lemma {:induction false} InsertKeepsOrder(keys: seq<string>, key: string)
    requires Ascending(keys) && key !in keys
    ensures Ascending(Insert(keys, key)) && Elements(Insert(keys, key)) == Elements(keys) + {key}
  {
    if keys == [] {
    } else if Less(key, keys[0]) {
      forall i | 0 < i < |keys| ensures Less(key, keys[i]) {
        LessTransitive(key, keys[0], keys[i]);
      }
    } else {
      LessTrichotomy(key, keys[0]);
      InsertKeepsOrder(keys[1..], key);
      var rest := Insert(keys[1..], key);
      forall i | 0 <= i < |rest| ensures Less(keys[0], rest[i]) {
        assert rest[i] in Elements(rest);
      }
      assert Elements(keys) == {keys[0]} + Elements(keys[1..]);
      assert Elements([keys[0]] + rest) == {keys[0]} + Elements(rest);
    }
  }

  lemma {:induction false} AscendingExists(keys: set<string>)
    ensures exists s :: Ascending(s) && Elements(s) == keys
  {
    if keys == {} {
      assert Ascending([]) && Elements([]) == keys;
    } else {
      var k :| k in keys;
      AscendingExists(keys - {k});
      var s :| Ascending(s) && Elements(s) == keys - {k};
      assert k !in s by { assert k in s ==> k in Elements(s); }
      InsertKeepsOrder(s, k);
      assert Elements(Insert(s, k)) == keys;
    }
  }

  ghost function SortedKeys(keys: set<string>): (s: seq<string>)
    ensures Ascending(s) && Elements(s) == keys
  {
    AscendingExists(keys);
    var s :| Ascending(s) && Elements(s) == keys;
    s
  }

  // ---- values ----

  predicate NumberChar(c: char) {
    '0' <= c <= '9' || c == '-' || c == '+' || c == '.' || c == 'e' || c == 'E'
  }

  /** Numbers print as non-empty runs of the characters a number can hold. */
  predicate Encodable(v: Value) {
    match v
    case Number(text) => text != "" && forall i :: 0 <= i < |text| ==> NumberChar(text[i])
    case Array(items) => forall i :: 0 <= i < |items| ==> Encodable(items[i])
    case Object(members) => forall k :: k in members ==> Encodable(members[k])
    case _ => true
  }

  function Separator(i: nat): string {
    if i > 0 then "," else ""
  }

  /** The canonical text of a value. */
  ghost function Text(v: Value): string
    decreases v, 1, 0
  {
    match v
    case Null => "null"
    case Bool(truth) => if truth then "true" else "false"
    case Number(text) => text
    case String(chars) => Quote(chars)
    case Array(items) => "[" + Items(v, 0)
    case Object(members) => "{" + Members(v, SortedKeys(members.Keys), 0)
  }

  /** The text of an array from item `i` to its closing bracket. */
  ghost function Items(v: Value, i: nat): string
    requires v.Array? && i <= |v.items|
    decreases v, 0, |v.items| - i
  {
    if i == |v.items| then "]"
    else Separator(i) + (Text(v.items[i]) + Items(v, i + 1))
  }

  /** The text of an object from member `i` to its closing brace. */
  ghost function Members(v: Value, keys: seq<string>, i: nat): string
    requires v.Object? && Elements(keys) == v.members.Keys && i <= |keys|
    decreases v, 0, |keys| - i
  {
    if i == |keys| then "}"
    else
      KeyPresent(v.members, keys, i);
      Separator(i) + (Quote(keys[i]) + (":" + (Text(v.members[keys[i]]) + Members(v, keys, i + 1))))
  }

  /** The parts with a comma between any two. */
  ghost function Commas(parts: seq<string>): string {
    if |parts| <= 1 then (if parts == [] then "" else parts[0]) else parts[0] + "," + Commas(parts[1..])
  }

  /** The text of a value: no white space, the items of an array in their order, and the members of an object in the
      ascending order of their keys. */
  lemma TextMeans(v: Value)
    ensures v.Null? ==> Text(v) == "null"
    ensures v.Bool? ==> Text(v) == if v.truth then "true" else "false"
    ensures v.Number? ==> Text(v) == v.text
    ensures v.String? ==> Text(v) == Quote(v.chars) == "\"" + Escaped(v.chars) + "\""
    ensures v.Array? ==>
              Text(v) == "[" + Commas(seq(|v.items|, i requires 0 <= i < |v.items| => Text(v.items[i]))) + "]"
    ensures v.Object? ==>
              exists keys, parts ::
                && Ascending(keys) && (forall k :: k in keys <==> k in v.members)
                && MembersAre(parts, keys, v) && Text(v) == "{" + Commas(parts) + "}"
  {
    if v.Array? {
      ArrayText(v);
    } else if v.Object? {
      var keys, parts := ObjectText(v);
      assert MembersAre(parts, keys, v);
    }
  }

  /** Each part is a member: its key, quoted, a colon, and its text. */
  ghost predicate MembersAre(parts: seq<string>, keys: seq<string>, v: Value)
    requires v.Object?
  {
    && |parts| == |keys|
    && forall i :: 0 <= i < |keys| ==>
         keys[i] in v.members && parts[i] == Quote(keys[i]) + ":" + Text(v.members[keys[i]])
  }

  lemma ArrayText(v: Value)
    requires v.Array?
    ensures Text(v) == "[" + Commas(seq(|v.items|, i requires 0 <= i < |v.items| => Text(v.items[i]))) + "]"
  {
    var texts := seq(|v.items|, i requires 0 <= i < |v.items| => Text(v.items[i]));
    ItemsText(v, texts, 0);
    assert texts[0..] == texts;
    Regroup("[", Commas(texts), "]");
  }

  lemma ObjectText(v: Value) returns (keys: seq<string>, parts: seq<string>)
    requires v.Object?
    ensures Ascending(keys) && forall k :: k in keys <==> k in v.members
    ensures MembersAre(parts, keys, v) && Text(v) == "{" + Commas(parts) + "}"
  {
    hide Quote, Commas, Ascending, Elements;
    keys := SortedKeys(v.members.Keys);
    SortedKeysAre(v.members.Keys);
    parts := seq(|keys|, i requires 0 <= i < |keys| => Quote(keys[i]) + ":" + Text(v.members[keys[i]]));
    MembersText(v, keys, parts, 0);
    assert parts[0..] == parts;
    Regroup("{", Commas(parts), "}");
  }

  lemma SortedKeysAre(keys: set<string>)
    ensures forall k :: k in SortedKeys(keys) <==> k in keys
  {
    forall k ensures k in SortedKeys(keys) <==> k in keys {
      assert k in Elements(SortedKeys(keys)) <==> k in keys;
    }
  }

  lemma CommasFrom(parts: seq<string>, i: nat, close: string)
    requires i < |parts|
    ensures Commas(parts[i..]) + close
            == parts[i] + ((if i + 1 < |parts| then "," else "") + (Commas(parts[i + 1..]) + close))
  {
    assert parts[i..][1..] == parts[i + 1..];
    if i + 1 < |parts| {
      var rest := Commas(parts[i + 1..]);
      Regroup(parts[i] + ",", rest, close);
      Regroup(parts[i], ",", rest + close);
    } else {
      assert parts[i + 1..] == [];
    }
  }

  lemma {:induction false} ItemsText(v: Value, texts: seq<string>, i: nat)
    requires v.Array? && |texts| == |v.items| && i <= |texts|
    requires forall k :: 0 <= k < |texts| ==> texts[k] == Text(v.items[k])
    ensures Items(v, i) == (if 0 < i < |texts| then "," else "") + (Commas(texts[i..]) + "]")
    decreases |texts| - i
  {
    if i < |texts| {
      ItemsText(v, texts, i + 1);
      CommasFrom(texts, i, "]");
      hide Commas;
    }
  }

  lemma {:induction false} MembersText(v: Value, keys: seq<string>, parts: seq<string>, i: nat)
    requires v.Object? && Elements(keys) == v.members.Keys && i <= |keys| && MembersAre(parts, keys, v)
    ensures Members(v, keys, i) == (if 0 < i < |parts| then "," else "") + (Commas(parts[i..]) + "}")
    decreases |keys| - i
  {
    if i < |keys| {
      MembersText(v, keys, parts, i + 1);
      CommasFrom(parts, i, "}");
      MemberParts(Quote(keys[i]), Text(v.members[keys[i]]), Members(v, keys, i + 1));
      hide Commas, Quote, Text, Elements;
    }
  }

  lemma MemberParts(key: string, text: string, rest: string)
    ensures key + (":" + (text + rest)) == key + ":" + text + rest
  {
    Regroup(key, ":", text + rest);
    Regroup(key + ":", text, rest);
  }

  lemma KeyPresent(members: map<string, Value>, keys: seq<string>, i: nat)
    requires Elements(keys) == members.Keys && i < |keys|
    ensures keys[i] in members
  {
    assert keys[i] in Elements(keys);
  }

  /** What may follow a value: nothing, or a character no number goes on with. */
  predicate Delimits(rest: string) {
    rest != "" ==> !NumberChar(rest[0])
  }

  lemma FirstOfItems(v: Value, i: nat, x: string)
    requires Encodable(v) && v.Array? && i < |v.items|
    ensures Items(v, i) + x == Separator(i) + (Text(v.items[i]) + (Items(v, i + 1) + x))
    ensures (Items(v, i) + x)[0] != ']' && Delimits(Items(v, i + 1) + x)
  {
    FirstOfText(v.items[i], "");
    Regroup(Separator(i), Text(v.items[i]) + Items(v, i + 1), x);
    Regroup(Text(v.items[i]), Items(v, i + 1), x);
  }

  lemma FirstOfMembers(v: Value, keys: seq<string>, i: nat, x: string)
    requires Encodable(v) && v.Object? && Elements(keys) == v.members.Keys && i < |keys|
    ensures keys[i] in v.members
    ensures Members(v, keys, i) + x
         == Separator(i) + (Quote(keys[i]) + (":" + (Text(v.members[keys[i]]) + (Members(v, keys, i + 1) + x))))
    ensures (Members(v, keys, i) + x)[0] != '}' && Delimits(Members(v, keys, i + 1) + x)
  {
    KeyPresent(v.members, keys, i);
    var text, rest := Text(v.members[keys[i]]), Members(v, keys, i + 1);
    Regroup(Separator(i), Quote(keys[i]) + (":" + (text + rest)), x);
    Regroup(Quote(keys[i]), ":" + (text + rest), x);
    Regroup(":", text + rest, x);
    Regroup(text, rest, x);
  }

  /** The first character of a value tells its kind. */
  lemma FirstOfText(v: Value, x: string)
    requires Encodable(v)
    ensures Text(v) != "" && (Text(v) + x)[0] == Text(v)[0]
    ensures
      var c := Text(v)[0];
      match v
      case Null => c == 'n'
      case Bool(truth) => c == if truth then 't' else 'f'
      case Number(_) => NumberChar(c)
      case String(_) => c == '\"'
      case Array(_) => c == '['
      case Object(_) => c == '{'
  {
  }

  /** How many number characters the text starts with. */
  function Run(s: string): nat {
    if s != "" && NumberChar(s[0]) then 1 + Run(s[1..]) else 0
  }

  lemma {:induction false} RunIsNumber(s: string, x: string)
    requires Delimits(x) && forall i :: 0 <= i < |s| ==> NumberChar(s[i])
    ensures Run(s + x) == |s|
  {
    if s == "" {
      assert s + x == x;
    } else {
      assert (s + x)[1..] == s[1..] + x;
      RunIsNumber(s[1..], x);
    }
  }

  lemma NumberIsUnique(s: string, x: string, t: string, y: string)
    requires s + x == t + y && Delimits(x) && Delimits(y)
    requires forall i :: 0 <= i < |s| ==> NumberChar(s[i])
    requires forall i :: 0 <= i < |t| ==> NumberChar(t[i])
    ensures s == t && x == y
  {
    RunIsNumber(s, x);
    RunIsNumber(t, y);
    SplitAt(s, x, t, y);
  }

  /** A canonical text can be read back in one way only, whatever delimiter follows it. */
  lemma {:induction false} TextIsUnique(v: Value, x: string, w: Value, y: string)
    requires Encodable(v) && Encodable(w) && Delimits(x) && Delimits(y)
    requires Text(v) + x == Text(w) + y
    ensures v == w && x == y
    decreases v, 1, 0
  {
    FirstOfText(v, x);
    FirstOfText(w, y);
    match v
    case Null => SplitAt("null", x, "null", y);
    case Bool(truth) => SplitAt(Text(v), x, Text(v), y);
    case Number(text) => NumberIsUnique(text, x, w.text, y);
    case String(chars) => QuoteIsUnique(chars, x, w.chars, y);
    case Array(items) =>
      Regroup("[", Items(v, 0), x);
      Regroup("[", Items(w, 0), y);
      SplitAt("[", Items(v, 0) + x, "[", Items(w, 0) + y);
      ItemsAreUnique(v, 0, x, w, y);
    case Object(members) =>
      var keys, keys' := SortedKeys(members.Keys), SortedKeys(w.members.Keys);
      Regroup("{", Members(v, keys, 0), x);
      Regroup("{", Members(w, keys', 0), y);
      SplitAt("{", Members(v, keys, 0) + x, "{", Members(w, keys', 0) + y);
      MembersAreUnique(v, keys, 0, x, w, keys', y);
      SameMembers(members, w.members, keys, keys');
  }

  lemma {:induction false} ItemsAreUnique(v: Value, i: nat, x: string, w: Value, y: string)
    requires Encodable(v) && Encodable(w) && v.Array? && w.Array? && Delimits(x) && Delimits(y)
    requires i <= |v.items| && i <= |w.items| && Items(v, i) + x == Items(w, i) + y
    ensures v.items[i..] == w.items[i..] && x == y
    decreases v, 0, |v.items| - i
  {
    if i < |v.items| { FirstOfItems(v, i, x); }
    if i < |w.items| { FirstOfItems(w, i, y); }
    if i == |v.items| {
      SplitAt("]", x, "]", y);
    } else {
      var x', y' := Items(v, i + 1) + x, Items(w, i + 1) + y;
      SplitAt(Separator(i), Text(v.items[i]) + x', Separator(i), Text(w.items[i]) + y');
      TextIsUnique(v.items[i], x', w.items[i], y');
      ItemsAreUnique(v, i + 1, x, w, y);
      assert v.items[i..] == [v.items[i]] + v.items[i + 1..];
      assert w.items[i..] == [w.items[i]] + w.items[i + 1..];
    }
  }

  lemma MembersEncodable(v: Value)
    requires Encodable(v) && v.Object?
    ensures forall k :: k in v.members ==> Encodable(v.members[k])
  {
  }

  lemma {:induction false} MembersAreUnique(v: Value, keys: seq<string>, i: nat, x: string,
                                            w: Value, keys': seq<string>, y: string)
    requires Encodable(v) && Encodable(w) && v.Object? && w.Object? && Delimits(x) && Delimits(y)
    requires Elements(keys) == v.members.Keys && Elements(keys') == w.members.Keys
    requires i <= |keys| && i <= |keys'| && Members(v, keys, i) + x == Members(w, keys', i) + y
    ensures keys[i..] == keys'[i..] && x == y
    ensures forall k :: k in keys[i..] && k in v.members && k in w.members ==> v.members[k] == w.members[k]
    decreases v, 0, |keys| - i
  {
    hide Text, Quote, Encodable, Elements;
    MembersEncodable(v);
    MembersEncodable(w);
    if i < |keys| { FirstOfMembers(v, keys, i, x); }
    if i < |keys'| { FirstOfMembers(w, keys', i, y); }
    if i == |keys| {
      SplitAt("}", x, "}", y);
    } else {
      var k, k' := keys[i], keys'[i];
      var x', y' := Members(v, keys, i + 1) + x, Members(w, keys', i + 1) + y;
      var m, m' := Text(v.members[k]) + x', Text(w.members[k']) + y';
      SplitAt(Separator(i), Quote(k) + (":" + m), Separator(i), Quote(k') + (":" + m'));
      QuoteIsUnique(k, ":" + m, k', ":" + m');
      SplitAt(":", m, ":", m');
      TextIsUnique(v.members[k], x', w.members[k'], y');
      MembersAreUnique(v, keys, i + 1, x, w, keys', y);
      assert keys[i..] == [k] + keys[i + 1..] && keys'[i..] == [k'] + keys'[i + 1..];
    }
  }

  lemma SameMembers(m: map<string, Value>, n: map<string, Value>, keys: seq<string>, keys': seq<string>)
    requires Elements(keys) == m.Keys && Elements(keys') == n.Keys
    requires keys[0..] == keys'[0..]
    requires forall k :: k in keys[0..] && k in m && k in n ==> m[k] == n[k]
    ensures m == n
  {
    assert keys[0..] == keys && keys'[0..] == keys';
    assert m.Keys == n.Keys;
    forall k | k in m ensures m[k] == n[k] {
      assert k in Elements(keys);
    }
  }

  /** Two values have the same canonical text exactly when they are equal as JSON values; the members
      of an object have no order. */
  lemma SameTextIff(v: Value, w: Value)
    requires Encodable(v) && Encodable(w)
    ensures Text(v) == Text(w) <==> v == w
  {
    if Text(v) == Text(w) {
      TextIsUnique(v, "", w, "");
    }
  }

  // ---- the writer ----

  class Buffer {
    var text: string

    constructor ()
      ensures text == ""
    {
      text := "";
    }

    method Write(s: string)
      modifies this
      ensures text == old(text) + s
    {
      text := text + s;
    }
  }

  method SortStrings(keys: set<string>) returns (sorted: seq<string>)
    ensures sorted == SortedKeys(keys)
  {
    sorted := [];
    var left := keys;
    while left != {}
      invariant left <= keys && Ascending(sorted) && Elements(sorted) == keys - left
    {
      var key :| key in left;
      assert key in sorted ==> key in Elements(sorted);
      InsertKeepsOrder(sorted, key);
      sorted := Insert(sorted, key);
      left := left - {key};
    }
    AscendingIsUnique(sorted, SortedKeys(keys));
  }

  method WriteCanonicalJSON(buf: Buffer, value: Value)
    modifies buf
    ensures buf.text == old(buf.text) + Text(value)
    decreases value, 1
  {
    match value
    case Object(_) => WriteObject(buf, value);
    case Array(_) => WriteArray(buf, value);
    case Null => buf.Write("null");
    case Bool(truth) => buf.Write(if truth then "true" else "false");
    case Number(text) => buf.Write(text);
    case String(chars) => buf.Write(Quote(chars));
  }

  method WriteObject(buf: Buffer, value: Value)
    requires value.Object?
    modifies buf
    ensures buf.text == old(buf.text) + Text(value)
    decreases value, 0
  {
    hide Quote;
    var members := value.members;
    var keys := SortStrings(members.Keys);
    ghost var all := Members(value, keys, 0);
    buf.Write("{");
    ghost var start := buf.text;
    var i := 0;
    while i < |keys|
      invariant 0 <= i <= |keys| && buf.text + Members(value, keys, i) == start + all
    {
      KeyPresent(members, keys, i);
      ghost var was, rest := buf.text, Members(value, keys, i + 1);
      var member := members[keys[i]];
      assert Members(value, keys, i) == Separator(i) + (Quote(keys[i]) + (":" + (Text(member) + rest)));
      hide Text, Members;
      if i > 0 {
        buf.Write(",");
      }
      assert buf.text == was + Separator(i);
      buf.Write(Quote(keys[i]));
      buf.Write(":");
      WriteCanonicalJSON(buf, member);
      MemberWritten(was, Separator(i), Quote(keys[i]), Text(member), rest);
      i := i + 1;
    }
    buf.Write("}");
    Regroup(old(buf.text), "{", all);
  }

  method WriteArray(buf: Buffer, value: Value)
    requires value.Array?
    modifies buf
    ensures buf.text == old(buf.text) + Text(value)
    decreases value, 0
  {
    var items := value.items;
    ghost var all := Items(value, 0);
    buf.Write("[");
    ghost var start := buf.text;
    var i := 0;
    while i < |items|
      invariant 0 <= i <= |items| && buf.text + Items(value, i) == start + all
    {
      ghost var was, rest := buf.text, Items(value, i + 1);
      assert Items(value, i) == Separator(i) + (Text(items[i]) + rest);
      hide Text, Items;
      if i > 0 {
        buf.Write(",");
      }
      assert buf.text == was + Separator(i);
      WriteCanonicalJSON(buf, items[i]);
      ItemWritten(was, Separator(i), Text(items[i]), rest);
      i := i + 1;
    }
    buf.Write("]");
    Regroup(old(buf.text), "[", all);
  }

  lemma ItemWritten(was: string, sep: string, text: string, rest: string)
    ensures was + (sep + (text + rest)) == ((was + sep) + text) + rest
  {
  }

  lemma MemberWritten(was: string, sep: string, key: string, text: string, rest: string)
    ensures was + (sep + (key + (":" + (text + rest)))) == ((((was + sep) + key) + ":") + text) + rest
  {
  }

  method CanonicalJSON(value: Value) returns (text: string)
    ensures text == Text(value)
  {
    var buf := new Buffer();
    WriteCanonicalJSON(buf, value);
    text := buf.text;
  }
}
