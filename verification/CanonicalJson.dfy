/** Canonical JSON and the text a snapshot signature is hashed from
    (`signature.rs` of cherry-pit-storage). */
module CanonicalJson {
  import opened Prelude

  /** A parsed JSON value. Objects are maps; a number is the text it prints as. */
  datatype Json =
    | Null
    | Bool(b: bool)
    | Number(text: string)
    | String(s: string)
    | Array(items: seq<Json>)
    | Object(fields: map<string, Json>)

  predicate IsNumberChar(c: char) {
    '0' <= c <= '9' || c in "+-.eE"
  }

  predicate IsNumberText(s: string) {
    s != "" && forall i :: 0 <= i < |s| ==> IsNumberChar(s[i])
  }

  /** Every number in the value is non-empty text over the number alphabet. */
  ghost predicate WellFormed(v: Json) {
    match v
    case Number(text) => IsNumberText(text)
    case Array(items) => forall i :: 0 <= i < |items| ==> WellFormed(items[i])
    case Object(fields) => forall k :: k in fields ==> WellFormed(fields[k])
    case _ => true
  }

  // ---------------------------------------------------------------------
  // String escaping
  // ---------------------------------------------------------------------

  /** `char::is_control`: C0, DEL and C1. */
  predicate IsControl(c: char) {
    c as int <= 0x1F || 0x7F <= c as int <= 0x9F
  }

  function HexDigit(n: nat): char
    requires n < 16
  {
    if n < 10 then ('0' as int + n) as char else ('a' as int + n - 10) as char
  }

  function Hex4(n: nat): string
    requires n < 0x10000
  {
    [HexDigit(n / 4096), HexDigit(n / 256 % 16), HexDigit(n / 16 % 16), HexDigit(n % 16)]
  }

  function EscapeChar(c: char): string {
    if c == '"' then "\\\""
    else if c == '\\' then "\\\\"
    else if c == '\n' then "\\n"
    else if c == '\r' then "\\r"
    else if c == '\t' then "\\t"
    else if IsControl(c) then "\\u" + Hex4(c as int)
    else [c]
  }

  function Escape(s: string): string {
    if s == "" then "" else EscapeChar(s[0]) + Escape(s[1..])
  }

  method EscapeJsonString(s: string) returns (out: string)
    ensures out == Escape(s)
  {
    out := "";
    var i := 0;
    while i < |s|
      invariant 0 <= i <= |s|
      invariant out + Escape(s[i..]) == Escape(s)
    {
      var ch := s[i];
      assert s[i..][1..] == s[i + 1..];
      assert out + (EscapeChar(ch) + Escape(s[i + 1..])) == (out + EscapeChar(ch)) + Escape(s[i + 1..]);
      if ch == '"' {
        out := out + "\\\"";
      } else if ch == '\\' {
        out := out + "\\\\";
      } else if ch == '\n' {
        out := out + "\\n";
      } else if ch == '\r' {
        out := out + "\\r";
      } else if ch == '\t' {
        out := out + "\\t";
      } else if IsControl(ch) {
        out := out + ("\\u" + Hex4(ch as int));
      } else {
        out := out + [ch];
      }
      i := i + 1;
    }
  }

  // ---------------------------------------------------------------------
  // Reading back: the string syntax of section 7 of RFC 8259
  // ---------------------------------------------------------------------

  function HexValue(c: char): Option<nat> {
    if '0' <= c <= '9' then Some(c as int - '0' as int)
    else if 'a' <= c <= 'f' then Some(c as int - 'a' as int + 10)
    else if 'A' <= c <= 'F' then Some(c as int - 'A' as int + 10)
    else None
  }

  function Hex4Value(t: string): Option<nat>
    requires |t| == 4
  {
    match (HexValue(t[0]), HexValue(t[1]), HexValue(t[2]), HexValue(t[3]))
    case (Some(a), Some(b), Some(c), Some(d)) => Some(4096 * a + 256 * b + 16 * c + d)
    case _ => None
  }

  /** The first character of a string body and what follows it; surrogate escapes are refused. */
  function ReadChar(t: string): (r: Option<(char, string)>)
    ensures r.Some? ==> |r.value.1| < |t|
  {
    if t == "" || t[0] == '"' || t[0] as int < 0x20 then None
    else if t[0] != '\\' then Some((t[0], t[1..]))
    else if |t| < 2 then None
    else if t[1] in "\"\\/" then Some((t[1], t[2..]))
    else if t[1] == 'b' then Some((8 as char, t[2..]))
    else if t[1] == 'f' then Some((12 as char, t[2..]))
    else if t[1] == 'n' then Some(('\n', t[2..]))
    else if t[1] == 'r' then Some(('\r', t[2..]))
    else if t[1] == 't' then Some(('\t', t[2..]))
    else if t[1] == 'u' && |t| >= 6 then
      match Hex4Value(t[2..6])
      case Some(n) => if 0xD800 <= n < 0xE000 || n > 0xFFFF then None else Some((n as char, t[6..]))
      case None => None
    else None
  }

  /** A string body up to its closing quote, and what follows the quote. */
  function ReadString(t: string): (r: Option<(string, string)>)
    ensures r.Some? ==> |r.value.1| < |t|
    decreases |t|
  {
    if t != "" && t[0] == '"' then Some(("", t[1..]))
    else
      match ReadChar(t)
      case None => None
      case Some((c, rest)) =>
        match ReadString(rest)
        case None => None
        case Some((s, after)) => Some(([c] + s, after))
  }

  lemma HexDigitValue(d: nat)
    requires d < 16
    ensures HexValue(HexDigit(d)) == Some(d)
  {
  }

  lemma HexRoundTrip(n: nat)
    requires n < 256
    ensures Hex4Value(Hex4(n)) == Some(n)
  {
    HexDigitValue(0);
    HexDigitValue(n / 16);
    HexDigitValue(n % 16);
    hide HexDigit;
    hide HexValue;
    assert Hex4(n) == [HexDigit(0), HexDigit(0), HexDigit(n / 16), HexDigit(n % 16)];
  }

  lemma ReadEscapedChar(c: char, r: string)
    ensures ReadChar(EscapeChar(c) + r) == Some((c, r)) && EscapeChar(c)[0] != '"'
  {
    var t := EscapeChar(c) + r;
    assert t[0] == EscapeChar(c)[0];
    assert t[|EscapeChar(c)|..] == r;
    if |EscapeChar(c)| == 6 {
      assert t[2..6] == Hex4(c as int);
      HexRoundTrip(c as int);
    }
  }

  lemma Regroup(a: string, b: string, c: string, d: string)
    ensures a + b + c + d == a + (b + c + d) == a + (b + (c + d))
  {
  }

  /** An escaped string reads back as itself, ending at its closing quote. */
  lemma {:induction false} ReadEscaped(s: string, r: string)
    ensures ReadString(Escape(s) + "\"" + r) == Some((s, r))
  {
    if s == "" {
      assert Escape(s) + "\"" + r == "\"" + r && ("\"" + r)[1..] == r;
    } else {
      Regroup(EscapeChar(s[0]), Escape(s[1..]), "\"", r);
      var rest := Escape(s[1..]) + "\"" + r;
      ReadEscapedChar(s[0], rest);
      assert (EscapeChar(s[0]) + rest)[0] == EscapeChar(s[0])[0];
      hide EscapeChar;
      hide ReadChar;
      ReadEscaped(s[1..], r);
      assert s == [s[0]] + s[1..];
    }
  }

  // ---------------------------------------------------------------------
  // Key order
  // ---------------------------------------------------------------------

  /** Lexicographic order by scalar value, which is Rust's `str` order. */
  predicate Before(a: string, b: string) {
    b != "" && (a == "" || a[0] < b[0] || (a[0] == b[0] && Before(a[1..], b[1..])))
  }

  lemma BeforeIrreflexive(a: string)
    ensures !Before(a, a)
  {
  }

  lemma BeforeTransitive(a: string, b: string, c: string)
    requires Before(a, b) && Before(b, c)
    ensures Before(a, c)
  {
  }

  lemma {:induction false} BeforeTotal(a: string, b: string)
    ensures a == b || Before(a, b) || Before(b, a)
  {
    if a != "" && b != "" && a[0] == b[0] {
      BeforeTotal(a[1..], b[1..]);
      assert a == [a[0]] + a[1..] && b == [b[0]] + b[1..];
    }
  }

  ghost predicate Sorted(ks: seq<string>) {
    forall i, j :: 0 <= i < j < |ks| ==> Before(ks[i], ks[j])
  }

  lemma LeastExists(ks: set<string>) returns (k: string)
    requires ks != {}
    ensures k in ks && forall x :: x in ks ==> x == k || Before(k, x)
  {
    var some :| some in ks;
    k := some;
    if ks != {some} {
      assert forall x :: x in ks ==> x == some || x in ks - {some};
      var rest := LeastExists(ks - {some});
      BeforeTotal(some, rest);
      if Before(rest, some) {
        k := rest;
      } else {
        forall x | x in ks ensures x == some || Before(some, x) {
          if x != some && x != rest { BeforeTransitive(some, rest, x); }
        }
      }
    }
  }

  function Least(ks: set<string>): (k: string)
    requires ks != {}
    ensures k in ks && forall x :: x in ks ==> x == k || Before(k, x)
  {
    assert exists k :: k in ks && forall x :: x in ks ==> x == k || Before(k, x) by { var k := LeastExists(ks); }
    assert forall k, l :: k in ks && l in ks && k != l && Before(k, l) ==> !Before(l, k) by {
      forall k, l | k in ks && l in ks && k != l && Before(k, l) ensures !Before(l, k) {
        if Before(l, k) { BeforeTransitive(k, l, k); BeforeIrreflexive(k); }
      }
    }
    var k :| k in ks && forall x :: x in ks ==> x == k || Before(k, x);
    k
  }

  /** The keys in ascending order, each once. */
  function SortedKeys(ks: set<string>): (r: seq<string>)
    ensures Sorted(r) && forall k :: k in r <==> k in ks
  {
    if ks == {} then []
    else
      var k := Least(ks);
      var rest := SortedKeys(ks - {k});
      assert forall i :: 0 <= i < |rest| ==> rest[i] in rest;
      [k] + rest
  }

  // ---------------------------------------------------------------------
  // The printer
  // ---------------------------------------------------------------------

  function Join(parts: seq<string>): string {
    if |parts| == 0 then "" else if |parts| == 1 then parts[0] else parts[0] + "," + Join(parts[1..])
  }

  function Canonical(v: Json): string {
    match v
    case Object(fields) => "{" + Join(MemberTexts(v, SortedKeys(fields.Keys))) + "}"
    case Array(items) => "[" + Join(ItemTexts(items)) + "]"
    case String(s) => "\"" + Escape(s) + "\""
    case Number(text) => text
    case Bool(b) => if b then "true" else "false"
    case Null => "null"
  }

  function ItemTexts(items: seq<Json>): (r: seq<string>)
    ensures |r| == |items|
  {
    seq(|items|, i requires 0 <= i < |items| => Canonical(items[i]))
  }

  function MemberTexts(v: Json, ks: seq<string>): (r: seq<string>)
    requires v.Object? && forall k :: k in ks ==> k in v.fields
    ensures |r| == |ks|
    decreases v, 0
  {
    seq(|ks|, i requires 0 <= i < |ks| => assert ks[i] in ks; Member(ks[i], Canonical(v.fields[ks[i]])))
  }

  function Member(k: string, text: string): string {
    "\"" + Escape(k) + "\":" + text
  }

  /** The text that is hashed: top-level `run_timestamp` dropped, absence read as an empty object. */
  function PreHash(snapshot: Option<Json>): string {
    match snapshot
    case Some(v) =>
      if v.Object? then "{" + Join(MemberTexts(v, SortedKeys(v.fields.Keys - {"run_timestamp"}))) + "}"
      else Canonical(v)
    case None => "{}"
  }

  // ---------------------------------------------------------------------
  // A reader for compact JSON text, numbers taken as text
  // ---------------------------------------------------------------------

  /** Length of the longest number-alphabet prefix. */
  function NumberLength(t: string): (n: nat)
    ensures n <= |t|
  {
    if t == "" || !IsNumberChar(t[0]) then 0 else 1 + NumberLength(t[1..])
  }

  function ReadValue(t: string): (r: Option<(Json, string)>)
    ensures r.Some? ==> |r.value.1| < |t|
    decreases |t|, 1
  {
    if t == "" then None
    else if t[0] == 'n' then if "null" <= t then Some((Null, t[4..])) else None
    else if t[0] == 't' then if "true" <= t then Some((Bool(true), t[4..])) else None
    else if t[0] == 'f' then if "false" <= t then Some((Bool(false), t[5..])) else None
    else if t[0] == '"' then
      match ReadString(t[1..])
      case None => None
      case Some((s, rest)) => Some((String(s), rest))
    else if t[0] == '[' then
      if At(t, 1, ']') then Some((Array([]), t[2..])) else
      match ReadItems(t[1..])
      case None => None
      case Some((items, rest)) => Some((Array(items), rest))
    else if t[0] == '{' then
      if At(t, 1, '}') then Some((Object(map[]), t[2..])) else
      match ReadMembers(t[1..])
      case None => None
      case Some((fields, rest)) => Some((Object(fields), rest))
    else if NumberLength(t) > 0 then Some((Number(t[..NumberLength(t)]), t[NumberLength(t)..]))
    else None
  }

  predicate At(t: string, i: nat, c: char) {
    i < |t| && t[i] == c
  }

  /** One or more values up to the closing bracket. */
  function ReadItems(t: string): (r: Option<(seq<Json>, string)>)
    ensures r.Some? ==> |r.value.1| < |t|
    decreases |t|, 2
  {
    match ReadValue(t)
    case None => None
    case Some((v, rest)) =>
      if At(rest, 0, ']') then Some(([v], rest[1..]))
      else if At(rest, 0, ',') then
        match ReadItems(rest[1..])
        case None => None
        case Some((items, after)) => Some(([v] + items, after))
      else None
  }

  /** One or more members up to the closing brace; a repeated key takes its last value. */
  function ReadMembers(t: string): (r: Option<(map<string, Json>, string)>)
    ensures r.Some? ==> |r.value.1| < |t|
    decreases |t|, 2
  {
    if !At(t, 0, '"') then None else
    match ReadString(t[1..])
    case None => None
    case Some((k, colon)) =>
      if !At(colon, 0, ':') then None else
      match ReadValue(colon[1..])
      case None => None
      case Some((v, rest)) =>
        if At(rest, 0, '}') then Some((map[k := v], rest[1..]))
        else if At(rest, 0, ',') then
          match ReadMembers(rest[1..])
          case None => None
          case Some((fields, after)) => Some((map[k := v] + fields, after))
        else None
  }

  // ---------------------------------------------------------------------
  // Round trip
  // ---------------------------------------------------------------------

  /** Text that may follow a value: the end, or a separator. */
  predicate Delimited(r: string) {
    r == "" || r[0] in ",]}"
  }

  lemma {:induction false} NumberEnds(a: string, r: string)
    requires (forall i :: 0 <= i < |a| ==> IsNumberChar(a[i])) && Delimited(r)
    ensures NumberLength(a + r) == |a|
  {
    if a == "" {
      assert a + r == r;
    } else {
      assert (a + r)[1..] == a[1..] + r && (a + r)[0] == a[0];
      NumberEnds(a[1..], r);
    }
  }

  /** What follows the first of several joined parts. */
  function After(ts: seq<string>, tail: string): string
    requires ts != []
  {
    if |ts| == 1 then tail else "," + (Join(ts[1..]) + tail)
  }

  lemma SplitJoin(ts: seq<string>, tail: string)
    requires ts != []
    ensures Join(ts) + tail == ts[0] + After(ts, tail)
  {
  }

  lemma AfterShape(ts: seq<string>, tail: string)
    requires ts != [] && tail != ""
    ensures Join(ts) + tail == ts[0] + After(ts, tail)
    ensures |ts| == 1 ==> After(ts, tail) == tail
    ensures |ts| > 1 ==> At(After(ts, tail), 0, ',') && After(ts, tail)[1..] == Join(ts[1..]) + tail
  {
    SplitJoin(ts, tail);
  }

  lemma ReadWord(v: Json, r: string)
    requires v.Null? || v.Bool?
    ensures ReadValue(Canonical(v) + r) == Some((v, r))
  {
    assert (Canonical(v) + r)[|Canonical(v)|..] == r;
  }

  lemma ReadQuoted(s: string, r: string)
    ensures ReadValue("\"" + Escape(s) + "\"" + r) == Some((String(s), r))
  {
    var t := "\"" + Escape(s) + "\"" + r;
    Regroup("\"", Escape(s), "\"", r);
    assert t[1..] == Escape(s) + "\"" + r;
    ReadEscaped(s, r);
    hide ReadString;
    hide Escape;
  }

  lemma ReadBracketed(inner: string, items: seq<Json>, r: string)
    requires if items == [] then inner == ""
             else !At(inner + ("]" + r), 0, ']') && ReadItems(inner + ("]" + r)) == Some((items, r))
    ensures ReadValue("[" + inner + "]" + r) == Some((Array(items), r))
  {
    var t := "[" + inner + "]" + r;
    assert t[1..] == inner + ("]" + r);
    assert inner == "" ==> t[2..] == r;
    hide ReadItems;
  }

  lemma ReadBraced(inner: string, fields: map<string, Json>, r: string)
    requires if fields == map[] then inner == ""
             else At(inner + ("}" + r), 0, '"') && ReadMembers(inner + ("}" + r)) == Some((fields, r))
    ensures ReadValue("{" + inner + "}" + r) == Some((Object(fields), r))
  {
    var t := "{" + inner + "}" + r;
    assert t[1..] == inner + ("}" + r);
    assert inner == "" ==> t[2..] == r;
    hide ReadMembers;
    hide ReadItems;
    hide ReadString;
    hide NumberLength;
  }

  /** Canonical text reads back as the value it was printed from. */
  lemma {:induction false} ReadCanonical(v: Json, r: string)
    requires WellFormed(v) && Delimited(r)
    ensures ReadValue(Canonical(v) + r) == Some((v, r))
    decreases v, 2
  {
    hide ReadValue;
    hide Escape;
    match v
    case Null => ReadWord(v, r);
    case Bool(_) => ReadWord(v, r);
    case Number(a) => ReadNumber(a, r);
    case String(s) => ReadQuoted(s, r);
    case Array(items) =>
      if items != [] {
        ReadItemsBack(items, r);
        ItemsHead(items, r);
      }
      ReadBracketed(Join(ItemTexts(items)), items, r);
    case Object(_) => ReadObject(v, r);
  }

  lemma ReadNumber(a: string, r: string)
    requires IsNumberText(a) && Delimited(r)
    ensures ReadValue(a + r) == Some((Number(a), r))
  {
    NumberEnds(a, r);
    assert (a + r)[0] == a[0] && IsNumberChar(a[0]);
    assert (a + r)[..|a|] == a && (a + r)[|a|..] == r;
  }

  lemma ItemsHead(xs: seq<Json>, r: string)
    requires xs != [] && WellFormed(xs[0])
    ensures !At(Join(ItemTexts(xs)) + ("]" + r), 0, ']')
  {
  }

  lemma {:induction false} ReadItemsBack(xs: seq<Json>, r: string)
    requires xs != [] && forall i :: 0 <= i < |xs| ==> WellFormed(xs[i])
    ensures ReadItems(Join(ItemTexts(xs)) + ("]" + r)) == Some((xs, r))
    decreases xs, 1
  {
    var ts := ItemTexts(xs);
    assert ts[0] == Canonical(xs[0]) && ts[1..] == ItemTexts(xs[1..]);
    SplitJoin(ts, "]" + r);
    var rest := After(ts, "]" + r);
    ReadCanonical(xs[0], rest);
    hide Canonical;
    hide ItemTexts;
    hide ReadValue;
    hide Join;
    assert xs == [xs[0]] + xs[1..];
    assert ReadValue(Join(ts) + ("]" + r)) == Some((xs[0], rest));
    if |xs| == 1 {
      assert At(rest, 0, ']') && rest[1..] == r;
      assert xs == [xs[0]];
    } else {
      assert At(rest, 0, ',') && rest[1..] == Join(ts[1..]) + ("]" + r);
      ReadItemsBack(xs[1..], r);
    }
  }

  function Restrict(fields: map<string, Json>, ks: seq<string>): map<string, Json> {
    map k | k in fields && k in ks :: fields[k]
  }

  lemma {:induction false} ReadObject(v: Json, r: string)
    requires v.Object? && WellFormed(v)
    ensures ReadValue(Canonical(v) + r) == Some((v, r))
    decreases v, 1
  {
    hide ReadValue;
    var ks := SortedKeys(v.fields.Keys);
    if ks == [] {
      assert v.fields.Keys == {};
    } else {
      assert ks[0] in v.fields;
      ReadMembersBack(v, ks, r);
      MembersHead(v, ks, r);
      assert Restrict(v.fields, ks) == v.fields;
    }
    ReadBraced(Join(MemberTexts(v, ks)), v.fields, r);
  }

  lemma MembersHead(v: Json, ks: seq<string>, r: string)
    requires v.Object? && ks != [] && forall k :: k in ks ==> k in v.fields
    ensures At(Join(MemberTexts(v, ks)) + ("}" + r), 0, '"')
  {
  }

  lemma ReadMembersStep(t: string, k: string, tail: string, x: Json, rest: string)
    requires At(t, 0, '"') && ReadString(t[1..]) == Some((k, ":" + tail)) && ReadValue(tail) == Some((x, rest))
    ensures At(rest, 0, '}') ==> ReadMembers(t) == Some((map[k := x], rest[1..]))
    ensures At(rest, 0, ',') && ReadMembers(rest[1..]).Some? ==>
      ReadMembers(t) == Some((map[k := x] + ReadMembers(rest[1..]).value.0, ReadMembers(rest[1..]).value.1))
  {
  }

  lemma {:induction false} ReadMembersBack(v: Json, ks: seq<string>, r: string)
    requires v.Object? && WellFormed(v) && ks != [] && Sorted(ks) && forall k :: k in ks ==> k in v.fields
    ensures ReadMembers(Join(MemberTexts(v, ks)) + ("}" + r)) == Some((Restrict(v.fields, ks), r))
    decreases v, 0, |ks|
  {
    var ts := MemberTexts(v, ks);
    var k, x := ks[0], v.fields[ks[0]];
    var rest := After(ts, "}" + r);
    assert ts[0] == Member(k, Canonical(x)) && ts[1..] == MemberTexts(v, ks[1..]);
    AfterShape(ts, "}" + r);
    ReadMemberBack(k, x, rest);
    hide Canonical;
    hide MemberTexts;
    hide ReadValue;
    hide ReadString;
    hide Member;
    hide Join;
    hide After;
    hide Sorted;
    hide ReadMembers;
    ReadMembersStep(Join(ts) + ("}" + r), k, Canonical(x) + rest, x, rest);
    assert ("}" + r)[1..] == r;
    RestrictStep(v.fields, ks);
    hide Restrict;
    if |ks| > 1 {
      SortedTail(ks);
      ReadMembersBack(v, ks[1..], r);
    }
  }

  lemma SortedTail(ks: seq<string>)
    requires Sorted(ks) && ks != []
    ensures Sorted(ks[1..])
  {
  }

  lemma RestrictStep(fields: map<string, Json>, ks: seq<string>)
    requires ks != [] && Sorted(ks) && forall k :: k in ks ==> k in fields
    ensures map[ks[0] := fields[ks[0]]] + Restrict(fields, ks[1..]) == Restrict(fields, ks)
    ensures |ks| == 1 ==> Restrict(fields, ks) == map[ks[0] := fields[ks[0]]]
  {
    assert forall k :: k in ks <==> k == ks[0] || k in ks[1..];
  }

  lemma MemberShape(k: string, x: string, rest: string)
    ensures ("\"" + k + "\":" + x + rest)[1..] == k + "\"" + (":" + (x + rest))
  {
  }

  /** Reading one member: its key, the colon, its value. */
  lemma {:induction false} ReadMemberBack(k: string, x: Json, rest: string)
    requires WellFormed(x) && Delimited(rest)
    ensures var t := Member(k, Canonical(x)) + rest;
      && At(t, 0, '"') && ReadString(t[1..]) == Some((k, ":" + (Canonical(x) + rest)))
      && ReadValue(Canonical(x) + rest) == Some((x, rest))
    decreases x, 3
  {
    var t, tail := Member(k, Canonical(x)) + rest, Canonical(x) + rest;
    ReadCanonical(x, rest);
    hide Canonical;
    hide Escape;
    hide ReadValue;
    hide ReadString;
    ReadEscaped(k, ":" + tail);
    MemberShape(Escape(k), Canonical(x), rest);
  }

  // ---------------------------------------------------------------------
  // The theorems
  // ---------------------------------------------------------------------

  /** Two values have one canonical text exactly when they are equal, objects read as maps. */
  lemma CanonicalInjective(v: Json, w: Json)
    requires WellFormed(v) && WellFormed(w)
    ensures Canonical(v) == Canonical(w) <==> v == w
  {
    ReadCanonical(v, "");
    ReadCanonical(w, "");
    assert Canonical(v) + "" == Canonical(v) && Canonical(w) + "" == Canonical(w);
  }

  /** What a snapshot signature depends on: the value without its top-level `run_timestamp`. */
  function Signed(snapshot: Option<Json>): Json {
    match snapshot
    case Some(v) => if v.Object? then Object(v.fields - {"run_timestamp"}) else v
    case None => Object(map[])
  }

  lemma PreHashIsCanonical(snapshot: Option<Json>)
    ensures PreHash(snapshot) == Canonical(Signed(snapshot))
  {
    if snapshot.Some? && snapshot.value.Object? {
      var v, u := snapshot.value, Signed(snapshot);
      var ks := SortedKeys(v.fields.Keys - {"run_timestamp"});
      assert u.fields.Keys == v.fields.Keys - {"run_timestamp"};
      assert MemberTexts(v, ks) == MemberTexts(u, ks);
    }
  }

  /** Two snapshots have one pre-hash text exactly when they agree on everything but the top-level
      `run_timestamp`, an absent snapshot counting as an empty object. */
  lemma PreHashDecides(a: Option<Json>, b: Option<Json>)
    requires a.Some? ==> WellFormed(a.value)
    requires b.Some? ==> WellFormed(b.value)
    ensures PreHash(a) == PreHash(b) <==> Signed(a) == Signed(b)
  {
    PreHashIsCanonical(a);
    PreHashIsCanonical(b);
    CanonicalInjective(Signed(a), Signed(b));
  }
}
