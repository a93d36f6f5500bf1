/**
  The part of JSON the browser session store writes and reads back: a leaf
  (`null`, `true`/`false`, a string, or an array of strings) or a flat
  object whose members are leaves. The user the sign-in endpoint returns
  has this shape: strings, a boolean, `null` for a missing hash, and the
  array of its location ids. `Stringify` is `JSON.stringify` on these
  values (no whitespace, the escapes of section 7 of RFC 8259 as JavaScript
  chooses them) and `Parse` is `JSON.parse` restricted to them: numbers,
  nested objects and arrays holding anything but strings are read as a
  syntax error.
*/
module Json {
  import opened Wrappers
  import opened Lists

  /** A value that holds no object. */
  datatype Leaf = Null | Bool(b: bool) | Str(s: string) | Strs(items: seq<string>)
  type Member = (string, Leaf)
  datatype Value = Atom(a: Leaf) | Object(members: seq<Member>)

  /** A JavaScript object never holds the same key twice. */
  predicate DistinctKeys(ms: seq<Member>) {
    forall i, j :: 0 <= i < j < |ms| ==> ms[i].0 != ms[j].0
  }

  predicate WellFormed(v: Value) {
    v.Object? ==> DistinctKeys(v.members)
  }

  /** JavaScript truthiness of a value: `null`, `false` and `""` are falsy, every object and every array is truthy. */
  predicate Truthy(v: Value) {
    match v
    case Atom(Null) => false
    case Atom(Bool(b)) => b
    case Atom(Str(s)) => s != ""
    case Atom(Strs(_)) => true
    case Object(_) => true
  }

  /** The value stored under `key`, as `obj[key]` reads it. */
  function Get(v: Value, key: string): (r: Option<Leaf>)
    ensures r.Some? <==> v.Object? && exists i :: 0 <= i < |v.members| && v.members[i].0 == key
    ensures r.Some? ==> exists i :: 0 <= i < |v.members| && v.members[i] == (key, r.value)
  {
    if v.Atom? then None else GetMember(v.members, key)
  }

  function GetMember(ms: seq<Member>, key: string): (r: Option<Leaf>)
    ensures r.Some? <==> exists i :: 0 <= i < |ms| && ms[i].0 == key
    ensures r.Some? ==> exists i :: 0 <= i < |ms| && ms[i] == (key, r.value)
  {
    if ms == [] then None
    else if ms[0].0 == key then Some(ms[0].1)
    else
      var r := GetMember(ms[1..], key);
      assert forall i :: 0 <= i < |ms[1..]| ==> ms[1..][i] == ms[i + 1];
      r
  }

  // ---------------------------------------------------------------- writing

  function HexDigit(n: nat): (c: char)
    requires n < 16
  {
    if n < 10 then ('0' as int + n) as char else ('a' as int + n - 10) as char
  }

  /** How `JSON.stringify` writes one character inside a string literal. */
  function EscapeChar(c: char): string {
    if c == '"' then "\\\""
    else if c == '\\' then "\\\\"
    else if c == '\U{0008}' then "\\b"
    else if c == '\U{000C}' then "\\f"
    else if c == '\n' then "\\n"
    else if c == '\r' then "\\r"
    else if c == '\t' then "\\t"
    else if (c as int) < 0x20 then "\\u00" + [HexDigit(c as int / 16), HexDigit(c as int % 16)]
    else [c]
  }

  function Escape(s: string): string {
    if s == [] then [] else EscapeChar(s[0]) + Escape(s[1..])
  }

  function Quote(s: string): string {
    "\"" + Escape(s) + "\""
  }

  /** The items of an array, quoted and separated by commas, without the brackets. */
  function StringifyItems(xs: seq<string>): string {
    if xs == [] then ""
    else if |xs| == 1 then Quote(xs[0])
    else Quote(xs[0]) + "," + StringifyItems(xs[1..])
  }

  function StringifyLeaf(a: Leaf): string {
    match a
    case Null => "null"
    case Bool(b) => if b then "true" else "false"
    case Str(s) => Quote(s)
    case Strs(xs) => "[" + StringifyItems(xs) + "]"
  }

  function StringifyMember(m: Member): string {
    Quote(m.0) + ":" + StringifyLeaf(m.1)
  }

  /** The members separated by commas, without the braces. */
  function StringifyMembers(ms: seq<Member>): string {
    if ms == [] then ""
    else if |ms| == 1 then StringifyMember(ms[0])
    else StringifyMember(ms[0]) + "," + StringifyMembers(ms[1..])
  }

  function Stringify(v: Value): string {
    match v
    case Atom(a) => StringifyLeaf(a)
    case Object(ms) => "{" + StringifyMembers(ms) + "}"
  }

  // ---------------------------------------------------------------- reading

  /** The four characters JSON allows between tokens. */
  predicate IsWs(c: char) {
    c == ' ' || c == '\t' || c == '\n' || c == '\r'
  }

  function SkipWs(s: string): (r: string)
    ensures |r| <= |s|
    ensures r == [] || !IsWs(r[0])
  {
    if s != [] && IsWs(s[0]) then SkipWs(s[1..]) else s
  }

  function HexValue(c: char): (r: Option<nat>)
    ensures r.Some? ==> r.value < 16
  {
    if '0' <= c <= '9' then Some(c as int - '0' as int)
    else if 'a' <= c <= 'f' then Some(c as int - 'a' as int + 10)
    else if 'A' <= c <= 'F' then Some(c as int - 'A' as int + 10)
    else None
  }

  /** The code unit written as four hex digits after `\u`. */
  function HexQuad(s: string): (r: Option<nat>)
    requires |s| == 4
    ensures r.Some? ==> r.value < 0x10000
  {
    match (HexValue(s[0]), HexValue(s[1]), HexValue(s[2]), HexValue(s[3]))
    case (Some(a), Some(b), Some(c), Some(d)) => Some(4096 * a + 256 * b + 16 * c + d)
    case _ => None
  }

  /**
    One character of a string literal's body and how many characters of
    text it took: a plain character, a two-character escape, or `\u` with
    four hex digits. A raw control character or a quote is not a body
    character; a `\u` escape naming half of a surrogate pair is refused,
    since a single half is not a character here.
  */
  function ReadChar(s: string): (r: Option<(char, nat)>)
    ensures r.Some? ==> 1 <= r.value.1 <= |s|
  {
    if s == [] || s[0] == '"' then None
    else if s[0] != '\\' then (if (s[0] as int) < 0x20 then None else Some((s[0], 1)))
    else if |s| < 2 then None
    else if s[1] == '"' then Some(('"', 2))
    else if s[1] == '\\' then Some(('\\', 2))
    else if s[1] == '/' then Some(('/', 2))
    else if s[1] == 'b' then Some(('\U{0008}', 2))
    else if s[1] == 'f' then Some(('\U{000C}', 2))
    else if s[1] == 'n' then Some(('\n', 2))
    else if s[1] == 'r' then Some(('\r', 2))
    else if s[1] == 't' then Some(('\t', 2))
    else if s[1] == 'u' && |s| >= 6 then
      match HexQuad(s[2..6])
      case Some(n) => if 0xD800 <= n < 0xE000 then None else Some((n as char, 6))
      case None => None
    else None
  }

  /** The body of a string literal up to its closing quote, and the text after the quote. */
  function ParseStringBody(s: string): (r: Option<(string, string)>)
    ensures r.Some? ==> |r.value.1| < |s|
    decreases |s|
  {
    if s != [] && s[0] == '"' then Some(([], s[1..]))
    else match ReadChar(s)
      case None => None
      case Some((c, n)) =>
        match ParseStringBody(s[n..])
        case None => None
        case Some((t, rest)) => Some(([c] + t, rest))
  }

  /** The string items of an array after its opening bracket and the first item's leading whitespace. */
  function ParseItems(s: string, acc: seq<string>): (r: Option<(Leaf, string)>)
    ensures r.Some? ==> |r.value.1| < |s|
    decreases |s|
  {
    if s == [] || s[0] != '"' then None
    else match ParseStringBody(s[1..])
      case None => None
      case Some((x, r1)) =>
        var r := SkipWs(r1);
        if r != [] && r[0] == ',' then ParseItems(SkipWs(r[1..]), acc + [x])
        else if r != [] && r[0] == ']' then Some((Strs(acc + [x]), r[1..]))
        else None
  }

  function ParseLeaf(s: string): (r: Option<(Leaf, string)>)
    ensures r.Some? ==> |r.value.1| < |s|
  {
    if |s| >= 4 && s[..4] == "null" then Some((Null, s[4..]))
    else if |s| >= 4 && s[..4] == "true" then Some((Bool(true), s[4..]))
    else if |s| >= 5 && s[..5] == "false" then Some((Bool(false), s[5..]))
    else if s != [] && s[0] == '"' then
      match ParseStringBody(s[1..])
      case Some((t, rest)) => Some((Str(t), rest))
      case None => None
    else if s != [] && s[0] == '[' then
      var t := SkipWs(s[1..]);
      if t != [] && t[0] == ']' then Some((Strs([]), t[1..])) else ParseItems(t, [])
    else None
  }

  /** Assigning a key while parsing: a repeated key keeps its place and takes the later value. */
  function Put(ms: seq<Member>, key: string, a: Leaf): seq<Member> {
    if ms == [] then [(key, a)]
    else if ms[0].0 == key then [(key, a)] + ms[1..]
    else [ms[0]] + Put(ms[1..], key, a)
  }

  /** One `"key": value` pair and the whitespace after it. */
  function ParseMember(s: string): (r: Option<(Member, string)>)
    ensures r.Some? ==> |r.value.1| < |s|
  {
    if s == [] || s[0] != '"' then None
    else match ParseStringBody(s[1..])
      case None => None
      case Some((key, r1)) =>
        var r2 := SkipWs(r1);
        if r2 == [] || r2[0] != ':' then None
        else match ParseLeaf(SkipWs(r2[1..]))
          case None => None
          case Some((a, r3)) => Some(((key, a), SkipWs(r3)))
  }

  /** The members of an object after its opening brace and the first member's leading whitespace. */
  function ParseMembers(s: string, acc: seq<Member>): (r: Option<(Value, string)>)
    decreases |s|
  {
    match ParseMember(s)
    case None => None
    case Some((m, r)) =>
      var acc' := Put(acc, m.0, m.1);
      if r != [] && r[0] == ',' then ParseMembers(SkipWs(r[1..]), acc')
      else if r != [] && r[0] == '}' then Some((Object(acc'), r[1..]))
      else None
  }

  function ParseValue(s: string): (r: Option<(Value, string)>) {
    if s != [] && s[0] == '{' then
      var t := SkipWs(s[1..]);
      if t != [] && t[0] == '}' then Some((Object([]), t[1..])) else ParseMembers(t, [])
    else match ParseLeaf(s)
      case Some((a, rest)) => Some((Atom(a), rest))
      case None => None
  }

  /** `JSON.parse`: one value with optional whitespace around it, and nothing else. */
  function Parse(text: string): Option<Value> {
    match ParseValue(SkipWs(text))
    case Some((v, rest)) => if SkipWs(rest) == [] then Some(v) else None
    case None => None
  }

  // ---------------------------------------------------------------- round trip

  lemma HexDigitValue(n: nat)
    requires n < 16
    ensures HexValue(HexDigit(n)) == Some(n)
  {
  }

  /** Reading back one written character takes exactly the characters written for it. */
  lemma ReadEscapedChar(c: char, tail: string)
    ensures EscapeChar(c) != [] && EscapeChar(c)[0] != '"'
    ensures ReadChar(EscapeChar(c) + tail) == Some((c, |EscapeChar(c)|))
  {
    var e := EscapeChar(c);
    var s := e + tail;
    if c != '"' && c != '\\' && c != '\U{0008}' && c != '\U{000C}' && c != '\n' && c != '\r' && c != '\t'
      && (c as int) < 0x20
    {
      var hi, lo := c as int / 16, c as int % 16;
      HexDigitValue(hi);
      HexDigitValue(lo);
      assert s[2..6] == ['0', '0', HexDigit(hi), HexDigit(lo)];
      assert HexQuad(s[2..6]) == Some(16 * hi + lo);
    }
  }

  /** One step of `ParseStringBody` over a character that is not the closing quote. */
  lemma ParseStringBodyStep(s: string, c: char, n: nat, t: string, rest: string)
    requires s != [] && s[0] != '"' && ReadChar(s) == Some((c, n))
    requires ParseStringBody(s[n..]) == Some((t, rest))
    ensures ParseStringBody(s) == Some(([c] + t, rest))
  {
  }

  /** A written string body followed by the closing quote reads back as the string. */
  lemma {:induction false} StringBodyRoundTrip(x: string, rest: string)
    ensures ParseStringBody(Escape(x) + "\"" + rest) == Some((x, rest))
    decreases |x|
  {
    if x == [] {
      assert Escape(x) + "\"" + rest == "\"" + rest;
    } else {
      var e := EscapeChar(x[0]);
      var tail := Escape(x[1..]) + "\"" + rest;
      var s := e + tail;
      assert Escape(x) + "\"" + rest == s;
      ReadEscapedChar(x[0], tail);
      assert s[|e|..] == tail;
      StringBodyRoundTrip(x[1..], rest);
      ParseStringBodyStep(s, x[0], |e|, x[1..], rest);
      assert [x[0]] + x[1..] == x;
    }
  }

  lemma QuoteRoundTrip(x: string, rest: string)
    ensures Quote(x) + rest != [] && (Quote(x) + rest)[0] == '"'
    ensures ParseStringBody((Quote(x) + rest)[1..]) == Some((x, rest))
  {
    assert (Quote(x) + rest)[1..] == Escape(x) + "\"" + rest;
    StringBodyRoundTrip(x, rest);
  }

  lemma LeafRoundTrip(a: Leaf, rest: string)
    ensures StringifyLeaf(a) + rest != [] && !IsWs((StringifyLeaf(a) + rest)[0])
    ensures ParseLeaf(StringifyLeaf(a) + rest) == Some((a, rest))
  {
    var s := StringifyLeaf(a) + rest;
    match a
    case Null => assert s[..4] == "null" && s[4..] == rest;
    case Bool(b) =>
      if b { assert s[..4] == "true" && s[4..] == rest; }
      else {
        assert s[..4][0] == 'f' && s[..5] == "false" && s[5..] == rest;
      }
    case Str(t) =>
      QuoteRoundTrip(t, rest);
      assert s[0] == '"';
    case Strs(xs) =>
      ArrayRoundTrip(xs, rest);
  }

  /** A written array reads back as itself, leaving what follows its closing bracket. */
  lemma ArrayRoundTrip(xs: seq<string>, rest: string)
    ensures ("[" + StringifyItems(xs) + "]" + rest)[0] == '['
    ensures ParseLeaf("[" + StringifyItems(xs) + "]" + rest) == Some((Strs(xs), rest))
  {
    var t := StringifyItems(xs) + "]" + rest;
    assert "[" + StringifyItems(xs) + "]" + rest == "[" + t;
    ArrayText(t);
    if xs == [] {
      assert t == "]" + rest;
      NoLeadingWs(t);
    } else {
      ItemsStartWithQuote(xs);
      NoLeadingWs(t);
      assert xs[0..] == xs && xs[..0] == [];
      ItemsRoundTrip(xs, 0, rest);
    }
  }

  /** Text that opens with a bracket is read as an array, whatever follows. */
  lemma ArrayText(t: string)
    ensures ("[" + t)[0] == '[' && ("[" + t)[1..] == t
    ensures ParseLeaf("[" + t) ==
      var u := SkipWs(t);
      if u != [] && u[0] == ']' then Some((Strs([]), u[1..])) else ParseItems(u, [])
  {
    var s := "[" + t;
    assert s[0] == '[' && s[1..] == t;
    assert |s| >= 4 ==> s[..4][0] == '[';
    assert |s| >= 5 ==> s[..5][0] == '[';
  }

  lemma ItemsStartWithQuote(xs: seq<string>)
    requires xs != []
    ensures StringifyItems(xs) != [] && StringifyItems(xs)[0] == '"'
  {
    var first := Quote(xs[0]);
    if |xs| > 1 {
      assert StringifyItems(xs) == first + ("," + StringifyItems(xs[1..]));
    }
  }

  /** The text written for the items from position `i` on: the item at `i`, then a comma and the rest or the end. */
  lemma ItemsFrom(xs: seq<string>, i: nat, rest: string)
    requires i < |xs|
    ensures StringifyItems(xs[i..]) + "]" + rest ==
      Quote(xs[i]) + (if i + 1 == |xs| then "]" + rest else "," + (StringifyItems(xs[i + 1..]) + "]" + rest))
  {
    var t := xs[i..];
    assert t[0] == xs[i] && t[1..] == xs[i + 1..];
    var a := Quote(xs[i]);
    if i + 1 == |xs| {
      assert StringifyItems(t) == a;
      AppendAssoc(a, "]", rest);
    } else {
      var b := StringifyItems(xs[i + 1..]);
      assert StringifyItems(t) == a + "," + b;
      AppendAssoc(a + ",", b, "]");
      AppendAssoc(a + ",", b + "]", rest);
      AppendAssoc(a, ",", b + "]" + rest);
    }
  }

  /** One step of `ParseItems`: the item read is appended and the next character decides. */
  lemma ParseItemsStep(s: string, acc: seq<string>, x: string, r1: string)
    requires s != [] && s[0] == '"' && ParseStringBody(s[1..]) == Some((x, r1))
    requires r1 != [] && !IsWs(r1[0])
    ensures r1[0] == ',' ==> ParseItems(s, acc) == ParseItems(SkipWs(r1[1..]), acc + [x])
    ensures r1[0] == ']' ==> ParseItems(s, acc) == Some((Strs(acc + [x]), r1[1..]))
  {
    NoLeadingWs(r1);
  }

  /** Reading the items written from position `i` on, having read those before it. */
  lemma {:induction false} ItemsRoundTrip(xs: seq<string>, i: nat, rest: string)
    requires i < |xs|
    ensures ParseItems(StringifyItems(xs[i..]) + "]" + rest, xs[..i]) == Some((Strs(xs), rest))
    decreases |xs| - i
  {
    var next := StringifyItems(xs[i + 1..]) + "]" + rest;
    var tail := if i + 1 == |xs| then "]" + rest else "," + next;
    var s := Quote(xs[i]) + tail;
    ItemsFrom(xs, i, rest);
    QuoteRoundTrip(xs[i], tail);
    ParseItemsStep(s, xs[..i], xs[i], tail);
    assert xs[..i] + [xs[i]] == xs[..i + 1];
    if i + 1 == |xs| {
      assert xs[..i + 1] == xs;
      assert tail[1..] == rest;
    } else {
      assert tail[1..] == next;
      ItemsStartWithQuote(xs[i + 1..]);
      NoLeadingWs(next);
      ItemsRoundTrip(xs, i + 1, rest);
    }
  }

  /** Writing a member and reading it back, with whatever follows it. */
  lemma MemberRoundTrip(m: Member, tail: string)
    ensures ParseMember(StringifyMember(m) + tail) == Some((m, SkipWs(tail)))
  {
    var value := StringifyLeaf(m.1) + tail;
    KeyRoundTrip(m, tail);
    LeafRoundTrip(m.1, tail);
    ParseMemberOf(StringifyMember(m) + tail, m.0, ":" + value, m.1, tail);
  }

  /** The key of a written member reads back, leaving the colon and the value. */
  lemma KeyRoundTrip(m: Member, tail: string)
    ensures
      var s := StringifyMember(m) + tail;
      var after := ":" + (StringifyLeaf(m.1) + tail);
      && s != [] && s[0] == '"' && ParseStringBody(s[1..]) == Some((m.0, after))
      && after[1..] == StringifyLeaf(m.1) + tail
  {
    var after := ":" + (StringifyLeaf(m.1) + tail);
    assert StringifyMember(m) + tail == Quote(m.0) + after;
    QuoteRoundTrip(m.0, after);
  }

  /** The steps of `ParseMember` when each of them succeeds without skipping whitespace. */
  lemma ParseMemberOf(s: string, key: string, after: string, a: Leaf, tail: string)
    requires s != [] && s[0] == '"' && ParseStringBody(s[1..]) == Some((key, after))
    requires after != [] && after[0] == ':'
    requires after[1..] != [] && !IsWs(after[1..][0]) && ParseLeaf(after[1..]) == Some((a, tail))
    ensures ParseMember(s) == Some(((key, a), SkipWs(tail)))
  {
  }

  lemma MembersStartWithQuote(ms: seq<Member>)
    requires ms != []
    ensures StringifyMembers(ms) != [] && StringifyMembers(ms)[0] == '"'
  {
    var first := StringifyMember(ms[0]);
    assert first[0] == '"';
    if |ms| > 1 {
      assert StringifyMembers(ms) == first + ("," + StringifyMembers(ms[1..]));
    }
  }

  /** `Put` of a key the members do not hold appends it. */
  lemma PutNew(ms: seq<Member>, key: string, a: Leaf)
    requires forall i :: 0 <= i < |ms| ==> ms[i].0 != key
    ensures Put(ms, key, a) == ms + [(key, a)]
  {
    if ms != [] {
      PutNew(ms[1..], key, a);
    }
  }

  /** Putting a key the members already hold replaces its value where it stands. */
  lemma {:induction false} PutExisting(ms: seq<Member>, k: nat, a: Leaf)
    requires DistinctKeys(ms) && k < |ms|
    ensures Put(ms, ms[k].0, a) == ms[k := (ms[k].0, a)]
  {
    if k > 0 {
      assert ms[0].0 != ms[k].0;
      assert DistinctKeys(ms[1..]) by {
        forall i, j | 0 <= i < j < |ms[1..]| ensures ms[1..][i].0 != ms[1..][j].0 {
          assert ms[1..][i] == ms[i + 1] && ms[1..][j] == ms[j + 1];
        }
      }
      PutExisting(ms[1..], k - 1, a);
      assert ms[k := (ms[k].0, a)] == [ms[0]] + ms[1..][k - 1 := (ms[k].0, a)];
    }
  }

  /** With distinct keys, putting the member at `i` after those before it extends the prefix by one. */
  lemma PutNext(ms: seq<Member>, i: nat)
    requires DistinctKeys(ms) && i < |ms|
    ensures Put(ms[..i], ms[i].0, ms[i].1) == ms[..i + 1]
  {
    PutNew(ms[..i], ms[i].0, ms[i].1);
    assert ms[..i] + [ms[i]] == ms[..i + 1];
  }

  /** One step of `ParseMembers`: the member read is put and the next character decides. */
  lemma ParseMembersStep(s: string, acc: seq<Member>, m: Member, r: string)
    requires ParseMember(s) == Some((m, r))
    ensures r != [] && r[0] == ',' ==> ParseMembers(s, acc) == ParseMembers(SkipWs(r[1..]), Put(acc, m.0, m.1))
    ensures r != [] && r[0] == '}' ==> ParseMembers(s, acc) == Some((Object(Put(acc, m.0, m.1)), r[1..]))
  {
  }

  /** The text written for the members from position `i` on: the member at `i`, then a comma and the rest or the end. */
  lemma MembersFrom(ms: seq<Member>, i: nat, rest: string)
    requires i < |ms|
    ensures StringifyMembers(ms[i..]) + "}" + rest ==
      StringifyMember(ms[i]) + (if i + 1 == |ms| then "}" + rest else "," + (StringifyMembers(ms[i + 1..]) + "}" + rest))
  {
    var t := ms[i..];
    assert t[0] == ms[i] && t[1..] == ms[i + 1..];
    var a := StringifyMember(ms[i]);
    if i + 1 == |ms| {
      assert StringifyMembers(t) == a;
      AppendAssoc(a, "}", rest);
    } else {
      var b := StringifyMembers(ms[i + 1..]);
      assert StringifyMembers(t) == a + "," + b;
      AppendAssoc(a + ",", b, "}");
      AppendAssoc(a + ",", b + "}", rest);
      AppendAssoc(a, ",", b + "}" + rest);
    }
  }

  /** Reading the members written from position `i` on, having read those before it. */
  lemma {:induction false} MembersRoundTrip(ms: seq<Member>, i: nat, rest: string)
    requires DistinctKeys(ms) && i < |ms|
    ensures ParseMembers(StringifyMembers(ms[i..]) + "}" + rest, ms[..i]) == Some((Object(ms), rest))
    decreases |ms| - i
  {
    if i + 1 == |ms| {
      LastMember(ms, i, rest);
    } else {
      NextMember(ms, i, rest);
      MembersRoundTrip(ms, i + 1, rest);
    }
  }

  /** The last member is read, put, and the closing brace ends the object. */
  lemma LastMember(ms: seq<Member>, i: nat, rest: string)
    requires DistinctKeys(ms) && i + 1 == |ms|
    ensures ParseMembers(StringifyMembers(ms[i..]) + "}" + rest, ms[..i]) == Some((Object(ms), rest))
  {
    var m := ms[i];
    var tail := "}" + rest;
    MembersFrom(ms, i, rest);
    MemberRoundTrip(m, tail);
    NoLeadingWs(tail);
    ParseMembersStep(StringifyMember(m) + tail, ms[..i], m, tail);
    PutNext(ms, i);
    assert ms[..i + 1] == ms;
    assert tail[1..] == rest;
  }

  /** A member followed by a comma is read and put, and reading goes on at the next member. */
  lemma NextMember(ms: seq<Member>, i: nat, rest: string)
    requires DistinctKeys(ms) && i + 1 < |ms|
    ensures ParseMembers(StringifyMembers(ms[i..]) + "}" + rest, ms[..i])
         == ParseMembers(StringifyMembers(ms[i + 1..]) + "}" + rest, ms[..i + 1])
  {
    var m := ms[i];
    var next := StringifyMembers(ms[i + 1..]) + "}" + rest;
    var tail := "," + next;
    MembersFrom(ms, i, rest);
    MemberRoundTrip(m, tail);
    NoLeadingWs(tail);
    ParseMembersStep(StringifyMember(m) + tail, ms[..i], m, tail);
    PutNext(ms, i);
    assert tail[1..] == next;
    MembersStartWithQuote(ms[i + 1..]);
    assert next[0] == '"';
    NoLeadingWs(next);
  }

  lemma NoLeadingWs(s: string)
    requires s != [] && !IsWs(s[0])
    ensures SkipWs(s) == s
  {
  }

  /** A written object reads back as a value with nothing after it. */
  lemma ObjectRoundTrip(ms: seq<Member>)
    requires DistinctKeys(ms)
    ensures ParseValue("{" + StringifyMembers(ms) + "}") == Some((Object(ms), ""))
  {
    var s := "{" + StringifyMembers(ms) + "}";
    if ms == [] {
      assert s == "{}" && s[1..] == "}" && SkipWs("}") == "}" && "}"[1..] == "";
      assert ParseValue(s) == Some((Object([]), ""));
    } else {
      var t := StringifyMembers(ms) + "}";
      MembersStartWithQuote(ms);
      assert s == "{" + t;
      ObjectText(t);
      assert ms[0..] == ms && ms[..0] == [];
      assert t == StringifyMembers(ms[0..]) + "}" + "";
      MembersRoundTrip(ms, 0, "");
      assert ParseMembers(t, []) == Some((Object(ms), ""));
      assert ParseValue(s) == ParseValue("{" + t);
    }
  }

  /** An object whose text after the brace starts with a key is read member by member from there. */
  lemma ObjectText(t: string)
    requires t != [] && t[0] == '"'
    ensures ParseValue("{" + t) == ParseMembers(t, [])
  {
    assert ("{" + t)[1..] == t;
  }

  /** What `JSON.stringify` writes, `JSON.parse` reads back unchanged. */
  lemma ParseStringify(v: Value)
    requires WellFormed(v)
    ensures Parse(Stringify(v)) == Some(v)
  {
    var s := Stringify(v);
    match v
    case Atom(a) =>
      LeafRoundTrip(a, "");
      assert StringifyLeaf(a) + "" == s;
    case Object(ms) =>
      ObjectRoundTrip(ms);
      assert SkipWs(s) == s;
  }
}
