/**
 Canonical payload text: what an approval is bound to.

 A payload is a Python dict, so an object is a list of members in insertion order with distinct
 keys. `Meaning` forgets that order. The parser is the partner of the printer: it reads the
 canonical text back (JSON text, sections 4 to 7 of RFC 8259, without insignificant whitespace).
 */
module CanonicalJson {
  import opened Wrappers
  import opened Strings

  datatype Json =
    | Null
    | Bool(b: bool)
    | Number(n: int)
    | Text(s: string)
    | Array(items: seq<Json>)
    | Object(members: seq<Member>)

  datatype Member = Member(key: string, value: Json)

  /** What a payload says: members are looked up by key, in no order. */
  datatype Value =
    | VNull
    | VBool(b: bool)
    | VNumber(n: int)
    | VText(s: string)
    | VArray(items: seq<Value>)
    | VObject(members: map<string, Value>)

  // ---------------------------------------------------------------------------------------------
  // Payloads and what they mean
  // ---------------------------------------------------------------------------------------------

  function Keys(members: seq<Member>): set<string> {
    set m | m in members :: m.key
  }

  lemma KeysOfConcat(a: seq<Member>, b: seq<Member>)
    ensures Keys(a + b) == Keys(a) + Keys(b)
  {
    forall k | k in Keys(a) + Keys(b) ensures k in Keys(a + b) {
      var m :| (m in a || m in b) && m.key == k;
      assert m in a + b;
    }
  }

  /** A Python dict never holds the same key twice. */
  predicate WellFormed(v: Json) {
    match v
    case Array(items) => forall i :: 0 <= i < |items| ==> WellFormed(items[i])
    case Object(members) => WellFormedMembers(members)
    case _ => true
  }

  predicate WellFormedMembers(members: seq<Member>) {
    |members| == 0
    || (WellFormed(members[0].value) && members[0].key !in Keys(members[1..]) && WellFormedMembers(members[1..]))
  }

  type Payload = p: Json | WellFormed(p) witness Null

  function Meaning(v: Json): Value {
    match v
    case Null => VNull
    case Bool(b) => VBool(b)
    case Number(n) => VNumber(n)
    case Text(s) => VText(s)
    case Array(items) => VArray(MeaningOfItems(items))
    case Object(members) => VObject(MeaningOfMembers(members))
  }

  function MeaningOfItems(items: seq<Json>): (r: seq<Value>)
    ensures |r| == |items|
  {
    if |items| == 0 then [] else [Meaning(items[0])] + MeaningOfItems(items[1..])
  }

  function MeaningOfMembers(members: seq<Member>): (r: map<string, Value>)
    ensures r.Keys == Keys(members)
  {
    if |members| == 0 then map[]
    else
      assert members == [members[0]] + members[1..];
      MeaningOfMembers(members[1..])[members[0].key := Meaning(members[0].value)]
  }

  // ---------------------------------------------------------------------------------------------
  // sort_keys: every object's members in key order, at every depth
  // ---------------------------------------------------------------------------------------------

  function InsertMember(m: Member, members: seq<Member>): (r: seq<Member>)
    ensures Keys(r) == Keys(members) + {m.key}
  {
    if |members| == 0 then [m]
    else
      assert members == [members[0]] + members[1..];
      if Less(m.key, members[0].key) then
        KeysOfConcat([m], members);
        [m] + members
      else
        KeysOfConcat([members[0]], InsertMember(m, members[1..]));
        KeysOfConcat([members[0]], members[1..]);
        [members[0]] + InsertMember(m, members[1..])
  }

  function SortKeys(v: Json): Json {
    match v
    case Array(items) => Array(SortItems(items))
    case Object(members) => Object(SortMembers(members))
    case _ => v
  }

  function SortItems(items: seq<Json>): (r: seq<Json>)
    ensures |r| == |items|
  {
    if |items| == 0 then [] else [SortKeys(items[0])] + SortItems(items[1..])
  }

  function SortMembers(members: seq<Member>): (r: seq<Member>)
    ensures Keys(r) == Keys(members)
  {
    if |members| == 0 then []
    else
      assert members == [members[0]] + members[1..];
      InsertMember(Member(members[0].key, SortKeys(members[0].value)), SortMembers(members[1..]))
  }

  // ---------------------------------------------------------------------------------------------
  // The printer: json.dumps with separators (",", ":") and ensure_ascii=False
  // ---------------------------------------------------------------------------------------------

  function HexDigit(d: nat): char
    requires d < 16
  {
    if d < 10 then ('0' as int + d) as char else ('a' as int + (d - 10)) as char
  }

  function EscapeChar(c: char): string {
    if c == '\"' then "\\\""
    else if c == '\\' then "\\\\"
    else if c == '\n' then "\\n"
    else if c == '\r' then "\\r"
    else if c == '\t' then "\\t"
    else if c as int == 8 then "\\b"
    else if c as int == 12 then "\\f"
    else if c < ' ' then ['\\', 'u', '0', '0', HexDigit(c as int / 16), HexDigit(c as int % 16)]
    else [c]
  }

  function Escape(s: string): string {
    if |s| == 0 then "" else EscapeChar(s[0]) + Escape(s[1..])
  }

  function DigitChar(d: nat): char
    requires d < 10
  {
    ('0' as int + d) as char
  }

  function Digits(n: nat): (r: string)
    ensures |r| > 0 && forall i :: 0 <= i < |r| ==> '0' <= r[i] <= '9'
  {
    if n < 10 then [DigitChar(n)] else Digits(n / 10) + [DigitChar(n % 10)]
  }

  function DumpNumber(n: int): string {
    if n < 0 then ['-'] + Digits(-n) else Digits(n)
  }

  function Quote(s: string): string {
    ['\"'] + Escape(s) + ['\"']
  }

  function Dump(v: Json): string {
    match v
    case Null => "null"
    case Bool(b) => if b then "true" else "false"
    case Number(n) => DumpNumber(n)
    case Text(s) => Quote(s)
    case Array(items) => if |items| == 0 then "[]" else ['['] + DumpItems(items) + [']']
    case Object(members) => if |members| == 0 then "{}" else ['{'] + DumpMembers(members) + ['}']
  }

  function DumpItems(items: seq<Json>): string
    requires |items| > 0
  {
    if |items| == 1 then Dump(items[0]) else Dump(items[0]) + [','] + DumpItems(items[1..])
  }

  function DumpMember(m: Member): string {
    Quote(m.key) + [':'] + Dump(m.value)
  }

  function DumpMembers(members: seq<Member>): string
    requires |members| > 0
  {
    if |members| == 1 then DumpMember(members[0])
    else DumpMember(members[0]) + [','] + DumpMembers(members[1..])
  }

  function Canonical(payload: Json): string {
    Dump(SortKeys(payload))
  }

  /** The escapes of `json.dumps`: the two-letter form wherever there is one, four hexadecimal digits for other controls. */
  lemma EscapesExactly(c: char)
    ensures EscapeChar('\"') == "\\\"" && EscapeChar('\\') == "\\\\"
    ensures EscapeChar('\n') == "\\n" && EscapeChar('\r') == "\\r" && EscapeChar('\t') == "\\t"
    ensures EscapeChar(8 as char) == "\\b" && EscapeChar(12 as char) == "\\f"
    ensures EscapeChar(0 as char) == "\\u0000" && EscapeChar(27 as char) == "\\u001b"
    ensures |EscapeChar(c)| == 1 <==> c >= ' ' && c != '\"' && c != '\\'
    ensures |EscapeChar(c)| == 1 ==> EscapeChar(c) == [c]
  {
  }

  /** The words, and no leading zero. */
  lemma DumpsWords()
    ensures Dump(Null) == "null" && Dump(Bool(true)) == "true" && Dump(Bool(false)) == "false"
    ensures Dump(Number(0)) == "0" && Dump(Number(-120)) == "-120"
    ensures Dump(Text("x")) == "\"x\"" && Dump(Array([])) == "[]" && Dump(Object([])) == "{}"
  {
    assert Digits(120) == Digits(12) + ['0'] && Digits(12) == Digits(1) + ['2'];
    assert Escape("x") == EscapeChar('x') + Escape("");
  }

  /** The separators, without a space anywhere. */
  lemma DumpsItems(a: Json, b: Json)
    ensures Dump(Array([a, b])) == "[" + Dump(a) + "," + Dump(b) + "]"
  {
    assert [a, b][1..] == [b];
    assert DumpItems([b]) == Dump(b);
    assert DumpItems([a, b]) == Dump(a) + [','] + Dump(b);
  }

  lemma DumpsMembers(k: string, a: Json, l: string, b: Json)
    ensures Dump(Object([Member(k, a), Member(l, b)]))
         == "{" + ((Quote(k) + ":" + Dump(a)) + "," + (Quote(l) + ":" + Dump(b))) + "}"
  {
    var m, n := Member(k, a), Member(l, b);
    assert [m, n][1..] == [n];
    var first, second := Quote(k) + ":" + Dump(a), Quote(l) + ":" + Dump(b);
    assert DumpMembers([n]) == DumpMember(n) == second;
    assert DumpMembers([m, n]) == first + "," + second;
  }

  // ---------------------------------------------------------------------------------------------
  // The parser
  // ---------------------------------------------------------------------------------------------

  function HexValue(c: char): Option<nat> {
    if '0' <= c <= '9' then Some(c as int - '0' as int)
    else if 'a' <= c <= 'f' then Some(c as int - 'a' as int + 10)
    else None
  }

  /** One character of a string literal, and what follows it. */
  function ReadChar(s: string): (r: Option<(char, string)>)
    ensures r.Some? ==> |r.value.1| < |s|
  {
    if |s| == 0 || s[0] == '\"' then None
    else if s[0] == '\\' then
      if |s| == 1 then None
      else if s[1] == '\"' then Some(('\"', s[2..]))
      else if s[1] == '\\' then Some(('\\', s[2..]))
      else if s[1] == 'n' then Some(('\n', s[2..]))
      else if s[1] == 'r' then Some(('\r', s[2..]))
      else if s[1] == 't' then Some(('\t', s[2..]))
      else if s[1] == 'b' then Some((8 as char, s[2..]))
      else if s[1] == 'f' then Some((12 as char, s[2..]))
      else if s[1] == 'u' && |s| >= 6 && s[2] == '0' && s[3] == '0' then
        match (HexValue(s[4]), HexValue(s[5]))
        case (Some(hi), Some(lo)) => Some(((hi * 16 + lo) as char, s[6..]))
        case _ => None
      else None
    else if s[0] < ' ' then None
    else Some((s[0], s[1..]))
  }

  /** The rest of a string literal, after its opening quote. */
  function ReadText(s: string): (r: Option<(string, string)>)
    ensures r.Some? ==> |r.value.1| < |s|
    decreases |s|
  {
    if |s| > 0 && s[0] == '\"' then Some(("", s[1..]))
    else
      match ReadChar(s)
      case None => None
      case Some((c, rest)) =>
        match ReadText(rest)
        case None => None
        case Some((text, after)) => Some(([c] + text, after))
  }

  function DigitRun(s: string): (k: nat)
    ensures k <= |s|
    ensures forall i :: 0 <= i < k ==> '0' <= s[i] <= '9'
    ensures k < |s| ==> !('0' <= s[k] <= '9')
  {
    if |s| > 0 && '0' <= s[0] <= '9' then 1 + DigitRun(s[1..]) else 0
  }

  function NatOf(s: string): nat
    requires forall i :: 0 <= i < |s| ==> '0' <= s[i] <= '9'
  {
    if |s| == 0 then 0 else NatOf(s[..|s| - 1]) * 10 + (s[|s| - 1] as int - '0' as int)
  }

  function ParseMagnitude(s: string): (r: Option<(nat, string)>)
    ensures r.Some? ==> |r.value.1| < |s|
  {
    var k := DigitRun(s);
    if k == 0 then None else Some((NatOf(s[..k]), s[k..]))
  }

  function ParseNumber(s: string): (r: Option<(Json, string)>)
    ensures r.Some? ==> |r.value.1| < |s|
  {
    if |s| > 0 && s[0] == '-' then
      match ParseMagnitude(s[1..])
      case None => None
      case Some((n, rest)) => Some((Number(0 - n), rest))
    else
      match ParseMagnitude(s)
      case None => None
      case Some((n, rest)) => Some((Number(n), rest))
  }

  function ParseLiteral(s: string): (r: Option<(Json, string)>)
    ensures r.Some? ==> |r.value.1| < |s|
  {
    if |s| >= 4 && s[..4] == "null" then Some((Null, s[4..]))
    else if |s| >= 4 && s[..4] == "true" then Some((Bool(true), s[4..]))
    else if |s| >= 5 && s[..5] == "false" then Some((Bool(false), s[5..]))
    else None
  }

  function ParseValue(s: string): (r: Option<(Json, string)>)
    ensures r.Some? ==> |r.value.1| < |s|
    decreases |s|, 1
  {
    if |s| == 0 then None
    else if s[0] == '\"' then
      match ReadText(s[1..])
      case None => None
      case Some((text, rest)) => Some((Text(text), rest))
    else if s[0] == '[' then ParseArray(s[1..])
    else if s[0] == '{' then ParseObject(s[1..])
    else if s[0] in {'n', 't', 'f'} then ParseLiteral(s)
    else ParseNumber(s)
  }

  /** The rest of an array, after its opening bracket. */
  function ParseArray(s: string): (r: Option<(Json, string)>)
    ensures r.Some? ==> |r.value.1| < |s|
    decreases |s|, 4
  {
    if |s| > 0 && s[0] == ']' then Some((Array([]), s[1..]))
    else
      match ParseItems(s)
      case None => None
      case Some((items, rest)) => Some((Array(items), rest))
  }

  /** The rest of an object, after its opening brace. */
  function ParseObject(s: string): (r: Option<(Json, string)>)
    ensures r.Some? ==> |r.value.1| < |s|
    decreases |s|, 4
  {
    if |s| > 0 && s[0] == '}' then Some((Object([]), s[1..]))
    else
      match ParseMembers(s)
      case None => None
      case Some((members, rest)) => Some((Object(members), rest))
  }

  function ParseItems(s: string): (r: Option<(seq<Json>, string)>)
    ensures r.Some? ==> |r.value.1| < |s|
    decreases |s|, 2
  {
    match ParseValue(s)
    case None => None
    case Some((v, rest)) =>
      if |rest| > 0 && rest[0] == ']' then Some(([v], rest[1..]))
      else if |rest| > 0 && rest[0] == ',' then
        match ParseItems(rest[1..])
        case None => None
        case Some((items, after)) => Some(([v] + items, after))
      else None
  }

  function ParseMember(s: string): (r: Option<(Member, string)>)
    ensures r.Some? ==> |r.value.1| < |s|
    decreases |s|, 2
  {
    if |s| == 0 || s[0] != '\"' then None
    else
      match ReadText(s[1..])
      case None => None
      case Some((key, rest)) =>
        if |rest| == 0 || rest[0] != ':' then None
        else
          match ParseValue(rest[1..])
          case None => None
          case Some((v, after)) => Some((Member(key, v), after))
  }

  function ParseMembers(s: string): (r: Option<(seq<Member>, string)>)
    ensures r.Some? ==> |r.value.1| < |s|
    decreases |s|, 3
  {
    match ParseMember(s)
    case None => None
    case Some((m, rest)) =>
      if |rest| > 0 && rest[0] == '}' then Some(([m], rest[1..]))
      else if |rest| > 0 && rest[0] == ',' then
        match ParseMembers(rest[1..])
        case None => None
        case Some((members, after)) => Some(([m] + members, after))
      else None
  }

  /** A whole JSON text: one value and nothing after it. */
  function Parse(s: string): Option<Json> {
    match ParseValue(s)
    case Some((v, rest)) => if |rest| == 0 then Some(v) else None
    case None => None
  }

  // ---------------------------------------------------------------------------------------------
  // Printing then parsing gives the same value back
  // ---------------------------------------------------------------------------------------------

  /** What may follow a value inside a text: the end, a separator or a closing bracket. */
  predicate Follows(rest: string) {
    |rest| == 0 || rest[0] in {',', ']', '}'}
  }

  lemma ReadEscapedChar(c: char, t: string)
    ensures ReadChar(EscapeChar(c) + t) == Some((c, t))
    ensures |EscapeChar(c)| > 0 && EscapeChar(c)[0] != '\"'
  {
    var e := EscapeChar(c);
    assert (e + t)[|e|..] == t;
    if |e| == 6 {
      assert HexValue(HexDigit(c as int / 16)) == Some(c as int / 16);
      assert HexValue(HexDigit(c as int % 16)) == Some(c as int % 16);
    }
  }

  lemma ReadOneMore(c: char, tail: string, after: string, rest: string)
    requires ReadText(tail) == Some((after, rest))
    ensures ReadText(EscapeChar(c) + tail) == Some(([c] + after, rest))
  {
    ReadEscapedChar(c, tail);
    assert (EscapeChar(c) + tail)[0] == EscapeChar(c)[0];
  }

  lemma {:induction false} ReadEscapedText(s: string, rest: string)
    ensures ReadText(Escape(s) + ['\"'] + rest) == Some((s, rest))
  {
    if |s| == 0 {
      assert Escape(s) + ['\"'] + rest == ['\"'] + rest;
    } else {
      var tail := Escape(s[1..]) + ['\"'] + rest;
      Assoc(EscapeChar(s[0]), Escape(s[1..]), ['\"']);
      Assoc(EscapeChar(s[0]), Escape(s[1..]) + ['\"'], rest);
      ReadEscapedText(s[1..], rest);
      ReadOneMore(s[0], tail, s[1..], rest);
      assert s == [s[0]] + s[1..];
    }
  }

  lemma {:induction false} NatOfDigits(n: nat)
    ensures NatOf(Digits(n)) == n
  {
    var d := Digits(n);
    if n < 10 {
      assert d[..|d| - 1] == "";
    } else {
      NatOfDigits(n / 10);
      assert d[..|d| - 1] == Digits(n / 10);
    }
  }

  lemma {:induction false} DigitRunOf(ds: string, rest: string)
    requires forall i :: 0 <= i < |ds| ==> '0' <= ds[i] <= '9'
    requires Follows(rest)
    ensures DigitRun(ds + rest) == |ds|
  {
    if |ds| == 0 {
      assert ds + rest == rest;
    } else {
      assert (ds + rest)[1..] == ds[1..] + rest;
      DigitRunOf(ds[1..], rest);
    }
  }

  lemma MagnitudeRoundTrip(n: nat, rest: string)
    requires Follows(rest)
    ensures ParseMagnitude(Digits(n) + rest) == Some((n, rest))
  {
    var ds := Digits(n);
    DigitRunOf(ds, rest);
    NatOfDigits(n);
    assert (ds + rest)[..|ds|] == ds && (ds + rest)[|ds|..] == rest;
  }

  lemma Assoc(a: string, b: string, c: string)
    ensures (a + b) + c == a + (b + c)
  {
  }

  lemma Uncons(c: char, t: string)
    ensures ([c] + t)[0] == c && ([c] + t)[1..] == t
  {
  }

  lemma NegativeText(digits: string, rest: string)
    ensures ParseNumber(['-'] + digits + rest) == match ParseMagnitude(digits + rest)
      case None => None
      case Some((n, after)) => Some((Number(0 - n), after))
  {
    Assoc(['-'], digits, rest);
    Uncons('-', digits + rest);
  }

  lemma UnsignedText(digits: string, rest: string)
    requires |digits| > 0 && digits[0] != '-'
    ensures ParseNumber(digits + rest) == match ParseMagnitude(digits + rest)
      case None => None
      case Some((n, after)) => Some((Number(n), after))
  {
    assert (digits + rest)[0] == digits[0];
  }

  lemma NegativeRoundTrip(n: nat, rest: string)
    requires Follows(rest) && n > 0
    ensures ParseNumber(['-'] + Digits(n) + rest) == Some((Number(0 - n), rest))
  {
    MagnitudeRoundTrip(n, rest);
    NegativeText(Digits(n), rest);
  }

  lemma UnsignedRoundTrip(n: nat, rest: string)
    requires Follows(rest)
    ensures ParseNumber(Digits(n) + rest) == Some((Number(n), rest))
  {
    MagnitudeRoundTrip(n, rest);
    UnsignedText(Digits(n), rest);
  }

  lemma NumberRoundTrip(n: int, rest: string)
    requires Follows(rest)
    ensures ParseNumber(DumpNumber(n) + rest) == Some((Number(n), rest))
  {
    if n < 0 {
      NegativeRoundTrip(-n, rest);
    } else {
      UnsignedRoundTrip(n, rest);
    }
  }

  lemma TextRoundTrip(s: string, rest: string)
    ensures ParseValue(Quote(s) + rest) == Some((Text(s), rest))
  {
    ReadEscapedText(s, rest);
    assert (Quote(s) + rest)[1..] == Escape(s) + ['\"'] + rest;
  }

  lemma LiteralRoundTrip(v: Json, rest: string)
    requires v.Null? || v.Bool?
    ensures ParseLiteral(Dump(v) + rest) == Some((v, rest))
  {
    var d := Dump(v);
    assert (d + rest)[|d|..] == rest && (d + rest)[..|d|] == d;
    assert d[0] == if v.Null? then 'n' else if v.b then 't' else 'f';
    assert (d + rest)[..4][0] == d[0];
  }

  lemma DumpStarts(v: Json)
    ensures |Dump(v)| > 0
    ensures Dump(v)[0] ==
      match v
      case Null => 'n'
      case Bool(b) => if b then 't' else 'f'
      case Number(n) => if n < 0 then '-' else Digits(n)[0]
      case Text(_) => '\"'
      case Array(_) => '['
      case Object(_) => '{'
  {
  }

  lemma ScalarRoundTrip(v: Json, rest: string)
    requires Follows(rest) && (v.Null? || v.Bool? || v.Number?)
    ensures ParseValue(Dump(v) + rest) == Some((v, rest))
  {
    DumpStarts(v);
    assert (Dump(v) + rest)[0] == Dump(v)[0];
    if v.Number? {
      NumberRoundTrip(v.n, rest);
    } else {
      LiteralRoundTrip(v, rest);
    }
  }

  lemma {:induction false} ValueRoundTrip(v: Json, rest: string)
    requires Follows(rest)
    ensures ParseValue(Dump(v) + rest) == Some((v, rest))
    decreases v, 1
  {
    match v {
      case Text(s) =>
        TextRoundTrip(s, rest);
      case Array(items) =>
        ArrayRoundTrip(items, rest);
        BracketOpens('[', Dump(v), rest);
      case Object(members) =>
        ObjectRoundTrip(members, rest);
        BracketOpens('{', Dump(v), rest);
      case _ =>
        ScalarRoundTrip(v, rest);
    }
  }

  lemma BracketOpens(bracket: char, text: string, rest: string)
    requires |text| > 0 && text[0] == bracket
    ensures |text + rest| > 0 && (text + rest)[0] == bracket && (text + rest)[1..] == text[1..] + rest
  {
  }

  lemma {:induction false} ArrayRoundTrip(items: seq<Json>, rest: string)
    requires Follows(rest)
    ensures ParseArray(Dump(Array(items))[1..] + rest) == Some((Array(items), rest))
    decreases items, 4
  {
    var text := Dump(Array(items))[1..] + rest;
    if |items| == 0 {
      assert text[1..] == rest;
    } else {
      assert text == DumpItems(items) + [']'] + rest;
      DumpStarts(items[0]);
      assert text[0] == Dump(items[0])[0];
      ItemsRoundTrip(items, rest);
    }
  }

  lemma {:induction false} ObjectRoundTrip(members: seq<Member>, rest: string)
    requires Follows(rest)
    ensures ParseObject(Dump(Object(members))[1..] + rest) == Some((Object(members), rest))
    decreases members, 4
  {
    if |members| == 0 {
      assert (Dump(Object(members))[1..] + rest)[1..] == rest;
    } else {
      MembersRoundTrip(members, rest);
      ObjectText(members, rest);
      QuoteOpens(members, rest);
    }
  }

  lemma ObjectText(members: seq<Member>, rest: string)
    requires |members| > 0
    ensures Dump(Object(members))[1..] + rest == DumpMembers(members) + ['}'] + rest
  {
  }

  lemma QuoteOpens(members: seq<Member>, rest: string)
    requires |members| > 0
    ensures var text := DumpMembers(members) + ['}'] + rest; |text| > 0 && text[0] == '\"'
  {
    assert DumpMember(members[0])[0] == '\"';
    assert DumpMembers(members)[0] == DumpMember(members[0])[0];
  }

  lemma {:induction false} ItemsRoundTrip(items: seq<Json>, rest: string)
    requires |items| > 0
    ensures ParseItems(DumpItems(items) + [']'] + rest) == Some((items, rest))
    decreases items, 2
  {
    var text := DumpItems(items) + [']'] + rest;
    if |items| == 1 {
      assert text == Dump(items[0]) + ([']'] + rest);
      ValueRoundTrip(items[0], [']'] + rest);
      assert ([']'] + rest)[1..] == rest && items == [items[0]];
    } else {
      var tail := DumpItems(items[1..]) + [']'] + rest;
      assert text == Dump(items[0]) + ([','] + tail);
      ValueRoundTrip(items[0], [','] + tail);
      assert (([','] + tail)[1..]) == tail;
      ItemsRoundTrip(items[1..], rest);
      assert items == [items[0]] + items[1..];
    }
  }

  lemma {:induction false} MemberRoundTrip(m: Member, rest: string)
    requires Follows(rest)
    ensures ParseMember(DumpMember(m) + rest) == Some((m, rest))
    decreases m, 2
  {
    ValueRoundTrip(m.value, rest);
    MemberText(m.key, Dump(m.value) + rest);
    var q, d := Quote(m.key), Dump(m.value);
    Assoc(q + [':'], d, rest);
    Assoc(q, [':'], d + rest);
  }

  lemma MemberText(key: string, after: string)
    ensures ParseMember(Quote(key) + ([':'] + after)) == match ParseValue(after)
      case None => None
      case Some((v, rest)) => Some((Member(key, v), rest))
  {
    var rest := [':'] + after;
    assert (Quote(key) + rest)[1..] == Escape(key) + ['\"'] + rest;
    ReadEscapedText(key, rest);
    assert rest[1..] == after;
  }

  lemma {:induction false} MembersRoundTrip(members: seq<Member>, rest: string)
    requires |members| > 0
    ensures ParseMembers(DumpMembers(members) + ['}'] + rest) == Some((members, rest))
    decreases members, 3
  {
    var text := DumpMembers(members) + ['}'] + rest;
    if |members| == 1 {
      assert text == DumpMember(members[0]) + (['}'] + rest);
      MemberRoundTrip(members[0], ['}'] + rest);
      assert (['}'] + rest)[1..] == rest && members == [members[0]];
    } else {
      var tail := DumpMembers(members[1..]) + ['}'] + rest;
      assert text == DumpMember(members[0]) + ([','] + tail);
      MemberRoundTrip(members[0], [','] + tail);
      assert (([','] + tail)[1..]) == tail;
      MembersRoundTrip(members[1..], rest);
      assert members == [members[0]] + members[1..];
    }
  }

  // ---------------------------------------------------------------------------------------------
  // Sorting the keys keeps the meaning, and sorted payloads are determined by their meaning
  // ---------------------------------------------------------------------------------------------

  lemma MeaningOfCons(first: Member, rest: seq<Member>)
    ensures MeaningOfMembers([first] + rest) == MeaningOfMembers(rest)[first.key := Meaning(first.value)]
  {
    assert ([first] + rest)[1..] == rest;
  }

  lemma {:induction false} InsertKeepsMeaning(m: Member, members: seq<Member>)
    requires m.key !in Keys(members)
    ensures MeaningOfMembers(InsertMember(m, members)) == MeaningOfMembers(members)[m.key := Meaning(m.value)]
  {
    if |members| == 0 {
      MeaningOfCons(m, members);
      assert [m] + members == [m];
    } else if Less(m.key, members[0].key) {
      MeaningOfCons(m, members);
    } else {
      assert members == [members[0]] + members[1..];
      InsertKeepsMeaning(m, members[1..]);
      assert members[0].key in Keys(members);
      InsertedLater(m, members[0], members[1..], InsertMember(m, members[1..]));
    }
  }

  lemma InsertedLater(m: Member, first: Member, rest: seq<Member>, longer: seq<Member>)
    requires first.key != m.key
    requires MeaningOfMembers(longer) == MeaningOfMembers(rest)[m.key := Meaning(m.value)]
    ensures MeaningOfMembers([first] + longer) == MeaningOfMembers([first] + rest)[m.key := Meaning(m.value)]
  {
    MeaningOfCons(first, rest);
    MeaningOfCons(first, longer);
  }

  lemma {:induction false} SortKeepsMeaning(v: Json)
    requires WellFormed(v)
    ensures Meaning(SortKeys(v)) == Meaning(v)
  {
    match v {
      case Array(items) => SortItemsKeepsMeaning(items);
      case Object(members) => SortMembersKeepsMeaning(members);
      case _ =>
    }
  }

  lemma {:induction false} SortItemsKeepsMeaning(items: seq<Json>)
    requires forall i :: 0 <= i < |items| ==> WellFormed(items[i])
    ensures MeaningOfItems(SortItems(items)) == MeaningOfItems(items)
  {
    if |items| != 0 {
      SortKeepsMeaning(items[0]);
      SortItemsKeepsMeaning(items[1..]);
      assert SortItems(items)[1..] == SortItems(items[1..]);
    }
  }

  lemma {:induction false} SortMembersKeepsMeaning(members: seq<Member>)
    requires WellFormedMembers(members)
    ensures MeaningOfMembers(SortMembers(members)) == MeaningOfMembers(members)
  {
    if |members| != 0 {
      SortKeepsMeaning(members[0].value);
      SortMembersKeepsMeaning(members[1..]);
      InsertKeepsMeaning(Member(members[0].key, SortKeys(members[0].value)), SortMembers(members[1..]));
    }
  }

  /** Key order at every depth. */
  predicate Sorted(v: Json) {
    match v
    case Array(items) => forall i :: 0 <= i < |items| ==> Sorted(items[i])
    case Object(members) => SortedMembers(members)
    case _ => true
  }

  predicate SortedMembers(members: seq<Member>) {
    |members| == 0
    || (Sorted(members[0].value)
        && (forall k :: k in Keys(members[1..]) ==> Less(members[0].key, k))
        && SortedMembers(members[1..]))
  }

  lemma {:induction false} InsertKeepsSorted(m: Member, members: seq<Member>)
    requires SortedMembers(members) && Sorted(m.value) && m.key !in Keys(members)
    ensures SortedMembers(InsertMember(m, members))
  {
    if |members| != 0 {
      assert members == [members[0]] + members[1..];
      assert members[0].key in Keys(members);
      LessTotal(m.key, members[0].key);
      var r := InsertMember(m, members);
      if Less(m.key, members[0].key) {
        forall k | k in Keys(members) ensures Less(m.key, k) {
          if k != members[0].key {
            LessTransitive(m.key, members[0].key, k);
          }
        }
        assert r[1..] == members;
      } else {
        InsertKeepsSorted(m, members[1..]);
        assert r[0] == members[0] && r[1..] == InsertMember(m, members[1..]);
      }
    }
  }

  lemma {:induction false} SortSorts(v: Json)
    requires WellFormed(v)
    ensures Sorted(SortKeys(v))
  {
    match v {
      case Array(items) => SortItemsSorts(items);
      case Object(members) => SortMembersSorts(members);
      case _ =>
    }
  }

  lemma {:induction false} SortItemsSorts(items: seq<Json>)
    requires forall i :: 0 <= i < |items| ==> WellFormed(items[i])
    ensures forall i :: 0 <= i < |items| ==> Sorted(SortItems(items)[i])
  {
    if |items| != 0 {
      SortSorts(items[0]);
      SortItemsSorts(items[1..]);
    }
  }

  lemma {:induction false} SortMembersSorts(members: seq<Member>)
    requires WellFormedMembers(members)
    ensures SortedMembers(SortMembers(members))
  {
    if |members| != 0 {
      SortSorts(members[0].value);
      SortMembersSorts(members[1..]);
      InsertKeepsSorted(Member(members[0].key, SortKeys(members[0].value)), SortMembers(members[1..]));
    }
  }

  lemma {:induction false} SortedDetermined(v: Json, w: Json)
    requires Sorted(v) && Sorted(w) && Meaning(v) == Meaning(w)
    ensures v == w
  {
    match v {
      case Array(items) => SortedItemsDetermined(items, w.items);
      case Object(members) => SortedMembersDetermined(members, w.members);
      case _ =>
    }
  }

  lemma {:induction false} SortedItemsDetermined(a: seq<Json>, b: seq<Json>)
    requires forall i :: 0 <= i < |a| ==> Sorted(a[i])
    requires forall i :: 0 <= i < |b| ==> Sorted(b[i])
    requires MeaningOfItems(a) == MeaningOfItems(b)
    ensures a == b
  {
    if |a| != 0 {
      var ma, mb := MeaningOfItems(a), MeaningOfItems(b);
      assert ma[0] == mb[0] && ma[1..] == mb[1..];
      SortedDetermined(a[0], b[0]);
      SortedItemsDetermined(a[1..], b[1..]);
      assert a == [a[0]] + a[1..] && b == [b[0]] + b[1..];
    }
  }

  lemma KeysEmpty(a: seq<Member>)
    ensures Keys(a) == {} <==> a == []
  {
    if a != [] {
      assert a[0].key in Keys(a);
    }
  }

  lemma SortedHead(a: seq<Member>)
    requires |a| > 0 && SortedMembers(a)
    ensures Keys(a) == {a[0].key} + Keys(a[1..])
    ensures a[0].key !in Keys(a[1..])
    ensures MeaningOfMembers(a[1..]) == MeaningOfMembers(a) - {a[0].key}
  {
    SortedHeadKeys(a);
    assert a == [a[0]] + a[1..];
    MeaningOfCons(a[0], a[1..]);
  }

  lemma SortedHeadKeys(a: seq<Member>)
    requires |a| > 0 && SortedMembers(a)
    ensures Keys(a) == {a[0].key} + Keys(a[1..])
    ensures a[0].key !in Keys(a[1..])
  {
    KeysOfConcat([a[0]], a[1..]);
    assert a == [a[0]] + a[1..];
    LessIrreflexive(a[0].key);
  }

  lemma {:induction false} SortedMembersDetermined(a: seq<Member>, b: seq<Member>)
    requires SortedMembers(a) && SortedMembers(b)
    requires MeaningOfMembers(a) == MeaningOfMembers(b)
    ensures a == b
  {
    assert Keys(a) == Keys(b);
    if |a| == 0 {
      KeysEmpty(b);
    } else {
      KeysEmpty(a);
      KeysEmpty(b);
      assert a[0].key in Keys(b);
      SortedHead(a);
      SortedHead(b);
      if a[0].key != b[0].key {
        LessTransitive(a[0].key, b[0].key, a[0].key);
        LessIrreflexive(a[0].key);
      }
      assert MeaningOfMembers(a)[a[0].key] == Meaning(a[0].value);
      assert MeaningOfMembers(b)[b[0].key] == Meaning(b[0].value);
      SortedDetermined(a[0].value, b[0].value);
      SortedMembersDetermined(a[1..], b[1..]);
      assert a == [a[0]] + a[1..] && b == [b[0]] + b[1..];
    }
  }

  // ---------------------------------------------------------------------------------------------
  // The theorems
  // ---------------------------------------------------------------------------------------------

  /** The canonical text reads back as a payload that means the same. */
  lemma CanonicalParsesBack(payload: Json)
    requires WellFormed(payload)
    ensures Parse(Canonical(payload)) == Some(SortKeys(payload))
    ensures Meaning(SortKeys(payload)) == Meaning(payload)
  {
    ValueRoundTrip(SortKeys(payload), "");
    assert Canonical(payload) + "" == Canonical(payload);
    SortKeepsMeaning(payload);
  }

  /** Two payloads render to one text exactly when they are equal as key-to-value maps. */
  lemma CanonicalIffSameMeaning(p: Json, q: Json)
    requires WellFormed(p) && WellFormed(q)
    ensures Canonical(p) == Canonical(q) <==> Meaning(p) == Meaning(q)
  {
    CanonicalParsesBack(p);
    CanonicalParsesBack(q);
    if Meaning(p) == Meaning(q) {
      SortSorts(p);
      SortSorts(q);
      SortedDetermined(SortKeys(p), SortKeys(q));
    }
  }

  /** SHA-256 taken as collision-free: a function of the text that never maps two texts to one hash. */
  ghost predicate CollisionFree(sha: string -> string) {
    forall s, t :: sha(s) == sha(t) ==> s == t
  }

  function PayloadHash(sha: string -> string, payload: Json): string {
    sha(Canonical(payload))
  }

  predicate HashesMatch(sha: string -> string, expected: string, payload: Json) {
    expected == PayloadHash(sha, payload)
  }

  /** Swapping in a payload keeps the hash exactly when it changes nothing an approver reads. */
  lemma HashBindsMeaning(sha: string -> string, p: Json, q: Json)
    requires CollisionFree(sha) && WellFormed(p) && WellFormed(q)
    ensures HashesMatch(sha, PayloadHash(sha, p), q) <==> Meaning(p) == Meaning(q)
  {
    CanonicalIffSameMeaning(p, q);
  }
}
