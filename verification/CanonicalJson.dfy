/** The text a connector signs: canonicalize_json of crates/avatar/src/main.rs over values
    whose objects list their members in iteration order. */
module CanonicalJson {
  import opened Common
  import Encodings

  /** A number is the text serde prints for it. */
  datatype Value =
    | Null
    | Bool(b: bool)
    | Number(text: string)
    | Str(s: string)
    | Arr(items: seq<Value>)
    | Obj(members: seq<Member>)

  datatype Member = Member(key: string, value: Value)

  // ---- Compact printing, as serde_json::to_string ----

  function Escape(c: char): (r: string)
    ensures r != ""
  {
    if c == '\"' then ['\\', '\"']
    else if c == '\\' then ['\\', '\\']
    else if c as int == 8 then ['\\', 'b']
    else if c as int == 9 then ['\\', 't']
    else if c as int == 10 then ['\\', 'n']
    else if c as int == 12 then ['\\', 'f']
    else if c as int == 13 then ['\\', 'r']
    else if c as int < 32 then
      ['\\', 'u', '0', '0', Encodings.HexChar(c as int / 16), Encodings.HexChar(c as int % 16)]
    else [c]
  }

  function EscapeAll(s: string): string {
    if s == "" then "" else Escape(s[0]) + EscapeAll(s[1..])
  }

  function Quote(s: string): string {
    ['\"'] + EscapeAll(s) + ['\"']
  }

  function Print(v: Value): string
    decreases v
  {
    match v
    case Null => "null"
    case Bool(b) => if b then "true" else "false"
    case Number(text) => text
    case Str(s) => Quote(s)
    case Arr(items) => ['['] + PrintItems(items) + [']']
    case Obj(members) => ['{'] + PrintMembers(members) + ['}']
  }

  function PrintItems(items: seq<Value>): string
    decreases items
  {
    if items == [] then ""
    else if |items| == 1 then Print(items[0])
    else Print(items[0]) + [','] + PrintItems(items[1..])
  }

  function PrintMember(m: Member): string
    decreases m
  {
    Quote(m.key) + [':'] + Print(m.value)
  }

  function PrintMembers(members: seq<Member>): string
    decreases members
  {
    if members == [] then ""
    else if |members| == 1 then PrintMember(members[0])
    else PrintMember(members[0]) + [','] + PrintMembers(members[1..])
  }

  // ---- canonicalize_json ----

  /** The order of String in Rust: by code points, a prefix first. */
  predicate Less(a: string, b: string) {
    b != "" && (a == "" || a[0] < b[0] || (a[0] == b[0] && Less(a[1..], b[1..])))
  }

  function Insert(m: Member, sorted: seq<Member>): seq<Member> {
    if sorted == [] || Less(m.key, sorted[0].key) then [m] + sorted
    else [sorted[0]] + Insert(m, sorted[1..])
  }

  /** Collecting into a BTreeMap and iterating over it. */
  function Sort(members: seq<Member>): (r: seq<Member>)
    ensures forall m :: m in r ==> m in members
  {
    if members == [] then []
    else
      InsertElements(members[0], Sort(members[1..]));
      Insert(members[0], Sort(members[1..]))
  }

  lemma {:induction false} InsertElements(m: Member, sorted: seq<Member>)
    ensures forall x :: x in Insert(m, sorted) <==> x == m || x in sorted
  {
    if sorted != [] && !Less(m.key, sorted[0].key) {
      InsertElements(m, sorted[1..]);
    }
  }

  function Canonicalize(v: Value): string
    decreases v
  {
    match v
    case Obj(members) =>
      var sorted := Sort(members);
      assert forall m :: m in sorted ==> m.value < v;
      ['{'] + CanonicalMembers(v, sorted) + ['}']
    case _ => Print(v)
  }

  /** The parts `key:value` of the members of `v`, joined by commas. */
  function CanonicalMembers(ghost v: Value, members: seq<Member>): string
    requires forall m :: m in members ==> m.value < v
    decreases v, |members|
  {
    if members == [] then ""
    else
      assert members[0] in members;
      var text := if members[0].value.Obj? then Canonicalize(members[0].value) else Print(members[0].value);
      var part := Quote(members[0].key) + [':'] + text;
      if |members| == 1 then part else part + [','] + CanonicalMembers(v, members[1..])
  }

  // ---- A reader (RFC 8259 without white space and surrogate pairs) ----

  predicate NumberChar(c: char) {
    '0' <= c <= '9' || c == '-' || c == '+' || c == '.' || c == 'e' || c == 'E'
  }

  function NumberRun(s: string): (n: nat)
    ensures n <= |s|
  {
    if s == "" || !NumberChar(s[0]) then 0 else 1 + NumberRun(s[1..])
  }

  function Unescape(c: char): Option<char> {
    if c == '\"' || c == '\\' || c == '/' then Some(c)
    else if c == 'b' then Some(8 as char)
    else if c == 't' then Some(9 as char)
    else if c == 'n' then Some(10 as char)
    else if c == 'f' then Some(12 as char)
    else if c == 'r' then Some(13 as char)
    else None
  }

  function ReadUnicode(digits: string): Option<char>
    requires |digits| == 4
  {
    match (Encodings.HexVal(digits[0]), Encodings.HexVal(digits[1]), Encodings.HexVal(digits[2]),
      Encodings.HexVal(digits[3]))
    case (Some(a), Some(b), Some(c), Some(d)) =>
      var code := a * 4096 + b * 256 + c * 16 + d;
      if 0xD800 <= code < 0xE000 then None else Some(code as char)
    case _ => None
  }

  /** The characters of a string literal up to its closing quote, and what follows it. */
  function ReadChars(s: string): (r: Option<(string, string)>)
    ensures r.Some? ==> |r.value.1| < |s|
  {
    if s == "" then None
    else if s[0] == '\"' then Some(("", s[1..]))
    else if s[0] == '\\' then
      if |s| < 2 then None
      else if s[1] == 'u' then
        if |s| < 6 then None else Prepend(ReadUnicode(s[2..6]), ReadChars(s[6..]))
      else Prepend(Unescape(s[1]), ReadChars(s[2..]))
    else if s[0] as int < 32 then None
    else Prepend(Some(s[0]), ReadChars(s[1..]))
  }

  function Prepend(c: Option<char>, r: Option<(string, string)>): (q: Option<(string, string)>)
    ensures q.Some? ==> r.Some? && q.value.1 == r.value.1
  {
    if c.None? || r.None? then None else Some(([c.value] + r.value.0, r.value.1))
  }

  predicate Starts(s: string, c: char) {
    s != "" && s[0] == c
  }

  function ReadValue(s: string): (r: Option<(Value, string)>)
    ensures r.Some? ==> |r.value.1| < |s|
    decreases |s|, 0
  {
    if s == "" then None
    else if s[0] == 'n' then if "null" <= s then Some((Null, s[4..])) else None
    else if s[0] == 't' then if "true" <= s then Some((Bool(true), s[4..])) else None
    else if s[0] == 'f' then if "false" <= s then Some((Bool(false), s[5..])) else None
    else if s[0] == '\"' then
      match ReadChars(s[1..])
      case Some((text, rest)) => Some((Str(text), rest))
      case None => None
    else if s[0] == '[' then
      if Starts(s[1..], ']') then Some((Arr([]), s[2..]))
      else
        match ReadItems(s[1..])
        case Some((items, rest)) => Some((Arr(items), rest))
        case None => None
    else if s[0] == '{' then
      if Starts(s[1..], '}') then Some((Obj([]), s[2..]))
      else
        match ReadMembers(s[1..])
        case Some((members, rest)) => Some((Obj(members), rest))
        case None => None
    else if s[0] == '-' || '0' <= s[0] <= '9' then Some((Number(s[..NumberRun(s)]), s[NumberRun(s)..]))
    else None
  }

  function ReadItems(s: string): (r: Option<(seq<Value>, string)>)
    ensures r.Some? ==> |r.value.1| < |s|
    decreases |s|, 2
  {
    match ReadValue(s)
    case None => None
    case Some((v, rest)) =>
      if Starts(rest, ']') then Some(([v], rest[1..]))
      else if Starts(rest, ',') then
        match ReadItems(rest[1..])
        case Some((more, last)) => Some(([v] + more, last))
        case None => None
      else None
  }

  function ReadMember(s: string): (r: Option<(Member, string)>)
    ensures r.Some? ==> |r.value.1| < |s|
    decreases |s|, 1
  {
    if !Starts(s, '\"') then None
    else
      match ReadChars(s[1..])
      case None => None
      case Some((key, rest)) =>
        if !Starts(rest, ':') then None
        else
          match ReadValue(rest[1..])
          case Some((v, last)) => Some((Member(key, v), last))
          case None => None
  }

  function ReadMembers(s: string): (r: Option<(seq<Member>, string)>)
    ensures r.Some? ==> |r.value.1| < |s|
    decreases |s|, 2
  {
    match ReadMember(s)
    case None => None
    case Some((m, rest)) =>
      if Starts(rest, '}') then Some(([m], rest[1..]))
      else if Starts(rest, ',') then
        match ReadMembers(rest[1..])
        case Some((more, last)) => Some(([m] + more, last))
        case None => None
      else None
  }

  /** A whole text. */
  function Parse(s: string): Option<Value> {
    match ReadValue(s)
    case Some((v, "")) => Some(v)
    case _ => None
  }

  // ---- What serde guarantees of a value ----

  predicate NumberText(text: string) {
    && text != "" && (text[0] == '-' || '0' <= text[0] <= '9')
    && forall i :: 0 <= i < |text| ==> NumberChar(text[i])
  }

  /** Numbers print as numbers. */
  ghost predicate Printable(v: Value)
    decreases v
  {
    match v
    case Number(text) => NumberText(text)
    case Arr(items) => forall i :: 0 <= i < |items| ==> Printable(items[i])
    case Obj(members) => forall i :: 0 <= i < |members| ==> Printable(members[i].value)
    case _ => true
  }

  // ---- Printing reads back ----

  predicate Ends(rest: string) {
    rest == "" || !NumberChar(rest[0])
  }

  lemma {:induction false} NumberRunAll(text: string, rest: string)
    requires forall i :: 0 <= i < |text| ==> NumberChar(text[i])
    requires Ends(rest)
    ensures NumberRun(text + rest) == |text|
  {
    hide NumberChar;
    if text == "" {
      assert text + rest == rest;
    } else {
      var all := text + rest;
      assert all[0] == text[0];
      assert all[1..] == text[1..] + rest;
      NumberRunAll(text[1..], rest);
    }
  }

  lemma UnicodeReads(c: char)
    requires c as int < 256
    ensures ReadUnicode(['0', '0', Encodings.HexChar(c as int / 16), Encodings.HexChar(c as int % 16)]) == Some(c)
  {
    Encodings.HexDigitIff(Encodings.HexChar(c as int / 16), c as int / 16);
    Encodings.HexDigitIff(Encodings.HexChar(c as int % 16), c as int % 16);
    Encodings.HexDigitIff('0', 0);
  }

  lemma PairReads(x: char, rest: string)
    requires x != 'u'
    ensures ReadChars(['\\', x] + rest) == Prepend(Unescape(x), ReadChars(rest))
  {
    hide Unescape, ReadUnicode;
    var s := ['\\', x] + rest;
    assert s[0] == '\\' && s[1] == x && s[2..] == rest;
  }

  lemma DigitsRead(digits: string, rest: string)
    requires |digits| == 4
    ensures ReadChars(['\\', 'u'] + digits + rest) == Prepend(ReadUnicode(digits), ReadChars(rest))
  {
    hide Unescape, ReadUnicode;
    var s := ['\\', 'u'] + digits + rest;
    assert s[0] == '\\' && s[1] == 'u' && s[2..6] == digits && s[6..] == rest;
  }

  lemma EscapeReads(c: char, rest: string)
    ensures ReadChars(Escape(c) + rest) == Prepend(Some(c), ReadChars(rest))
  {
    hide ReadUnicode, Encodings.HexChar;
    if |Escape(c)| == 6 {
      hide ReadChars;
      var digits := ['0', '0', Encodings.HexChar(c as int / 16), Encodings.HexChar(c as int % 16)];
      assert Escape(c) == ['\\', 'u'] + digits;
      UnicodeReads(c);
      DigitsRead(digits, rest);
    } else if |Escape(c)| == 2 {
      hide ReadChars;
      assert Escape(c) == ['\\', Escape(c)[1]];
      PairReads(Escape(c)[1], rest);
    } else {
      assert (Escape(c) + rest)[1..] == rest;
    }
  }

  lemma {:induction false} QuotedReads(s: string, rest: string)
    ensures ReadChars(EscapeAll(s) + ['\"'] + rest) == Some((s, rest))
  {
    hide Escape, Unescape;
    if s == "" {
      assert (EscapeAll(s) + ['\"'] + rest)[1..] == rest;
    } else {
      var tail := EscapeAll(s[1..]) + ['\"'] + rest;
      QuotedReads(s[1..], rest);
      EscapeReads(s[0], tail);
      assert EscapeAll(s) + ['\"'] + rest == Escape(s[0]) + tail;
      assert [s[0]] + s[1..] == s;
    }
  }

  lemma NumberReads(text: string, rest: string)
    requires NumberText(text) && Ends(rest)
    ensures ReadValue(text + rest) == Some((Number(text), rest))
  {
    hide ReadItems, ReadMembers, ReadChars, NumberRun;
    NumberRunAll(text, rest);
    var all := text + rest;
    assert all[0] == text[0];
    assert all[..|text|] == text && all[|text|..] == rest;
  }

  lemma StringReads(s: string, rest: string)
    ensures ReadValue(Quote(s) + rest) == Some((Str(s), rest))
    ensures ReadChars((Quote(s) + rest)[1..]) == Some((s, rest)) && Starts(Quote(s) + rest, '\"')
  {
    hide ReadItems, ReadMembers, ReadChars, NumberRun, EscapeAll;
    QuotedReads(s, rest);
    assert (Quote(s) + rest)[1..] == EscapeAll(s) + ['\"'] + rest;
  }

  lemma WordReads(v: Value, rest: string)
    requires v.Null? || v.Bool?
    ensures ReadValue(Print(v) + rest) == Some((v, rest))
  {
    hide ReadItems, ReadMembers, ReadChars, NumberRun;
    var all := Print(v) + rest;
    assert all[|Print(v)|..] == rest;
  }

  lemma PrintStarts(v: Value)
    requires Printable(v)
    ensures Print(v) != "" && Print(v)[0] != ']'
  {
    hide EscapeAll, PrintItems, PrintMembers;
  }

  lemma ItemsStart(items: seq<Value>, rest: string)
    requires items != [] && Printable(items[0])
    ensures PrintItems(items) != "" && PrintItems(items)[0] != ']'
  {
    hide Print;
    PrintStarts(items[0]);
  }

  lemma {:induction false} ValueReads(v: Value, rest: string)
    requires Printable(v) && Ends(rest)
    ensures ReadValue(Print(v) + rest) == Some((v, rest))
    decreases v, 0
  {
    hide Quote, PrintItems, PrintMembers, ReadItems, ReadMembers, ReadChars, NumberRun;
    match v
    case Null => WordReads(v, rest);
    case Bool(_) => WordReads(v, rest);
    case Number(text) => NumberReads(text, rest);
    case Str(s) => StringReads(s, rest);
    case Arr(items) => ArrayReads(v, rest);
    case Obj(members) => ObjectReads(v, rest);
  }

  lemma EmptyPrints()
    ensures PrintItems([]) == "" && PrintMembers([]) == ""
  {
  }

  lemma {:induction false} ArrayReads(v: Value, rest: string)
    requires v.Arr? && Printable(v)
    ensures ReadValue(Print(v) + rest) == Some((v, rest))
    decreases v.items, 2
  {
    hide Quote, PrintItems, PrintMembers, ReadItems, ReadMembers, ReadChars, NumberRun;
    var all := Print(v) + rest;
    var body := PrintItems(v.items) + [']'] + rest;
    assert all[0] == '[' && all[1..] == body;
    if v.items == [] {
      EmptyPrints();
      assert all[2..] == rest;
    } else {
      ItemsStart(v.items, rest);
      ItemsRead(v.items, rest);
    }
  }

  lemma {:induction false} ItemsRead(items: seq<Value>, rest: string)
    requires items != [] && forall i :: 0 <= i < |items| ==> Printable(items[i])
    ensures ReadItems(PrintItems(items) + [']'] + rest) == Some((items, rest))
    decreases items, 1
  {
    hide Print, ReadValue, Printable;
    var all := PrintItems(items) + [']'] + rest;
    if |items| == 1 {
      ValueReads(items[0], [']'] + rest);
      assert all == Print(items[0]) + ([']'] + rest);
      assert ([']'] + rest)[1..] == rest;
      assert items == [items[0]];
    } else {
      var tail := PrintItems(items[1..]) + [']'] + rest;
      ItemsRead(items[1..], rest);
      ValueReads(items[0], [','] + tail);
      assert all == Print(items[0]) + ([','] + tail);
      assert ([','] + tail)[1..] == tail;
      assert items == [items[0]] + items[1..];
    }
  }

  lemma {:induction false} ObjectReads(v: Value, rest: string)
    requires v.Obj? && Printable(v)
    ensures ReadValue(Print(v) + rest) == Some((v, rest))
    decreases v.members, 2
  {
    hide Quote, PrintItems, PrintMembers, ReadItems, ReadMembers, ReadChars, NumberRun;
    var all := Print(v) + rest;
    var body := PrintMembers(v.members) + ['}'] + rest;
    assert all[0] == '{' && all[1..] == body;
    if v.members == [] {
      EmptyPrints();
      assert all[2..] == rest;
    } else {
      MembersStart(v.members);
      MembersRead(v.members, rest);
    }
  }

  lemma MembersStart(members: seq<Member>)
    requires members != []
    ensures Starts(PrintMembers(members), '\"')
  {
    hide EscapeAll, Print;
  }

  lemma {:induction false} MemberReads(m: Member, rest: string)
    requires Printable(m.value) && Ends(rest)
    ensures ReadMember(PrintMember(m) + rest) == Some((m, rest))
    decreases m, 1
  {
    hide Print, ReadValue, Printable, ReadChars, Quote;
    var tail := Print(m.value) + rest;
    StringReads(m.key, [':'] + tail);
    ValueReads(m.value, rest);
    assert PrintMember(m) + rest == Quote(m.key) + ([':'] + tail);
    assert ([':'] + tail)[1..] == tail;
  }

  lemma {:induction false} MembersRead(members: seq<Member>, rest: string)
    requires members != [] && forall i :: 0 <= i < |members| ==> Printable(members[i].value)
    ensures ReadMembers(PrintMembers(members) + ['}'] + rest) == Some((members, rest))
    decreases members, 1
  {
    hide PrintMember, ReadMember, Printable;
    var all := PrintMembers(members) + ['}'] + rest;
    if |members| == 1 {
      MemberReads(members[0], ['}'] + rest);
      assert all == PrintMember(members[0]) + (['}'] + rest);
      assert (['}'] + rest)[1..] == rest;
      assert members == [members[0]];
    } else {
      var tail := PrintMembers(members[1..]) + ['}'] + rest;
      MembersRead(members[1..], rest);
      MemberReads(members[0], [','] + tail);
      assert all == PrintMember(members[0]) + ([','] + tail);
      assert ([','] + tail)[1..] == tail;
      assert members == [members[0]] + members[1..];
    }
  }

  /** The printed text of a value parses as that value. */
  lemma PrintParses(v: Value)
    requires Printable(v)
    ensures Parse(Print(v)) == Some(v)
  {
    hide Print, ReadValue, Printable;
    ValueReads(v, "");
    assert Print(v) + "" == Print(v);
  }

  // ---- Sorting ----

  lemma {:induction false} LessTotal(a: string, b: string)
    ensures Less(a, b) || a == b || Less(b, a)
    ensures !(Less(a, b) && Less(b, a))
  {
    if a != "" && b != "" {
      LessTotal(a[1..], b[1..]);
      if a[0] == b[0] && a[1..] == b[1..] {
        assert a == [a[0]] + a[1..] && b == [b[0]] + b[1..];
      }
    }
  }

  lemma {:induction false} LessTransitive(a: string, b: string, c: string)
    requires Less(a, b) && Less(b, c)
    ensures Less(a, c)
  {
    if a != "" && a[0] == b[0] == c[0] {
      LessTransitive(a[1..], b[1..], c[1..]);
    }
  }

  /** The two agree up to k, where the first ends or has the smaller character. */
  predicate SmallerAt(a: string, b: string, k: nat) {
    k <= |a| && k < |b| && a[..k] == b[..k] && (k == |a| || a[k] < b[k])
  }

  /** The order of keys: at the first difference the smaller character comes first, and a
      proper prefix comes before the longer key. */
  lemma {:induction false} LessIsLexicographic(a: string, b: string)
    ensures Less(a, b) <==> exists k: nat :: SmallerAt(a, b, k)
  {
    if b != "" && a != "" && a[0] == b[0] {
      LessIsLexicographic(a[1..], b[1..]);
      if k: nat :| SmallerAt(a[1..], b[1..], k) {
        assert a[..k + 1] == [a[0]] + a[1..][..k] && b[..k + 1] == [b[0]] + b[1..][..k];
        assert SmallerAt(a, b, k + 1);
      }
      if k: nat :| SmallerAt(a, b, k) {
        assert k > 0;
        assert a[1..][..k - 1] == a[..k][1..] && b[1..][..k - 1] == b[..k][1..];
        assert SmallerAt(a[1..], b[1..], k - 1);
      }
    } else if b != "" {
      assert a[..0] == b[..0] && (Less(a, b) ==> SmallerAt(a, b, 0));
      if k: nat :| SmallerAt(a, b, k) {
        assert k > 0 ==> a[..k][0] == b[..k][0];
      }
    }
  }

  ghost predicate Ascending(members: seq<Member>) {
    forall i, j :: 0 <= i < j < |members| ==> Less(members[i].key, members[j].key)
  }

  ghost predicate Lacks(members: seq<Member>, key: string) {
    forall i :: 0 <= i < |members| ==> members[i].key != key
  }

  ghost predicate DistinctKeys(members: seq<Member>) {
    forall i, j :: 0 <= i < j < |members| ==> members[i].key != members[j].key
  }

  lemma {:induction false} InsertAscends(m: Member, sorted: seq<Member>)
    requires Ascending(sorted) && Lacks(sorted, m.key)
    ensures Ascending(Insert(m, sorted))
  {
    hide Less;
    if sorted != [] {
      var first, tail := sorted[0], sorted[1..];
      LessTotal(m.key, first.key);
      if Less(m.key, first.key) {
        forall j | 0 <= j < |sorted|
          ensures Less(m.key, sorted[j].key)
        {
          if j > 0 {
            LessTransitive(m.key, first.key, sorted[j].key);
          }
        }
      } else {
        InsertAscends(m, tail);
        InsertElements(m, tail);
        var rest := Insert(m, tail);
        forall j | 0 <= j < |rest|
          ensures Less(first.key, rest[j].key)
        {
          assert rest[j] in rest;
        }
      }
    }
  }

  lemma InsertLacks(m: Member, sorted: seq<Member>, key: string)
    requires Lacks(sorted, key) && key != m.key
    ensures Lacks(Insert(m, sorted), key)
  {
    hide Insert;
    InsertElements(m, sorted);
    forall i | 0 <= i < |Insert(m, sorted)|
      ensures Insert(m, sorted)[i].key != key
    {
      assert Insert(m, sorted)[i] in Insert(m, sorted);
    }
  }

  lemma {:induction false} SortAscends(members: seq<Member>)
    requires DistinctKeys(members)
    ensures Ascending(Sort(members))
    ensures forall key :: Lacks(members, key) ==> Lacks(Sort(members), key)
  {
    hide Insert, Less;
    if members != [] {
      SortAscends(members[1..]);
      assert Lacks(members[1..], members[0].key);
      InsertAscends(members[0], Sort(members[1..]));
      forall key | Lacks(members, key)
        ensures Lacks(Sort(members), key)
      {
        assert Lacks(members[1..], key) && key != members[0].key;
        InsertLacks(members[0], Sort(members[1..]), key);
      }
    }
  }

  // ---- The value meant, whatever the order of keys ----

  /** Objects reached through objects as maps; anything else as it is. */
  datatype Meaning = Leaf(v: Value) | Fields(fields: map<string, Meaning>)

  function MeaningOf(v: Value): Meaning
    decreases v
  {
    if v.Obj? then Fields(MeaningOfMembers(v.members)) else Leaf(v)
  }

  function MeaningOfMembers(members: seq<Member>): map<string, Meaning>
    decreases members
  {
    if members == [] then map[]
    else MeaningOfMembers(members[1..])[members[0].key := MeaningOf(members[0].value)]
  }

  /** No key twice, at any object level reached through objects. */
  ghost predicate Distinct(v: Value)
    decreases v
  {
    v.Obj? ==> DistinctKeys(v.members) && forall i :: 0 <= i < |v.members| ==> Distinct(v.members[i].value)
  }

  /** The value with its keys in order, at every object level reached through objects. */
  function Sorted(v: Value): Value
    decreases v
  {
    if v.Obj? then Obj(Sort(SortEach(v.members))) else v
  }

  function SortEach(members: seq<Member>): (r: seq<Member>)
    ensures |r| == |members|
    ensures forall i :: 0 <= i < |r| ==> r[i].key == members[i].key
    decreases members
  {
    if members == [] then []
    else [Member(members[0].key, Sorted(members[0].value))] + SortEach(members[1..])
  }

  lemma {:induction false} SortEachInsert(m: Member, sorted: seq<Member>)
    ensures SortEach(Insert(m, sorted)) == Insert(Member(m.key, Sorted(m.value)), SortEach(sorted))
  {
    hide Less, Sorted;
    if sorted != [] && !Less(m.key, sorted[0].key) {
      SortEachInsert(m, sorted[1..]);
      var all := Insert(m, sorted);
      assert all[1..] == Insert(m, sorted[1..]) && SortEach(sorted)[1..] == SortEach(sorted[1..]);
    } else {
      assert ([m] + sorted)[1..] == sorted;
    }
  }

  lemma {:induction false} SortEachSort(members: seq<Member>)
    ensures SortEach(Sort(members)) == Sort(SortEach(members))
  {
    hide Insert, Sorted;
    if members != [] {
      SortEachSort(members[1..]);
      SortEachInsert(members[0], Sort(members[1..]));
      assert SortEach(members)[1..] == SortEach(members[1..]);
    }
  }

  /** Canonicalising is printing the value with its keys in order. */
  lemma {:induction false} CanonicalIsSorted(v: Value)
    ensures Canonicalize(v) == Print(Sorted(v))
    decreases v
  {
    hide Sort, Quote;
    if v.Obj? {
      var sorted := Sort(v.members);
      assert forall m :: m in sorted ==> m.value < v;
      CanonicalMembersAreSorted(v, sorted);
      SortEachSort(v.members);
    }
  }

  lemma {:induction false} CanonicalMembersAreSorted(v: Value, members: seq<Member>)
    requires forall m :: m in members ==> m.value < v
    ensures CanonicalMembers(v, members) == PrintMembers(SortEach(members))
    decreases v, |members|
  {
    hide Sort, Quote, Print, Canonicalize;
    if members != [] {
      assert members[0] in members;
      CanonicalIsSorted(members[0].value);
      CanonicalMembersAreSorted(v, members[1..]);
      var each := SortEach(members);
      assert each[1..] == SortEach(members[1..]);
      LeafPrints(members[0].value);
    }
  }

  lemma LeafPrints(v: Value)
    ensures !v.Obj? ==> Canonicalize(v) == Print(v)
  {
  }

  // ---- Canonical texts and meanings ----

  lemma {:induction false} InsertMeaning(m: Member, sorted: seq<Member>)
    requires Lacks(sorted, m.key)
    ensures MeaningOfMembers(Insert(m, sorted)) == MeaningOfMembers(sorted)[m.key := MeaningOf(m.value)]
  {
    hide Less, MeaningOf;
    if sorted != [] && !Less(m.key, sorted[0].key) {
      InsertMeaning(m, sorted[1..]);
    } else {
      assert ([m] + sorted)[1..] == sorted;
    }
  }

  lemma {:induction false} SortMeaning(members: seq<Member>)
    requires DistinctKeys(members)
    ensures MeaningOfMembers(Sort(members)) == MeaningOfMembers(members)
  {
    hide Insert, MeaningOf;
    if members != [] {
      SortMeaning(members[1..]);
      assert Lacks(members[1..], members[0].key);
      SortAscends(members[1..]);
      InsertMeaning(members[0], Sort(members[1..]));
    }
  }

  /** Sorting the keys does not change what is meant. */
  lemma {:induction false} SortedMeaning(v: Value)
    requires Distinct(v)
    ensures MeaningOf(Sorted(v)) == MeaningOf(v)
    decreases v, 0
  {
    hide Sort;
    if v.Obj? {
      SortEachMeaning(v.members);
      SortMeaning(SortEach(v.members));
    }
  }

  lemma {:induction false} SortEachMeaning(members: seq<Member>)
    requires forall i :: 0 <= i < |members| ==> Distinct(members[i].value)
    ensures MeaningOfMembers(SortEach(members)) == MeaningOfMembers(members)
    decreases members, 1
  {
    hide MeaningOf, Sorted, Distinct;
    if members != [] {
      SortedMeaning(members[0].value);
      SortEachMeaning(members[1..]);
      assert SortEach(members)[1..] == SortEach(members[1..]);
    }
  }

  /** Keys in order at every object level reached through objects. */
  ghost predicate Normal(v: Value)
    decreases v
  {
    v.Obj? ==> Ascending(v.members) && forall i :: 0 <= i < |v.members| ==> Normal(v.members[i].value)
  }

  lemma {:induction false} SortedIsNormal(v: Value)
    requires Distinct(v)
    ensures Normal(Sorted(v))
    ensures Printable(v) ==> Printable(Sorted(v))
    decreases v, 0
  {
    hide Sort;
    if v.Obj? {
      SortEachIsNormal(v.members);
      var each := SortEach(v.members);
      SortAscends(each);
      forall i | 0 <= i < |Sort(each)|
        ensures Normal(Sort(each)[i].value) && (Printable(v) ==> Printable(Sort(each)[i].value))
      {
        assert Sort(each)[i] in Sort(each);
      }
    }
  }

  lemma {:induction false} SortEachIsNormal(members: seq<Member>)
    requires forall i :: 0 <= i < |members| ==> Distinct(members[i].value)
    ensures forall i :: 0 <= i < |members| ==> Normal(SortEach(members)[i].value)
    ensures (forall i :: 0 <= i < |members| ==> Printable(members[i].value)) ==>
      forall i :: 0 <= i < |members| ==> Printable(SortEach(members)[i].value)
    decreases members, 1
  {
    hide Normal, Sorted, Distinct, Printable;
    if members != [] {
      SortedIsNormal(members[0].value);
      SortEachIsNormal(members[1..]);
    }
  }

  lemma {:induction false} MeaningKeys(members: seq<Member>, key: string)
    ensures key !in MeaningOfMembers(members) <==> Lacks(members, key)
  {
    hide MeaningOf;
    if members != [] {
      MeaningKeys(members[1..], key);
      assert Lacks(members, key) <==> members[0].key != key && Lacks(members[1..], key);
    }
  }

  /** Two values in key order that mean the same are the same. */
  lemma {:induction false} NormalUnique(v: Value, w: Value)
    requires Normal(v) && Normal(w) && MeaningOf(v) == MeaningOf(w)
    ensures v == w
    decreases v, 0
  {
    if v.Obj? {
      MembersUnique(v.members, w.members);
    }
  }

  lemma FirstKey(ms: seq<Member>, ns: seq<Member>)
    requires Ascending(ms) && Ascending(ns) && ms != [] && ns != []
    requires MeaningOfMembers(ms) == MeaningOfMembers(ns)
    ensures ms[0].key == ns[0].key
  {
    hide MeaningOfMembers, Less;
    LessTotal(ms[0].key, ns[0].key);
    MeaningKeys(ms, ns[0].key);
    MeaningKeys(ns, ns[0].key);
    MeaningKeys(ms, ms[0].key);
    MeaningKeys(ns, ms[0].key);
    if Less(ms[0].key, ns[0].key) {
      BelowAll(ms[0].key, ns);
    } else if Less(ns[0].key, ms[0].key) {
      BelowAll(ns[0].key, ms);
    }
  }

  lemma BelowAll(key: string, members: seq<Member>)
    requires Ascending(members) && members != [] && Less(key, members[0].key)
    ensures Lacks(members, key)
  {
    hide Less;
    forall i | 0 <= i < |members|
      ensures members[i].key != key
    {
      if i > 0 {
        LessTransitive(key, members[0].key, members[i].key);
      }
      LessTotal(key, members[i].key);
    }
  }

  lemma {:induction false} MembersUnique(ms: seq<Member>, ns: seq<Member>)
    requires Ascending(ms) && Ascending(ns) && MeaningOfMembers(ms) == MeaningOfMembers(ns)
    requires forall i :: 0 <= i < |ms| ==> Normal(ms[i].value)
    requires forall i :: 0 <= i < |ns| ==> Normal(ns[i].value)
    ensures ms == ns
    decreases ms, 1
  {
    hide MeaningOf, Normal, Less;
    OnlyEmptyMeansNothing(ms);
    OnlyEmptyMeansNothing(ns);
    if ms != [] && ns != [] {
      FirstKey(ms, ns);
      var key := ms[0].key;
      var all, more, other := MeaningOfMembers(ms), MeaningOfMembers(ms[1..]), MeaningOfMembers(ns[1..]);
      assert all[key] == MeaningOf(ms[0].value) == MeaningOf(ns[0].value);
      NormalUnique(ms[0].value, ns[0].value);
      HeadLacked(ms);
      HeadLacked(ns);
      MeaningKeys(ms[1..], key);
      MeaningKeys(ns[1..], key);
      assert more == all - {key} == other;
      MembersUnique(ms[1..], ns[1..]);
      assert ms == [ms[0]] + ms[1..] && ns == [ns[0]] + ns[1..];
    }
  }

  lemma OnlyEmptyMeansNothing(members: seq<Member>)
    ensures MeaningOfMembers(members) == map[] <==> members == []
  {
    if members != [] {
      assert members[0].key in MeaningOfMembers(members);
    }
  }

  lemma HeadLacked(members: seq<Member>)
    requires Ascending(members) && members != []
    ensures Lacks(members[1..], members[0].key) && Ascending(members[1..])
  {
    hide Less;
    forall i | 0 < i < |members|
      ensures members[i].key != members[0].key
    {
      LessTotal(members[0].key, members[i].key);
    }
  }

  /** The canonical text parses as the same value with its keys in order: nothing but the
      order of keys is lost. */
  lemma CanonicalReadsBack(v: Value)
    requires Printable(v) && Distinct(v)
    ensures Parse(Canonicalize(v)) == Some(Sorted(v))
    ensures MeaningOf(Sorted(v)) == MeaningOf(v) && Normal(Sorted(v))
  {
    CanonicalIsSorted(v);
    SortedIsNormal(v);
    SortedMeaning(v);
    PrintParses(Sorted(v));
  }

  /** Two values canonicalise alike exactly when they differ in key order only. */
  lemma CanonicalIffSameMeaning(v: Value, w: Value)
    requires Printable(v) && Distinct(v) && Printable(w) && Distinct(w)
    ensures Canonicalize(v) == Canonicalize(w) <==> MeaningOf(v) == MeaningOf(w)
  {
    hide Canonicalize, Sorted, MeaningOf, Printable, Distinct, Normal, Parse;
    CanonicalReadsBack(v);
    CanonicalReadsBack(w);
    if MeaningOf(v) == MeaningOf(w) {
      NormalUnique(Sorted(v), Sorted(w));
      CanonicalIsSorted(v);
      CanonicalIsSorted(w);
    }
  }
}
