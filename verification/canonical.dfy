/**
 * The canonical text of a JSON value: RFC 8259 without white space, with the members of every
 * object in the order of their names' UTF-16 code units. Numbers are integers.
 */
module Canonical {
  import opened Wrappers
  import opened Digits

  datatype Json =
    | Null
    | Bool(b: bool)
    | Int(n: int)
    | Str(s: string)
    | Arr(items: seq<Json>)
    | Obj(members: seq<Member>)

  datatype Member = Member(key: string, value: Json)

  /** A member whose value has been printed. */
  datatype Keyed = Keyed(key: string, text: string)

  // ---------- strings ----------

  function HexDigit(d: nat): char
    requires d < 16
  {
    if d < 10 then '0' + d as char else 'a' + (d - 10) as char
  }

  /** JSON.stringify on one character. */
  function EscapeChar(c: char): string {
    if c == '"' then "\\\""
    else if c == '\\' then "\\\\"
    else if c as int == 8 then "\\b"
    else if c as int == 9 then "\\t"
    else if c as int == 10 then "\\n"
    else if c as int == 12 then "\\f"
    else if c as int == 13 then "\\r"
    else if c < ' ' then "\\u00" + [HexDigit(c as int / 16), HexDigit(c as int % 16)]
    else [c]
  }

  function Escape(s: string): string {
    if s == "" then "" else EscapeChar(s[0]) + Escape(s[1..])
  }

  function Quote(s: string): string {
    "\"" + Escape(s) + "\""
  }

  // ---------- printing in the given order ----------

  function PrintInt(n: int): string {
    if n < 0 then "-" + Print(-n) else Print(n)
  }

  function PrintJson(v: Json): string
    decreases v, 0
  {
    match v
    case Null => "null"
    case Bool(b) => if b then "true" else "false"
    case Int(n) => PrintInt(n)
    case Str(s) => Quote(s)
    case Arr(items) => "[" + (if items == [] then "" else PrintItems(items)) + "]"
    case Obj(members) => "{" + (if members == [] then "" else PrintMembers(members)) + "}"
  }

  function PrintItems(items: seq<Json>): string
    requires items != []
    decreases items, 1
  {
    PrintJson(items[0]) + (if |items| == 1 then "" else "," + PrintItems(items[1..]))
  }

  function PrintMembers(members: seq<Member>): string
    requires members != []
    decreases members, 1
  {
    Quote(members[0].key) + ":" + PrintJson(members[0].value)
    + (if |members| == 1 then "" else "," + PrintMembers(members[1..]))
  }

  // ---------- the order of keys ----------

  /** The UTF-16 code units of one character. */
  function Units(c: char): seq<int> {
    var k := c as int;
    if k < 0x1_0000 then [k] else [0xD800 + (k - 0x1_0000) / 0x400, 0xDC00 + (k - 0x1_0000) % 0x400]
  }

  /** Characters beyond the first plane come before the private use area, after everything else. */
  function Rank(c: char): int {
    var k := c as int;
    if k < 0xD800 then k else if k >= 0x1_0000 then k - 0x1_0000 + 0xD800 else k + 0x10_0000
  }

  /** a comes before b in the order JavaScript sorts strings. */
  predicate KeyLess(a: string, b: string) {
    if b == "" then false
    else if a == "" then true
    else if a[0] == b[0] then KeyLess(a[1..], b[1..])
    else Rank(a[0]) < Rank(b[0])
  }

  predicate UnitsLess(a: seq<int>, b: seq<int>) {
    if b == [] then false
    else if a == [] then true
    else if a[0] == b[0] then UnitsLess(a[1..], b[1..])
    else a[0] < b[0]
  }

  function UnitsOf(s: string): seq<int> {
    if s == "" then [] else Units(s[0]) + UnitsOf(s[1..])
  }

  function Insert<T>(x: T, sorted: seq<T>, key: T -> string): seq<T> {
    if sorted == [] then [x]
    else if KeyLess(key(sorted[0]), key(x)) then [sorted[0]] + Insert(x, sorted[1..], key)
    else [x] + sorted
  }

  function Sort<T>(xs: seq<T>, key: T -> string): seq<T> {
    if xs == [] then [] else Insert(xs[0], Sort(xs[1..], key), key)
  }

  function MemberKey(m: Member): string { m.key }

  function KeyedKey(k: Keyed): string { k.key }

  // ---------- the source's recursion ----------

  /** canonicalize: the members' texts, sorted by key and joined. */
  function Canonicalize(v: Json): string
    decreases v, 0
  {
    match v
    case Arr(items) => "[" + Join(Texts(items)) + "]"
    case Obj(members) => "{" + Join(MemberTexts(Sort(KeyedTexts(members), KeyedKey))) + "}"
    case _ => PrintJson(v)
  }

  function Texts(items: seq<Json>): (r: seq<string>)
    ensures |r| == |items|
    decreases items, 1
  {
    if items == [] then [] else [Canonicalize(items[0])] + Texts(items[1..])
  }

  function KeyedTexts(members: seq<Member>): (r: seq<Keyed>)
    ensures |r| == |members|
    decreases members, 1
  {
    if members == [] then [] else [Keyed(members[0].key, Canonicalize(members[0].value))] + KeyedTexts(members[1..])
  }

  function MemberTexts(members: seq<Keyed>): (r: seq<string>)
    ensures |r| == |members|
  {
    if members == [] then [] else [Quote(members[0].key) + ":" + members[0].text] + MemberTexts(members[1..])
  }

  /** Array.prototype.join with a comma. */
  function Join(texts: seq<string>): string {
    if texts == [] then ""
    else if |texts| == 1 then texts[0]
    else texts[0] + "," + Join(texts[1..])
  }

  // ---------- normal forms ----------

  /** The value with the members of every object sorted. */
  function Norm(v: Json): Json
    decreases v, 0
  {
    match v
    case Arr(items) => Arr(NormItems(items))
    case Obj(members) => Obj(Sort(NormMembers(members), MemberKey))
    case _ => v
  }

  function NormItems(items: seq<Json>): (r: seq<Json>)
    ensures |r| == |items|
    ensures forall i :: 0 <= i < |r| ==> r[i] == Norm(items[i])
    decreases items, 1
  {
    if items == [] then [] else [Norm(items[0])] + NormItems(items[1..])
  }

  function NormMembers(members: seq<Member>): (r: seq<Member>)
    ensures |r| == |members|
    ensures forall i :: 0 <= i < |r| ==> r[i] == Member(members[i].key, Norm(members[i].value))
    decreases members, 1
  {
    if members == [] then [] else [Member(members[0].key, Norm(members[0].value))] + NormMembers(members[1..])
  }

  // ---------- canonicalize prints the normal form ----------

  function PrintedAll(members: seq<Member>): (r: seq<Keyed>)
    ensures |r| == |members|
  {
    if members == [] then []
    else [Keyed(members[0].key, PrintJson(members[0].value))] + PrintedAll(members[1..])
  }

  lemma {:induction false} JoinItems(items: seq<Json>)
    requires items != []
    ensures Join(Texts(items)) == PrintItems(NormItems(items))
    decreases items, 1
  {
    CanonicalizeIsPrintNorm(items[0]);
    if |items| > 1 {
      JoinItems(items[1..]);
      assert Texts(items)[1..] == Texts(items[1..]);
      assert NormItems(items)[1..] == NormItems(items[1..]);
    }
  }

  lemma {:induction false} KeyedArePrinted(members: seq<Member>)
    ensures KeyedTexts(members) == PrintedAll(NormMembers(members))
    decreases members, 1
  {
    if members != [] {
      CanonicalizeIsPrintNorm(members[0].value);
      KeyedArePrinted(members[1..]);
      assert NormMembers(members)[1..] == NormMembers(members[1..]);
    }
  }

  lemma {:induction false} InsertPrinted(m: Member, sorted: seq<Member>)
    ensures PrintedAll(Insert(m, sorted, MemberKey)) ==
            Insert(Keyed(m.key, PrintJson(m.value)), PrintedAll(sorted), KeyedKey)
  {
    if sorted != [] && KeyLess(sorted[0].key, m.key) {
      InsertPrinted(m, sorted[1..]);
      assert ([sorted[0]] + Insert(m, sorted[1..], MemberKey))[1..] == Insert(m, sorted[1..], MemberKey);
      assert PrintedAll(sorted)[1..] == PrintedAll(sorted[1..]);
    } else {
      assert ([m] + sorted)[1..] == sorted;
    }
  }

  /** Printing before or after sorting by key makes no difference. */
  lemma {:induction false} SortPrinted(members: seq<Member>)
    ensures Sort(PrintedAll(members), KeyedKey) == PrintedAll(Sort(members, MemberKey))
  {
    if members != [] {
      SortPrinted(members[1..]);
      assert PrintedAll(members)[1..] == PrintedAll(members[1..]);
      InsertPrinted(members[0], Sort(members[1..], MemberKey));
    }
  }

  lemma {:induction false} JoinPrinted(members: seq<Member>)
    requires members != []
    ensures Join(MemberTexts(PrintedAll(members))) == PrintMembers(members)
  {
    var ts := MemberTexts(PrintedAll(members));
    assert ts[0] == Quote(members[0].key) + ":" + PrintJson(members[0].value);
    if |members| > 1 {
      assert PrintedAll(members)[1..] == PrintedAll(members[1..]);
      assert ts[1..] == MemberTexts(PrintedAll(members[1..]));
      JoinPrinted(members[1..]);
    }
  }

  lemma {:induction false} SortLength<T>(xs: seq<T>, key: T -> string)
    ensures |Sort(xs, key)| == |xs|
  {
    if xs != [] {
      SortLength(xs[1..], key);
      InsertLength(xs[0], Sort(xs[1..], key), key);
    }
  }

  lemma {:induction false} InsertLength<T>(x: T, sorted: seq<T>, key: T -> string)
    ensures |Insert(x, sorted, key)| == |sorted| + 1
  {
    if sorted != [] && KeyLess(key(sorted[0]), key(x)) {
      InsertLength(x, sorted[1..], key);
    }
  }

  /** The source's recursion prints the normal form of its argument. */
  lemma {:induction false} CanonicalizeIsPrintNorm(v: Json)
    ensures Canonicalize(v) == PrintJson(Norm(v))
    decreases v, 0
  {
    match v
    case Arr(items) =>
      if items != [] {
        JoinItems(items);
      }
    case Obj(members) =>
      var norm := NormMembers(members);
      KeyedArePrinted(members);
      SortPrinted(norm);
      SortLength(norm, MemberKey);
      if members != [] {
        JoinPrinted(Sort(norm, MemberKey));
      }
    case _ =>
  }

  // ---------- reading back ----------

  function HexValue(c: char): Option<nat> {
    if IsDigit(c) then Some(DigitValue(c))
    else if 'a' <= c <= 'f' then Some((c - 'a') as nat + 10)
    else None
  }

  function ReadEscape(s: string): Option<(char, string)>
    requires |s| >= 2
  {
    var c := s[1];
    if c == '"' || c == '\\' then Some((c, s[2..]))
    else if c == 'b' then Some((8 as char, s[2..]))
    else if c == 't' then Some((9 as char, s[2..]))
    else if c == 'n' then Some((10 as char, s[2..]))
    else if c == 'f' then Some((12 as char, s[2..]))
    else if c == 'r' then Some((13 as char, s[2..]))
    else if c == 'u' && |s| >= 6 && s[2] == '0' && s[3] == '0' && HexValue(s[4]).Some? && HexValue(s[5]).Some? then
      Some(((HexValue(s[4]).value * 16 + HexValue(s[5]).value) as char, s[6..]))
    else None
  }

  /** The characters up to the closing quote. */
  function ReadChars(s: string): (r: Option<(string, string)>)
    ensures r.Some? ==> |r.value.1| < |s|
    decreases |s|
  {
    if s == "" then None
    else if s[0] == '"' then Some(("", s[1..]))
    else if s[0] == '\\' then
      if |s| < 2 then None
      else
        var e := ReadEscape(s);
        if e.None? then None
        else
          var r := ReadChars(e.value.1);
          if r.None? then None else Some(([e.value.0] + r.value.0, r.value.1))
    else
      var r := ReadChars(s[1..]);
      if r.None? then None else Some(([s[0]] + r.value.0, r.value.1))
  }

  function ReadInt(s: string): (r: Option<(nat, string)>)
    ensures r.Some? ==> |r.value.1| < |s|
  {
    var n := DigitPrefix(s);
    if n == 0 then None else Some((Value(s[..n]), s[n..]))
  }

  function StartsWith(s: string, word: string): bool {
    |word| <= |s| && s[..|word|] == word
  }

  function ReadValue(s: string): (r: Option<(Json, string)>)
    ensures r.Some? ==> |r.value.1| < |s|
    decreases |s|, 0
  {
    if s == "" then None
    else if StartsWith(s, "null") then Some((Null, s[4..]))
    else if StartsWith(s, "true") then Some((Bool(true), s[4..]))
    else if StartsWith(s, "false") then Some((Bool(false), s[5..]))
    else if s[0] == '"' then
      var r := ReadChars(s[1..]);
      if r.None? then None else Some((Str(r.value.0), r.value.1))
    else if s[0] == '[' then
      if StartsWith(s, "[]") then Some((Arr([]), s[2..]))
      else
        var r := ReadItems(s[1..]);
        if r.None? then None else Some((Arr(r.value.0), r.value.1))
    else if s[0] == '{' then
      if StartsWith(s, "{}") then Some((Obj([]), s[2..]))
      else
        var r := ReadMembers(s[1..]);
        if r.None? then None else Some((Obj(r.value.0), r.value.1))
    else if s[0] == '-' then
      var r := ReadInt(s[1..]);
      if r.None? then None else Some((Int(0 - r.value.0), r.value.1))
    else
      var r := ReadInt(s);
      if r.None? then None else Some((Int(r.value.0), r.value.1))
  }

  function ReadItems(s: string): (r: Option<(seq<Json>, string)>)
    ensures r.Some? ==> |r.value.1| < |s|
    decreases |s|, 1
  {
    var first := ReadValue(s);
    if first.None? || first.value.1 == "" then None
    else
      var rest := first.value.1;
      if rest[0] == ']' then Some(([first.value.0], rest[1..]))
      else if rest[0] == ',' then
        var more := ReadItems(rest[1..]);
        if more.None? then None else Some(([first.value.0] + more.value.0, more.value.1))
      else None
  }

  function ReadMembers(s: string): (r: Option<(seq<Member>, string)>)
    ensures r.Some? ==> |r.value.1| < |s|
    decreases |s|, 1
  {
    if s == "" || s[0] != '"' then None
    else
      var key := ReadChars(s[1..]);
      if key.None? || key.value.1 == "" || key.value.1[0] != ':' then None
      else
        var first := ReadValue(key.value.1[1..]);
        if first.None? || first.value.1 == "" then None
        else
          var m := Member(key.value.0, first.value.0);
          var rest := first.value.1;
          if rest[0] == '}' then Some(([m], rest[1..]))
          else if rest[0] == ',' then
            var more := ReadMembers(rest[1..]);
            if more.None? then None else Some(([m] + more.value.0, more.value.1))
          else None
  }

  lemma EscapeCharReads(c: char, tail: string)
    ensures var e := EscapeChar(c);
            && e != "" && e[0] != '"'
            && (e == [c] ==> c != '\\')
            && (e != [c] ==> |e| >= 2 && e[0] == '\\' && ReadEscape(e + tail) == Some((c, tail)))
  {
    var e := EscapeChar(c);
    if e != [c] {
      assert (e + tail)[|e|..] == tail;
      if |e| == 6 {
        assert HexValue(HexDigit(c as int / 16)) == Some(c as int / 16);
        assert HexValue(HexDigit(c as int % 16)) == Some(c as int % 16);
      }
    }
  }

  lemma {:induction false} CharsReadBack(s: string, rest: string)
    ensures ReadChars(Escape(s) + "\"" + rest) == Some((s, rest))
    decreases |s|
  {
    hide EscapeChar, ReadEscape;
    var text := Escape(s) + "\"" + rest;
    if s == "" {
      assert text == "\"" + rest;
      assert text[1..] == rest;
    } else {
      var e := EscapeChar(s[0]);
      var tail := Escape(s[1..]) + "\"" + rest;
      assert text == e + tail;
      EscapeCharReads(s[0], tail);
      CharsReadBack(s[1..], rest);
      if e == [s[0]] {
        assert text[1..] == tail;
      }
      assert [s[0]] + s[1..] == s;
    }
  }

  /** Where a number ends: at the end of the text or before something that is no digit. */
  predicate EndsNumber(rest: string) {
    rest == "" || !IsDigit(rest[0])
  }

  lemma IntReadsBack(n: nat, rest: string)
    requires EndsNumber(rest)
    ensures ReadInt(Print(n) + rest) == Some((n, rest))
  {
    var s := Print(n) + rest;
    DigitPrefixIs(Print(n), rest);
    ValueOfPrint(n);
    assert s[..|Print(n)|] == Print(n) && s[|Print(n)|..] == rest;
  }

  lemma NumberReadsBack(n: int, rest: string)
    requires EndsNumber(rest)
    ensures ReadValue(PrintInt(n) + rest) == Some((Int(n), rest))
  {
    hide ReadItems, ReadMembers, ReadInt, Print, ReadChars;
    var s := PrintInt(n) + rest;
    if n < 0 {
      IntReadsBack(-n, rest);
      assert s[0] == '-' && s[1..] == Print(-n) + rest;
    } else {
      IntReadsBack(n, rest);
      assert s[0] == Print(n)[0] && IsDigit(s[0]);
      assert s[..1] == [s[0]];
    }
    NotAWord(s);
  }

  lemma WordReadsBack(v: Json, rest: string)
    requires v.Null? || v.Bool?
    ensures ReadValue(PrintJson(v) + rest) == Some((v, rest))
  {
    var word := PrintJson(v);
    var s := word + rest;
    assert s[..|word|] == word && s[|word|..] == rest;
    assert s[0] == word[0];
    assert |s| >= 4 ==> s[..4][0] == s[0];
    assert |s| >= 5 ==> s[..5][0] == s[0];
  }

  lemma StringReadsBack(t: string, rest: string)
    ensures ReadValue(Quote(t) + rest) == Some((Str(t), rest))
  {
    var s := Quote(t) + rest;
    CharsReadBack(t, rest);
    assert s[0] == '"' && s[1..] == Escape(t) + "\"" + rest;
    NotAWord(s);
    hide ReadItems, ReadMembers, ReadInt, ReadChars;
  }

  lemma NotAWord(s: string)
    requires s != "" && s[0] != 'n' && s[0] != 't' && s[0] != 'f'
    ensures !StartsWith(s, "null") && !StartsWith(s, "true") && !StartsWith(s, "false")
  {
    assert |s| >= 4 ==> s[..4][0] == s[0];
    assert |s| >= 5 ==> s[..5][0] == s[0];
  }

  /** No printed value looks like the end of an array, so an opening bracket is never misread. */
  lemma FirstChar(v: Json)
    ensures PrintJson(v) != "" && PrintJson(v)[0] != ']' && PrintJson(v)[0] != '}'
  {
    if v.Int? {
      assert PrintInt(v.n)[0] == '-' || IsDigit(PrintInt(v.n)[0]);
    }
  }

  /** What follows the first item. */
  function AfterItem(items: seq<Json>, rest: string): string
    requires items != []
  {
    if |items| == 1 then "]" + rest else "," + (PrintItems(items[1..]) + "]" + rest)
  }

  lemma ItemText(items: seq<Json>, rest: string)
    requires items != []
    ensures PrintItems(items) + "]" + rest == PrintJson(items[0]) + AfterItem(items, rest)
  {
    hide PrintJson;
  }

  lemma {:induction false} ItemsReadBack(items: seq<Json>, rest: string)
    requires items != []
    ensures ReadItems(PrintItems(items) + "]" + rest) == Some((items, rest))
    decreases items, 1
  {
    hide ReadValue, PrintJson, PrintItems;
    var tail := AfterItem(items, rest);
    ItemText(items, rest);
    ReadsBack(items[0], tail);
    if |items| == 1 {
      assert tail[1..] == rest && [items[0]] == items;
    } else {
      assert tail[1..] == PrintItems(items[1..]) + "]" + rest;
      ItemsReadBack(items[1..], rest);
      assert [items[0]] + items[1..] == items;
    }
  }

  /** One member up to what follows it. */
  lemma {:induction false} MemberReadsBack(m: Member, tail: string)
    requires EndsNumber(tail)
    ensures var s := Quote(m.key) + ":" + PrintJson(m.value) + tail;
            && s != "" && s[0] == '"'
            && ReadChars(s[1..]) == Some((m.key, ":" + PrintJson(m.value) + tail))
            && ReadValue((":" + PrintJson(m.value) + tail)[1..]) == Some((m.value, tail))
    decreases m, 0
  {
    hide ReadChars, ReadValue, PrintJson, Escape;
    var s := Quote(m.key) + ":" + PrintJson(m.value) + tail;
    var after := ":" + PrintJson(m.value) + tail;
    CharsReadBack(m.key, after);
    assert s[1..] == Escape(m.key) + "\"" + after;
    ReadsBack(m.value, tail);
    assert after[1..] == PrintJson(m.value) + tail;
  }

  /** What follows the first member. */
  function AfterMember(members: seq<Member>, rest: string): string
    requires members != []
  {
    if |members| == 1 then "}" + rest else "," + (PrintMembers(members[1..]) + "}" + rest)
  }

  lemma MemberText(members: seq<Member>, rest: string)
    requires members != []
    ensures PrintMembers(members) + "}" + rest ==
            Quote(members[0].key) + ":" + PrintJson(members[0].value) + AfterMember(members, rest)
  {
    hide Quote, PrintJson;
  }

  lemma {:induction false} MembersReadBack(members: seq<Member>, rest: string)
    requires members != []
    ensures ReadMembers(PrintMembers(members) + "}" + rest) == Some((members, rest))
    decreases members, 1
  {
    hide ReadChars, ReadValue, Quote, PrintJson, PrintMembers;
    var s := PrintMembers(members) + "}" + rest;
    var m := members[0];
    var tail := AfterMember(members, rest);
    MemberText(members, rest);
    MemberReadsBack(m, tail);
    if |members| == 1 {
      assert tail[1..] == rest && [m] == members;
    } else {
      assert tail[1..] == PrintMembers(members[1..]) + "}" + rest;
      MembersReadBack(members[1..], rest);
      assert [m] + members[1..] == members;
    }
  }

  lemma ArrayReadsBack(items: seq<Json>, rest: string)
    requires items != [] ==> ReadItems(PrintItems(items) + "]" + rest) == Some((items, rest))
    ensures ReadValue(PrintJson(Arr(items)) + rest) == Some((Arr(items), rest))
  {
    hide ReadMembers, ReadInt, ReadChars, ReadItems;
    var s := PrintJson(Arr(items)) + rest;
    NotAWord(s);
    if items == [] {
      assert s[..2] == "[]" && s[2..] == rest;
    } else {
      FirstChar(items[0]);
      assert s[1..] == PrintItems(items) + "]" + rest;
      assert s[1] == PrintJson(items[0])[0];
      assert s[..2][1] == s[1];
    }
  }

  lemma ObjectReadsBack(members: seq<Member>, rest: string)
    requires members != [] ==> ReadMembers(PrintMembers(members) + "}" + rest) == Some((members, rest))
    ensures ReadValue(PrintJson(Obj(members)) + rest) == Some((Obj(members), rest))
  {
    hide ReadMembers, ReadInt, ReadChars, ReadItems;
    var s := PrintJson(Obj(members)) + rest;
    NotAWord(s);
    if members == [] {
      assert s[..2] == "{}" && s[2..] == rest;
    } else {
      assert s[1..] == PrintMembers(members) + "}" + rest;
      assert s[1] == '"';
      assert s[..2][1] == s[1];
    }
  }

  /** The reader undoes the printer, whatever text follows. */
  lemma {:induction false} ReadsBack(v: Json, rest: string)
    requires EndsNumber(rest)
    ensures ReadValue(PrintJson(v) + rest) == Some((v, rest))
    decreases v, 0
  {
    hide ReadValue;
    match v
    case Int(n) => NumberReadsBack(n, rest);
    case Str(t) => StringReadsBack(t, rest);
    case Arr(items) =>
      if items != [] {
        ItemsReadBack(items, rest);
      }
      ArrayReadsBack(items, rest);
    case Obj(members) =>
      if members != [] {
        MembersReadBack(members, rest);
      }
      ObjectReadsBack(members, rest);
    case _ => WordReadsBack(v, rest);
  }

  // ---------- the order is total, so sorting is canonical ----------

  lemma RankInjective(c: char, d: char)
    requires Rank(c) == Rank(d)
    ensures c == d
  {
    assert !(0xD800 <= c as int < 0xE000) && !(0xD800 <= d as int < 0xE000);
    assert c as int == d as int;
    assert c == (c as int) as char;
  }

  lemma {:induction false} KeyLessIrreflexive(a: string)
    ensures !KeyLess(a, a)
  {
    if a != "" {
      KeyLessIrreflexive(a[1..]);
    }
  }

  lemma {:induction false} KeyLessTotal(a: string, b: string)
    ensures KeyLess(a, b) || KeyLess(b, a) || a == b
    ensures !(KeyLess(a, b) && KeyLess(b, a)) && !KeyLess(a, a)
    decreases |a| + |b|
  {
    KeyLessIrreflexive(a);
    if a != "" && b != "" {
      if a[0] == b[0] {
        KeyLessTotal(a[1..], b[1..]);
        assert a == [a[0]] + a[1..] && b == [b[0]] + b[1..];
      } else if Rank(a[0]) == Rank(b[0]) {
        RankInjective(a[0], b[0]);
      }
    }
  }

  lemma {:induction false} KeyLessTransitive(a: string, b: string, c: string)
    requires KeyLess(a, b) && KeyLess(b, c)
    ensures KeyLess(a, c)
    decreases |a|
  {
    if a != "" && a[0] == b[0] && b[0] == c[0] {
      KeyLessTransitive(a[1..], b[1..], c[1..]);
    }
  }

  /** Where two characters differ, their ranks compare as their code units do. */
  lemma RankIsUnitOrder(c: char, d: char, x: seq<int>, y: seq<int>)
    requires c != d
    ensures UnitsLess(Units(c) + x, Units(d) + y) <==> Rank(c) < Rank(d)
  {
    assert !(0xD800 <= c as int < 0xE000) && !(0xD800 <= d as int < 0xE000);
    var a := Units(c) + x;
    var b := Units(d) + y;
    assert c as int != d as int by {
      assert c == (c as int) as char && d == (d as int) as char;
    }
    if c as int >= 0x1_0000 && d as int >= 0x1_0000 && a[0] == b[0] {
      assert a[1] == Units(c)[1] && b[1] == Units(d)[1];
      assert a[1..][0] == a[1] && b[1..][0] == b[1];
    }
  }

  lemma {:induction false} SamePrefixLess(p: seq<int>, x: seq<int>, y: seq<int>)
    ensures UnitsLess(p + x, p + y) <==> UnitsLess(x, y)
    decreases |p|
  {
    if p == [] {
      assert p + x == x && p + y == y;
    } else {
      assert (p + x)[1..] == p[1..] + x && (p + y)[1..] == p[1..] + y;
      SamePrefixLess(p[1..], x, y);
    }
  }

  /** The model's order is the order of the UTF-16 code units, in which JavaScript sorts keys. */
  lemma {:induction false} KeyLessIsUnitOrder(a: string, b: string)
    ensures KeyLess(a, b) <==> UnitsLess(UnitsOf(a), UnitsOf(b))
    decreases |a|
  {
    if a != "" && b != "" {
      if a[0] == b[0] {
        KeyLessIsUnitOrder(a[1..], b[1..]);
        SamePrefixLess(Units(a[0]), UnitsOf(a[1..]), UnitsOf(b[1..]));
      } else {
        RankIsUnitOrder(a[0], b[0], UnitsOf(a[1..]), UnitsOf(b[1..]));
      }
    }
  }

  predicate Distinct<T>(xs: seq<T>, key: T -> string) {
    forall i, j :: 0 <= i < j < |xs| ==> key(xs[i]) != key(xs[j])
  }

  predicate Sorted<T>(xs: seq<T>, key: T -> string) {
    forall i, j :: 0 <= i < j < |xs| ==> KeyLess(key(xs[i]), key(xs[j]))
  }

  lemma {:induction false} InsertMembers<T>(x: T, sorted: seq<T>, key: T -> string)
    ensures forall j :: 0 <= j < |Insert(x, sorted, key)| ==>
              Insert(x, sorted, key)[j] == x || Insert(x, sorted, key)[j] in sorted
    ensures x in Insert(x, sorted, key)
    ensures forall j :: 0 <= j < |sorted| ==> sorted[j] in Insert(x, sorted, key)
    decreases |sorted|
  {
    if sorted != [] && KeyLess(key(sorted[0]), key(x)) {
      InsertMembers(x, sorted[1..], key);
      var r := Insert(x, sorted[1..], key);
      assert Insert(x, sorted, key) == [sorted[0]] + r;
      forall j | 0 <= j < |sorted| ensures sorted[j] in [sorted[0]] + r {
        if j > 0 {
          assert sorted[1..][j - 1] in r;
        }
      }
      forall j | 0 <= j < |r| + 1 ensures ([sorted[0]] + r)[j] == x || ([sorted[0]] + r)[j] in sorted {
        if j > 0 {
          assert r[j - 1] == x || r[j - 1] in sorted[1..];
        }
      }
    }
  }

  lemma {:induction false} InsertSorts<T>(x: T, sorted: seq<T>, key: T -> string)
    requires Sorted(sorted, key) && forall j :: 0 <= j < |sorted| ==> key(sorted[j]) != key(x)
    ensures Sorted(Insert(x, sorted, key), key)
    decreases |sorted|
  {
    if sorted != [] {
      var head := sorted[0];
      KeyLessTotal(key(head), key(x));
      if KeyLess(key(head), key(x)) {
        InsertSorts(x, sorted[1..], key);
        InsertMembers(x, sorted[1..], key);
        var r := Insert(x, sorted[1..], key);
        forall j | 0 <= j < |r| ensures KeyLess(key(head), key(r[j])) {
          if r[j] != x {
            var i :| 0 <= i < |sorted[1..]| && sorted[1..][i] == r[j];
            assert KeyLess(key(sorted[0]), key(sorted[i + 1]));
          }
        }
      } else {
        forall j | 0 <= j < |sorted| ensures KeyLess(key(x), key(sorted[j])) {
          if j > 0 {
            KeyLessTransitive(key(x), key(head), key(sorted[j]));
          }
        }
      }
    }
  }

  lemma {:induction false} SortMember<T>(xs: seq<T>, key: T -> string, y: T)
    ensures y in Sort(xs, key) <==> y in xs
    decreases |xs|
  {
    if xs != [] {
      SortMember(xs[1..], key, y);
      InsertMembers(xs[0], Sort(xs[1..], key), key);
      assert xs == [xs[0]] + xs[1..];
    }
  }

  lemma {:induction false} SortSorts<T>(xs: seq<T>, key: T -> string)
    requires Distinct(xs, key)
    ensures Sorted(Sort(xs, key), key)
    decreases |xs|
  {
    if xs != [] {
      var rest := Sort(xs[1..], key);
      SortSorts(xs[1..], key);
      forall j | 0 <= j < |rest| ensures key(rest[j]) != key(xs[0]) {
        SortMember(xs[1..], key, rest[j]);
        var i :| 0 <= i < |xs[1..]| && xs[1..][i] == rest[j];
        assert xs[i + 1] == rest[j];
      }
      InsertSorts(xs[0], rest, key);
    }
  }

  /** Two sorted sequences with the same elements are the same sequence. */
  lemma {:induction false} SortedUnique<T>(a: seq<T>, b: seq<T>, key: T -> string)
    requires Sorted(a, key) && Sorted(b, key) && |a| == |b|
    requires forall y :: y in a <==> y in b
    ensures a == b
    decreases |a|
  {
    if a != [] {
      assert a[0] in a && a[0] in b;
      assert b[0] in b && b[0] in a;
      if a[0] != b[0] {
        KeyLessTotal(key(a[0]), key(b[0]));
      }
      assert a == [a[0]] + a[1..] && b == [b[0]] + b[1..];
      forall y ensures y in a[1..] <==> y in b[1..] {
        KeyLessTotal(key(a[0]), key(a[0]));
        assert y in a[1..] ==> y in a && y != a[0];
        assert y in b[1..] ==> y in b && y != b[0];
      }
      SortedUnique(a[1..], b[1..], key);
    }
  }

  // ---------- equality up to the order of members ----------

  /** No object names a member twice. */
  predicate WellFormed(v: Json) {
    match v
    case Arr(items) => forall i :: 0 <= i < |items| ==> WellFormed(items[i])
    case Obj(members) =>
      Distinct(members, MemberKey) && forall i :: 0 <= i < |members| ==> WellFormed(members[i].value)
    case _ => true
  }

  /** The same value, with the members of any object in any order. */
  predicate Same(v: Json, w: Json)
    decreases v, 0
  {
    match v
    case Arr(items) =>
      w.Arr? && |items| == |w.items| && forall i :: 0 <= i < |items| ==> Same(items[i], w.items[i])
    case Obj(members) => w.Obj? && |members| == |w.members| && AllFound(members, w.members)
    case _ => v == w
  }

  /** Every member of the first object is found in the second. */
  predicate AllFound(members: seq<Member>, others: seq<Member>)
    decreases members, 2
  {
    members == [] || (Found(members[0], others) && AllFound(members[1..], others))
  }

  /** Some member has the same name and the same value. */
  predicate Found(m: Member, others: seq<Member>)
    decreases m, 1, |others|
  {
    others != [] && ((m.key == others[0].key && Same(m.value, others[0].value)) || Found(m, others[1..]))
  }

  lemma NormDistinct(members: seq<Member>)
    requires Distinct(members, MemberKey)
    ensures Distinct(NormMembers(members), MemberKey)
  {
    var r := NormMembers(members);
    forall i, j | 0 <= i < j < |r| ensures MemberKey(r[i]) != MemberKey(r[j]) {
      assert MemberKey(members[i]) != MemberKey(members[j]);
    }
  }

  lemma {:induction false} SameMeansNorm(v: Json, w: Json)
    requires WellFormed(v) && WellFormed(w)
    ensures Same(v, w) <==> Norm(v) == Norm(w)
    decreases v
  {
    match v
    case Arr(items) =>
      if w.Arr? {
        forall i | 0 <= i < |items| && |items| == |w.items|
          ensures Same(items[i], w.items[i]) <==> Norm(items[i]) == Norm(w.items[i])
        {
          SameMeansNorm(items[i], w.items[i]);
        }
        ArraysSame(items, w.items);
      }
    case Obj(members) =>
      if w.Obj? {
        forall i, j | 0 <= i < |members| && 0 <= j < |w.members|
          ensures ComparedByNorm(members[i], w.members[j])
        {
          SameMeansNorm(members[i].value, w.members[j].value);
        }
        ObjectsSame(members, w.members);
      }
    case _ =>
  }

  lemma ArraysSame(a: seq<Json>, b: seq<Json>)
    requires |a| == |b| ==> forall i :: 0 <= i < |a| ==> (Same(a[i], b[i]) <==> Norm(a[i]) == Norm(b[i]))
    ensures Same(Arr(a), Arr(b)) <==> Norm(Arr(a)) == Norm(Arr(b))
  {
    if NormItems(a) == NormItems(b) {
      forall i | 0 <= i < |a| ensures Norm(a[i]) == Norm(b[i]) {
        assert NormItems(a)[i] == NormItems(b)[i];
      }
    }
  }

  predicate ComparedByNorm(m: Member, n: Member) {
    Same(m.value, n.value) <==> Norm(m.value) == Norm(n.value)
  }

  function NormMember(m: Member): Member {
    Member(m.key, Norm(m.value))
  }

  lemma {:induction false} FoundIsNorm(m: Member, others: seq<Member>)
    requires forall j :: 0 <= j < |others| ==> ComparedByNorm(m, others[j])
    ensures Found(m, others) <==> NormMember(m) in NormMembers(others)
    decreases |others|
  {
    if others != [] {
      assert ComparedByNorm(m, others[0]);
      hide Norm, Same;
      FoundIsNorm(m, others[1..]);
      assert NormMembers(others) == [NormMember(others[0])] + NormMembers(others[1..]);
    }
  }

  lemma {:induction false} AllFoundIsNorm(members: seq<Member>, others: seq<Member>)
    requires forall i, j :: 0 <= i < |members| && 0 <= j < |others| ==> ComparedByNorm(members[i], others[j])
    ensures AllFound(members, others) <==> forall m :: m in NormMembers(members) ==> m in NormMembers(others)
    decreases |members|
  {
    if members != [] {
      hide Norm, Same, ComparedByNorm, Found;
      FoundIsNorm(members[0], others);
      AllFoundIsNorm(members[1..], others);
      assert NormMembers(members) == [NormMember(members[0])] + NormMembers(members[1..]);
    }
  }

  lemma SortedSame(x: seq<Member>, y: seq<Member>)
    requires Distinct(x, MemberKey) && Distinct(y, MemberKey)
    ensures Sort(x, MemberKey) == Sort(y, MemberKey) <==> |x| == |y| && forall m :: m in x ==> m in y
  {
    SortLength(x, MemberKey);
    SortLength(y, MemberKey);
    SortSorts(x, MemberKey);
    SortSorts(y, MemberKey);
    hide Distinct, Sorted, Sort;
    forall m: Member
      ensures m in Sort(x, MemberKey) <==> m in x
      ensures m in Sort(y, MemberKey) <==> m in y
    {
      SortMember(x, MemberKey, m);
      SortMember(y, MemberKey, m);
    }
    if |x| == |y| && forall m :: m in x ==> m in y {
      SubsetOfSameSize(x, y);
      SortedUnique(Sort(x, MemberKey), Sort(y, MemberKey), MemberKey);
    }
  }

  lemma ObjectsSame(a: seq<Member>, b: seq<Member>)
    requires Distinct(a, MemberKey) && Distinct(b, MemberKey)
    requires forall i, j :: 0 <= i < |a| && 0 <= j < |b| ==> ComparedByNorm(a[i], b[j])
    ensures Same(Obj(a), Obj(b)) <==> Norm(Obj(a)) == Norm(Obj(b))
  {
    hide ComparedByNorm, Distinct;
    AllFoundIsNorm(a, b);
    NormDistinct(a);
    NormDistinct(b);
    SortedSame(NormMembers(a), NormMembers(b));
    assert Norm(Obj(a)) == Obj(Sort(NormMembers(a), MemberKey)) && Norm(Obj(b)) == Obj(Sort(NormMembers(b), MemberKey));
    assert Same(Obj(a), Obj(b)) <==> |a| == |b| && AllFound(a, b);
  }

  lemma DistinctIsSet(x: seq<Member>)
    requires Distinct(x, MemberKey)
    ensures |set m | m in x| == |x|
    decreases |x|
  {
    if x != [] {
      var rest := x[1..];
      assert x == [x[0]] + rest;
      assert Distinct(rest, MemberKey) by {
        forall i, j | 0 <= i < j < |rest| ensures MemberKey(rest[i]) != MemberKey(rest[j]) {
          assert MemberKey(x[i + 1]) != MemberKey(x[j + 1]);
        }
      }
      DistinctIsSet(rest);
      assert x[0] !in rest;
      assert (set m | m in x) == {x[0]} + (set m | m in rest);
    }
  }

  lemma SubsetOfSameSize(x: seq<Member>, y: seq<Member>)
    requires Distinct(x, MemberKey) && Distinct(y, MemberKey) && |x| == |y|
    requires forall m :: m in x ==> m in y
    ensures forall m :: m in x <==> m in y
  {
    DistinctIsSet(x);
    DistinctIsSet(y);
    var xs := set m | m in x;
    var ys := set m | m in y;
    assert xs <= ys;
    SetsOfSameSize(xs, ys);
    forall m ensures m in x <==> m in y {
      assert m in xs <==> m in ys;
    }
  }

  lemma {:induction false} SetsOfSameSize<T>(a: set<T>, b: set<T>)
    requires a <= b && |a| == |b|
    ensures a == b
  {
    if a != b {
      var x :| x in b && x !in a;
      assert a <= b - {x};
      SubsetSize(a, b - {x});
    }
  }

  lemma {:induction false} SubsetSize<T>(a: set<T>, b: set<T>)
    requires a <= b
    ensures |a| <= |b|
    decreases |a|
  {
    if a != {} {
      var x :| x in a;
      SubsetSize(a - {x}, b - {x});
    }
  }

  // ---------- the theorem ----------

  /**
   * canonicalize is injective up to the order of members, at any depth: two values print alike
   * if and only if they are the same value with their members permuted.
   */
  lemma CanonicalizeIsCanonical(v: Json, w: Json)
    requires WellFormed(v) && WellFormed(w)
    ensures Canonicalize(v) == Canonicalize(w) <==> Same(v, w)
  {
    CanonicalizeIsPrintNorm(v);
    CanonicalizeIsPrintNorm(w);
    SameMeansNorm(v, w);
    if PrintJson(Norm(v)) == PrintJson(Norm(w)) {
      ReadsBack(Norm(v), "");
      ReadsBack(Norm(w), "");
      assert PrintJson(Norm(v)) + "" == PrintJson(Norm(w)) + "";
    }
  }
}
