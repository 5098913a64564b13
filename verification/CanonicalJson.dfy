/** `canonicalJson` and the envelopes signed over its text (src/remote/crypto.ts).

    The text determines the value up to the order of object members and members that are undefined, so
    a signature over it fixes every field of an envelope except `signature`. */
module CanonicalJson {
  import opened Options
  import opened JsonText

  /** A JavaScript value built from JSON types. `Undefined` may also occur as an array element or a
      member value; `canonicalJson` gives it no text. */
  datatype Json =
    | Undefined
    | Null
    | Boolean(b: bool)
    | Num(n: int)
    | Str(s: Text)
    | Arr(items: seq<Json>)
    | Obj(members: seq<Member>)

  datatype Member = Member(key: Text, value: Json)

  const NULL_TEXT: Text := [0x6e, 0x75, 0x6c, 0x6c]
  const TRUE_TEXT: Text := [0x74, 0x72, 0x75, 0x65]
  const FALSE_TEXT: Text := [0x66, 0x61, 0x6c, 0x73, 0x65]

  // ---------------------------------------------------------------------------------------------
  // Key order: UTF-16 code units, as in section 3.2.3 of RFC 8785
  // ---------------------------------------------------------------------------------------------

  predicate Less(a: Text, b: Text) {
    b != [] && (a == [] || a[0] < b[0] || (a[0] == b[0] && Less(a[1..], b[1..])))
  }

  lemma {:induction false} LessTotal(a: Text, b: Text)
    ensures Less(a, b) || Less(b, a) || a == b
  {
    if a != [] && b != [] && a[0] == b[0] {
      LessTotal(a[1..], b[1..]);
      assert a == [a[0]] + a[1..] && b == [b[0]] + b[1..];
    }
  }

  lemma {:induction false} NotBothLess(a: Text, b: Text)
    ensures !(Less(a, b) && Less(b, a))
  {
    if a != [] && b != [] && a[0] == b[0] {
      NotBothLess(a[1..], b[1..]);
    }
  }

  lemma {:induction false} LessTransitive(a: Text, b: Text, c: Text)
    requires Less(a, b) && Less(b, c)
    ensures Less(a, c)
  {
    if a != [] && a[0] == b[0] == c[0] {
      LessTransitive(a[1..], b[1..], c[1..]);
    }
  }

  // ---------------------------------------------------------------------------------------------
  // Filtering and sorting the members of an object
  // ---------------------------------------------------------------------------------------------

  function Defined(ms: seq<Member>): (r: seq<Member>)
    ensures forall m :: m in r <==> m in ms && m.value != Undefined
  {
    if ms == [] then []
    else
      assert ms == [ms[0]] + ms[1..];
      (if ms[0].value.Undefined? then [] else [ms[0]]) + Defined(ms[1..])
  }

  function Inserted(m: Member, ms: seq<Member>): (r: seq<Member>)
    ensures forall x :: x in r <==> x == m || x in ms
  {
    if ms == [] then [m]
    else
      assert ms == [ms[0]] + ms[1..];
      if Less(ms[0].key, m.key) then [ms[0]] + Inserted(m, ms[1..]) else [m] + ms
  }

  function SortedByKey(ms: seq<Member>): (r: seq<Member>)
    ensures forall x :: x in r <==> x in ms
  {
    if ms == [] then []
    else
      assert ms == [ms[0]] + ms[1..];
      Inserted(ms[0], SortedByKey(ms[1..]))
  }

  function Entries(ms: seq<Member>): (r: seq<Member>)
    ensures forall x :: x in r <==> x in ms && x.value != Undefined
  {
    SortedByKey(Defined(ms))
  }

  // ---------------------------------------------------------------------------------------------
  // The printer
  // ---------------------------------------------------------------------------------------------

  /** `parts.join(",")`. */
  function Join(parts: seq<Text>): Text {
    if parts == [] then []
    else if |parts| == 1 then parts[0]
    else parts[0] + ([COMMA] + Join(parts[1..]))
  }

  function Canonical(v: Json): Text {
    match v
    case Undefined => []
    case Null => NULL_TEXT
    case Boolean(b) => if b then TRUE_TEXT else FALSE_TEXT
    case Num(n) => Number(n)
    case Str(s) => Quoted(s)
    case Arr(items) =>
      [OPEN_BRACKET]
      + (Join(seq(|items|, i requires 0 <= i < |items| => Canonical(items[i])))
      + [CLOSE_BRACKET])
    case Obj(members) =>
      var entries := Entries(members);
      [OPEN_BRACE]
      + (Join(seq(|entries|, i requires 0 <= i < |entries| =>
                Quoted(entries[i].key) + ([COLON] + Canonical(entries[i].value))))
      + [CLOSE_BRACE])
  }

  /** The value with undefined members dropped, members sorted, recursively. An array whose only element
      is undefined prints like the empty array, and is the only array to collapse. */
  function Normal(v: Json): Json {
    match v
    case Arr(items) =>
      if items == [Undefined] then Arr([])
      else Arr(seq(|items|, i requires 0 <= i < |items| => Normal(items[i])))
    case Obj(members) =>
      var entries := Entries(members);
      Obj(seq(|entries|, i requires 0 <= i < |entries| => Member(entries[i].key, Normal(entries[i].value))))
    case _ => v
  }

  // ---------------------------------------------------------------------------------------------
  // A reader
  // ---------------------------------------------------------------------------------------------

  predicate IsStop(u: CodeUnit) { u == COMMA || u == CLOSE_BRACKET || u == CLOSE_BRACE }

  predicate Stops(t: Text) { t == [] || IsStop(t[0]) }

  function ReadLiteral(t: Text): (r: Option<Read<Json>>)
    ensures r.Some? ==> |r.value.rest| < |t|
  {
    if NULL_TEXT <= t then Some(Read(Null, t[4..]))
    else if TRUE_TEXT <= t then Some(Read(Boolean(true), t[4..]))
    else if FALSE_TEXT <= t then Some(Read(Boolean(false), t[5..]))
    else None
  }

  /** Reads one value from the front of a text; no text at all is `Undefined`. */
  function ReadValue(t: Text): (r: Option<Read<Json>>)
    ensures r.Some? ==> |r.value.rest| <= |t|
    decreases |t|, 0
  {
    if Stops(t) then Some(Read(Undefined, t))
    else if t[0] == QUOTE then
      var r := ReadString(t[1..]);
      if r.None? then None else Some(Read(Str(r.value.value), r.value.rest))
    else if t[0] == OPEN_BRACKET then
      if |t| >= 2 && t[1] == CLOSE_BRACKET then Some(Read(Arr([]), t[2..]))
      else
        var r := ReadItems(t[1..]);
        if r.None? then None else Some(Read(Arr(r.value.value), r.value.rest))
    else if t[0] == OPEN_BRACE then
      if |t| >= 2 && t[1] == CLOSE_BRACE then Some(Read(Obj([]), t[2..]))
      else
        var r := ReadMembers(t[1..]);
        if r.None? then None else Some(Read(Obj(r.value.value), r.value.rest))
    else if IsDigit(t[0]) || t[0] == MINUS then
      var r := ReadNumber(t);
      if r.None? then None else Some(Read(Num(r.value.value), r.value.rest))
    else ReadLiteral(t)
  }

  /** The items of an array that has at least one, with the closing bracket. */
  function ReadItems(t: Text): (r: Option<Read<seq<Json>>>)
    ensures r.Some? ==> |r.value.rest| <= |t|
    decreases |t|, 1
  {
    var x := ReadValue(t);
    if x.None? || x.value.rest == [] then None
    else if x.value.rest[0] == CLOSE_BRACKET then Some(Read([x.value.value], x.value.rest[1..]))
    else if x.value.rest[0] == COMMA then
      var more := ReadItems(x.value.rest[1..]);
      if more.None? then None else Some(Read([x.value.value] + more.value.value, more.value.rest))
    else None
  }

  function ReadMember(t: Text): (r: Option<Read<Member>>)
    ensures r.Some? ==> |r.value.rest| < |t|
    decreases |t|, 1
  {
    if t == [] || t[0] != QUOTE then None
    else
      var k := ReadString(t[1..]);
      if k.None? || k.value.rest == [] || k.value.rest[0] != COLON then None
      else
        var x := ReadValue(k.value.rest[1..]);
        if x.None? then None else Some(Read(Member(k.value.value, x.value.value), x.value.rest))
  }

  /** The members of an object that has at least one, with the closing brace. */
  function ReadMembers(t: Text): (r: Option<Read<seq<Member>>>)
    ensures r.Some? ==> |r.value.rest| <= |t|
    decreases |t|, 2
  {
    var m := ReadMember(t);
    if m.None? || m.value.rest == [] then None
    else if m.value.rest[0] == CLOSE_BRACE then Some(Read([m.value.value], m.value.rest[1..]))
    else if m.value.rest[0] == COMMA then
      var more := ReadMembers(m.value.rest[1..]);
      if more.None? then None else Some(Read([m.value.value] + more.value.value, more.value.rest))
    else None
  }

  // ---------------------------------------------------------------------------------------------
  // Reading inverts printing
  // ---------------------------------------------------------------------------------------------

  ghost function ItemTexts(items: seq<Json>): (r: seq<Text>)
    ensures |r| == |items|
  {
    seq(|items|, i requires 0 <= i < |items| => Canonical(items[i]))
  }

  ghost function MemberText(m: Member): Text {
    Quoted(m.key) + ([COLON] + Canonical(m.value))
  }

  ghost function MemberTexts(entries: seq<Member>): (r: seq<Text>)
    ensures |r| == |entries|
  {
    seq(|entries|, i requires 0 <= i < |entries| => MemberText(entries[i]))
  }

  ghost function NormalItems(items: seq<Json>): (r: seq<Json>)
    ensures |r| == |items|
  {
    seq(|items|, i requires 0 <= i < |items| => Normal(items[i]))
  }

  ghost function NormalMembers(entries: seq<Member>): (r: seq<Member>)
    ensures |r| == |entries|
  {
    seq(|entries|, i requires 0 <= i < |entries| => Member(entries[i].key, Normal(entries[i].value)))
  }

  lemma CanonicalArr(items: seq<Json>)
    ensures Canonical(Arr(items)) == [OPEN_BRACKET] + (Join(ItemTexts(items)) + [CLOSE_BRACKET])
    ensures items != [Undefined] ==> Normal(Arr(items)) == Arr(NormalItems(items))
  {
    assert seq(|items|, i requires 0 <= i < |items| => Canonical(items[i])) == ItemTexts(items);
    assert seq(|items|, i requires 0 <= i < |items| => Normal(items[i])) == NormalItems(items);
  }

  lemma CanonicalObj(members: seq<Member>)
    ensures Canonical(Obj(members)) == [OPEN_BRACE] + (Join(MemberTexts(Entries(members))) + [CLOSE_BRACE])
    ensures Normal(Obj(members)) == Obj(NormalMembers(Entries(members)))
  {
    var entries := Entries(members);
    assert seq(|entries|, i requires 0 <= i < |entries| =>
                 Quoted(entries[i].key) + ([COLON] + Canonical(entries[i].value))) == MemberTexts(entries);
    assert seq(|entries|, i requires 0 <= i < |entries| => Member(entries[i].key, Normal(entries[i].value)))
           == NormalMembers(entries);
  }

  /** A defined value has text, and it starts like a value. */
  lemma FirstUnit(v: Json)
    ensures v != Undefined ==> Canonical(v) != [] && !IsStop(Canonical(v)[0])
  {
    match v
    case Num(n) =>
      assert n >= 0 ==> IsDigit(Digits(n)[0]);
    case Arr(items) => CanonicalArr(items);
    case Obj(members) => CanonicalObj(members);
    case _ =>
  }

  lemma ReadsStr(s: Text, rest: Text)
    ensures ReadValue(Quoted(s) + rest) == Some(Read(Str(s), rest))
  {
    StringRoundTrip(s, rest);
    var t := Quoted(s) + rest;
    assert t[1..] == Escaped(s) + ([QUOTE] + rest);
    assert t[0] == QUOTE;
  }

  lemma ReadsNum(n: int, rest: Text)
    requires Stops(rest)
    ensures ReadValue(Number(n) + rest) == Some(Read(Num(n), rest))
  {
    NumberRoundTrip(n, rest);
    var t := Number(n) + rest;
    assert n >= 0 ==> t[0] == Digits(n)[0];
    assert n < 0 ==> t[0] == MINUS;
    hide ReadNumber, Number;
  }

  lemma ReadsLiteral(v: Json, rest: Text)
    requires v.Null? || v.Boolean?
    ensures ReadValue(Canonical(v) + rest) == Some(Read(v, rest))
  {
    var t := Canonical(v) + rest;
    assert t[0] == Canonical(v)[0];
    assert t[|Canonical(v)|..] == rest;
    match v
    case Null => assert NULL_TEXT <= t;
    case Boolean(b) =>
      if b {
        assert TRUE_TEXT <= t;
        assert t[0] != NULL_TEXT[0];
      } else {
        assert FALSE_TEXT <= t;
        assert t[0] != NULL_TEXT[0] && t[0] != TRUE_TEXT[0];
      }
  }

  lemma JoinStep(parts: seq<Text>, i: nat, tail: Text)
    requires i < |parts|
    ensures Join(parts[i..]) + tail ==
              if i + 1 == |parts| then parts[i] + tail
              else parts[i] + ([COMMA] + (Join(parts[i + 1..]) + tail))
  {
    assert parts[i..][1..] == parts[i + 1..];
    if i + 1 < |parts| {
      var more := Join(parts[i + 1..]);
      assert Join(parts[i..]) == parts[i] + ([COMMA] + more);
      hide Join;
      Assoc(parts[i], [COMMA] + more, tail);
      Assoc([COMMA], more, tail);
    }
  }

  lemma NormalItemsFirst(items: seq<Json>, i: nat)
    requires i < |items|
    ensures NormalItems(items)[i..] == [Normal(items[i])] + NormalItems(items)[i + 1..]
  {
  }

  lemma ItemsStep(items: seq<Json>, i: nat, rest: Text)
    requires i < |items|
    requires var after := if i + 1 == |items| then [CLOSE_BRACKET] + rest
                          else [COMMA] + (Join(ItemTexts(items)[i + 1..]) + ([CLOSE_BRACKET] + rest));
             ReadValue(Canonical(items[i]) + after) == Some(Read(Normal(items[i]), after))
    requires i + 1 < |items| ==>
               ReadItems(Join(ItemTexts(items)[i + 1..]) + ([CLOSE_BRACKET] + rest))
               == Some(Read(NormalItems(items)[i + 1..], rest))
    ensures ReadItems(Join(ItemTexts(items)[i..]) + ([CLOSE_BRACKET] + rest))
         == Some(Read(NormalItems(items)[i..], rest))
  {
    hide Canonical, Normal, ReadValue, Join;
    NormalItemsFirst(items, i);
    var texts, tail := ItemTexts(items), [CLOSE_BRACKET] + rest;
    JoinStep(texts, i, tail);
    assert texts[i] == Canonical(items[i]);
    assert tail[1..] == rest;
    if i + 1 == |items| {
      assert [Normal(items[i])] + NormalItems(items)[i + 1..] == [Normal(items[i])];
    } else {
      var after := Join(texts[i + 1..]) + tail;
      assert ([COMMA] + after)[1..] == after;
    }
  }

  /** Reading what is left of an array from item `i` on. */
  lemma {:induction false} ItemsRoundTrip(v: Json, i: nat, rest: Text)
    requires v.Arr? && i < |v.items|
    ensures ReadItems(Join(ItemTexts(v.items)[i..]) + ([CLOSE_BRACKET] + rest))
         == Some(Read(NormalItems(v.items)[i..], rest))
    decreases v, 0, |v.items| - i
  {
    hide Canonical, Normal, ReadValue, ReadItems, Join, ItemTexts, NormalItems;
    if i + 1 == |v.items| {
      RoundTrip(v.items[i], [CLOSE_BRACKET] + rest);
    } else {
      RoundTrip(v.items[i], [COMMA] + (Join(ItemTexts(v.items)[i + 1..]) + ([CLOSE_BRACKET] + rest)));
      ItemsRoundTrip(v, i + 1, rest);
    }
    ItemsStep(v.items, i, rest);
  }

  lemma MemberRoundTrip(m: Member, rest: Text)
    requires ReadValue(Canonical(m.value) + rest) == Some(Read(Normal(m.value), rest))
    ensures ReadMember(MemberText(m) + rest) == Some(Read(Member(m.key, Normal(m.value)), rest))
  {
    hide Canonical, Normal, ReadValue;
    var body := [COLON] + (Canonical(m.value) + rest);
    MemberTextIs(m, rest);
    QuotedBody(m.key, body);
    StringRoundTrip(m.key, body);
    hide Escaped, ReadString, MemberText, Quoted;
    assert body[0] == COLON && body[1..] == Canonical(m.value) + rest;
  }

  lemma MemberTextIs(m: Member, rest: Text)
    ensures MemberText(m) + rest == Quoted(m.key) + ([COLON] + (Canonical(m.value) + rest))
  {
    hide Canonical, Quoted;
    Assoc(Quoted(m.key), [COLON] + Canonical(m.value), rest);
    Assoc([COLON], Canonical(m.value), rest);
  }

  lemma QuotedBody(key: Text, body: Text)
    ensures var t := Quoted(key) + body;
            t != [] && t[0] == QUOTE && t[1..] == Escaped(key) + ([QUOTE] + body)
  {
    hide Escaped;
  }

  lemma NormalMembersFirst(entries: seq<Member>, i: nat)
    requires i < |entries|
    ensures NormalMembers(entries)[i..] ==
            [Member(entries[i].key, Normal(entries[i].value))] + NormalMembers(entries)[i + 1..]
    ensures i + 1 == |entries| ==> NormalMembers(entries)[i..] == [Member(entries[i].key, Normal(entries[i].value))]
  {
    hide Normal;
  }

  /** One entry in front of the rest of an object. */
  lemma MembersStep(entries: seq<Member>, i: nat, rest: Text)
    requires i < |entries|
    requires var after := if i + 1 == |entries| then [CLOSE_BRACE] + rest
                          else [COMMA] + (Join(MemberTexts(entries)[i + 1..]) + ([CLOSE_BRACE] + rest));
             ReadValue(Canonical(entries[i].value) + after) == Some(Read(Normal(entries[i].value), after))
    requires i + 1 < |entries| ==>
               ReadMembers(Join(MemberTexts(entries)[i + 1..]) + ([CLOSE_BRACE] + rest))
               == Some(Read(NormalMembers(entries)[i + 1..], rest))
    ensures ReadMembers(Join(MemberTexts(entries)[i..]) + ([CLOSE_BRACE] + rest))
         == Some(Read(NormalMembers(entries)[i..], rest))
  {
    hide Canonical, Normal, ReadValue, ReadMember, Join, MemberText;
    NormalMembersFirst(entries, i);
    var texts, tail := MemberTexts(entries), [CLOSE_BRACE] + rest;
    JoinStep(texts, i, tail);
    assert texts[i] == MemberText(entries[i]);
    assert tail[1..] == rest;
    if i + 1 == |entries| {
      MemberRoundTrip(entries[i], tail);
    } else {
      var after := Join(texts[i + 1..]) + tail;
      MemberRoundTrip(entries[i], [COMMA] + after);
      assert ([COMMA] + after)[1..] == after;
    }
  }

  /** Reading what is left of an object from entry `i` on. */
  lemma {:induction false} MembersRoundTrip(v: Json, i: nat, rest: Text)
    requires v.Obj? && i < |Entries(v.members)|
    ensures ReadMembers(Join(MemberTexts(Entries(v.members))[i..]) + ([CLOSE_BRACE] + rest))
         == Some(Read(NormalMembers(Entries(v.members))[i..], rest))
    decreases v, 0, |Entries(v.members)| - i
  {
    hide Canonical, Normal, ReadValue, ReadMembers, Join, MemberText;
    var entries := Entries(v.members);
    assert entries[i] in v.members;
    if i + 1 == |entries| {
      RoundTrip(entries[i].value, [CLOSE_BRACE] + rest);
    } else {
      RoundTrip(entries[i].value, [COMMA] + (Join(MemberTexts(entries)[i + 1..]) + ([CLOSE_BRACE] + rest)));
      MembersRoundTrip(v, i + 1, rest);
    }
    MembersStep(entries, i, rest);
  }

  lemma ArrRoundTrip(v: Json, rest: Text)
    requires v.Arr?
    requires v.items != [] ==>
               ReadItems(Join(ItemTexts(v.items)) + ([CLOSE_BRACKET] + rest)) == Some(Read(NormalItems(v.items), rest))
    ensures ReadValue(Canonical(v) + rest) == Some(Read(Normal(v), rest))
  {
    CanonicalArr(v.items);
    var body := Join(ItemTexts(v.items));
    var t := Canonical(v) + rest;
    Assoc([OPEN_BRACKET], body + [CLOSE_BRACKET], rest);
    Assoc(body, [CLOSE_BRACKET], rest);
    assert t == [OPEN_BRACKET] + (body + ([CLOSE_BRACKET] + rest));
    assert t[1..] == body + ([CLOSE_BRACKET] + rest);
    if v.items == [] || v.items == [Undefined] {
      assert body == [];
      assert t[1] == CLOSE_BRACKET && t[2..] == rest;
      assert v.items == [] ==> NormalItems(v.items) == [];
    } else {
      BodyStartsLikeAnItem(v.items);
      assert t[1] == body[0];
    }
  }

  lemma BodyStartsLikeAnItem(items: seq<Json>)
    requires items != [] && items != [Undefined]
    ensures Join(ItemTexts(items)) != [] && Join(ItemTexts(items))[0] != CLOSE_BRACKET
  {
    var texts := ItemTexts(items);
    assert texts[0] == Canonical(items[0]);
    FirstUnit(items[0]);
    if |items| == 1 {
      assert items == [items[0]];
    }
  }

  lemma ObjRoundTrip(v: Json, rest: Text)
    requires v.Obj?
    requires Entries(v.members) != [] ==>
               ReadMembers(Join(MemberTexts(Entries(v.members))) + ([CLOSE_BRACE] + rest))
               == Some(Read(NormalMembers(Entries(v.members)), rest))
    ensures ReadValue(Canonical(v) + rest) == Some(Read(Normal(v), rest))
  {
    CanonicalObj(v.members);
    var entries := Entries(v.members);
    var body := Join(MemberTexts(entries));
    var t := Canonical(v) + rest;
    Assoc([OPEN_BRACE], body + [CLOSE_BRACE], rest);
    Assoc(body, [CLOSE_BRACE], rest);
    assert t == [OPEN_BRACE] + (body + ([CLOSE_BRACE] + rest));
    assert t[1..] == body + ([CLOSE_BRACE] + rest);
    if entries == [] {
      assert body == [];
      assert t[1] == CLOSE_BRACE && t[2..] == rest;
      assert NormalMembers(entries) == [];
    } else {
      assert MemberTexts(entries)[0][0] == QUOTE;
      assert body[0] == QUOTE;
      assert t[1] == body[0];
    }
  }

  /** Reading the canonical text of a value, with anything that can follow a value behind it, gives the
      value's normal form and leaves exactly what was behind it. */
  lemma {:induction false} RoundTrip(v: Json, rest: Text)
    requires Stops(rest)
    ensures ReadValue(Canonical(v) + rest) == Some(Read(Normal(v), rest))
    decreases v, 1, 0
  {
    match v
    case Undefined => assert Canonical(v) + rest == rest;
    case Num(n) => ReadsNum(n, rest);
    case Str(s) => ReadsStr(s, rest);
    case Arr(items) =>
      if items != [] {
        ItemsRoundTrip(v, 0, rest);
        assert ItemTexts(items)[0..] == ItemTexts(items) && NormalItems(items)[0..] == NormalItems(items);
      }
      ArrRoundTrip(v, rest);
    case Obj(members) =>
      var entries := Entries(members);
      if entries != [] {
        MembersRoundTrip(v, 0, rest);
        assert MemberTexts(entries)[0..] == MemberTexts(entries) && NormalMembers(entries)[0..] == NormalMembers(entries);
      }
      ObjRoundTrip(v, rest);
    case _ => ReadsLiteral(v, rest);
  }

  /** The whole text of a value reads back to its normal form, with nothing left over. */
  lemma ReadingInvertsPrinting(v: Json)
    ensures ReadValue(Canonical(v)) == Some(Read(Normal(v), []))
  {
    RoundTrip(v, []);
    assert Canonical(v) + [] == Canonical(v);
  }

  // ---------------------------------------------------------------------------------------------
  // Equal texts, equal normal forms
  // ---------------------------------------------------------------------------------------------

  lemma {:induction false} NormalDeterminesText(a: Json, b: Json)
    requires Normal(a) == Normal(b)
    ensures Canonical(a) == Canonical(b)
    decreases a
  {
    match a
    case Arr(items) =>
      ArrTexts(items);
      ArrTexts(b.items);
      if items != [Undefined] && b.items != [Undefined] && items != [] {
        CanonicalArr(items);
        CanonicalArr(b.items);
        forall i | 0 <= i < |items| ensures Canonical(items[i]) == Canonical(b.items[i]) {
          assert NormalItems(items)[i] == NormalItems(b.items)[i];
          NormalDeterminesText(items[i], b.items[i]);
        }
        assert ItemTexts(items) == ItemTexts(b.items);
      }
    case Obj(members) =>
      var x, y := Entries(members), Entries(b.members);
      CanonicalObj(members);
      CanonicalObj(b.members);
      forall i | 0 <= i < |x| ensures MemberText(x[i]) == MemberText(y[i]) {
        assert NormalMembers(x)[i] == NormalMembers(y)[i];
        assert x[i] in members;
        NormalDeterminesText(x[i].value, y[i].value);
      }
      assert MemberTexts(x) == MemberTexts(y);
    case _ =>
  }

  lemma ArrTexts(items: seq<Json>)
    ensures items == [] || items == [Undefined] ==> Canonical(Arr(items)) == [OPEN_BRACKET, CLOSE_BRACKET]
    ensures Normal(Arr(items)) == Arr([]) <==> items == [] || items == [Undefined]
  {
    CanonicalArr(items);
    if items == [] {
      assert ItemTexts(items) == [] && NormalItems(items) == [];
    } else if items == [Undefined] {
      assert ItemTexts(items) == [[]];
    } else {
      assert |NormalItems(items)| == |items|;
    }
  }

  /** Two values have the same text exactly when they have the same normal form. */
  lemma TextDeterminesNormal(a: Json, b: Json)
    ensures Canonical(a) == Canonical(b) <==> Normal(a) == Normal(b)
  {
    if Canonical(a) == Canonical(b) {
      ReadingInvertsPrinting(a);
      ReadingInvertsPrinting(b);
    } else if Normal(a) == Normal(b) {
      NormalDeterminesText(a, b);
    }
  }

  // ---------------------------------------------------------------------------------------------
  // The same value, up to member order and undefined members
  // ---------------------------------------------------------------------------------------------

  ghost predicate DistinctKeys(ms: seq<Member>) {
    forall i, j :: 0 <= i < j < |ms| ==> ms[i].key != ms[j].key
  }

  /** Every object has each key once, as JavaScript objects do. */
  ghost predicate WellFormed(v: Json) {
    match v
    case Arr(items) => forall x :: x in items ==> WellFormed(x)
    case Obj(members) => DistinctKeys(members) && forall m :: m in members ==> WellFormed(m.value)
    case _ => true
  }

  ghost predicate HasKey(ms: seq<Member>, k: Text) {
    exists m :: m in ms && m.key == k
  }

  ghost function Lookup(ms: seq<Member>, k: Text): (v: Json)
    requires HasKey(ms, k)
    ensures Member(k, v) in ms
  {
    var m :| m in ms && m.key == k;
    m.value
  }

  /** Equality of JSON values: objects are compared as finite maps in which an undefined member counts
      as absent. The arrays [] and [undefined] are identified. */
  ghost predicate Same(a: Json, b: Json)
    decreases a
  {
    match a
    case Arr(items) =>
      && b.Arr?
      && ((|items| == |b.items| && forall i :: 0 <= i < |items| ==> Same(items[i], b.items[i]))
          || ((items == [] || items == [Undefined]) && (b.items == [] || b.items == [Undefined])))
    case Obj(members) =>
      && b.Obj?
      && (forall m :: m in members ==>
            if HasKey(b.members, m.key) then Same(m.value, Lookup(b.members, m.key)) else m.value == Undefined)
      && (forall m :: m in b.members && !HasKey(members, m.key) ==> m.value == Undefined)
    case _ => a == b
  }

  lemma KeyUnique(ms: seq<Member>, x: Member, y: Member)
    requires DistinctKeys(ms) && x in ms && y in ms && x.key == y.key
    ensures x == y
  {
    var i :| 0 <= i < |ms| && ms[i] == x;
    var j :| 0 <= j < |ms| && ms[j] == y;
  }

  lemma DifferentKeys(ms: seq<Member>, x: Member, y: Member)
    requires DistinctKeys(ms) && x in ms && y in ms && x != y
    ensures x.key != y.key
  {
    var i :| 0 <= i < |ms| && ms[i] == x;
    var j :| 0 <= j < |ms| && ms[j] == y;
  }

  lemma LookupIs(ms: seq<Member>, m: Member)
    requires DistinctKeys(ms) && m in ms
    ensures HasKey(ms, m.key) && Lookup(ms, m.key) == m.value
  {
    KeyUnique(ms, m, Member(m.key, Lookup(ms, m.key)));
  }

  ghost predicate StrictlySorted(ms: seq<Member>) {
    forall i, j :: 0 <= i < j < |ms| ==> Less(ms[i].key, ms[j].key)
  }

  lemma {:induction false} InsertedSorted(m: Member, ms: seq<Member>)
    requires StrictlySorted(ms) && !HasKey(ms, m.key)
    ensures StrictlySorted(Inserted(m, ms))
  {
    if ms != [] {
      assert ms[0] in ms;
      if Less(ms[0].key, m.key) {
        assert forall x :: x in ms[1..] ==> x in ms;
        InsertedSorted(m, ms[1..]);
        var tail := Inserted(m, ms[1..]);
        forall j | 0 <= j < |tail| ensures Less(ms[0].key, tail[j].key) {
          assert tail[j] in tail;
          if tail[j] != m {
            var k :| 0 <= k < |ms[1..]| && ms[1..][k] == tail[j];
            assert ms[k + 1] == tail[j];
          }
        }
      } else {
        LessTotal(ms[0].key, m.key);
        forall j | 0 <= j < |ms| ensures Less(m.key, ms[j].key) {
          if j > 0 {
            LessTransitive(m.key, ms[0].key, ms[j].key);
          }
        }
      }
    }
  }

  lemma {:induction false} SortedByKeySorted(ms: seq<Member>)
    requires DistinctKeys(ms)
    ensures StrictlySorted(SortedByKey(ms))
  {
    if ms != [] {
      SortedByKeySorted(ms[1..]);
      forall m | m in SortedByKey(ms[1..]) ensures m.key != ms[0].key {
        var k :| 0 <= k < |ms[1..]| && ms[1..][k] == m;
        assert ms[k + 1] == m;
      }
      InsertedSorted(ms[0], SortedByKey(ms[1..]));
    }
  }

  lemma {:induction false} DefinedDistinct(ms: seq<Member>)
    requires DistinctKeys(ms)
    ensures DistinctKeys(Defined(ms))
  {
    if ms != [] {
      DefinedDistinct(ms[1..]);
      var tail := Defined(ms[1..]);
      forall j | 0 <= j < |tail| ensures tail[j].key != ms[0].key {
        assert tail[j] in tail;
        var k :| 0 <= k < |ms[1..]| && ms[1..][k] == tail[j];
        assert ms[k + 1] == tail[j];
      }
    }
  }

  /** The entries `canonicalJson` prints are in strictly increasing key order. */
  lemma EntriesSorted(ms: seq<Member>)
    requires DistinctKeys(ms)
    ensures StrictlySorted(Entries(ms))
  {
    DefinedDistinct(ms);
    SortedByKeySorted(Defined(ms));
  }

  lemma {:induction false} SortedUnique(x: seq<Member>, y: seq<Member>)
    requires StrictlySorted(x) && StrictlySorted(y)
    requires forall m :: m in x <==> m in y
    ensures x == y
    decreases |x|
  {
    assert y != [] ==> y[0] in y;
    if x != [] {
      assert x[0] in x;
      SameFirst(x, y);
      SameRest(x, y);
      SortedUnique(x[1..], y[1..]);
      assert x == [x[0]] + x[1..] && y == [y[0]] + y[1..];
    }
  }

  lemma SameFirst(x: seq<Member>, y: seq<Member>)
    requires StrictlySorted(x) && StrictlySorted(y) && x != [] && y != []
    requires x[0] in y && y[0] in x
    ensures x[0] == y[0]
  {
    var i :| 0 <= i < |y| && y[i] == x[0];
    var j :| 0 <= j < |x| && x[j] == y[0];
    if x[0] != y[0] {
      NotBothLess(x[0].key, y[0].key);
    }
  }

  lemma SameRest(x: seq<Member>, y: seq<Member>)
    requires StrictlySorted(x) && StrictlySorted(y) && x != [] && y != [] && x[0] == y[0]
    requires forall m :: m in x <==> m in y
    ensures forall m :: m in x[1..] <==> m in y[1..]
  {
    RestMembers(x);
    RestMembers(y);
  }

  lemma RestMembers(x: seq<Member>)
    requires StrictlySorted(x) && x != []
    ensures forall m :: m in x[1..] <==> m in x && m != x[0]
  {
    forall m ensures m in x[1..] <==> m in x && m != x[0] {
      if m in x[1..] {
        var k :| 0 <= k < |x[1..]| && x[1..][k] == m;
        NotBothLess(x[0].key, x[k + 1].key);
        assert x[k + 1] == m;
      }
      assert x == [x[0]] + x[1..];
    }
  }

  // ---------------------------------------------------------------------------------------------
  // Same values, same normal forms
  // ---------------------------------------------------------------------------------------------

  ghost function Normalized(m: Member): Member { Member(m.key, Normal(m.value)) }

  lemma NormalMembersAre(ms: seq<Member>)
    requires DistinctKeys(ms)
    ensures StrictlySorted(NormalMembers(Entries(ms)))
    ensures forall m :: m in ms && m.value != Undefined ==> Normalized(m) in NormalMembers(Entries(ms))
    ensures forall n :: n in NormalMembers(Entries(ms)) ==>
              exists m :: m in ms && m.value != Undefined && Normalized(m) == n
  {
    hide Normal;
    EntriesSorted(ms);
    var e := Entries(ms);
    forall m | m in ms && m.value != Undefined ensures Normalized(m) in NormalMembers(e) {
      assert m in e;
      var i :| 0 <= i < |e| && e[i] == m;
      assert NormalMembers(e)[i] == Normalized(m);
    }
    forall n | n in NormalMembers(e) ensures exists m :: m in ms && m.value != Undefined && Normalized(m) == n {
      var i :| 0 <= i < |e| && NormalMembers(e)[i] == n;
      assert e[i] in e && Normalized(e[i]) == n;
    }
  }

  lemma NormalUndefined(v: Json)
    ensures Normal(v) == Undefined <==> v == Undefined
  {
  }

  /** If members agree as maps, so do their normalized entries. */
  lemma AgreeingMembers(x: seq<Member>, y: seq<Member>)
    requires DistinctKeys(x) && DistinctKeys(y)
    requires forall m :: m in x && m.value != Undefined ==>
               HasKey(y, m.key) && Lookup(y, m.key) != Undefined && Normal(Lookup(y, m.key)) == Normal(m.value)
    requires forall m :: m in y && m.value != Undefined ==> HasKey(x, m.key) && Lookup(x, m.key) != Undefined
    ensures NormalMembers(Entries(x)) == NormalMembers(Entries(y))
  {
    hide Normal;
    NormalMembersAre(x);
    NormalMembersAre(y);
    var nx, ny := NormalMembers(Entries(x)), NormalMembers(Entries(y));
    hide NormalMembers, Entries;
    forall n | n in nx ensures n in ny {
      var m :| m in x && m.value != Undefined && Normalized(m) == n;
      var w := Member(m.key, Lookup(y, m.key));
      assert w in y && Normalized(w) == n;
    }
    forall n | n in ny ensures n in nx {
      var m :| m in y && m.value != Undefined && Normalized(m) == n;
      var w := Member(m.key, Lookup(x, m.key));
      assert w in x;
      LookupIs(y, m);
      assert Normalized(w) == n;
    }
    SortedUnique(nx, ny);
  }

  /** ... and conversely. */
  lemma AgreeingEntries(x: seq<Member>, y: seq<Member>, m: Member)
    requires DistinctKeys(x) && DistinctKeys(y)
    requires NormalMembers(Entries(x)) == NormalMembers(Entries(y))
    requires m in x
    ensures if HasKey(y, m.key) then Normal(m.value) == Normal(Lookup(y, m.key)) else m.value == Undefined
  {
    hide Normal;
    NormalMembersAre(x);
    NormalMembersAre(y);
    hide NormalMembers, Entries;
    if m.value != Undefined {
      var w :| w in y && w.value != Undefined && Normalized(w) == Normalized(m);
      LookupIs(y, w);
    } else {
      forall w | w in y && w.value != Undefined ensures w.key != m.key {
        var v :| v in x && v.value != Undefined && Normalized(v) == Normalized(w);
        DifferentKeys(x, v, m);
      }
      assert HasKey(y, m.key) ==> Member(m.key, Lookup(y, m.key)) in y;
    }
  }

  lemma {:induction false} SameIsNormal(a: Json, b: Json)
    requires WellFormed(a) && WellFormed(b)
    ensures Same(a, b) <==> Normal(a) == Normal(b)
    decreases a
  {
    if a.Arr? && b.Arr? {
      forall i | 0 <= i < |a.items| == |b.items|
        ensures Same(a.items[i], b.items[i]) <==> Normal(a.items[i]) == Normal(b.items[i])
      {
        SameIsNormal(a.items[i], b.items[i]);
      }
      SameArrays(a, b);
    } else if a.Obj? && b.Obj? {
      forall m | m in a.members && HasKey(b.members, m.key)
        ensures Same(m.value, Lookup(b.members, m.key)) <==> Normal(m.value) == Normal(Lookup(b.members, m.key))
      {
        SameIsNormal(m.value, Lookup(b.members, m.key));
      }
      SameObjects(a, b);
    }
  }

  lemma SameArrays(a: Json, b: Json)
    requires a.Arr? && b.Arr?
    requires forall i :: 0 <= i < |a.items| == |b.items| ==>
               (Same(a.items[i], b.items[i]) <==> Normal(a.items[i]) == Normal(b.items[i]))
    ensures Same(a, b) <==> Normal(a) == Normal(b)
  {
    ArrTexts(a.items);
    ArrTexts(b.items);
    if Normal(a) != Arr([]) && Normal(b) != Arr([]) {
      CanonicalArr(a.items);
      CanonicalArr(b.items);
      if Normal(a) == Normal(b) {
        assert forall i :: 0 <= i < |a.items| ==> NormalItems(a.items)[i] == NormalItems(b.items)[i];
      }
      assert Same(a, b) ==> NormalItems(a.items) == NormalItems(b.items);
    }
  }

  lemma SameObjects(a: Json, b: Json)
    requires a.Obj? && b.Obj? && WellFormed(a) && WellFormed(b)
    requires forall m :: m in a.members && HasKey(b.members, m.key) ==>
               (Same(m.value, Lookup(b.members, m.key)) <==> Normal(m.value) == Normal(Lookup(b.members, m.key)))
    ensures Same(a, b) <==> Normal(a) == Normal(b)
  {
    var x, y := a.members, b.members;
    CanonicalObj(x);
    CanonicalObj(y);
    if Same(a, b) {
      forall m | m in x && m.value != Undefined
        ensures HasKey(y, m.key) && Lookup(y, m.key) != Undefined && Normal(Lookup(y, m.key)) == Normal(m.value)
      {
        NormalUndefined(m.value);
        NormalUndefined(Lookup(y, m.key));
      }
      forall m | m in y && m.value != Undefined ensures HasKey(x, m.key) && Lookup(x, m.key) != Undefined {
        LookupIs(y, m);
        var w := Member(m.key, Lookup(x, m.key));
        assert w in x;
        NormalUndefined(w.value);
        NormalUndefined(m.value);
      }
      AgreeingMembers(x, y);
    }
    if Normal(a) == Normal(b) {
      forall m | m in x
        ensures if HasKey(y, m.key) then Same(m.value, Lookup(y, m.key)) else m.value == Undefined
      {
        AgreeingEntries(x, y, m);
      }
      forall m | m in y && !HasKey(x, m.key) ensures m.value == Undefined {
        AgreeingEntries(y, x, m);
      }
    }
  }

  /** Two values have the same canonical text exactly when they are the same value up to member order
      and undefined members. */
  lemma CanonicalIsInjective(a: Json, b: Json)
    requires WellFormed(a) && WellFormed(b)
    ensures Canonical(a) == Canonical(b) <==> Same(a, b)
  {
    TextDeterminesNormal(a, b);
    SameIsNormal(a, b);
  }

  /** The one collapse beyond undefined members: an array holding nothing but `undefined`. */
  lemma UndefinedItemCollapses()
    ensures Canonical(Arr([Undefined])) == Canonical(Arr([]))
    ensures Canonical(Arr([Undefined, Undefined])) != Canonical(Arr([]))
  {
    ArrTexts([Undefined]);
    ArrTexts([]);
    ArrTexts([Undefined, Undefined]);
    TextDeterminesNormal(Arr([Undefined, Undefined]), Arr([]));
  }

  // ---------------------------------------------------------------------------------------------
  // Envelopes
  // ---------------------------------------------------------------------------------------------

  /** The key "signature". */
  const SIGNATURE_KEY: Text := [0x73, 0x69, 0x67, 0x6e, 0x61, 0x74, 0x75, 0x72, 0x65]

  /** An ideal signature binds a key and a text. */
  datatype Signature = Signature(key: nat, text: Text)

  function Unsigned(ms: seq<Member>): (r: seq<Member>)
    ensures forall m :: m in r <==> m in ms && m.key != SIGNATURE_KEY
  {
    if ms == [] then []
    else
      assert ms == [ms[0]] + ms[1..];
      (if ms[0].key == SIGNATURE_KEY then [] else [ms[0]]) + Unsigned(ms[1..])
  }

  function SignEnvelope(ms: seq<Member>, key: nat): Signature {
    Signature(key, Canonical(Obj(Unsigned(ms))))
  }

  predicate VerifyEnvelope(ms: seq<Member>, key: nat, signature: Signature) {
    signature == Signature(key, Canonical(Obj(Unsigned(ms))))
  }

  lemma {:induction false} UnsignedDistinct(ms: seq<Member>)
    requires DistinctKeys(ms)
    ensures DistinctKeys(Unsigned(ms))
  {
    if ms != [] {
      UnsignedDistinct(ms[1..]);
      var tail := Unsigned(ms[1..]);
      forall j | 0 <= j < |tail| ensures tail[j].key != ms[0].key {
        assert tail[j] in tail;
        var k :| 0 <= k < |ms[1..]| && ms[1..][k] == tail[j];
        assert ms[k + 1] == tail[j];
      }
    }
  }

  /** A signature verifies for two envelopes under two keys exactly when the keys are equal and the
      envelopes agree on every field but `signature`. */
  lemma SignatureFixesFields(x: seq<Member>, y: seq<Member>, kx: nat, ky: nat, signature: Signature)
    requires WellFormed(Obj(x)) && WellFormed(Obj(y))
    requires VerifyEnvelope(x, kx, signature)
    ensures VerifyEnvelope(y, ky, signature) <==> kx == ky && Same(Obj(Unsigned(x)), Obj(Unsigned(y)))
  {
    UnsignedDistinct(x);
    UnsignedDistinct(y);
    CanonicalIsInjective(Obj(Unsigned(x)), Obj(Unsigned(y)));
  }

  /** Filling in the signature field does not disturb what was signed. */
  lemma SignedEnvelopeVerifies(ms: seq<Member>, key: nat, field: Json)
    ensures VerifyEnvelope(ms + [Member(SIGNATURE_KEY, field)], key, SignEnvelope(ms, key))
  {
    UnsignedAppend(ms, Member(SIGNATURE_KEY, field));
  }

  lemma {:induction false} UnsignedAppend(ms: seq<Member>, m: Member)
    requires m.key == SIGNATURE_KEY
    ensures Unsigned(ms + [m]) == Unsigned(ms)
  {
    if ms == [] {
      assert ms + [m] == [m];
    } else {
      UnsignedAppend(ms[1..], m);
      assert (ms + [m])[1..] == ms[1..] + [m];
    }
  }
}
