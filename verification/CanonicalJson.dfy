/**
  * The canonical printer of the surface manifest. Its output is hashed as a compatibility token, so it has
  * to be injective, up to absent strings printing as empty ones, and independent of member order.
  *
  * Texts are sequences of UTF-16 code units, as in the source.
  */
module CanonicalJson {
  import opened Options

  type CodeUnit = u: nat | u < 0x10000
  type Text = seq<CodeUnit>

  datatype Entry = Entry(
    typ: Option<Text>, member: Option<Text>, kind: Option<Text>, signature: Option<Text>, isStatic: bool)

  datatype Header = Header(mvid: Option<Text>, build: Option<Text>)

  function Unit(c: char): CodeUnit {
    if c as int < 0x10000 then c as int else 0
  }

  /** A literal of the printer, as code units. */
  function Lit(s: string): (t: Text)
    ensures |t| == |s| && forall i :: 0 <= i < |s| ==> t[i] == Unit(s[i])
  {
    seq(|s|, i requires 0 <= i < |s| => Unit(s[i]))
  }

  // ----- Strings

  function HexDigit(n: nat): CodeUnit
    requires n < 16
  {
    if n < 10 then 48 + n else 87 + n
  }

  function Escape(u: CodeUnit): (t: Text)
    ensures t != []
  {
    if u == 34 then [92, 34]
    else if u == 92 then [92, 92]
    else if u == 8 then [92, 98]
    else if u == 12 then [92, 102]
    else if u == 10 then [92, 110]
    else if u == 13 then [92, 114]
    else if u == 9 then [92, 116]
    else if u < 32 then [92, 117, 48, 48, HexDigit(u / 16), HexDigit(u % 16)]
    else [u]
  }

  /** The seven units that have an escape of two characters. */
  predicate HasShort(u: CodeUnit) {
    u == 34 || u == 92 || u == 8 || u == 12 || u == 10 || u == 13 || u == 9
  }

  /** Nothing is escaped that need not be, and what is takes its shortest form. */
  lemma EscapeIsShortest(u: CodeUnit)
    ensures |Escape(u)| == (if HasShort(u) then 2 else if u < 32 then 6 else 1)
    ensures |Escape(u)| > 1 ==> Escape(u)[0] == 92
  {
  }

  function Body(s: Text): Text {
    if s == [] then [] else Escape(s[0]) + Body(s[1..])
  }

  function OrEmpty(s: Option<Text>): Text {
    if s.None? then [] else s.value
  }

  /** A quoted string; an absent one prints as the empty string. */
  function Str(s: Option<Text>): Text {
    [34] + Body(OrEmpty(s)) + [34]
  }

  function HexValue(u: CodeUnit): Option<nat> {
    if 48 <= u <= 57 then Some(u - 48) else if 97 <= u <= 102 then Some(u - 87) else None
  }

  /** Read one escape sequence after its backslash, per section 7 of RFC 8259, restricted to what is printed. */
  function Unescape(t: Text): Option<(CodeUnit, Text)> {
    if t == [] then None
    else if t[0] == 34 || t[0] == 92 then Some((t[0], t[1..]))
    else if t[0] == 98 then Some((8, t[1..]))
    else if t[0] == 102 then Some((12, t[1..]))
    else if t[0] == 110 then Some((10, t[1..]))
    else if t[0] == 114 then Some((13, t[1..]))
    else if t[0] == 116 then Some((9, t[1..]))
    else if t[0] == 117 && |t| >= 5 && t[1] == 48 && t[2] == 48 && HexValue(t[3]).Some? && HexValue(t[4]).Some?
    then Some((16 * HexValue(t[3]).value + HexValue(t[4]).value, t[5..]))
    else None
  }

  /** The inverse of the printer on the inside of a string: the text up to the closing quote, and what follows. */
  function ReadBody(t: Text): (r: Option<(Text, Text)>)
    decreases |t|
  {
    if t == [] then None
    else if t[0] == 34 then Some(([], t[1..]))
    else if t[0] == 92 then
      var e := Unescape(t[1..]);
      if e.None? || |e.value.1| >= |t| then None
      else
        var rest := ReadBody(e.value.1);
        if rest.None? then None else Some(([e.value.0] + rest.value.0, rest.value.1))
    else
      var rest := ReadBody(t[1..]);
      if rest.None? then None else Some(([t[0]] + rest.value.0, rest.value.1))
  }

  function Read(t: Text): Option<(Text, Text)> {
    if t == [] || t[0] != 34 then None else ReadBody(t[1..])
  }

  lemma UnescapeInverts(u: CodeUnit, x: Text)
    ensures
      var t := Escape(u);
      if t[0] == 92 then Unescape((t + x)[1..]) == Some((u, x)) else t == [u] && u != 34
  {
    var t := Escape(u);
    if t[0] == 92 {
      assert (t + x)[1..] == t[1..] + x;
      if |t| == 6 {
        assert (t[1..] + x)[5..] == x;
        assert 16 * (u / 16) + u % 16 == u;
      } else {
        assert (t[1..] + x)[1..] == x;
      }
    }
  }

  lemma {:induction false} ReadBodyInverts(s: Text, x: Text)
    ensures ReadBody(Body(s) + [34] + x) == Some((s, x))
  {
    hide Escape, Unescape;
    if s == [] {
      assert Body(s) + [34] + x == [34] + x;
      assert ([34] + x)[1..] == x;
    } else {
      var rest := Body(s[1..]) + [34] + x;
      var all := Body(s) + [34] + x;
      assert all == Escape(s[0]) + rest;
      UnescapeInverts(s[0], rest);
      ReadBodyInverts(s[1..], x);
      assert s == [s[0]] + s[1..];
      if Escape(s[0])[0] != 92 { assert all[1..] == rest; }
    }
  }

  /** Round trip: what is printed reads back, whatever text follows it. */
  lemma StringRoundTrip(s: Option<Text>, x: Text)
    ensures Read(Str(s) + x) == Some((OrEmpty(s), x))
  {
    hide ReadBody, Body;
    ReadBodyInverts(OrEmpty(s), x);
    assert (Str(s) + x)[1..] == Body(OrEmpty(s)) + [34] + x;
  }

  /** Printed strings are self-delimiting, so a concatenation after one splits in only one way. */
  lemma StringSplits(a: Option<Text>, b: Option<Text>, x: Text, y: Text)
    requires Str(a) + x == Str(b) + y
    ensures OrEmpty(a) == OrEmpty(b) && x == y
  {
    hide Str, Read;
    StringRoundTrip(a, x);
    StringRoundTrip(b, y);
  }

  // ----- Documents

  /** What one append to the output adds: a mark, a line break and indent, a quoted string or a truth value. */
  datatype Piece = M(mark: char) | Gap(newline: bool, spaces: nat) | S(value: Option<Text>) | B(flag: bool)

  function Pad(n: nat): (t: Text)
    ensures |t| == n && forall i :: 0 <= i < n ==> t[i] == 32
  {
    if n == 0 then [] else [32] + Pad(n - 1)
  }

  function Render(p: Piece): Text {
    match p
    case M(c) => [Unit(c)]
    case Gap(newline, n) => (if newline then [10] else []) + Pad(n)
    case S(v) => Str(v)
    case B(b) => if b then Lit("true") else Lit("false")
  }

  /** Some pieces, printed one after the other, with `rest` behind them. */
  function Flat(ps: seq<Piece>, rest: Text): Text {
    if ps == [] then rest else Render(ps[0]) + Flat(ps[1..], rest)
  }

  /** A key of the document; none needs escaping. */
  function Name(key: string): Piece {
    S(Some(Lit(key)))
  }

  const COLON := M(':')
  const COMMA := M(',')
  const SPACE := Gap(false, 1)

  function RowPieces(m: Entry): seq<Piece> {
    [Gap(false, 4), M('{'),
     Gap(true, 6), Name("kind"), COLON, SPACE, S(m.kind), COMMA,
     Gap(true, 6), Name("member"), COLON, SPACE, S(m.member), COMMA,
     Gap(true, 6), Name("signature"), COLON, SPACE, S(m.signature), COMMA,
     Gap(true, 6), Name("static"), COLON, SPACE, B(m.isStatic), COMMA,
     Gap(true, 6), Name("type"), COLON, SPACE, S(m.typ),
     Gap(true, 4), M('}')]
  }

  const TOOL_STAMP := "Sailwind.ApiGen/0.1.0"

  function HeaderPieces(h: Header): seq<Piece> {
    [M('{'),
     Gap(true, 2), Name("header"), COLON, SPACE, M('{'),
     Gap(true, 4), Name("assemblyMvid"), COLON, SPACE, S(h.mvid), COMMA,
     Gap(true, 4), Name("gameBuildId"), COLON, SPACE, S(h.build), COMMA,
     Gap(true, 4), Name("tool"), COLON, SPACE, S(Some(Lit(TOOL_STAMP))),
     Gap(true, 2), M('}'), COMMA,
     Gap(true, 2), Name("members"), COLON, SPACE, M('[')]
  }

  function EndPieces(indent: nat): seq<Piece> {
    [Gap(false, indent), M(']'), Gap(true, 0), M('}'), Gap(true, 0)]
  }

  function Separator(last: bool): Text {
    if last then [10] else [44, 10]
  }

  function Rows(ms: seq<Entry>, rest: Text): Text
    requires ms != []
  {
    Flat(RowPieces(ms[0]), Separator(|ms| == 1) + if |ms| == 1 then rest else Rows(ms[1..], rest))
  }

  /** What follows the opening bracket of the member list. */
  function Members(ms: seq<Entry>): Text {
    if ms == [] then Flat(EndPieces(0), []) else [10] + Rows(ms, Flat(EndPieces(2), []))
  }

  /** The document for members already in printing order. */
  function Print(h: Header, ms: seq<Entry>): Text {
    Flat(HeaderPieces(h), Members(ms))
  }

  lemma StripPrefix(p: Text, x: Text, y: Text)
    requires p + x == p + y
    ensures x == y
  {
    assert (p + x)[|p|..] == x;
    assert (p + y)[|p|..] == y;
  }

  ghost predicate SameShape(ps: seq<Piece>, qs: seq<Piece>) {
    |ps| == |qs| && forall i :: 0 <= i < |ps| ==> ((ps[i].M? || ps[i].Gap?) && ps[i] == qs[i]) || (ps[i].S? && qs[i].S?) || (ps[i].B? && qs[i].B?)
  }

  ghost predicate Alike(ps: seq<Piece>, qs: seq<Piece>) {
    |ps| == |qs| && forall i :: 0 <= i < |ps| ==> if ps[i].S? && qs[i].S? then OrEmpty(ps[i].value) == OrEmpty(qs[i].value) else ps[i] == qs[i]
  }

  lemma BoolSplits(a: bool, b: bool, x: Text, y: Text)
    requires Render(B(a)) + x == Render(B(b)) + y
    ensures a == b && x == y
  {
    assert (Render(B(a)) + x)[0] == Render(B(a))[0];
    assert (Render(B(b)) + y)[0] == Render(B(b))[0];
    assert Lit("true")[0] == 116 && Lit("false")[0] == 102;
    StripPrefix(Render(B(a)), x, y);
  }

  /** Two printings of the same shape agree piece by piece, and on what follows. */
  lemma {:induction false} FlatSplits(ps: seq<Piece>, qs: seq<Piece>, x: Text, y: Text)
    requires SameShape(ps, qs) && Flat(ps, x) == Flat(qs, y)
    ensures Alike(ps, qs) && x == y
    decreases |ps|
  {
    hide Str, Read;
    if ps != [] {
      var x1, y1 := Flat(ps[1..], x), Flat(qs[1..], y);
      match ps[0] {
        case M(c) => StripPrefix(Render(ps[0]), x1, y1);
        case Gap(newline, n) => StripPrefix(Render(ps[0]), x1, y1);
        case S(v) => StringSplits(v, qs[0].value, x1, y1);
        case B(b) => BoolSplits(b, qs[0].flag, x1, y1);
      }
      FlatSplits(ps[1..], qs[1..], x, y);
      assert forall i :: 1 <= i < |ps| ==> ps[i] == ps[1..][i - 1] && qs[i] == qs[1..][i - 1];
    }
  }

  /** Entries that print alike: absent strings count as empty. */
  function Normal(m: Entry): Entry {
    Entry(Some(OrEmpty(m.typ)), Some(OrEmpty(m.member)), Some(OrEmpty(m.kind)), Some(OrEmpty(m.signature)), m.isStatic)
  }

  function NormalAll(ms: seq<Entry>): seq<Entry> {
    if ms == [] then [] else [Normal(ms[0])] + NormalAll(ms[1..])
  }

  lemma RowSplits(a: Entry, b: Entry, x: Text, y: Text)
    requires Flat(RowPieces(a), x) == Flat(RowPieces(b), y)
    ensures Normal(a) == Normal(b) && x == y
  {
    hide Flat;
    var ps, qs := RowPieces(a), RowPieces(b);
    FlatSplits(ps, qs, x, y);
    assert ps[6] == S(a.kind) && qs[6] == S(b.kind) && ps[12] == S(a.member) && qs[12] == S(b.member);
    assert ps[18] == S(a.signature) && qs[18] == S(b.signature) && ps[24] == B(a.isStatic) && qs[24] == B(b.isStatic);
    assert ps[30] == S(a.typ) && qs[30] == S(b.typ);
  }

  lemma SeparatorSplits(a: bool, b: bool, x: Text, y: Text)
    requires Separator(a) + x == Separator(b) + y
    ensures a == b && x == y
  {
    assert (Separator(a) + x)[0] == Separator(a)[0];
    assert (Separator(b) + y)[0] == Separator(b)[0];
    StripPrefix(Separator(a), x, y);
  }

  lemma {:induction false} RowsSplit(a: seq<Entry>, b: seq<Entry>, x: Text, y: Text)
    requires a != [] && b != [] && Rows(a, x) == Rows(b, y)
    ensures NormalAll(a) == NormalAll(b)
    decreases |a|
  {
    hide Flat, RowPieces, Separator, Normal;
    var x1 := if |a| == 1 then x else Rows(a[1..], x);
    var y1 := if |b| == 1 then y else Rows(b[1..], y);
    RowSplits(a[0], b[0], Separator(|a| == 1) + x1, Separator(|b| == 1) + y1);
    SeparatorSplits(|a| == 1, |b| == 1, x1, y1);
    if |a| > 1 { RowsSplit(a[1..], b[1..], x, y); }
  }

  lemma MembersSplit(a: seq<Entry>, b: seq<Entry>)
    requires Members(a) == Members(b)
    ensures NormalAll(a) == NormalAll(b)
  {
    hide Rows;
    EndMark();
    if a != [] && b != [] {
      StripPrefix([10], Rows(a, Flat(EndPieces(2), [])), Rows(b, Flat(EndPieces(2), [])));
      RowsSplit(a, b, Flat(EndPieces(2), []), Flat(EndPieces(2), []));
    }
  }

  /** An empty member list is closed at once. */
  lemma EndMark()
    ensures |Flat(EndPieces(0), [])| > 0 && Flat(EndPieces(0), [])[0] == 93
  {
    var ps := EndPieces(0);
    assert ps[1..][0] == M(']');
    assert Render(ps[0]) == [];
  }

  /** Injectivity: equal output means equal headers and equal member lists, absent strings counting as empty. */
  lemma PrintIsInjective(h: Header, k: Header, a: seq<Entry>, b: seq<Entry>)
    requires Print(h, a) == Print(k, b)
    ensures OrEmpty(h.mvid) == OrEmpty(k.mvid) && OrEmpty(h.build) == OrEmpty(k.build)
    ensures NormalAll(a) == NormalAll(b)
  {
    hide Flat, Members;
    var ps, qs := HeaderPieces(h), HeaderPieces(k);
    FlatSplits(ps, qs, Members(a), Members(b));
    assert ps[10] == S(h.mvid) && qs[10] == S(k.mvid) && ps[16] == S(h.build) && qs[16] == S(k.build);
    MembersSplit(a, b);
  }

  // ----- Order

  /** Ordinal comparison of code units. */
  predicate TextLe(a: Text, b: Text) {
    if a == [] then true
    else if b == [] then false
    else if a[0] != b[0] then a[0] < b[0]
    else TextLe(a[1..], b[1..])
  }

  /** An absent string sorts before every present one. */
  predicate Le(a: Option<Text>, b: Option<Text>) {
    a.None? || (b.Some? && TextLe(a.value, b.value))
  }

  function Keys(m: Entry): seq<Option<Text>> {
    [m.typ, m.member, m.kind, m.signature]
  }

  predicate KeysLe(a: seq<Option<Text>>, b: seq<Option<Text>>)
    requires |a| == |b|
  {
    if a == [] then true
    else if a[0] != b[0] then Le(a[0], b[0])
    else KeysLe(a[1..], b[1..])
  }

  predicate EntryLe(a: Entry, b: Entry) {
    KeysLe(Keys(a), Keys(b))
  }

  lemma {:induction false} TextLeOrder(a: Text, b: Text, c: Text)
    ensures TextLe(a, b) || TextLe(b, a)
    ensures TextLe(a, b) && TextLe(b, a) ==> a == b
    ensures TextLe(a, b) && TextLe(b, c) ==> TextLe(a, c)
  {
    if a != [] && b != [] {
      TextLeOrder(a[1..], b[1..], if c == [] then [] else c[1..]);
      assert a == [a[0]] + a[1..] && b == [b[0]] + b[1..];
    }
  }

  /** The first unit in which two texts differ decides, and a text comes before its extensions. */
  lemma {:induction false} TextLeIff(a: Text, b: Text)
    ensures TextLe(a, b) <==> a <= b || exists k :: 0 <= k < |a| && k < |b| && a[..k] == b[..k] && a[k] < b[k]
  {
    if a != [] && b != [] {
      if a[0] != b[0] {
        assert a[..0] == b[..0];
      } else {
        TextLeIff(a[1..], b[1..]);
        assert a <= b <==> a[1..] <= b[1..];
        if exists k :: 0 <= k < |a| && k < |b| && a[..k] == b[..k] && a[k] < b[k] {
          var k :| 0 <= k < |a| && k < |b| && a[..k] == b[..k] && a[k] < b[k];
          assert a[1..][..k - 1] == a[..k][1..] && b[1..][..k - 1] == b[..k][1..];
          assert a[1..][k - 1] < b[1..][k - 1];
        }
        if exists k :: 0 <= k < |a[1..]| && k < |b[1..]| && a[1..][..k] == b[1..][..k] && a[1..][k] < b[1..][k] {
          var k :| 0 <= k < |a[1..]| && k < |b[1..]| && a[1..][..k] == b[1..][..k] && a[1..][k] < b[1..][k];
          assert a[..k + 1] == [a[0]] + a[1..][..k] && b[..k + 1] == [b[0]] + b[1..][..k];
          assert a[k + 1] < b[k + 1];
        }
      }
    }
  }

  /** Members are ordered by type, then member, then kind, then signature, an absent one before all others. */
  lemma EntryLeIff(a: Entry, b: Entry)
    ensures EntryLe(a, b) <==>
            if a.typ != b.typ then Earlier(a.typ, b.typ)
            else if a.member != b.member then Earlier(a.member, b.member)
            else if a.kind != b.kind then Earlier(a.kind, b.kind)
            else a.signature == b.signature || Earlier(a.signature, b.signature)
  {
    hide TextLe;
    var x, y := Keys(a), Keys(b);
    assert x[1..][1..] == [a.kind, a.signature] && y[1..][1..] == [b.kind, b.signature];
    assert x[1..][1..][1..] == [a.signature] && y[1..][1..][1..] == [b.signature];
    assert [a.signature][1..] == [] && [b.signature][1..] == [];
    assert KeysLe([a.signature], [b.signature]) <==> a.signature == b.signature || Earlier(a.signature, b.signature);
    assert KeysLe(x[1..][1..], y[1..][1..]) <==>
           if a.kind != b.kind then Earlier(a.kind, b.kind) else KeysLe([a.signature], [b.signature]);
    assert x[1..][0] == a.member && y[1..][0] == b.member;
    assert KeysLe(x[1..], y[1..]) <==>
           if a.member != b.member then Earlier(a.member, b.member) else KeysLe(x[1..][1..], y[1..][1..]);
  }

  predicate Earlier(a: Option<Text>, b: Option<Text>) {
    b.Some? && (a.Some? ==> TextLe(a.value, b.value))
  }

  lemma LeOrder(a: Option<Text>, b: Option<Text>, c: Option<Text>)
    ensures Le(a, b) || Le(b, a)
    ensures Le(a, b) && Le(b, a) ==> a == b
    ensures Le(a, b) && Le(b, c) ==> Le(a, c)
  {
    TextLeOrder(OrEmpty(a), OrEmpty(b), OrEmpty(c));
  }

  /** The comparison is a total order on the four sort keys. */
  lemma {:induction false} KeysLeOrder(a: seq<Option<Text>>, b: seq<Option<Text>>, c: seq<Option<Text>>)
    requires |a| == |b| == |c|
    ensures KeysLe(a, b) || KeysLe(b, a)
    ensures KeysLe(a, b) && KeysLe(b, a) ==> a == b
    ensures KeysLe(a, b) && KeysLe(b, c) ==> KeysLe(a, c)
  {
    hide Le;
    if a != [] {
      LeOrder(a[0], b[0], c[0]);
      LeOrder(b[0], c[0], a[0]);
      LeOrder(c[0], a[0], b[0]);
      KeysLeOrder(a[1..], b[1..], c[1..]);
      assert a == [a[0]] + a[1..] && b == [b[0]] + b[1..];
    }
  }

  ghost predicate InOrder(ms: seq<Entry>) {
    forall i, j :: 0 <= i < j < |ms| ==> EntryLe(ms[i], ms[j])
  }

  /** What sorting a copy may return: the library promises no order among equal keys. */
  ghost predicate IsSortOf(out: seq<Entry>, ms: seq<Entry>) {
    InOrder(out) && multiset(out) == multiset(ms)
  }

  /** Entries with equal sort keys agree on the one field that is not a key. */
  ghost predicate TiesAgree(ms: seq<Entry>) {
    forall i, j :: 0 <= i < |ms| && 0 <= j < |ms| && Keys(ms[i]) == Keys(ms[j]) ==> ms[i].isStatic == ms[j].isStatic
  }

  lemma SameKeysSameEntry(a: Entry, b: Entry)
    requires Keys(a) == Keys(b) && a.isStatic == b.isStatic
    ensures a == b
  {
    assert Keys(a)[0] == a.typ && Keys(a)[1] == a.member && Keys(a)[2] == a.kind && Keys(a)[3] == a.signature;
    assert Keys(b)[0] == b.typ && Keys(b)[1] == b.member && Keys(b)[2] == b.kind && Keys(b)[3] == b.signature;
  }

  lemma HeadIsLeast(ms: seq<Entry>, e: Entry)
    requires InOrder(ms) && e in multiset(ms)
    ensures ms != [] && EntryLe(ms[0], e)
  {
    assert e in ms;
    var i :| 0 <= i < |ms| && ms[i] == e;
    KeysLeOrder(Keys(ms[0]), Keys(ms[0]), Keys(ms[0]));
  }

  ghost predicate TiesIdentical(ms: multiset<Entry>) {
    forall a, b :: a in ms && b in ms && Keys(a) == Keys(b) ==> a == b
  }

  lemma TailInOrder(a: seq<Entry>)
    requires InOrder(a) && a != []
    ensures InOrder(a[1..]) && multiset(a[1..]) == multiset(a) - multiset{a[0]} && a[0] in multiset(a)
    ensures a == [a[0]] + a[1..]
  {
    hide EntryLe;
    assert a == [a[0]] + a[1..];
  }

  lemma FewerTies(ms: multiset<Entry>, e: Entry)
    requires TiesIdentical(ms)
    ensures TiesIdentical(ms - multiset{e})
  {
    assert forall x :: x in ms - multiset{e} ==> x in ms;
  }

  /** If equal keys mean equal entries, there is only one way to sort. */
  lemma {:induction false} SortIsUnique(a: seq<Entry>, b: seq<Entry>)
    requires InOrder(a) && InOrder(b) && multiset(a) == multiset(b) && TiesIdentical(multiset(a))
    ensures a == b
    decreases |a|
  {
    hide EntryLe, Keys, InOrder;
    assert |multiset(a)| == |a| && |multiset(b)| == |b|;
    if a != [] {
      TailInOrder(a);
      TailInOrder(b);
      HeadIsLeast(a, b[0]);
      HeadIsLeast(b, a[0]);
      AntiSymmetric(a[0], b[0]);
      FewerTies(multiset(a), a[0]);
      SortIsUnique(a[1..], b[1..]);
    }
  }

  lemma AntiSymmetric(a: Entry, b: Entry)
    requires EntryLe(a, b) && EntryLe(b, a)
    ensures Keys(a) == Keys(b)
  {
    KeysLeOrder(Keys(a), Keys(b), Keys(a));
  }

  lemma TiesFromList(ms: seq<Entry>)
    requires TiesAgree(ms)
    ensures TiesIdentical(multiset(ms))
  {
    forall a, b | a in multiset(ms) && b in multiset(ms) && Keys(a) == Keys(b) ensures a == b {
      assert a in ms && b in ms;
      var i :| 0 <= i < |ms| && ms[i] == a;
      var j :| 0 <= j < |ms| && ms[j] == b;
      SameKeysSameEntry(a, b);
    }
  }

  // ----- Sorting

  /** Insert before the first entry that is not less. */
  function Insert(e: Entry, sorted: seq<Entry>): seq<Entry> {
    if sorted == [] then [e]
    else if EntryLe(e, sorted[0]) then [e] + sorted
    else [sorted[0]] + Insert(e, sorted[1..])
  }

  function Sort(ms: seq<Entry>): seq<Entry> {
    if ms == [] then [] else Insert(ms[0], Sort(ms[1..]))
  }

  lemma {:induction false} InsertElements(e: Entry, sorted: seq<Entry>)
    ensures multiset(Insert(e, sorted)) == multiset(sorted) + multiset{e}
  {
    hide EntryLe;
    if sorted != [] {
      assert sorted == [sorted[0]] + sorted[1..];
      InsertElements(e, sorted[1..]);
    }
  }

  lemma ConsInOrder(e: Entry, rest: seq<Entry>)
    requires InOrder(rest) && forall x :: x in multiset(rest) ==> EntryLe(e, x)
    ensures InOrder([e] + rest)
  {
    hide EntryLe;
    var s := [e] + rest;
    forall i, j | 0 <= i < j < |s| ensures EntryLe(s[i], s[j]) {
      assert rest[j - 1] in multiset(rest);
    }
  }

  lemma {:induction false} InsertInOrder(e: Entry, sorted: seq<Entry>)
    requires InOrder(sorted)
    ensures InOrder(Insert(e, sorted))
  {
    hide EntryLe, InOrder;
    if sorted == [] {
      NothingBefore(e);
    } else {
      TailInOrder(sorted);
      var head, tail := sorted[0], sorted[1..];
      if EntryLe(e, head) {
        forall x | x in multiset(sorted) ensures EntryLe(e, x) {
          HeadIsLeast(sorted, x);
          Transitive(e, head, x);
        }
        ConsInOrder(e, sorted);
      } else {
        Total(e, head);
        InsertInOrder(e, tail);
        InsertElements(e, tail);
        forall x | x in multiset(Insert(e, tail)) ensures EntryLe(head, x) {
          if x != e { assert x in multiset(sorted); HeadIsLeast(sorted, x); }
        }
        ConsInOrder(head, Insert(e, tail));
      }
    }
  }

  lemma NothingBefore(e: Entry)
    ensures InOrder([e])
  {
  }

  lemma Total(a: Entry, b: Entry)
    ensures EntryLe(a, b) || EntryLe(b, a)
  {
    KeysLeOrder(Keys(a), Keys(b), Keys(a));
  }

  lemma Transitive(a: Entry, b: Entry, c: Entry)
    requires EntryLe(a, b) && EntryLe(b, c)
    ensures EntryLe(a, c)
  {
    KeysLeOrder(Keys(a), Keys(b), Keys(c));
  }

  lemma {:induction false} SortSorts(ms: seq<Entry>)
    ensures IsSortOf(Sort(ms), ms)
  {
    hide EntryLe, Insert;
    if ms == [] {
    } else {
      SortSorts(ms[1..]);
      InsertInOrder(ms[0], Sort(ms[1..]));
      InsertElements(ms[0], Sort(ms[1..]));
      assert ms == [ms[0]] + ms[1..];
    }
  }

  /** Every way of sorting the members, in any order they were collected, prints the same document. */
  ghost predicate OrderIndependent(h: Header, ms: seq<Entry>) {
    forall a, b :: IsSortOf(a, ms) && IsSortOf(b, ms) ==> Print(h, a) == Print(h, b)
  }

  lemma {:induction false} NormalAllAt(ms: seq<Entry>, i: nat)
    requires i < |ms|
    ensures |NormalAll(ms)| == |ms| && NormalAll(ms)[i] == Normal(ms[i])
  {
    if i > 0 { NormalAllAt(ms[1..], i - 1); } else if |ms| > 1 { NormalAllAt(ms[1..], 0); }
  }

  /** Swapping two entries with equal keys leaves a sorted list sorted. */
  lemma SwapTies(a: seq<Entry>, i: nat, j: nat)
    requires InOrder(a) && i < j < |a| && Keys(a[i]) == Keys(a[j])
    ensures InOrder(a[i := a[j]][j := a[i]]) && multiset(a[i := a[j]][j := a[i]]) == multiset(a)
  {
    hide Keys, KeysLe;
    var b := a[i := a[j]][j := a[i]];
    forall k, l | 0 <= k < l < |b| ensures EntryLe(b[k], b[l]) {
      assert Keys(b[k]) == Keys(a[k]) && Keys(b[l]) == Keys(a[l]);
      assert EntryLe(a[k], a[l]);
    }
  }

  lemma StaticsShow(h: Header, a: seq<Entry>, b: seq<Entry>, k: nat)
    requires k < |a| == |b| && a[k].isStatic != b[k].isStatic
    ensures Print(h, a) != Print(h, b)
  {
    hide Print, NormalAll;
    if Print(h, a) == Print(h, b) {
      PrintIsInjective(h, h, a, b);
      NormalAllAt(a, k);
      NormalAllAt(b, k);
    }
  }

  lemma MemberOfSort(out: seq<Entry>, ms: seq<Entry>, p: nat) returns (i: nat)
    requires IsSortOf(out, ms) && p < |ms|
    ensures i < |out| && out[i] == ms[p]
  {
    hide InOrder;
    assert ms[p] in multiset(ms);
    assert ms[p] in out;
    i :| 0 <= i < |out| && out[i] == ms[p];
  }

  /** A disagreeing tie can be sorted two ways that print differently. */
  lemma TieShows(h: Header, ms: seq<Entry>, p: nat, q: nat) returns (a: seq<Entry>, b: seq<Entry>)
    requires p < |ms| && q < |ms| && Keys(ms[p]) == Keys(ms[q]) && ms[p].isStatic != ms[q].isStatic
    ensures IsSortOf(a, ms) && IsSortOf(b, ms) && Print(h, a) != Print(h, b)
  {
    hide Print, Keys, InOrder, Sort;
    a := Sort(ms);
    SortSorts(ms);
    var i := MemberOfSort(a, ms, p);
    var j := MemberOfSort(a, ms, q);
    var lo, hi := if i < j then i else j, if i < j then j else i;
    SwapTies(a, lo, hi);
    b := a[lo := a[hi]][hi := a[lo]];
    StaticsShow(h, a, b, lo);
  }

  /**
    * Order independence, exactly: the output is the same for every sort of every permutation of the members
    * if and only if no two members share all four sort keys and differ in being static.
    */
  lemma OrderIndependentIff(h: Header, ms: seq<Entry>)
    ensures OrderIndependent(h, ms) <==> TiesAgree(ms)
  {
    hide Print, Keys, InOrder;
    if TiesAgree(ms) {
      TiesFromList(ms);
      forall a, b | IsSortOf(a, ms) && IsSortOf(b, ms) ensures Print(h, a) == Print(h, b) {
        SortIsUnique(a, b);
      }
    } else {
      var p, q :| 0 <= p < |ms| && 0 <= q < |ms| && Keys(ms[p]) == Keys(ms[q]) && ms[p].isStatic != ms[q].isStatic;
      var a, b := TieShows(h, ms, p, q);
    }
  }

  /** Permuting the collected members never changes the output when ties agree. */
  lemma PermutationInvariant(h: Header, a: seq<Entry>, b: seq<Entry>, x: seq<Entry>, y: seq<Entry>)
    requires multiset(a) == multiset(b) && TiesAgree(a) && IsSortOf(x, a) && IsSortOf(y, b)
    ensures Print(h, x) == Print(h, y)
  {
    hide Print;
    TiesFromList(a);
    SortIsUnique(x, y);
  }

  // ----- The printer's loops

  /** Quote and escape a string unit by unit. */
  method WriteString(s: Option<Text>) returns (t: Text)
    ensures t == Str(s)
  {
    if s.None? { return [34, 34]; }
    t := [34];
    assert s.value[0..] == s.value;
    for i := 0 to |s.value|
      invariant t + Body(s.value[i..]) == [34] + Body(s.value)
    {
      assert s.value[i..][1..] == s.value[i + 1..];
      ghost var rest := Body(s.value[i + 1..]);
      assert t + (Escape(s.value[i]) + rest) == t + Escape(s.value[i]) + rest;
      t := t + Escape(s.value[i]);
    }
    assert s.value[|s.value|..] == [];
    t := t + [34];
  }

  method AppendAll(sb: Text, ps: seq<Piece>) returns (t: Text)
    ensures forall rest :: t + rest == sb + Flat(ps, rest)
  {
    hide Str;
    t := sb;
    assert ps[0..] == ps;
    for i := 0 to |ps|
      invariant forall rest :: t + Flat(ps[i..], rest) == sb + Flat(ps, rest)
    {
      assert ps[i..][1..] == ps[i + 1..];
      var piece;
      match ps[i] {
        case M(c) => piece := [Unit(c)];
        case Gap(newline, n) => piece := (if newline then [10] else []) + Pad(n);
        case S(value) => piece := WriteString(value);
        case B(flag) => piece := if flag then Lit("true") else Lit("false");
      }
      forall rest ensures t + piece + Flat(ps[i + 1..], rest) == sb + Flat(ps, rest) {
        assert t + piece + Flat(ps[i + 1..], rest) == t + (piece + Flat(ps[i + 1..], rest));
      }
      t := t + piece;
    }
    assert ps[|ps|..] == [];
  }

  method SortMembers(ms: seq<Entry>) returns (copy: seq<Entry>)
    ensures IsSortOf(copy, ms)
  {
    hide Sort, InOrder;
    copy := [];
    SortSorts([]);
    for i := 0 to |ms|
      invariant IsSortOf(copy, ms[..i])
    {
      InsertInOrder(ms[i], copy);
      InsertElements(ms[i], copy);
      assert ms[..i + 1] == ms[..i] + [ms[i]];
      copy := Insert(ms[i], copy);
    }
    assert ms[..|ms|] == ms;
  }

  method WriteDocument(h: Header, members: seq<Entry>) returns (t: Text)
    ensures t == Print(h, members)
  {
    hide Flat, RowPieces, HeaderPieces, EndPieces;
    t := AppendAll([], HeaderPieces(h));
    assert [] + Print(h, members) == Print(h, members);
    assert t + Members(members) == Print(h, members);
    if members == [] {
      t := AppendAll(t, EndPieces(0));
      assert t + [] == t;
      return;
    }
    ghost var end := Flat(EndPieces(2), []);
    ghost var head := t;
    t := t + [10];
    assert head + ([10] + Rows(members, end)) == t + Rows(members, end);
    assert members[0..] == members;
    for i := 0 to |members|
      invariant t + (if i == |members| then end else Rows(members[i..], end)) == Print(h, members)
    {
      assert members[i..][1..] == members[i + 1..];
      ghost var after := if i + 1 == |members| then end else Rows(members[i + 1..], end);
      ghost var before := t;
      var row := AppendAll(t, RowPieces(members[i]));
      var sep: Text := if i == |members| - 1 then [10] else [44, 10];
      assert row + (Separator(i == |members| - 1) + after) == before + Flat(RowPieces(members[i]), Separator(i == |members| - 1) + after);
      assert (row + sep) + after == row + (sep + after);
      t := row + sep;
    }
    ghost var last := t;
    t := AppendAll(t, EndPieces(2));
    assert t + [] == t;
    assert t == last + end;
  }

  /** A printed document of these members, in some order the sort may give them. */
  ghost predicate IsDocument(h: Header, ms: seq<Entry>, t: Text) {
    exists sorted :: IsSortOf(sorted, ms) && t == Print(h, sorted)
  }

  /** The whole document; when ties agree, the one document of these members. */
  method Serialize(h: Header, ms: seq<Entry>) returns (t: Text)
    ensures IsDocument(h, ms, t)
    ensures TiesAgree(ms) ==> forall other :: IsSortOf(other, ms) ==> t == Print(h, other)
  {
    hide Print, IsSortOf, TiesAgree;
    var members := SortMembers(ms);
    t := WriteDocument(h, members);
    if TiesAgree(ms) {
      forall other | IsSortOf(other, ms) ensures t == Print(h, other) {
        PermutationInvariant(h, ms, ms, members, other);
      }
    }
  }
}
