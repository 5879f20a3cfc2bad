/**
  * The printed manifest read back by a reader that knows only the grammar of JSON, RFC 8259, restricted to objects, arrays,
  * strings and truth values: every value stands under its own key.
  */
module CanonicalReading {
  import opened Options
  import opened CanonicalJson

  // ----- Tokens

  datatype Token = Mark(mark: CodeUnit) | Word(text: Text) | Truth(flag: bool)

  const OPEN := Mark(123)
  const CLOSE := Mark(125)
  const OPEN_LIST := Mark(91)
  const CLOSE_LIST := Mark(93)
  const COLON_MARK := Mark(58)
  const COMMA_MARK := Mark(44)

  predicate IsSpace(u: CodeUnit) {
    u == 32 || u == 10 || u == 13 || u == 9
  }

  predicate IsMark(u: CodeUnit) {
    u == 123 || u == 125 || u == 91 || u == 93 || u == 58 || u == 44
  }

  function Prepend(ts: seq<Token>, r: Option<seq<Token>>): Option<seq<Token>> {
    if r.None? then None else Some(ts + r.value)
  }

  function Lex(t: Text): Option<seq<Token>>
    decreases |t|
  {
    if t == [] then Some([])
    else if IsSpace(t[0]) then Lex(t[1..])
    else if IsMark(t[0]) then Prepend([Mark(t[0])], Lex(t[1..]))
    else if t[0] == 34 then
      var r := ReadBody(t[1..]);
      if r.None? || |r.value.1| >= |t| then None else Prepend([Word(r.value.0)], Lex(r.value.1))
    else if Lit("true") <= t then Prepend([Truth(true)], Lex(t[4..]))
    else if Lit("false") <= t then Prepend([Truth(false)], Lex(t[5..]))
    else None
  }

  // ----- Values

  datatype Json = Text(text: CanonicalJson.Text) | Bool(flag: bool) | Object(fields: seq<(CanonicalJson.Text, Json)>) | Array(items: seq<Json>)

  function Value(ts: seq<Token>): (r: Option<(Json, seq<Token>)>)
    ensures r.Some? ==> |r.value.1| < |ts|
    decreases |ts|, 0
  {
    if ts == [] then None
    else match ts[0]
      case Word(t) => Some((Text(t), ts[1..]))
      case Truth(b) => Some((Bool(b), ts[1..]))
      case Mark(_) =>
        if ts[0] == OPEN then
          if |ts| > 1 && ts[1] == CLOSE then Some((Object([]), ts[2..]))
          else
            var r := Fields(ts[1..]);
            if r.None? then None else Some((Object(r.value.0), r.value.1))
        else if ts[0] == OPEN_LIST then
          if |ts| > 1 && ts[1] == CLOSE_LIST then Some((Array([]), ts[2..]))
          else
            var r := Items(ts[1..]);
            if r.None? then None else Some((Array(r.value.0), r.value.1))
        else None
  }

  function Fields(ts: seq<Token>): (r: Option<(seq<(CanonicalJson.Text, Json)>, seq<Token>)>)
    ensures r.Some? ==> |r.value.1| < |ts|
    decreases |ts|, 0
  {
    if |ts| < 2 || !ts[0].Word? || ts[1] != COLON_MARK then None
    else
      var v := Value(ts[2..]);
      if v.None? || v.value.1 == [] then None
      else
        var rest := v.value.1;
        var field := (ts[0].text, v.value.0);
        if rest[0] == CLOSE then Some(([field], rest[1..]))
        else if rest[0] != COMMA_MARK then None
        else
          var more := Fields(rest[1..]);
          if more.None? then None else Some(([field] + more.value.0, more.value.1))
  }

  function Items(ts: seq<Token>): (r: Option<(seq<Json>, seq<Token>)>)
    ensures r.Some? ==> |r.value.1| < |ts|
    decreases |ts|, 1
  {
    var v := Value(ts);
    if v.None? || v.value.1 == [] then None
    else
      var rest := v.value.1;
      if rest[0] == CLOSE_LIST then Some(([v.value.0], rest[1..]))
      else if rest[0] != COMMA_MARK then None
      else
        var more := Items(rest[1..]);
        if more.None? then None else Some(([v.value.0] + more.value.0, more.value.1))
  }

  /** The one value a text holds. */
  function Parse(t: CanonicalJson.Text): Option<Json> {
    var ts := Lex(t);
    if ts.None? then None
    else
      var r := Value(ts.value);
      if r.None? || r.value.1 != [] then None else Some(r.value.0)
  }

  // ----- What a manifest says

  function EntryJson(m: Entry): Json {
    Object([(Lit("kind"), Text(OrEmpty(m.kind))), (Lit("member"), Text(OrEmpty(m.member))),
            (Lit("signature"), Text(OrEmpty(m.signature))), (Lit("static"), Bool(m.isStatic)),
            (Lit("type"), Text(OrEmpty(m.typ)))])
  }

  function EntryJsons(ms: seq<Entry>): seq<Json> {
    if ms == [] then [] else [EntryJson(ms[0])] + EntryJsons(ms[1..])
  }

  function HeaderJson(h: Header): Json {
    Object([(Lit("assemblyMvid"), Text(OrEmpty(h.mvid))), (Lit("gameBuildId"), Text(OrEmpty(h.build))),
            (Lit("tool"), Text(Lit(TOOL_STAMP)))])
  }

  function ManifestJson(h: Header, ms: seq<Entry>): Json {
    Object([(Lit("header"), HeaderJson(h)), (Lit("members"), Array(EntryJsons(ms)))])
  }

  // ----- Pieces as tokens

  function PieceTokens(p: Piece): seq<Token> {
    match p
    case M(c) => [Mark(Unit(c))]
    case Gap(_, _) => []
    case S(v) => [Word(OrEmpty(v))]
    case B(b) => [Truth(b)]
  }

  function Tokens(ps: seq<Piece>): seq<Token> {
    if ps == [] then [] else PieceTokens(ps[0]) + Tokens(ps[1..])
  }

  predicate Proper(p: Piece) {
    p.M? ==> IsMark(Unit(p.mark))
  }

  lemma {:induction false} LexPad(n: nat, rest: CanonicalJson.Text)
    ensures Lex(Pad(n) + rest) == Lex(rest)
  {
    if n == 0 {
      assert Pad(0) + rest == rest;
    } else {
      assert (Pad(n) + rest)[1..] == Pad(n - 1) + rest;
      LexPad(n - 1, rest);
    }
  }

  lemma LexTruth(b: bool, rest: CanonicalJson.Text)
    ensures Lex(Render(B(b)) + rest) == Prepend([Truth(b)], Lex(rest))
  {
    var t := Render(B(b)) + rest;
    assert Lit("true")[0] == 116 && Lit("false")[0] == 102;
    assert t[0] == if b then 116 else 102;
    if b {
      assert t[..4] == Lit("true") && t[4..] == rest;
    } else {
      assert t[..5] == Lit("false") && t[5..] == rest;
      assert !(Lit("true") <= t);
    }
  }

  lemma LexMark(u: CodeUnit, rest: CanonicalJson.Text)
    requires IsMark(u)
    ensures Lex([u] + rest) == Prepend([Mark(u)], Lex(rest))
  {
    assert ([u] + rest)[1..] == rest;
  }

  lemma LexNewline(rest: CanonicalJson.Text)
    ensures Lex([10] + rest) == Lex(rest)
  {
    assert ([10] + rest)[1..] == rest;
  }

  lemma LexWord(v: Option<CanonicalJson.Text>, rest: CanonicalJson.Text)
    ensures Lex(Str(v) + rest) == Prepend([Word(OrEmpty(v))], Lex(rest))
  {
    hide ReadBody, Body, Lit;
    StringRoundTrip(v, rest);
  }

  lemma LexPiece(p: Piece, rest: CanonicalJson.Text)
    requires Proper(p)
    ensures Lex(Render(p) + rest) == Prepend(PieceTokens(p), Lex(rest))
  {
    hide Lex, Str, Lit, Pad;
    match p
    case M(c) => LexMark(Unit(c), rest);
    case Gap(newline, n) =>
      LexPad(n, rest);
      LexNewline(Pad(n) + rest);
      assert Render(p) + rest == if newline then [10] + (Pad(n) + rest) else Pad(n) + rest;
      if Lex(rest).Some? { assert [] + Lex(rest).value == Lex(rest).value; }
    case S(v) => LexWord(v, rest);
    case B(b) => LexTruth(b, rest);
  }

  lemma {:induction false} LexFlat(ps: seq<Piece>, rest: CanonicalJson.Text)
    requires forall i :: 0 <= i < |ps| ==> Proper(ps[i])
    ensures Lex(Flat(ps, rest)) == Prepend(Tokens(ps), Lex(rest))
    decreases |ps|
  {
    hide Lex, Render;
    if ps == [] {
      if Lex(rest).Some? { assert [] + Lex(rest).value == Lex(rest).value; }
    } else {
      LexPiece(ps[0], Flat(ps[1..], rest));
      LexFlat(ps[1..], rest);
      PrependTwice(PieceTokens(ps[0]), Tokens(ps[1..]), Lex(rest));
    }
  }

  lemma PrependTwice(a: seq<Token>, b: seq<Token>, r: Option<seq<Token>>)
    ensures Prepend(a, Prepend(b, r)) == Prepend(a + b, r)
  {
    if r.Some? { assert a + (b + r.value) == a + b + r.value; }
  }

  lemma {:induction false} TokensConcat(a: seq<Piece>, b: seq<Piece>)
    ensures Tokens(a + b) == Tokens(a) + Tokens(b)
    decreases |a|
  {
    hide PieceTokens;
    if a == [] {
      assert a + b == b;
    } else {
      assert (a + b)[1..] == a[1..] + b;
      TokensConcat(a[1..], b);
    }
  }

  // ----- Fields

  function FieldPieces(indent: nat, key: string, value: Piece): seq<Piece> {
    [Gap(true, indent), Name(key), COLON, SPACE, value]
  }

  function FieldTokens(key: string, value: seq<Token>): seq<Token> {
    [Word(Lit(key)), COLON_MARK] + value
  }

  lemma TokensOfField(indent: nat, key: string, value: Piece)
    ensures Tokens(FieldPieces(indent, key, value)) == FieldTokens(key, PieceTokens(value))
  {
    hide Lit;
    var ps := FieldPieces(indent, key, value);
    assert ps[1..][1..] == [COLON, SPACE, value] && ps[1..][1..][1..] == [SPACE, value] && [SPACE, value][1..] == [value] && [value][1..] == [];
    assert Tokens([value]) == PieceTokens(value);
    assert Tokens([SPACE, value]) == PieceTokens(value);
    assert Tokens([COLON, SPACE, value]) == [COLON_MARK] + PieceTokens(value);
  }

  /** These tokens are one value, whatever follows. */
  ghost predicate Reads(ts: seq<Token>, v: Json) {
    forall rest :: Value(ts + rest) == Some((v, rest))
  }

  lemma ReadsThen(ts: seq<Token>, v: Json, rest: seq<Token>)
    requires Reads(ts, v)
    ensures Value(ts + rest) == Some((v, rest))
  {
    hide Value;
  }

  lemma ScalarReads(p: Piece)
    requires p.S? || p.B?
    ensures Reads(PieceTokens(p), if p.S? then Text(OrEmpty(p.value)) else Bool(p.flag))
  {
    forall rest ensures Value(PieceTokens(p) + rest) == Some((if p.S? then Text(OrEmpty(p.value)) else Bool(p.flag), rest)) {
      assert (PieceTokens(p) + rest)[1..] == rest;
    }
  }

  lemma FieldValue(key: string, vt: seq<Token>, v: Json, rest: seq<Token>)
    requires Reads(vt, v)
    ensures
      var ts := FieldTokens(key, vt) + rest;
      |ts| >= 2 && ts[0] == Word(Lit(key)) && ts[1] == COLON_MARK && Value(ts[2..]) == Some((v, rest))
  {
    hide Value;
    assert (FieldTokens(key, vt) + rest)[2..] == vt + rest;
  }

  lemma LastField(key: string, vt: seq<Token>, v: Json, rest: seq<Token>)
    requires Reads(vt, v)
    ensures Fields(FieldTokens(key, vt) + [CLOSE] + rest) == Some(([(Lit(key), v)], rest))
  {
    hide Value, Lit, FieldTokens;
    assert FieldTokens(key, vt) + [CLOSE] + rest == FieldTokens(key, vt) + ([CLOSE] + rest);
    FieldValue(key, vt, v, [CLOSE] + rest);
    assert ([CLOSE] + rest)[1..] == rest;
  }

  lemma FieldThen(key: string, vt: seq<Token>, v: Json, more: seq<Token>, fs: seq<(CanonicalJson.Text, Json)>, rest: seq<Token>)
    requires Reads(vt, v) && Fields(more) == Some((fs, rest))
    ensures Fields(FieldTokens(key, vt) + [COMMA_MARK] + more) == Some(([(Lit(key), v)] + fs, rest))
  {
    hide Value, Lit, FieldTokens;
    assert FieldTokens(key, vt) + [COMMA_MARK] + more == FieldTokens(key, vt) + ([COMMA_MARK] + more);
    FieldValue(key, vt, v, [COMMA_MARK] + more);
    assert ([COMMA_MARK] + more)[1..] == more;
  }

  // ----- Objects of plain fields

  datatype Field = Field(key: string, value: Piece)

  predicate Scalar(f: Field) {
    f.value.S? || f.value.B?
  }

  predicate AllScalar(fs: seq<Field>) {
    forall i :: 0 <= i < |fs| ==> Scalar(fs[i])
  }

  function ScalarJson(p: Piece): Json
    requires p.S? || p.B?
  {
    if p.S? then Text(OrEmpty(p.value)) else Bool(p.flag)
  }

  function ListPieces(indent: nat, fs: seq<Field>): seq<Piece> {
    if fs == [] then []
    else FieldPieces(indent, fs[0].key, fs[0].value) + if |fs| == 1 then [] else [COMMA] + ListPieces(indent, fs[1..])
  }

  function ListTokens(fs: seq<Field>): seq<Token> {
    if fs == [] then []
    else FieldTokens(fs[0].key, PieceTokens(fs[0].value)) + if |fs| == 1 then [] else [COMMA_MARK] + ListTokens(fs[1..])
  }

  function ListJson(fs: seq<Field>): seq<(CanonicalJson.Text, Json)>
    requires AllScalar(fs)
  {
    if fs == [] then []
    else
      assert Scalar(fs[0]);
      [(Lit(fs[0].key), ScalarJson(fs[0].value))] + ListJson(fs[1..])
  }

  lemma {:induction false} TokensOfList(indent: nat, fs: seq<Field>)
    ensures Tokens(ListPieces(indent, fs)) == ListTokens(fs)
    decreases |fs|
  {
    hide FieldPieces, FieldTokens, PieceTokens;
    if fs != [] {
      TokensOfField(indent, fs[0].key, fs[0].value);
      if |fs| > 1 {
        TokensConcat(FieldPieces(indent, fs[0].key, fs[0].value), [COMMA] + ListPieces(indent, fs[1..]));
        TokensConcat([COMMA], ListPieces(indent, fs[1..]));
        CommaTokens();
        TokensOfList(indent, fs[1..]);
      } else {
        assert ListPieces(indent, fs) == FieldPieces(indent, fs[0].key, fs[0].value);
      }
    }
  }

  lemma CommaTokens()
    ensures Tokens([COMMA]) == [COMMA_MARK]
  {
    assert [COMMA][1..] == [];
  }

  lemma ListOfOne(fs: seq<Field>)
    requires |fs| == 1 && AllScalar(fs)
    ensures Scalar(fs[0])
    ensures ListTokens(fs) == FieldTokens(fs[0].key, PieceTokens(fs[0].value))
    ensures ListJson(fs) == [(Lit(fs[0].key), ScalarJson(fs[0].value))]
  {
    hide FieldTokens, PieceTokens, Lit;
  }

  lemma ListOfMore(fs: seq<Field>, rest: seq<Token>)
    requires |fs| > 1 && AllScalar(fs)
    ensures Scalar(fs[0]) && AllScalar(fs[1..])
    ensures ListTokens(fs) + [CLOSE] + rest ==
            FieldTokens(fs[0].key, PieceTokens(fs[0].value)) + [COMMA_MARK] + (ListTokens(fs[1..]) + [CLOSE] + rest)
    ensures ListJson(fs) == [(Lit(fs[0].key), ScalarJson(fs[0].value))] + ListJson(fs[1..])
  {
    hide FieldTokens, PieceTokens, Lit;
  }

  lemma {:induction false} FieldsOfList(fs: seq<Field>, rest: seq<Token>)
    requires fs != [] && AllScalar(fs)
    ensures Fields(ListTokens(fs) + [CLOSE] + rest) == Some((ListJson(fs), rest))
    decreases |fs|
  {
    hide Fields, Reads, FieldTokens, PieceTokens, Lit, ListTokens, ListJson, AllScalar;
    if |fs| == 1 {
      ListOfOne(fs);
      ScalarReads(fs[0].value);
      LastField(fs[0].key, PieceTokens(fs[0].value), ScalarJson(fs[0].value), rest);
    } else {
      ListOfMore(fs, rest);
      ScalarReads(fs[0].value);
      FieldsOfList(fs[1..], rest);
      FieldThen(fs[0].key, PieceTokens(fs[0].value), ScalarJson(fs[0].value), ListTokens(fs[1..]) + [CLOSE] + rest,
                ListJson(fs[1..]), rest);
    }
  }

  lemma ObjectReads(fs: seq<Field>)
    requires fs != [] && AllScalar(fs)
    ensures Reads([OPEN] + ListTokens(fs) + [CLOSE], Object(ListJson(fs)))
  {
    hide Fields, ListTokens;
    forall rest ensures Value([OPEN] + ListTokens(fs) + [CLOSE] + rest) == Some((Object(ListJson(fs)), rest)) {
      FieldsOfList(fs, rest);
      ListStarts(fs);
      var ts := [OPEN] + ListTokens(fs) + [CLOSE] + rest;
      assert ts[1..] == ListTokens(fs) + [CLOSE] + rest;
      assert ts[1] == ListTokens(fs)[0];
    }
  }

  lemma ListStarts(fs: seq<Field>)
    requires fs != []
    ensures |ListTokens(fs)| > 0 && ListTokens(fs)[0].Word?
  {
  }

  // ----- Rows

  function RowFields(m: Entry): seq<Field> {
    [Field("kind", S(m.kind)), Field("member", S(m.member)), Field("signature", S(m.signature)),
     Field("static", B(m.isStatic)), Field("type", S(m.typ))]
  }

  lemma ListStep(indent: nat, f: Field, fs: seq<Field>)
    requires fs != []
    ensures ListPieces(indent, [f] + fs) == FieldPieces(indent, f.key, f.value) + [COMMA] + ListPieces(indent, fs)
  {
    hide FieldPieces;
    assert ([f] + fs)[1..] == fs;
  }

  lemma ListOne(indent: nat, f: Field)
    ensures ListPieces(indent, [f]) == FieldPieces(indent, f.key, f.value)
  {
    hide FieldPieces;
  }

  lemma ListThree(indent: nat, a: Field, b: Field, c: Field)
    ensures ListPieces(indent, [a, b, c]) ==
            FieldPieces(indent, a.key, a.value) + [COMMA] + (FieldPieces(indent, b.key, b.value) + [COMMA] + FieldPieces(indent, c.key, c.value))
  {
    hide FieldPieces, ListPieces;
    ListOne(indent, c);
    ListStep(indent, b, [c]);
    assert [b] + [c] == [b, c];
    ListStep(indent, a, [b, c]);
    assert [a] + [b, c] == [a, b, c];
  }

  lemma ListFive(indent: nat, a: Field, b: Field, c: Field, d: Field, e: Field)
    ensures ListPieces(indent, [a, b, c, d, e]) ==
            FieldPieces(indent, a.key, a.value) + [COMMA] + (FieldPieces(indent, b.key, b.value) + [COMMA] + ListPieces(indent, [c, d, e]))
  {
    hide FieldPieces, ListPieces;
    ListStep(indent, b, [c, d, e]);
    assert [b] + [c, d, e] == [b, c, d, e];
    ListStep(indent, a, [b, c, d, e]);
    assert [a] + [b, c, d, e] == [a, b, c, d, e];
  }

  lemma RowIsList(m: Entry)
    ensures RowPieces(m) == [Gap(false, 4), M('{')] + ListPieces(6, RowFields(m)) + [Gap(true, 4), M('}')]
  {
    hide Lit, ListPieces, FieldPieces;
    var fs := RowFields(m);
    ListThree(6, fs[2], fs[3], fs[4]);
    ListFive(6, fs[0], fs[1], fs[2], fs[3], fs[4]);
    RowOfFields(m);
  }

  lemma RowOfFields(m: Entry)
    ensures
      RowPieces(m) ==
      [Gap(false, 4), M('{')]
      + (FieldPieces(6, "kind", S(m.kind)) + [COMMA]
         + (FieldPieces(6, "member", S(m.member)) + [COMMA]
            + (FieldPieces(6, "signature", S(m.signature)) + [COMMA]
               + (FieldPieces(6, "static", B(m.isStatic)) + [COMMA] + FieldPieces(6, "type", S(m.typ))))))
      + [Gap(true, 4), M('}')]
  {
    hide Lit, Name;
  }

  function RowTokens(m: Entry): seq<Token> {
    [OPEN] + ListTokens(RowFields(m)) + [CLOSE]
  }

  lemma RowLexes(m: Entry, rest: CanonicalJson.Text)
    ensures Lex(Flat(RowPieces(m), rest)) == Prepend(RowTokens(m), Lex(rest))
  {
    hide Lex, Flat, ListTokens, ListPieces, RowFields, Lit;
    var ps := RowPieces(m);
    assert forall i :: 0 <= i < |ps| ==> Proper(ps[i]) by { RowProper(m); }
    LexFlat(ps, rest);
    RowIsList(m);
    TokensConcat([Gap(false, 4), M('{')], ListPieces(6, RowFields(m)));
    TokensConcat([Gap(false, 4), M('{')] + ListPieces(6, RowFields(m)), [Gap(true, 4), M('}')]);
    TokensOfList(6, RowFields(m));
    TwoTokens(Gap(false, 4), M('{'));
    TwoTokens(Gap(true, 4), M('}'));
    assert Unit('{') == 123 && Unit('}') == 125;
    assert Tokens(ps) == RowTokens(m);
  }

  lemma TwoTokens(a: Piece, b: Piece)
    ensures Tokens([a, b]) == PieceTokens(a) + PieceTokens(b)
  {
    assert [a, b][1..] == [b];
    OneToken(b);
  }

  lemma RowProper(m: Entry)
    ensures forall i :: 0 <= i < |RowPieces(m)| ==> Proper(RowPieces(m)[i])
  {
    hide Lit;
  }

  lemma RowReads(m: Entry)
    ensures Reads(RowTokens(m), EntryJson(m))
  {
    hide ListTokens, Reads, Lit;
    var fs := RowFields(m);
    ObjectReads(fs);
    ListJsonFive(fs);
  }

  lemma ListJsonFive(fs: seq<Field>)
    requires |fs| == 5 && AllScalar(fs)
    ensures ListJson(fs) == [(Lit(fs[0].key), ScalarJson(fs[0].value)), (Lit(fs[1].key), ScalarJson(fs[1].value)),
                             (Lit(fs[2].key), ScalarJson(fs[2].value)), (Lit(fs[3].key), ScalarJson(fs[3].value)),
                             (Lit(fs[4].key), ScalarJson(fs[4].value))]
  {
    hide Lit, ScalarJson;
    ListJsonThree(fs[2..]);
    assert fs[1..][1..] == fs[2..];
    assert ListJson(fs[1..]) == [(Lit(fs[1].key), ScalarJson(fs[1].value))] + ListJson(fs[2..]);
  }

  lemma ListJsonThree(fs: seq<Field>)
    requires |fs| == 3 && AllScalar(fs)
    ensures ListJson(fs) == [(Lit(fs[0].key), ScalarJson(fs[0].value)), (Lit(fs[1].key), ScalarJson(fs[1].value)),
                             (Lit(fs[2].key), ScalarJson(fs[2].value))]
  {
    hide Lit, ScalarJson;
    assert fs[1..][1..] == fs[2..] && fs[2..][1..] == [];
    assert ListJson(fs[2..]) == [(Lit(fs[2].key), ScalarJson(fs[2].value))];
    assert ListJson(fs[1..]) == [(Lit(fs[1].key), ScalarJson(fs[1].value))] + ListJson(fs[2..]);
  }

  function RowsTokens(ms: seq<Entry>): seq<Token> {
    if ms == [] then [] else RowTokens(ms[0]) + if |ms| == 1 then [] else [COMMA_MARK] + RowsTokens(ms[1..])
  }

  lemma {:induction false} RowsLex(ms: seq<Entry>, rest: CanonicalJson.Text)
    requires ms != []
    ensures Lex(Rows(ms, rest)) == Prepend(RowsTokens(ms), Lex(rest))
    decreases |ms|
  {
    hide Lex, Flat, RowPieces, RowTokens;
    var after := if |ms| == 1 then rest else Rows(ms[1..], rest);
    RowLexes(ms[0], Separator(|ms| == 1) + after);
    LexNewline(after);
    if |ms| == 1 {
      assert RowsTokens(ms) == RowTokens(ms[0]);
    } else {
      assert [44, 10] + after == [44] + ([10] + after);
      LexMark(44, [10] + after);
      RowsLex(ms[1..], rest);
      PrependTwice([COMMA_MARK], RowsTokens(ms[1..]), Lex(rest));
      PrependTwice(RowTokens(ms[0]), [COMMA_MARK] + RowsTokens(ms[1..]), Lex(rest));
    }
  }

  lemma {:induction false} RowsRead(ms: seq<Entry>, rest: seq<Token>)
    requires ms != []
    ensures Items(RowsTokens(ms) + [CLOSE_LIST] + rest) == Some((EntryJsons(ms), rest))
    decreases |ms|
  {
    hide Value, RowTokens, EntryJson, Reads;
    RowReads(ms[0]);
    var row := RowTokens(ms[0]);
    if |ms| == 1 {
      ReadsThen(row, EntryJson(ms[0]), [CLOSE_LIST] + rest);
      assert RowsTokens(ms) + [CLOSE_LIST] + rest == row + ([CLOSE_LIST] + rest);
      assert ([CLOSE_LIST] + rest)[1..] == rest;
      assert EntryJsons(ms) == [EntryJson(ms[0])];
    } else {
      RowsRead(ms[1..], rest);
      var more := RowsTokens(ms[1..]) + [CLOSE_LIST] + rest;
      assert RowsTokens(ms) + [CLOSE_LIST] + rest == row + ([COMMA_MARK] + more);
      ReadsThen(row, EntryJson(ms[0]), [COMMA_MARK] + more);
      assert ([COMMA_MARK] + more)[1..] == more;
    }
  }

  // ----- The document

  function MembersTokens(ms: seq<Entry>): seq<Token> {
    [OPEN_LIST] + RowsTokens(ms) + [CLOSE_LIST]
  }

  lemma RowsStart(ms: seq<Entry>)
    requires ms != []
    ensures |RowsTokens(ms)| > 0 && RowsTokens(ms)[0] == OPEN
  {
    hide ListTokens;
  }

  lemma MembersRead(ms: seq<Entry>)
    ensures Reads(MembersTokens(ms), Array(EntryJsons(ms)))
  {
    hide Items, Fields, RowsTokens, EntryJson;
    forall rest ensures Value(MembersTokens(ms) + rest) == Some((Array(EntryJsons(ms)), rest)) {
      var ts := MembersTokens(ms) + rest;
      if ms == [] {
        NoRows();
        assert ts == [OPEN_LIST, CLOSE_LIST] + rest;
        assert ts[2..] == rest;
      } else {
        RowsStart(ms);
        RowsRead(ms, rest);
        assert ts[1..] == RowsTokens(ms) + [CLOSE_LIST] + rest;
        assert ts[1] == RowsTokens(ms)[0];
      }
    }
  }

  lemma NoRows()
    ensures RowsTokens([]) == []
  {
  }

  lemma EndLexes(indent: nat)
    ensures Lex(Flat(EndPieces(indent), [])) == Some([CLOSE_LIST, CLOSE])
  {
    hide Lex, Flat;
    var ps := EndPieces(indent);
    LexFlat(ps, []);
    assert Lex([]) == Some([]) by { LexNothing(); }
    assert ps == [Gap(false, indent), M(']')] + ([Gap(true, 0), M('}')] + [Gap(true, 0)]);
    TokensConcat([Gap(false, indent), M(']')], [Gap(true, 0), M('}')] + [Gap(true, 0)]);
    TokensConcat([Gap(true, 0), M('}')], [Gap(true, 0)]);
    TwoTokens(Gap(false, indent), M(']'));
    TwoTokens(Gap(true, 0), M('}'));
    OneToken(Gap(true, 0));
    assert Unit(']') == 93 && Unit('}') == 125;
    assert Tokens(ps) == [CLOSE_LIST, CLOSE] && [CLOSE_LIST, CLOSE] + [] == [CLOSE_LIST, CLOSE];
  }

  lemma LexNothing()
    ensures Lex([]) == Some([])
  {
  }

  lemma MembersLex(ms: seq<Entry>)
    ensures Lex(Members(ms)) == Some(RowsTokens(ms) + [CLOSE_LIST, CLOSE])
  {
    hide Lex, Flat, Rows, RowsTokens, EndPieces;
    if ms == [] {
      NoRows();
      EndLexes(0);
      assert RowsTokens(ms) + [CLOSE_LIST, CLOSE] == [CLOSE_LIST, CLOSE];
    } else {
      EndLexes(2);
      LexNewline(Rows(ms, Flat(EndPieces(2), [])));
      RowsLex(ms, Flat(EndPieces(2), []));
    }
  }

  function HeaderFields(h: Header): seq<Field> {
    [Field("assemblyMvid", S(h.mvid)), Field("gameBuildId", S(h.build)), Field("tool", S(Some(Lit(TOOL_STAMP))))]
  }

  function HeaderTokens(h: Header): seq<Token> {
    [OPEN] + ListTokens(HeaderFields(h)) + [CLOSE]
  }

  function OpeningPieces(): seq<Piece> {
    [M('{')] + FieldPieces(2, "header", M('{'))
  }

  function MiddlePieces(): seq<Piece> {
    [Gap(true, 2), M('}')] + [COMMA] + FieldPieces(2, "members", M('['))
  }

  lemma HeaderIsList(h: Header)
    ensures HeaderPieces(h) == OpeningPieces() + ListPieces(4, HeaderFields(h)) + MiddlePieces()
  {
    hide Lit, ListPieces;
    var fs := HeaderFields(h);
    ListThree(4, fs[0], fs[1], fs[2]);
  }

  lemma OneToken(a: Piece)
    ensures Tokens([a]) == PieceTokens(a)
  {
    assert [a][1..] == [];
  }

  lemma FrameTokens()
    ensures Tokens(OpeningPieces()) == [OPEN] + FieldTokens("header", [OPEN])
    ensures Tokens(MiddlePieces()) == [CLOSE, COMMA_MARK] + FieldTokens("members", [OPEN_LIST])
  {
    hide Tokens, FieldPieces, FieldTokens;
    OneToken(M('{'));
    TokensOfField(2, "header", M('{'));
    TokensConcat([M('{')], FieldPieces(2, "header", M('{')));
    TwoTokens(Gap(true, 2), M('}'));
    OneToken(COMMA);
    TokensOfField(2, "members", M('['));
    TokensConcat([Gap(true, 2), M('}')], [COMMA]);
    TokensConcat([Gap(true, 2), M('}')] + [COMMA], FieldPieces(2, "members", M('[')));
  }

  /** The tokens of the whole document. */
  function ManifestTokens(h: Header, ms: seq<Entry>): seq<Token> {
    [OPEN] + FieldTokens("header", HeaderTokens(h)) + [COMMA_MARK] + FieldTokens("members", MembersTokens(ms)) + [CLOSE]
  }

  lemma HeaderProper(h: Header)
    ensures forall i :: 0 <= i < |HeaderPieces(h)| ==> Proper(HeaderPieces(h)[i])
  {
    hide Lit;
  }

  lemma ManifestLexes(h: Header, ms: seq<Entry>)
    ensures Lex(Print(h, ms)) == Some(ManifestTokens(h, ms))
  {
    hide Lex, Flat, HeaderPieces, ListPieces, ListTokens, HeaderFields, Members, RowsTokens, Tokens, OpeningPieces, MiddlePieces, Lit;
    HeaderProper(h);
    LexFlat(HeaderPieces(h), Members(ms));
    MembersLex(ms);
    HeaderIsList(h);
    TokensConcat(OpeningPieces(), ListPieces(4, HeaderFields(h)));
    TokensConcat(OpeningPieces() + ListPieces(4, HeaderFields(h)), MiddlePieces());
    TokensOfList(4, HeaderFields(h));
    FrameTokens();
    var fields := ListTokens(HeaderFields(h));
    var head := [OPEN] + FieldTokens("header", [OPEN]) + fields + ([CLOSE, COMMA_MARK] + FieldTokens("members", [OPEN_LIST]));
    assert Tokens(HeaderPieces(h)) == head;
    assert FieldTokens("header", HeaderTokens(h)) == FieldTokens("header", [OPEN]) + fields + [CLOSE];
    assert FieldTokens("members", MembersTokens(ms)) == FieldTokens("members", [OPEN_LIST]) + RowsTokens(ms) + [CLOSE_LIST];
    assert head + (RowsTokens(ms) + [CLOSE_LIST, CLOSE]) == ManifestTokens(h, ms);
  }

  lemma HeaderReads(h: Header)
    ensures Reads(HeaderTokens(h), HeaderJson(h))
  {
    hide ListTokens, Reads, Lit;
    var fs := HeaderFields(h);
    ObjectReads(fs);
    ListJsonThree(fs);
  }

  lemma ManifestReads(h: Header, ms: seq<Entry>)
    ensures Value(ManifestTokens(h, ms)) == Some((ManifestJson(h, ms), []))
  {
    hide Fields, Items, Reads, HeaderTokens, MembersTokens, HeaderJson, EntryJsons, Lit;
    HeaderReads(h);
    MembersRead(ms);
    var members := FieldTokens("members", MembersTokens(ms)) + [CLOSE] + [];
    LastField("members", MembersTokens(ms), Array(EntryJsons(ms)), []);
    FieldThen("header", HeaderTokens(h), HeaderJson(h), members, [(Lit("members"), Array(EntryJsons(ms)))], []);
    var ts := ManifestTokens(h, ms);
    assert ts[1..] == FieldTokens("header", HeaderTokens(h)) + [COMMA_MARK] + members;
    var fs := [(Lit("header"), HeaderJson(h)), (Lit("members"), Array(EntryJsons(ms)))];
    assert [fs[0]] + [fs[1]] == fs;
    assert ts[1] == FieldTokens("header", HeaderTokens(h))[0];
  }

  /**
    * The manifest reads back: whatever its strings hold, a JSON reader finds the header's two values and the tool's stamp
    * under their keys, and for every member, in order, its five values each under its own key.
    */
  lemma ManifestReadsBack(h: Header, ms: seq<Entry>)
    ensures Parse(Print(h, ms)) == Some(ManifestJson(h, ms))
  {
    hide Lex, Value, Print, ManifestTokens, ManifestJson;
    ManifestLexes(h, ms);
    ManifestReads(h, ms);
  }
}
