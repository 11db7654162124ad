// The SQL text the services print, read back by a lexer: whatever quotes, backticks, commas or
// backslashes a value contains, the text lexes back to that value; for identifiers, which are only
// escaped against backticks, exactly the legible ones do.

module Sql {
  import opened Domain

  // ---------------------------------------------------------------- escaping

  /** `str::replace` for a one-character pattern. */
  function Replace(s: string, c: char, sub: string): string {
    if s == "" then "" else (if s[0] == c then sub else [s[0]]) + Replace(s[1..], c, sub)
  }

  function EscapeIdent(s: string): string {
    Replace(s, '`', "``")
  }

  /** Two passes: backslashes first, then quotes. */
  function EscapeSqlString(s: string): string {
    Replace(Replace(s, '\\', "\\\\"), '\'', "\\'")
  }

  function EscapeChar(c: char): string {
    if c == '\\' then "\\\\" else if c == '\'' then "\\'" else [c]
  }

  /** One pass, character by character. */
  function EscapeOnce(s: string): string {
    if s == "" then "" else EscapeChar(s[0]) + EscapeOnce(s[1..])
  }

  lemma {:induction false} ReplaceConcat(a: string, b: string, c: char, sub: string)
    ensures Replace(a + b, c, sub) == Replace(a, c, sub) + Replace(b, c, sub)
  {
    if a == "" {
      assert a + b == b;
    } else {
      assert (a + b)[0] == a[0] && (a + b)[1..] == a[1..] + b;
      ReplaceConcat(a[1..], b, c, sub);
    }
  }

  lemma ReplaceShort(c: char)
    ensures Replace([c], '\'', "\\'") == if c == '\'' then "\\'" else [c]
    ensures Replace("\\\\", '\'', "\\'") == "\\\\"
  {
    assert Replace([c][1..], '\'', "\\'") == "";
    assert "\\\\"[1..] == "\\" && "\\"[1..] == "";
    assert Replace("\\", '\'', "\\'") == "\\";
  }

  /** The second pass never touches what the first one wrote. */
  lemma {:induction false} TwoPassesAreOne(s: string)
    ensures EscapeSqlString(s) == EscapeOnce(s)
  {
    if s != "" {
      var head := if s[0] == '\\' then "\\\\" else [s[0]];
      ReplaceConcat(head, Replace(s[1..], '\\', "\\\\"), '\'', "\\'");
      ReplaceShort(s[0]);
      TwoPassesAreOne(s[1..]);
    }
  }

  // ---------------------------------------------------------------- lexing

  /** What a backslash followed by a character stands for inside quotes: one character, nothing, or
      the two characters themselves. */
  datatype Escape = Char(c: char) | Nothing | Verbatim
  type Dialect = char -> Escape

  /** The dialects the printers are written for. */
  ghost predicate Reads(d: Dialect) {
    && d('\\') == Char('\\') && d('\'') == Char('\'') && d('`') in {Char('`'), Verbatim}
    && forall c :: d(c) == Char('\\') ==> c == '\\'
  }

  function Decode(d: Dialect, c: char): string {
    match d(c)
    case Char(x) => [x]
    case Nothing => ""
    case Verbatim => ['\\', c]
  }

  datatype Scanned = Open | Closed(value: string, rest: string)

  function Push(s: string, r: Scanned): Scanned {
    match r
    case Open => Open
    case Closed(v, rest) => Closed(s + v, rest)
  }

  /** Read a quoted token whose opening quote `q` is already consumed. */
  function Scan(d: Dialect, q: char, s: string): (r: Scanned)
    ensures r.Closed? ==> |r.rest| < |s|
    decreases |s|
  {
    if s == "" then Open
    else if s[0] == '\\' then
      if |s| == 1 then Open else Push(Decode(d, s[1]), Scan(d, q, s[2..]))
    else if s[0] == q then
      if |s| > 1 && s[1] == q then Push([q], Scan(d, q, s[2..])) else Closed("", s[1..])
    else Push([s[0]], Scan(d, q, s[1..]))
  }

  datatype Lexeme = Ident(name: string) | Str(text: string) | Raw(c: char)

  function Before(xs: seq<Lexeme>, o: Option<seq<Lexeme>>): Option<seq<Lexeme>> {
    match o
    case None => None
    case Some(ys) => Some(xs + ys)
  }

  lemma BeforeBefore(a: seq<Lexeme>, b: seq<Lexeme>, o: Option<seq<Lexeme>>)
    ensures Before(a, Before(b, o)) == Before(a + b, o)
  {
    if o.Some? {
      assert a + (b + o.value) == a + b + o.value;
    }
  }

  lemma BeforeSome(a: seq<Lexeme>, o: Option<seq<Lexeme>>, b: seq<Lexeme>)
    ensures Before(a, o) == Some(a + b) <==> o == Some(b)
  {
    if o.Some? {
      assert (a + o.value)[|a|..] == o.value && (a + b)[|a|..] == b;
    }
  }

  lemma BeforeNothing(o: Option<seq<Lexeme>>)
    ensures Before([], o) == o
  {
    if o.Some? {
      assert [] + o.value == o.value;
    }
  }

  function Lex(d: Dialect, s: string): Option<seq<Lexeme>>
    decreases |s|
  {
    if s == "" then Some([])
    else if s[0] == '`' || s[0] == '\'' then
      var r := Scan(d, s[0], s[1..]);
      if r.Open? then None
      else Before([if s[0] == '`' then Ident(r.value) else Str(r.value)], Lex(d, r.rest))
    else Before([Raw(s[0])], Lex(d, s[1..]))
  }

  /** The text after a token does not continue it. */
  predicate Ends(q: char, rest: string) {
    rest == "" || rest[0] != q
  }

  // ---------------------------------------------------------------- strings

  lemma {:induction false} ScanString(d: Dialect, v: string, rest: string)
    requires Reads(d) && Ends('\'', rest)
    ensures Scan(d, '\'', EscapeOnce(v) + "'" + rest) == Closed(v, rest)
  {
    var text := EscapeOnce(v) + "'" + rest;
    if v == "" {
      assert text == "'" + rest;
      assert text[1..] == rest;
    } else {
      ScanString(d, v[1..], rest);
      var e := EscapeChar(v[0]);
      assert text == e + (EscapeOnce(v[1..]) + "'" + rest);
      assert text[|e|..] == EscapeOnce(v[1..]) + "'" + rest;
      assert [v[0]] + v[1..] == v;
    }
  }

  // ---------------------------------------------------------------- identifiers

  /** A backslash in the name reads as itself: the dialect leaves it alone in front of the character
      that follows it, and that is not a backtick. */
  predicate Legible(d: Dialect, v: string)
    decreases |v|
  {
    if v == "" then true
    else if v[0] != '\\' then Legible(d, v[1..])
    else |v| > 1 && v[1] != '`' && d(v[1]).Verbatim? && Legible(d, v[2..])
  }

  /** In particular a name without a backslash is legible. */
  lemma {:induction false} NoBackslashLegible(d: Dialect, v: string)
    requires '\\' !in v
    ensures Legible(d, v)
  {
    if v != "" {
      NoBackslashLegible(d, v[1..]);
    }
  }

  function Quoted(v: string, rest: string): string {
    EscapeIdent(v) + "`" + rest
  }

  lemma QuotedHead(v: string, rest: string)
    requires v != ""
    ensures var e := if v[0] == '`' then "``" else [v[0]];
            Quoted(v, rest) == e + Quoted(v[1..], rest) && Quoted(v, rest)[|e|..] == Quoted(v[1..], rest)
  {
    var e := if v[0] == '`' then "``" else [v[0]];
    assert Quoted(v, rest) == e + Quoted(v[1..], rest);
  }

  lemma QuotedPair(v: string, rest: string)
    requires |v| > 1 && v[0] == '\\' && v[1] != '`'
    ensures Quoted(v, rest)[..2] == v[..2] && Quoted(v, rest)[2..] == Quoted(v[2..], rest)
  {
    QuotedHead(v, rest);
    QuotedHead(v[1..], rest);
    assert v[1..][1..] == v[2..];
    assert Quoted(v, rest)[2..] == Quoted(v, rest)[1..][1..];
  }

  lemma {:induction false} ScanLegible(d: Dialect, v: string, rest: string)
    requires Reads(d) && Ends('`', rest) && Legible(d, v)
    ensures Scan(d, '`', Quoted(v, rest)) == Closed(v, rest)
    decreases |v|
  {
    if v == "" {
      assert Quoted(v, rest) == "`" + rest;
      assert Quoted(v, rest)[1..] == rest;
    } else if v[0] != '\\' {
      QuotedHead(v, rest);
      ScanLegible(d, v[1..], rest);
      assert [v[0]] + v[1..] == v;
    } else {
      QuotedPair(v, rest);
      ScanLegible(d, v[2..], rest);
      assert ['\\', v[1]] + v[2..] == v;
    }
  }

  lemma PushSame(e: string, r: Scanned, v: string)
    requires r.Closed? ==> r.value != v
    ensures Push(e, r).Closed? ==> Push(e, r).value != e + v
  {
    if r.Closed? {
      assert (e + r.value)[|e|..] == r.value && (e + v)[|e|..] == v;
    }
  }

  lemma PushLater(e: string, r: Scanned, v: string, k: nat)
    requires k < |e| && (k < |v| ==> e[k] != v[k])
    ensures Push(e, r).Closed? ==> Push(e, r).value != v
  {
    if r.Closed? {
      assert (e + r.value)[k] == e[k];
    }
  }

  lemma PushNothing(r: Scanned)
    ensures Push("", r) == r
  {
    if r.Closed? {
      assert "" + r.value == r.value;
    }
  }

  /** Once the reading is behind by some text `p` without backticks it never catches up. */
  lemma {:induction false} Lagging(d: Dialect, m: string, p: string, rest: string)
    requires Reads(d) && Ends('`', rest) && p != "" && '`' !in p
    ensures var r := Scan(d, '`', Quoted(m, rest)); r.Closed? ==> r.value != p + m
    decreases |m|, 1
  {
    var text := Quoted(m, rest);
    assert '`' !in p ==> p[0] != '`';
    if m == "" {
      assert text == "`" + rest;
    } else if m[0] == '`' {
      QuotedHead(m, rest);
      PushLater("`", Scan(d, '`', text[2..]), p + m, 0);
    } else if m[0] != '\\' {
      QuotedHead(m, rest);
      LaggingChar(d, m, p, rest);
    } else if |m| == 1 || m[1] == '`' {
      QuotedHead(m, rest);
      LaggingQuote(d, m, p, rest);
    } else {
      LaggingPair(d, m, p, rest);
    }
  }

  lemma {:induction false} LaggingChar(d: Dialect, m: string, p: string, rest: string)
    requires Reads(d) && Ends('`', rest) && p != "" && '`' !in p
    requires m != "" && m[0] != '`' && m[0] != '\\'
    ensures var r := Scan(d, '`', Quoted(m, rest)); r.Closed? ==> r.value != p + m
    decreases |m|, 0
  {
    QuotedHead(m, rest);
    var more := Scan(d, '`', Quoted(m[1..], rest));
    if p[0] == m[0] {
      var q := p[1..] + [m[0]];
      Lagging(d, m[1..], q, rest);
      PushSame([m[0]], more, q + m[1..]);
      assert [m[0]] + (q + m[1..]) == p + m;
    } else {
      PushLater([m[0]], more, p + m, 0);
    }
  }

  /** A backslash in front of a backtick, the closing one or one of the name. */
  lemma LaggingQuote(d: Dialect, m: string, p: string, rest: string)
    requires Reads(d) && Ends('`', rest) && p != "" && '`' !in p
    requires m != "" && m[0] == '\\' && (|m| == 1 || m[1] == '`')
    ensures var r := Scan(d, '`', Quoted(m, rest)); r.Closed? ==> r.value != p + m
  {
    var text := Quoted(m, rest);
    QuotedHead(m, rest);
    assert text[1] == '`' by {
      if |m| == 1 {
        assert Quoted(m[1..], rest) == "`" + rest;
      } else {
        QuotedHead(m[1..], rest);
      }
    }
    var more := Scan(d, '`', text[2..]);
    if d('`').Char? {
      PushLater("`", more, p + m, 0);
    } else {
      assert (p + m)[1] != '`' by {
        if |p| == 1 { assert (p + m)[1] == m[0]; } else { assert (p + m)[1] == p[1]; }
      }
      PushLater(['\\', '`'], more, p + m, 1);
    }
  }

  /** A backslash in front of any other character of the name. */
  lemma {:induction false} LaggingPair(d: Dialect, m: string, p: string, rest: string)
    requires Reads(d) && Ends('`', rest) && p != "" && '`' !in p
    requires |m| > 1 && m[0] == '\\' && m[1] != '`'
    ensures var r := Scan(d, '`', Quoted(m, rest)); r.Closed? ==> r.value != p + m
    decreases |m|, 0
  {
    QuotedPair(m, rest);
    var e, more := Decode(d, m[1]), Scan(d, '`', Quoted(m[2..], rest));
    assert Scan(d, '`', Quoted(m, rest)) == Push(e, more);
    var q := p + m[..2];
    if e == "" {
      Lagging(d, m[2..], q, rest);
      PushNothing(more);
      assert q + m[2..] == p + m;
    } else if e <= q {
      Lagging(d, m[2..], q[|e|..], rest);
      PushSame(e, more, q[|e|..] + m[2..]);
      assert e + (q[|e|..] + m[2..]) == p + m;
    } else {
      var k :| 0 <= k < |e| && e[k] != q[k];
      assert (p + m)[k] == q[k];
      PushLater(e, more, p + m, k);
    }
  }

  /** Once the first half of a doubled backtick is swallowed the reading never catches up. */
  lemma {:induction false} Misaligned(d: Dialect, m: string, rest: string)
    requires Ends('`', rest)
    ensures var r := Scan(d, '`', "`" + Quoted(m, rest)); r.Closed? ==> r.value != m
    decreases |m|
  {
    var text := "`" + Quoted(m, rest);
    if m == "" {
      assert text == "``" + rest;
      assert text[2..] == rest;
    } else {
      QuotedHead(m, rest);
      if m[0] == '`' {
        assert text[2..] == "`" + Quoted(m[1..], rest);
        Misaligned(d, m[1..], rest);
        PushSame("`", Scan(d, '`', text[2..]), m[1..]);
        assert "`" + m[1..] == m;
      } else {
        assert text[1] == m[0];
      }
    }
  }

  lemma {:induction false} ScanIllegible(d: Dialect, v: string, rest: string)
    requires Reads(d) && Ends('`', rest) && !Legible(d, v)
    ensures var r := Scan(d, '`', Quoted(v, rest)); r.Closed? ==> r.value != v
    decreases |v|, 1
  {
    QuotedHead(v, rest);
    if v[0] != '\\' {
      ScanIllegible(d, v[1..], rest);
      PushSame([v[0]], Scan(d, '`', Quoted(v[1..], rest)), v[1..]);
      assert [v[0]] + v[1..] == v;
    } else if |v| == 1 {
      assert v == "\\";
      IllegibleEnd(d, rest);
    } else if v[1] == '`' {
      IllegibleTick(d, v, rest);
    } else {
      IllegiblePair(d, v, rest);
    }
  }

  /** A backslash in front of the closing backtick. */
  lemma IllegibleEnd(d: Dialect, rest: string)
    requires Reads(d)
    ensures var r := Scan(d, '`', Quoted("\\", rest)); r.Closed? ==> r.value != "\\"
  {
    var text := Quoted("\\", rest);
    QuotedHead("\\", rest);
    assert Quoted("\\"[1..], rest) == "`" + rest;
    assert text[1] == '`';
    var more := Scan(d, '`', text[2..]);
    if d('`').Char? {
      PushLater("`", more, "\\", 0);
    } else {
      PushLater(['\\', '`'], more, "\\", 1);
    }
  }

  /** A backslash in front of a backtick of the name. */
  lemma IllegibleTick(d: Dialect, v: string, rest: string)
    requires Reads(d) && Ends('`', rest) && |v| > 1 && v[0] == '\\' && v[1] == '`'
    ensures var r := Scan(d, '`', Quoted(v, rest)); r.Closed? ==> r.value != v
  {
    var text := Quoted(v, rest);
    QuotedHead(v, rest);
    QuotedHead(v[1..], rest);
    assert v[1..][1..] == v[2..];
    assert text[..2] == ['\\', '`'] && text[2..] == "`" + Quoted(v[2..], rest);
    var more := Scan(d, '`', text[2..]);
    if d('`').Char? {
      PushLater("`", more, v, 0);
    } else {
      Misaligned(d, v[2..], rest);
      PushSame(['\\', '`'], more, v[2..]);
      assert ['\\', '`'] + v[2..] == v;
    }
  }

  lemma {:induction false} IllegiblePair(d: Dialect, v: string, rest: string)
    requires Reads(d) && Ends('`', rest) && !Legible(d, v) && |v| > 1 && v[0] == '\\' && v[1] != '`'
    ensures var r := Scan(d, '`', Quoted(v, rest)); r.Closed? ==> r.value != v
    decreases |v|, 0
  {
    QuotedPair(v, rest);
    var e, more := Decode(d, v[1]), Scan(d, '`', Quoted(v[2..], rest));
    assert Scan(d, '`', Quoted(v, rest)) == Push(e, more);
    match d(v[1])
    case Verbatim =>
      ScanIllegible(d, v[2..], rest);
      PushSame(v[..2], more, v[2..]);
      assert v[..2] + v[2..] == v;
    case Nothing =>
      Lagging(d, v[2..], v[..2], rest);
      PushNothing(more);
      assert v[..2] + v[2..] == v;
    case Char(x) =>
      if x == '\\' {
        Lagging(d, v[2..], "\\", rest);
        PushSame("\\", more, "\\" + v[2..]);
        assert "\\" + ("\\" + v[2..]) == v;
      } else {
        PushLater([x], more, v, 0);
      }
  }

  /** A name that ends in a backslash swallows its closing backtick in every dialect. */
  lemma {:induction false} TrailingBackslash(d: Dialect, v: string)
    requires Reads(d) && v != "" && v[|v| - 1] == '\\'
    ensures !Legible(d, v)
    decreases |v|
  {
    if |v| > 1 && v[0] != '\\' {
      TrailingBackslash(d, v[1..]);
    } else if |v| > 2 {
      TrailingBackslash(d, v[2..]);
    }
  }

  /** A quoted identifier reads back as itself exactly if it is legible. */
  lemma IdentRoundTrip(d: Dialect, v: string, rest: string)
    requires Reads(d) && Ends('`', rest)
    ensures Scan(d, '`', EscapeIdent(v) + "`" + rest) == Closed(v, rest) <==> Legible(d, v)
  {
    if Legible(d, v) {
      ScanLegible(d, v, rest);
    } else {
      ScanIllegible(d, v, rest);
    }
  }

  // ---------------------------------------------------------------- statements

  /** Text without quotes. */
  predicate Plain(s: string) {
    forall i :: 0 <= i < |s| ==> s[i] != '`' && s[i] != '\''
  }

  function Raws(s: string): seq<Lexeme> {
    seq(|s|, i requires 0 <= i < |s| => Raw(s[i]))
  }

  lemma LexRaw(d: Dialect, c: char, rest: string)
    requires c != '`' && c != '\''
    ensures Lex(d, [c] + rest) == Before([Raw(c)], Lex(d, rest))
  {
    var s := [c] + rest;
    assert s[0] == c && s[1..] == rest;
  }

  lemma {:induction false} LexPlain(d: Dialect, s: string, rest: string)
    requires Plain(s)
    ensures Lex(d, s + rest) == Before(Raws(s), Lex(d, rest))
  {
    if s == "" {
      assert s + rest == rest;
      assert Raws(s) == [];
      BeforeNothing(Lex(d, rest));
    } else {
      var c, more := s[0], s[1..];
      assert s + rest == [c] + (more + rest);
      LexRaw(d, c, more + rest);
      LexPlain(d, more, rest);
      BeforeBefore([Raw(c)], Raws(more), Lex(d, rest));
      assert [Raw(c)] + Raws(more) == Raws(s);
    }
  }

  lemma LexString(d: Dialect, v: string, rest: string)
    requires Reads(d) && Ends('\'', rest)
    ensures Lex(d, "'" + (EscapeSqlString(v) + ("'" + rest))) == Before([Str(v)], Lex(d, rest))
  {
    TwoPassesAreOne(v);
    ScanString(d, v, rest);
    var text := "'" + (EscapeSqlString(v) + ("'" + rest));
    assert text[1..] == EscapeOnce(v) + "'" + rest;
  }

  lemma LexIdent(d: Dialect, v: string, rest: string)
    requires Reads(d) && Ends('`', rest)
    ensures var o := Lex(d, "`" + (EscapeIdent(v) + ("`" + rest)));
            if Legible(d, v) then o == Before([Ident(v)], Lex(d, rest)) else o.Some? ==> o.value[..1] != [Ident(v)]
  {
    IdentRoundTrip(d, v, rest);
    var text := "`" + (EscapeIdent(v) + ("`" + rest));
    assert text[1..] == Quoted(v, rest);
    if !Legible(d, v) {
      ScanIllegible(d, v, rest);
      var o := Lex(d, text);
      if o.Some? {
        assert o.value[0] == Ident(Scan(d, '`', text[1..]).value);
      }
    }
  }

  // -- comma-separated lists of expressions, each around one quoted identifier

  datatype Item = Item(before: string, name: string, after: string)

  predicate ItemOk(x: Item) {
    Plain(x.before) && Plain(x.after)
  }

  /** The items, joined by `", "`, then `tail`. */
  function Listed(xs: seq<Item>, tail: string): string {
    if xs == [] then tail
    else
      xs[0].before + ("`" + (EscapeIdent(xs[0].name) + ("`" + (xs[0].after +
        (if |xs| == 1 then "" else ", ") + Listed(xs[1..], tail)))))
  }

  function ListLexemes(xs: seq<Item>): seq<Lexeme> {
    if xs == [] then []
    else
      Raws(xs[0].before) + [Ident(xs[0].name)] +
      Raws(xs[0].after + (if |xs| == 1 then "" else ", ")) + ListLexemes(xs[1..])
  }

  predicate AllLegible(d: Dialect, xs: seq<Item>) {
    forall i :: 0 <= i < |xs| ==> Legible(d, xs[i].name)
  }

  predicate StartsWith(o: Option<seq<Lexeme>>, xs: seq<Lexeme>) {
    o.Some? && xs <= o.value
  }

  lemma StartsFirst(o: Option<seq<Lexeme>>, xs: seq<Lexeme>)
    requires xs != []
    ensures StartsWith(o, xs) ==> o.value[..1] == xs[..1]
  {
  }

  lemma StartsAfter(a: seq<Lexeme>, b: seq<Lexeme>, o: Option<seq<Lexeme>>)
    ensures StartsWith(Before(a, o), a + b) <==> StartsWith(o, b)
  {
    if o.Some? {
      var v := a + o.value;
      assert v[|a|..] == o.value;
      if a + b <= v {
        assert o.value[..|b|] == v[|a|..|a| + |b|] == (a + b)[|a|..] == b;
      }
      if b <= o.value {
        assert v[..|a| + |b|] == a + o.value[..|b|];
      }
    }
  }

  /** The first item's text and lexemes up to the second one. */
  function Gap(xs: seq<Item>): string
    requires xs != []
  {
    xs[0].after + (if |xs| == 1 then "" else ", ")
  }

  lemma ListedHead(xs: seq<Item>, tail: string)
    requires xs != [] && ItemOk(xs[0]) && Ends('`', tail)
    ensures var rest := Gap(xs) + Listed(xs[1..], tail);
            && Listed(xs, tail) == xs[0].before + ("`" + (EscapeIdent(xs[0].name) + ("`" + rest)))
            && Ends('`', rest) && Plain(Gap(xs))
    ensures ListLexemes(xs) == Raws(xs[0].before) + ([Ident(xs[0].name)] + (Raws(Gap(xs)) + ListLexemes(xs[1..])))
  {
    var rest := Gap(xs) + Listed(xs[1..], tail);
    if |xs| == 1 {
      assert Gap(xs) == xs[0].after;
      assert xs[1..] == [];
      assert xs[0].after == "" ==> rest == tail;
    }
    assert Gap(xs) != "" ==> rest[0] == Gap(xs)[0];
    assert xs[0].after + (if |xs| == 1 then "" else ", ") + Listed(xs[1..], tail) == rest;
  }

  lemma LexItem(d: Dialect, xs: seq<Item>, tail: string)
    requires Reads(d) && Ends('`', tail) && xs != [] && ItemOk(xs[0])
    ensures var more := Lex(d, Listed(xs[1..], tail));
            Legible(d, xs[0].name) ==>
              Lex(d, Listed(xs, tail)) ==
              Before(Raws(xs[0].before), Before([Ident(xs[0].name)], Before(Raws(Gap(xs)), more)))
    ensures !Legible(d, xs[0].name) ==> !StartsWith(Lex(d, Listed(xs, tail)), ListLexemes(xs))
  {
    var x := xs[0];
    var rest := Gap(xs) + Listed(xs[1..], tail);
    var text := "`" + (EscapeIdent(x.name) + ("`" + rest));
    ListedHead(xs, tail);
    LexPlain(d, x.before, text);
    LexIdent(d, x.name, rest);
    LexPlain(d, Gap(xs), Listed(xs[1..], tail));
    if !Legible(d, x.name) {
      var more := [Ident(x.name)] + (Raws(Gap(xs)) + ListLexemes(xs[1..]));
      StartsAfter(Raws(x.before), more, Lex(d, text));
      StartsFirst(Lex(d, text), more);
      assert more[..1] == [Ident(x.name)];
    }
  }

  /** The text of a list reads back as its items exactly if every name is legible. */
  lemma {:induction false} LexList(d: Dialect, xs: seq<Item>, tail: string)
    requires Reads(d) && Ends('`', tail)
    requires forall i :: 0 <= i < |xs| ==> ItemOk(xs[i])
    ensures AllLegible(d, xs) ==> Lex(d, Listed(xs, tail)) == Before(ListLexemes(xs), Lex(d, tail))
    ensures !AllLegible(d, xs) ==> !StartsWith(Lex(d, Listed(xs, tail)), ListLexemes(xs))
  {
    if xs == [] {
      BeforeNothing(Lex(d, tail));
    } else {
      LexList(d, xs[1..], tail);
      LexItem(d, xs, tail);
      ListedHead(xs, tail);
      AllLegibleHead(d, xs);
      if Legible(d, xs[0].name) {
        ListStep(Raws(xs[0].before), [Ident(xs[0].name)], Raws(Gap(xs)), ListLexemes(xs[1..]),
                 Lex(d, Listed(xs[1..], tail)), Lex(d, tail));
      }
    }
  }

  lemma AllLegibleHead(d: Dialect, xs: seq<Item>)
    requires xs != []
    ensures AllLegible(d, xs) <==> Legible(d, xs[0].name) && AllLegible(d, xs[1..])
  {
    assert xs == [xs[0]] + xs[1..];
  }

  lemma ListStep(a: seq<Lexeme>, b: seq<Lexeme>, c: seq<Lexeme>, more: seq<Lexeme>,
                 o: Option<seq<Lexeme>>, tail: Option<seq<Lexeme>>)
    ensures var all := a + (b + (c + more));
            && (o == Before(more, tail) ==> Before(a, Before(b, Before(c, o))) == Before(all, tail))
            && (StartsWith(Before(a, Before(b, Before(c, o))), all) <==> StartsWith(o, more))
  {
    BeforeBefore(c, more, tail);
    BeforeBefore(b, c + more, tail);
    BeforeBefore(a, b + (c + more), tail);
    StartsAfter(c, more, o);
    StartsAfter(b, c + more, Before(c, o));
    StartsAfter(a, b + (c + more), Before(b, Before(c, o)));
  }

  // ---------------------------------------------------------------- the statements themselves

  function Columns(names: seq<string>): seq<Item> {
    seq(|names|, i requires 0 <= i < |names| => Item("", names[i], ""))
  }

  const FROM_URL := ") SELECT * FROM url("
  const LIMITS := ") SETTINGS max_execution_time = 120"

  /** `src` is already escaped. */
  function BuildInsert(table: string, names: seq<string>, src: string): string {
    "INSERT INTO " + ("`" + (EscapeIdent(table) + ("`" + (" (" +
      Listed(Columns(names), FROM_URL + ("'" + (src + ("'" + LIMITS))))))))
  }

  /** The names and nothing else, separated by commas. */
  function NameLexemes(names: seq<string>): seq<Lexeme> {
    if names == [] then []
    else [Ident(names[0])] + ((if |names| == 1 then [] else Raws(", ")) + NameLexemes(names[1..]))
  }

  lemma {:induction false} NameLexemesList(names: seq<string>)
    ensures ListLexemes(Columns(names)) == NameLexemes(names)
  {
    var xs := Columns(names);
    if names != [] {
      assert xs[1..] == Columns(names[1..]);
      NameLexemesList(names[1..]);
      ListedHead(xs, "");
      assert Raws("") == [];
      assert Gap(xs) == if |names| == 1 then "" else ", ";
      assert [] + ([Ident(names[0])] + (Raws(Gap(xs)) + ListLexemes(xs[1..]))) ==
             [Ident(names[0])] + (Raws(Gap(xs)) + ListLexemes(xs[1..]));
    }
  }

  /** The statement that names the table, the columns in order, and the URL. */
  function InsertLexemes(table: string, names: seq<string>, url: string): seq<Lexeme> {
    Raws("INSERT INTO ") + ([Ident(table)] + (Raws(" (") + (NameLexemes(names) +
      (Raws(") SELECT * FROM url(") + ([Str(url)] + Raws(") SETTINGS max_execution_time = 120"))))))
  }

  lemma {:induction false} HexPlain(n: nat, width: nat)
    ensures forall c :: c in Hex(n, width) ==> c != '\\'
  {
    if width > 0 {
      HexPlain(n / 16, width - 1);
    }
  }

  lemma TableLegible(d: Dialect, user: Uuid, job: Uuid)
    ensures Legible(d, DatasetTableName(user, job))
  {
    HexPlain(user, 32);
    HexPlain(job, 32);
    NoBackslashLegible(d, DatasetTableName(user, job));
  }

  /** A string between two stretches of plain text. */
  lemma LexAround(d: Dialect, pre: string, v: string, post: string)
    requires Reads(d) && Plain(pre) && Plain(post) && Ends('\'', post)
    ensures Lex(d, pre + ("'" + (EscapeSqlString(v) + ("'" + post)))) == Some(Raws(pre) + ([Str(v)] + Raws(post)))
  {
    LexPlain(d, post, "");
    assert post + "" == post && Raws(post) + [] == Raws(post);
    LexString(d, v, post);
    LexPlain(d, pre, "'" + (EscapeSqlString(v) + ("'" + post)));
  }

  /** A legible identifier between two stretches of plain text. */
  lemma LexAfter(d: Dialect, pre: string, name: string, mid: string, rest: string, ys: seq<Lexeme>)
    requires Reads(d) && Plain(pre) && Plain(mid) && Ends('`', mid + rest) && Legible(d, name)
    ensures Lex(d, pre + ("`" + (EscapeIdent(name) + ("`" + (mid + rest))))) ==
            Some(Raws(pre) + ([Ident(name)] + (Raws(mid) + ys)))
            <==> Lex(d, rest) == Some(ys)
  {
    LexPlain(d, mid, rest);
    BeforeSome(Raws(mid), Lex(d, rest), ys);
    LexIdent(d, name, mid + rest);
    BeforeSome([Ident(name)], Lex(d, mid + rest), Raws(mid) + ys);
    var text := "`" + (EscapeIdent(name) + ("`" + (mid + rest)));
    LexPlain(d, pre, text);
    BeforeSome(Raws(pre), Lex(d, text), [Ident(name)] + (Raws(mid) + ys));
  }

  /** The INSERT statement reads back as the job's table, the exact column names in order and the
      source URL, whatever the URL contains, if and only if every column name is legible. */
  lemma InsertRoundTrip(d: Dialect, user: Uuid, job: Uuid, names: seq<string>, url: string)
    requires Reads(d)
    ensures var table := DatasetTableName(user, job);
            Lex(d, BuildInsert(table, names, EscapeSqlString(url))) == Some(InsertLexemes(table, names, url))
            <==> forall i :: 0 <= i < |names| ==> Legible(d, names[i])
  {
    var tail := FROM_URL + ("'" + (EscapeSqlString(url) + ("'" + LIMITS)));
    var end := Raws(FROM_URL) + ([Str(url)] + Raws(LIMITS));
    var xs := Columns(names);
    LexAround(d, FROM_URL, url, LIMITS);
    ListExact(d, xs, tail, end);
    TableLegible(d, user, job);
    LexAfter(d, "INSERT INTO ", DatasetTableName(user, job), " (", Listed(xs, tail), ListLexemes(xs) + end);
    ColumnsLegible(d, names);
    NameLexemesList(names);
  }

  lemma ListExact(d: Dialect, xs: seq<Item>, tail: string, end: seq<Lexeme>)
    requires Reads(d) && Ends('`', tail) && Lex(d, tail) == Some(end)
    requires forall i :: 0 <= i < |xs| ==> ItemOk(xs[i])
    ensures Lex(d, Listed(xs, tail)) == Some(ListLexemes(xs) + end) <==> AllLegible(d, xs)
  {
    LexList(d, xs, tail);
    assert ListLexemes(xs) <= ListLexemes(xs) + end;
  }

  lemma ColumnsLegible(d: Dialect, names: seq<string>)
    ensures AllLegible(d, Columns(names)) <==> forall i :: 0 <= i < |names| ==> Legible(d, names[i])
  {
    assert forall i :: 0 <= i < |names| ==> Columns(names)[i].name == names[i];
  }

  function Names(xs: seq<Lexeme>): seq<string> {
    if xs == [] then [] else (if xs[0].Ident? then [xs[0].name] else []) + Names(xs[1..])
  }

  function Texts(xs: seq<Lexeme>): seq<string> {
    if xs == [] then [] else (if xs[0].Str? then [xs[0].text] else []) + Texts(xs[1..])
  }

  lemma {:induction false} NamesConcat(a: seq<Lexeme>, b: seq<Lexeme>)
    ensures Names(a + b) == Names(a) + Names(b)
  {
    if a == [] {
      assert a + b == b;
    } else {
      var x, rest := a[0], a[1..];
      assert a == [x] + rest && a + b == [x] + (rest + b);
      NamesConcat(rest, b);
      NamesCons(x, rest);
      NamesCons(x, rest + b);
    }
  }

  lemma NamesCons(x: Lexeme, rest: seq<Lexeme>)
    ensures Names([x] + rest) == (if x.Ident? then [x.name] else []) + Names(rest)
  {
    assert ([x] + rest)[1..] == rest;
  }

  lemma {:induction false} TextsConcat(a: seq<Lexeme>, b: seq<Lexeme>)
    ensures Texts(a + b) == Texts(a) + Texts(b)
  {
    if a == [] {
      assert a + b == b;
    } else {
      var x, rest := a[0], a[1..];
      assert a == [x] + rest && a + b == [x] + (rest + b);
      TextsConcat(rest, b);
      TextsCons(x, rest);
      TextsCons(x, rest + b);
    }
  }

  lemma TextsCons(x: Lexeme, rest: seq<Lexeme>)
    ensures Texts([x] + rest) == (if x.Str? then [x.text] else []) + Texts(rest)
  {
    assert ([x] + rest)[1..] == rest;
  }

  lemma {:induction false} NamesRaws(s: string)
    ensures Names(Raws(s)) == [] && Texts(Raws(s)) == []
  {
    if s != "" {
      assert Raws(s)[1..] == Raws(s[1..]);
      NamesRaws(s[1..]);
    }
  }

  lemma {:induction false} NamesList(names: seq<string>)
    ensures Names(ListLexemes(Columns(names))) == names && Texts(ListLexemes(Columns(names))) == []
  {
    var xs := Columns(names);
    if names != [] {
      assert xs[1..] == Columns(names[1..]);
      NamesList(names[1..]);
      ListedHead(xs, "");
      NamesRaws("");
      NamesRaws(Gap(xs));
      NamesAround(Raws(""), Ident(names[0]), Raws(Gap(xs)), ListLexemes(xs[1..]));
      assert [names[0]] + names[1..] == names;
    }
  }

  lemma NamesAround(pre: seq<Lexeme>, x: Lexeme, mid: seq<Lexeme>, rest: seq<Lexeme>)
    requires Names(pre) == [] == Names(mid) && Texts(pre) == [] == Texts(mid)
    ensures var all := pre + ([x] + (mid + rest));
            && Names(all) == (if x.Ident? then [x.name] else []) + Names(rest)
            && Texts(all) == (if x.Str? then [x.text] else []) + Texts(rest)
  {
    NamesConcat(mid, rest);
    NamesConcat([x], mid + rest);
    NamesConcat(pre, [x] + (mid + rest));
    TextsConcat(mid, rest);
    TextsConcat([x], mid + rest);
    TextsConcat(pre, [x] + (mid + rest));
  }

  /** The identifiers in an INSERT statement are the table and the columns, its only string the URL. */
  lemma InsertMeaning(table: string, names: seq<string>, url: string)
    ensures Names(InsertLexemes(table, names, url)) == [table] + names
    ensures Texts(InsertLexemes(table, names, url)) == [url]
  {
    NamesRaws("INSERT INTO ");
    NamesRaws(" (");
    NamesRaws(FROM_URL);
    NamesRaws(LIMITS);
    NamesList(names);
    NameLexemesList(names);
    var list, end := ListLexemes(Columns(names)), Raws(FROM_URL) + ([Str(url)] + Raws(LIMITS));
    assert Raws(LIMITS) + [] == Raws(LIMITS);
    NamesAround(Raws(FROM_URL), Str(url), Raws(LIMITS), []);
    NamesConcat(list, end);
    TextsConcat(list, end);
    NamesAround(Raws("INSERT INTO "), Ident(table), Raws(" ("), list + end);
  }

  const MATCHES := " WHERE positionCaseInsensitive(toString("

  /** The filter of the data endpoint. */
  function WhereClause(column: string, needle: string): string {
    MATCHES + ("`" + (EscapeIdent(column) + ("`" + ("), " + ("'" + (EscapeSqlString(needle) + ("'" + ") > 0")))))))
  }

  /** A filter compares the requested column with the requested text, whatever that text contains. */
  lemma FilterRoundTrip(d: Dialect, column: string, needle: string)
    requires Reads(d)
    ensures Lex(d, WhereClause(column, needle)) ==
            Some(Raws(" WHERE positionCaseInsensitive(toString(") +
                 ([Ident(column)] + (Raws("), ") + ([Str(needle)] + Raws(") > 0")))))
            <==> Legible(d, column)
  {
    var text := "'" + (EscapeSqlString(needle) + ("'" + ") > 0"));
    var end := [Str(needle)] + Raws(") > 0");
    LexAround(d, "), ", needle, ") > 0");
    LexIdent(d, column, "), " + text);
    BeforeSome([Ident(column)], Lex(d, "), " + text), Raws("), ") + end);
    var quoted := "`" + (EscapeIdent(column) + ("`" + ("), " + text)));
    LexPlain(d, MATCHES, quoted);
    BeforeSome(Raws(MATCHES), Lex(d, quoted), [Ident(column)] + (Raws("), ") + end));
  }
}
