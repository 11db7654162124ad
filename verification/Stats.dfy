// The per-column aggregates: one query with positional aliases, and the lookups that read them back.

module Stats {
  import opened Domain
  import opened Sql
  import opened ColumnTypes

  // ---------------------------------------------------------------- aliases

  function Digit(d: nat): (c: char)
    requires d < 10
    ensures c != '_' && c != '`' && c != '\''
  {
    "0123456789"[d]
  }

  function Decimal(n: nat): (s: string)
    ensures s != ""
  {
    if n < 10 then [Digit(n)] else Decimal(n / 10) + [Digit(n % 10)]
  }

  lemma {:induction false} DecimalPlain(n: nat)
    ensures Plain(Decimal(n)) && '_' !in Decimal(n)
  {
    if n >= 10 {
      DecimalPlain(n / 10);
    }
  }

  lemma {:induction false} DecimalInjective(a: nat, b: nat)
    requires Decimal(a) == Decimal(b)
    ensures a == b
  {
    var s, t := Decimal(a), Decimal(b);
    assert s[|s| - 1] == Digit(a % 10) && t[|t| - 1] == Digit(b % 10);
    if a >= 10 && b >= 10 {
      assert s[..|s| - 1] == Decimal(a / 10) && t[..|t| - 1] == Decimal(b / 10);
      DecimalInjective(a / 10, b / 10);
    }
  }

  datatype Aggregate = Nulls | Distinct | Min | Max | Avg

  function Key(a: Aggregate): string {
    match a
    case Nulls => "nulls"
    case Distinct => "distinct"
    case Min => "min"
    case Max => "max"
    case Avg => "avg"
  }

  lemma KeyInjective(a: Aggregate, b: Aggregate)
    requires Key(a) == Key(b)
    ensures a == b
  {
    assert Key(Nulls)[0] == 'n' && Key(Distinct)[0] == 'd'
      && Key(Min)[1] == 'i' && Key(Max)[1] == 'a' && Key(Avg)[0] == 'a';
  }

  function Alias(i: nat, a: Aggregate): string {
    "c" + (Decimal(i) + ("_" + Key(a)))
  }

  lemma SplitAtUnderscore(a: string, b: string, x: string, y: string)
    requires '_' !in a && '_' !in b && a + ("_" + x) == b + ("_" + y)
    ensures a == b && x == y
  {
    var s, t := a + ("_" + x), b + ("_" + y);
    assert s[|a|] == '_' && t[|b|] == '_';
    assert forall k :: 0 <= k < |a| ==> s[k] == a[k] && a[k] != '_';
    assert forall k :: 0 <= k < |b| ==> t[k] == b[k] && b[k] != '_';
    assert s[..|a|] == a && t[..|b|] == b;
    assert s[|a| + 1..] == x && t[|b| + 1..] == y;
  }

  /** No two columns, and no two aggregates of a column, share an alias. */
  lemma AliasInjective(i: nat, a: Aggregate, k: nat, b: Aggregate)
    requires Alias(i, a) == Alias(k, b)
    ensures i == k && a == b
  {
    DecimalPlain(i);
    DecimalPlain(k);
    assert Alias(i, a)[1..] == Decimal(i) + ("_" + Key(a));
    assert Alias(k, b)[1..] == Decimal(k) + ("_" + Key(b));
    SplitAtUnderscore(Decimal(i), Decimal(k), Key(a), Key(b));
    DecimalInjective(i, k);
    KeyInjective(a, b);
  }

  // ---------------------------------------------------------------- the query

  /** One aggregate of one column; `text` if it is rendered with `toString`. */
  datatype Expr = Expr(column: string, agg: Aggregate, text: bool, alias: string)

  /** The aggregates a column of this kind gets. */
  predicate Wants(kind: Kind, agg: Aggregate, text: bool) {
    match agg
    case Nulls => !text
    case Distinct => !text
    case Min => (kind.Numeric? && !text) || (kind.Temporal? && text)
    case Max => (kind.Numeric? && !text) || (kind.Temporal? && text)
    case Avg => kind.Numeric? && !text
  }

  predicate ForColumn(columns: seq<(string, string)>, i: nat, e: Expr) {
    && i < |columns| && e.column == columns[i].0 && e.alias == Alias(i, e.agg)
    && Wants(Classify(columns[i].1), e.agg, e.text)
  }

  /** The expressions are the wanted aggregates of the first `n` columns, each under its own alias. */
  ghost predicate Covers(columns: seq<(string, string)>, n: nat, exprs: seq<Expr>) {
    && (forall e :: e in exprs ==> exists i: nat :: i < n && ForColumn(columns, i, e))
    && (forall e, i: nat :: i < n && ForColumn(columns, i, e) ==> e in exprs)
    && (forall k, m :: 0 <= k < m < |exprs| ==> exprs[k].alias != exprs[m].alias)
  }

  function Own(i: nat, column: string, kind: Kind): seq<Expr> {
    [Expr(column, Nulls, false, Alias(i, Nulls)), Expr(column, Distinct, false, Alias(i, Distinct))] +
    match kind
    case Numeric =>
      [Expr(column, Min, false, Alias(i, Min)), Expr(column, Max, false, Alias(i, Max)),
       Expr(column, Avg, false, Alias(i, Avg))]
    case Temporal => [Expr(column, Min, true, Alias(i, Min)), Expr(column, Max, true, Alias(i, Max))]
    case Boolean => []
    case Categorical => []
  }

  lemma OwnMembers(i: nat, column: string, kind: Kind, e: Expr)
    ensures e in Own(i, column, kind) <==>
              e.column == column && e.alias == Alias(i, e.agg) && Wants(kind, e.agg, e.text)
  {
    var o := Own(i, column, kind);
    assert o[0] == Expr(column, Nulls, false, Alias(i, Nulls))
      && o[1] == Expr(column, Distinct, false, Alias(i, Distinct));
    if kind.Numeric? {
      assert o[2] == Expr(column, Min, false, Alias(i, Min)) && o[3] == Expr(column, Max, false, Alias(i, Max));
      assert o[4] == Expr(column, Avg, false, Alias(i, Avg));
    } else if kind.Temporal? {
      assert o[2] == Expr(column, Min, true, Alias(i, Min)) && o[3] == Expr(column, Max, true, Alias(i, Max));
    }
  }

  lemma OwnDistinct(i: nat, column: string, kind: Kind, k: nat, m: nat)
    requires k < m < |Own(i, column, kind)|
    ensures Own(i, column, kind)[k].alias != Own(i, column, kind)[m].alias
  {
    var o := Own(i, column, kind);
    if o[k].alias == o[m].alias {
      AliasInjective(i, o[k].agg, i, o[m].agg);
    }
  }

  lemma CoversStep(columns: seq<(string, string)>, n: nat, exprs: seq<Expr>, more: seq<Expr>)
    requires n < |columns| && Covers(columns, n, exprs) && more == Own(n, columns[n].0, Classify(columns[n].1))
    ensures Covers(columns, n + 1, exprs + more)
  {
    var kind := Classify(columns[n].1);
    forall e ensures e in more <==> ForColumn(columns, n, e) {
      OwnMembers(n, columns[n].0, kind, e);
    }
    CoversMembers(columns, n, exprs, more);
    forall k, m | 0 <= k < m < |exprs + more| ensures (exprs + more)[k].alias != (exprs + more)[m].alias {
      if k >= |exprs| {
        OwnDistinct(n, columns[n].0, kind, k - |exprs|, m - |exprs|);
      } else if m >= |exprs| {
        var e, f := exprs[k], more[m - |exprs|];
        assert e in exprs && f in more;
        var i: nat :| i < n && ForColumn(columns, i, e);
        if e.alias == f.alias {
          AliasInjective(i, e.agg, n, f.agg);
        }
      }
    }
  }

  lemma CoversMembers(columns: seq<(string, string)>, n: nat, exprs: seq<Expr>, more: seq<Expr>)
    requires Covers(columns, n, exprs) && forall e :: e in more <==> ForColumn(columns, n, e)
    ensures forall e :: e in exprs + more ==> exists i: nat :: i < n + 1 && ForColumn(columns, i, e)
    ensures forall e, i: nat :: i < n + 1 && ForColumn(columns, i, e) ==> e in exprs + more
  {
    forall e | e in exprs + more ensures exists i: nat :: i < n + 1 && ForColumn(columns, i, e) {
      if e in exprs {
        var i: nat :| i < n && ForColumn(columns, i, e);
        assert i < n + 1;
      } else {
        assert n < n + 1 && ForColumn(columns, n, e);
      }
    }
  }

  /** Exactly the wanted aggregates of every column, all under different aliases. */
  method BuildStats(columns: seq<(string, string)>) returns (exprs: seq<Expr>)
    ensures Covers(columns, |columns|, exprs)
  {
    exprs := [];
    for i := 0 to |columns|
      invariant Covers(columns, i, exprs)
    {
      var c := columns[i].0;
      var own := [Expr(c, Nulls, false, Alias(i, Nulls)), Expr(c, Distinct, false, Alias(i, Distinct))];
      match Classify(columns[i].1) {
        case Numeric =>
          own := own + [Expr(c, Min, false, Alias(i, Min)), Expr(c, Max, false, Alias(i, Max)),
                        Expr(c, Avg, false, Alias(i, Avg))];
        case Temporal =>
          own := own + [Expr(c, Min, true, Alias(i, Min)), Expr(c, Max, true, Alias(i, Max))];
        case Boolean =>
        case Categorical =>
      }
      CoversStep(columns, i, exprs, own);
      exprs := exprs + own;
    }
  }

  // ---------------------------------------------------------------- the query text

  function Opening(e: Expr): string {
    match e.agg
    case Nulls => "countIf("
    case Distinct => "uniq("
    case Min => if e.text then "toString(min(" else "min("
    case Max => if e.text then "toString(max(" else "max("
    case Avg => "avg("
  }

  function Closing(e: Expr): string {
    (if e.agg.Nulls? then " IS NULL)" else if e.text then "))" else ")") + " AS "
  }

  function ItemOf(e: Expr): Item {
    Item(Opening(e), e.column, Closing(e) + e.alias)
  }

  function Items(exprs: seq<Expr>): seq<Item> {
    seq(|exprs|, i requires 0 <= i < |exprs| => ItemOf(exprs[i]))
  }

  const SETTINGS := " SETTINGS output_format_json_quote" + ("_64bit_integers = 0" + " FORMAT JSONEachRow")

  lemma PlainConcat(a: string, b: string)
    ensures Plain(a + b) <==> Plain(a) && Plain(b)
  {
    assert forall i :: 0 <= i < |a| ==> (a + b)[i] == a[i];
    assert forall i :: 0 <= i < |b| ==> (a + b)[|a| + i] == b[i];
  }

  lemma SettingsPlain()
    ensures Plain(SETTINGS)
  {
    PlainConcat("_64bit_integers = 0", " FORMAT JSONEachRow");
    PlainConcat(" SETTINGS output_format_json_quote", "_64bit_integers = 0" + " FORMAT JSONEachRow");
  }

  function FromTable(table: string): string {
    " FROM " + ("`" + (EscapeIdent(table) + ("`" + (SETTINGS + ""))))
  }

  function StatsQuery(exprs: seq<Expr>, table: string): string {
    "SELECT " + Listed(Items(exprs), FromTable(table))
  }

  lemma AliasPlain(i: nat, a: Aggregate)
    ensures Plain(Alias(i, a))
  {
    DecimalPlain(i);
    assert Plain("_" + Key(a)) && Plain("c");
    PlainConcat(Decimal(i), "_" + Key(a));
    PlainConcat("c", Decimal(i) + ("_" + Key(a)));
  }

  lemma ItemPlain(columns: seq<(string, string)>, i: nat, e: Expr)
    requires ForColumn(columns, i, e)
    ensures ItemOk(ItemOf(e))
  {
    AliasPlain(i, e.agg);
    AroundPlain(e);
    PlainConcat(Closing(e), e.alias);
  }

  lemma AroundPlain(e: Expr)
    ensures Plain(Opening(e)) && Plain(Closing(e))
  {
    PlainConcat(if e.agg.Nulls? then " IS NULL)" else if e.text then "))" else ")", " AS ");
  }

  lemma LexFrom(d: Dialect, table: string)
    requires Reads(d) && Legible(d, table)
    ensures Lex(d, FromTable(table)) == Some(Raws(" FROM ") + ([Ident(table)] + (Raws(SETTINGS) + [])))
  {
    assert Lex(d, "") == Some([]);
    SettingsPlain();
    LexAfter(d, " FROM ", table, SETTINGS, "", []);
  }

  /** The query reads back as its expressions in order, each on its own column, over the job's table,
      exactly if every column name is legible. */
  lemma StatsRoundTrip(d: Dialect, columns: seq<(string, string)>, exprs: seq<Expr>, user: Uuid, job: Uuid)
    requires Reads(d) && Covers(columns, |columns|, exprs)
    ensures var table := DatasetTableName(user, job);
            Lex(d, StatsQuery(exprs, table)) ==
            Some(Raws("SELECT ") + (ListLexemes(Items(exprs)) +
                 (Raws(" FROM ") + ([Ident(table)] + (Raws(SETTINGS) + [])))))
            <==> forall i :: 0 <= i < |columns| ==> Legible(d, columns[i].0)
  {
    var table := DatasetTableName(user, job);
    ItemsPlain(columns, exprs);
    TableLegible(d, user, job);
    LexFrom(d, table);
    LexSelect(d, Items(exprs), FromTable(table), Raws(" FROM ") + ([Ident(table)] + (Raws(SETTINGS) + [])));
    AllNamed(d, columns, exprs);
  }

  lemma ItemsPlain(columns: seq<(string, string)>, exprs: seq<Expr>)
    requires Covers(columns, |columns|, exprs)
    ensures forall k :: 0 <= k < |exprs| ==> ItemOk(Items(exprs)[k])
  {
    forall k | 0 <= k < |exprs| ensures ItemOk(ItemOf(exprs[k])) {
      assert exprs[k] in exprs;
      var i: nat :| i < |columns| && ForColumn(columns, i, exprs[k]);
      ItemPlain(columns, i, exprs[k]);
    }
  }

  lemma LexSelect(d: Dialect, xs: seq<Item>, tail: string, end: seq<Lexeme>)
    requires Reads(d) && Ends('`', tail) && Lex(d, tail) == Some(end)
    requires forall i :: 0 <= i < |xs| ==> ItemOk(xs[i])
    ensures Lex(d, "SELECT " + Listed(xs, tail)) ==
            Some(Raws("SELECT ") + (ListLexemes(xs) + end))
            <==> AllLegible(d, xs)
  {
    ListExact(d, xs, tail, end);
    LexPlain(d, "SELECT ", Listed(xs, tail));
    BeforeSome(Raws("SELECT "), Lex(d, Listed(xs, tail)), ListLexemes(xs) + end);
  }

  lemma AllNamed(d: Dialect, columns: seq<(string, string)>, exprs: seq<Expr>)
    requires Covers(columns, |columns|, exprs)
    ensures AllLegible(d, Items(exprs)) <==> forall i :: 0 <= i < |columns| ==> Legible(d, columns[i].0)
  {
    var xs := Items(exprs);
    if AllLegible(d, xs) {
      forall i | 0 <= i < |columns| ensures Legible(d, columns[i].0) {
        var e := Expr(columns[i].0, Nulls, false, Alias(i, Nulls));
        assert ForColumn(columns, i, e);
        var k :| 0 <= k < |exprs| && exprs[k] == e;
        assert xs[k].name == columns[i].0;
      }
    }
    if forall i :: 0 <= i < |columns| ==> Legible(d, columns[i].0) {
      forall k | 0 <= k < |xs| ensures Legible(d, xs[k].name) {
        assert exprs[k] in exprs;
        var i: nat :| i < |columns| && ForColumn(columns, i, exprs[k]);
      }
    }
  }

  lemma ItemText(d: Dialect, e: Expr, before: string, after: string)
    requires Reads(d) && Legible(d, e.column) && Opening(e) == before && Closing(e) == after && Plain(e.alias)
    ensures Lex(d, Listed([ItemOf(e)], "")) == Some(Raws(before) + ([Ident(e.column)] + (Raws(after + e.alias) + [])))
  {
    AroundPlain(e);
    PlainConcat(after, e.alias);
    assert Lex(d, "") == Some([]);
    LexAfter(d, before, e.column, after + e.alias, "", []);
    var xs := [ItemOf(e)];
    assert xs[1..] == [];
    assert xs[0].after + "" == xs[0].after;
    assert after + e.alias + "" + "" == after + e.alias + "";
  }

  /** What stands before and after the column in each aggregate. */
  function AggregateAround(agg: Aggregate, text: bool): (string, string) {
    match (agg, text)
    case (Nulls, _) => ("countIf(", " IS NULL) AS ")
    case (Distinct, _) => ("uniq(", ") AS ")
    case (Min, false) => ("min(", ") AS ")
    case (Max, false) => ("max(", ") AS ")
    case (Min, true) => ("toString(min(", ")) AS ")
    case (Max, true) => ("toString(max(", ")) AS ")
    case (Avg, _) => ("avg(", ") AS ")
  }

  lemma AroundExact(e: Expr, kind: Kind)
    requires Wants(kind, e.agg, e.text)
    ensures (Opening(e), Closing(e)) == AggregateAround(e.agg, e.text)
  {
    assert " IS NULL)" + " AS " == " IS NULL) AS ";
    assert "))" + " AS " == ")) AS " && ")" + " AS " == ") AS ";
  }

  /** The text of each aggregate, as it reads back. */
  lemma AggregateText(d: Dialect, columns: seq<(string, string)>, i: nat, e: Expr)
    requires Reads(d) && ForColumn(columns, i, e) && Legible(d, e.column)
    ensures var (before, after) := AggregateAround(e.agg, e.text);
            Lex(d, Listed([ItemOf(e)], "")) == Some(Raws(before) + ([Ident(e.column)] + (Raws(after + e.alias) + [])))
  {
    AliasPlain(i, e.agg);
    AroundExact(e, Classify(columns[i].1));
    ItemText(d, e, Opening(e), Closing(e));
  }

  // ---------------------------------------------------------------- reading the answer

  datatype ColumnMeta<V> =
    ColumnMeta(name: string, ty: string, kind: Kind, nulls: Option<V>, distinct: Option<V>,
               min: Option<V>, max: Option<V>, avg: Option<V>)

  function Get<V>(stats: map<string, V>, i: nat, agg: Aggregate): Option<V> {
    if Alias(i, agg) in stats then Some(stats[Alias(i, agg)]) else None
  }

  function MetaOf<V>(stats: map<string, V>, i: nat, column: (string, string)): ColumnMeta<V> {
    ColumnMeta(column.0, column.1, Classify(column.1), Get(stats, i, Nulls), Get(stats, i, Distinct),
               Get(stats, i, Min), Get(stats, i, Max), Get(stats, i, Avg))
  }

  function Generate<V>(stats: map<string, V>, columns: seq<(string, string)>): seq<ColumnMeta<V>> {
    seq(|columns|, i requires 0 <= i < |columns| => MetaOf(stats, i, columns[i]))
  }

  /** The database answers with one object holding, under each alias, the value of its expression. */
  ghost predicate Answer<V>(stats: map<string, V>, exprs: seq<Expr>, eval: (string, Aggregate, bool) -> V) {
    && (forall e :: e in exprs ==> e.alias in stats && stats[e.alias] == eval(e.column, e.agg, e.text))
    && (forall a :: a in stats ==> exists e :: e in exprs && e.alias == a)
  }

  /** The value a column of this kind has for an aggregate, if it has one. */
  function Expected<V>(eval: (string, Aggregate, bool) -> V, column: string, kind: Kind, agg: Aggregate): Option<V> {
    if Wants(kind, agg, false) then Some(eval(column, agg, false))
    else if Wants(kind, agg, true) then Some(eval(column, agg, true))
    else None
  }

  lemma GetExact<V>(stats: map<string, V>, columns: seq<(string, string)>, exprs: seq<Expr>,
                    eval: (string, Aggregate, bool) -> V, i: nat, agg: Aggregate)
    requires Covers(columns, |columns|, exprs) && Answer(stats, exprs, eval) && i < |columns|
    ensures Get(stats, i, agg) == Expected(eval, columns[i].0, Classify(columns[i].1), agg)
  {
    hide Classify;
    var kind := Classify(columns[i].1);
    if Wants(kind, agg, false) {
      assert ForColumn(columns, i, Expr(columns[i].0, agg, false, Alias(i, agg)));
    } else if Wants(kind, agg, true) {
      assert ForColumn(columns, i, Expr(columns[i].0, agg, true, Alias(i, agg)));
    } else if Alias(i, agg) in stats {
      var e :| e in exprs && e.alias == Alias(i, agg);
      var k: nat :| k < |columns| && ForColumn(columns, k, e);
      AliasInjective(i, agg, k, e.agg);
    }
  }

  /** Column `i` of the dashboard carries column `i`'s own aggregates, and only those its kind wants. */
  lemma LookupsAgree<V>(stats: map<string, V>, columns: seq<(string, string)>, exprs: seq<Expr>,
                        eval: (string, Aggregate, bool) -> V, i: nat)
    requires Covers(columns, |columns|, exprs) && Answer(stats, exprs, eval) && i < |columns|
    ensures var m, c, kind := Generate(stats, columns)[i], columns[i].0, Classify(columns[i].1);
            && m.name == c && m.ty == columns[i].1 && m.kind == kind
            && m.nulls == Expected(eval, c, kind, Nulls) && m.distinct == Expected(eval, c, kind, Distinct)
            && m.min == Expected(eval, c, kind, Min) && m.max == Expected(eval, c, kind, Max)
            && m.avg == Expected(eval, c, kind, Avg)
  {
    GetExact(stats, columns, exprs, eval, i, Nulls);
    GetExact(stats, columns, exprs, eval, i, Distinct);
    GetExact(stats, columns, exprs, eval, i, Min);
    GetExact(stats, columns, exprs, eval, i, Max);
    GetExact(stats, columns, exprs, eval, i, Avg);
  }
}
