// Column types as ClickHouse spells them: peeling wrappers, classifying, and choosing charts.

module ColumnTypes {
  import opened Domain

  // ---------------------------------------------------------------- trimming

  /** The characters `str::trim` removes (Unicode White_Space). */
  predicate IsSpace(c: char) {
    || '\t' <= c <= '\r' || c == ' ' || c == '\U{85}' || c == '\U{A0}' || c == '\U{1680}'
    || '\U{2000}' <= c <= '\U{200A}' || c == '\U{2028}' || c == '\U{2029}' || c == '\U{202F}'
    || c == '\U{205F}' || c == '\U{3000}'
  }

  predicate AllSpace(s: string) {
    forall i :: 0 <= i < |s| ==> IsSpace(s[i])
  }

  predicate Trimmed(s: string) {
    s == "" || (!IsSpace(s[0]) && !IsSpace(s[|s| - 1]))
  }

  function TrimStart(s: string): (t: string)
    ensures |t| <= |s| && (t == "" || !IsSpace(t[0]))
  {
    if s != "" && IsSpace(s[0]) then TrimStart(s[1..]) else s
  }

  function TrimEnd(s: string): (t: string)
    ensures t <= s && (t == "" || !IsSpace(t[|t| - 1]))
  {
    if s != "" && IsSpace(s[|s| - 1]) then TrimEnd(s[..|s| - 1]) else s
  }

  function Trim(s: string): (t: string)
    ensures |t| <= |s| && Trimmed(t)
  {
    TrimEnd(TrimStart(s))
  }

  lemma {:induction false} TrimStartPad(b: string, s: string)
    requires AllSpace(b)
    ensures TrimStart(b + s) == TrimStart(s)
  {
    if b == "" {
      assert b + s == s;
    } else {
      assert (b + s)[1..] == b[1..] + s;
      TrimStartPad(b[1..], s);
    }
  }

  lemma {:induction false} TrimEndPad(s: string, a: string)
    requires AllSpace(a)
    ensures TrimEnd(s + a) == TrimEnd(s)
  {
    if a == "" {
      assert s + a == s;
    } else {
      assert (s + a)[..|s + a| - 1] == s + a[..|a| - 1];
      TrimEndPad(s, a[..|a| - 1]);
    }
  }

  lemma {:induction false} TrimStartKeep(s: string, a: string)
    requires AllSpace(a)
    ensures TrimEnd(TrimStart(s + a)) == TrimEnd(TrimStart(s))
  {
    if s == "" {
      assert s + a == a;
      assert a + "" == a;
      TrimStartPad(a, "");
    } else if IsSpace(s[0]) {
      assert (s + a)[1..] == s[1..] + a;
      TrimStartKeep(s[1..], a);
    } else {
      TrimEndPad(s, a);
    }
  }

  /** Padding on either side does not matter. */
  lemma TrimPad(b: string, s: string, a: string)
    requires AllSpace(b) && AllSpace(a)
    ensures Trim(b + s + a) == Trim(s)
  {
    calc {
      Trim(b + s + a);
    ==  { assert b + s + a == b + (s + a); }
      TrimEnd(TrimStart(b + (s + a)));
    ==  { TrimStartPad(b, s + a); }
      TrimEnd(TrimStart(s + a));
    ==  { TrimStartKeep(s, a); }
      Trim(s);
    }
  }

  lemma TrimTrimmed(s: string)
    requires Trimmed(s)
    ensures Trim(s) == s
  {
  }

  /** Trimming removes padding and nothing else. */
  lemma {:induction false} TrimParts(s: string) returns (b: string, a: string)
    ensures AllSpace(b) && AllSpace(a) && s == b + Trim(s) + a
  {
    b := TrimStartParts(s);
    a := TrimEndParts(TrimStart(s));
    assert b + (Trim(s) + a) == b + Trim(s) + a;
  }

  lemma {:induction false} TrimStartParts(s: string) returns (b: string)
    ensures AllSpace(b) && s == b + TrimStart(s)
  {
    if s != "" && IsSpace(s[0]) {
      b := TrimStartParts(s[1..]);
      b := [s[0]] + b;
    } else {
      b := "";
    }
  }

  lemma {:induction false} TrimEndParts(s: string) returns (a: string)
    ensures AllSpace(a) && s == TrimEnd(s) + a
  {
    if s != "" && IsSpace(s[|s| - 1]) {
      a := TrimEndParts(s[..|s| - 1]);
      a := a + [s[|s| - 1]];
    } else {
      a := "";
    }
  }

  // ---------------------------------------------------------------- unwrapping

  datatype Wrapper = Nullable | LowCardinality

  function Prefix(w: Wrapper): (s: string)
    ensures s != "" && !IsSpace(s[0])
  {
    match w
    case Nullable => "Nullable("
    case LowCardinality => "LowCardinality("
  }

  /** `strip_prefix` and `strip_suffix` in turn. */
  function Strip(w: Wrapper, t: string): (inner: Option<string>)
    ensures inner.Some? ==> |inner.value| < |t| && t == Prefix(w) + inner.value + ")"
  {
    var p := Prefix(w);
    if p <= t && |t| > |p| && t[|t| - 1] == ')' then
      assert t == p + t[|p|..|t| - 1] + ")";
      Some(t[|p|..|t| - 1])
    else None
  }

  function UnwrapType(t: string): (r: string)
    ensures |r| <= |t|
    decreases |t|
  {
    var s := Trim(t);
    if Strip(Nullable, s).Some? then UnwrapType(Strip(Nullable, s).value)
    else if Strip(LowCardinality, s).Some? then UnwrapType(Strip(LowCardinality, s).value)
    else s
  }

  /** Nothing left to remove. */
  predicate Bare(t: string) {
    Trimmed(t) && Strip(Nullable, t).None? && Strip(LowCardinality, t).None?
  }

  /** A stack of wrappers, with padding around each layer and around the core. */
  datatype Stack = Core(before: string, after: string) | Layer(before: string, w: Wrapper, inner: Stack, after: string)

  predicate Padded(k: Stack) {
    AllSpace(k.before) && AllSpace(k.after) && (k.Layer? ==> Padded(k.inner))
  }

  function Wrapped(k: Stack, t: string): string {
    match k
    case Core(b, a) => b + t + a
    case Layer(b, w, inner, a) => b + (Prefix(w) + Wrapped(inner, t) + ")") + a
  }

  lemma StripWrapped(w: Wrapper, x: string)
    ensures Trimmed(Prefix(w) + x + ")")
    ensures Strip(w, Prefix(w) + x + ")") == Some(x)
    ensures w.LowCardinality? ==> Strip(Nullable, Prefix(w) + x + ")").None?
  {
    var t := Prefix(w) + x + ")";
    assert t[0] == Prefix(w)[0];
    assert t[|Prefix(w)|..|t| - 1] == x;
    assert Prefix(w) <= t;
  }

  /** Any stack of wrappers around any type, with any whitespace, comes off. */
  lemma {:induction false} UnwrapThrough(k: Stack, t: string)
    requires Padded(k)
    ensures UnwrapType(Wrapped(k, t)) == UnwrapType(t)
  {
    match k
    case Core(b, a) =>
      TrimPad(b, t, a);
    case Layer(b, w, inner, a) =>
      var s := Prefix(w) + Wrapped(inner, t) + ")";
      TrimPad(b, s, a);
      StripWrapped(w, Wrapped(inner, t));
      TrimTrimmed(s);
      UnwrapThrough(inner, t);
  }

  lemma {:induction false} UnwrapBare(t: string)
    ensures Bare(UnwrapType(t))
    decreases |t|
  {
    var s := Trim(t);
    if Strip(Nullable, s).Some? {
      UnwrapBare(Strip(Nullable, s).value);
    } else if Strip(LowCardinality, s).Some? {
      UnwrapBare(Strip(LowCardinality, s).value);
    }
  }

  /** Nothing but wrappers and whitespace comes off. */
  lemma {:induction false} UnwrapParts(t: string) returns (k: Stack)
    ensures Padded(k) && Wrapped(k, UnwrapType(t)) == t
    decreases |t|
  {
    var s := Trim(t);
    var b, a := TrimParts(t);
    if Strip(Nullable, s).Some? {
      var inner := UnwrapParts(Strip(Nullable, s).value);
      k := Layer(b, Nullable, inner, a);
    } else if Strip(LowCardinality, s).Some? {
      var inner := UnwrapParts(Strip(LowCardinality, s).value);
      k := Layer(b, LowCardinality, inner, a);
    } else {
      k := Core(b, a);
    }
  }

  /** `r` is what `t` unwraps to exactly if it is bare and `t` is a stack of wrappers around it. */
  lemma UnwrapExact(t: string, r: string)
    ensures UnwrapType(t) == r <==> Bare(r) && exists k :: Padded(k) && Wrapped(k, r) == t
  {
    if UnwrapType(t) == r {
      UnwrapBare(t);
      var k := UnwrapParts(t);
    }
    if Bare(r) {
      forall k | Padded(k) && Wrapped(k, r) == t ensures UnwrapType(t) == r {
        UnwrapThrough(k, r);
        TrimTrimmed(r);
      }
    }
  }

  lemma UnwrapIdempotent(t: string)
    ensures UnwrapType(UnwrapType(t)) == UnwrapType(t)
  {
    UnwrapBare(t);
    TrimTrimmed(UnwrapType(t));
  }

  // ---------------------------------------------------------------- classification

  datatype Kind = Numeric | Temporal | Boolean | Categorical

  function Lower(s: string): (t: string)
    ensures |t| == |s|
  {
    if s == "" then "" else [if 'A' <= s[0] <= 'Z' then s[0] + 32 as char else s[0]] + Lower(s[1..])
  }

  function Classify(ty: string): Kind {
    var inner := Lower(UnwrapType(ty));
    if "int" <= inner || "uint" <= inner || "float" <= inner || "decimal" <= inner then Numeric
    else if "date" <= inner then Temporal
    else if inner == "bool" || inner == "boolean" then Boolean
    else Categorical
  }

  /** Wrapping a type never changes what kind of column it is. */
  lemma ClassifyThrough(k: Stack, t: string)
    requires Padded(k)
    ensures Classify(Wrapped(k, t)) == Classify(t)
  {
    UnwrapThrough(k, t);
  }

  /** The same letter, up to ASCII case; `l` is the lower-case one. */
  predicate SameLetter(c: char, l: char) {
    c == l || ('A' <= c <= 'Z' && c as int + 32 == l as int)
  }

  predicate BeginsLike(t: string, word: string) {
    |word| <= |t| && forall i :: 0 <= i < |word| ==> SameLetter(t[i], word[i])
  }

  predicate ReadsLike(t: string, word: string) {
    |word| == |t| && BeginsLike(t, word)
  }

  lemma {:induction false} LowerAt(s: string, i: nat)
    requires i < |s|
    ensures Lower(s)[i] == if 'A' <= s[i] <= 'Z' then s[i] + 32 as char else s[i]
  {
    if i > 0 {
      LowerAt(s[1..], i - 1);
    }
  }

  predicate IsLower(word: string) {
    forall i :: 0 <= i < |word| ==> 'a' <= word[i] <= 'z'
  }

  lemma LowerBegins(s: string, word: string)
    requires IsLower(word)
    ensures word <= Lower(s) <==> BeginsLike(s, word)
    ensures word == Lower(s) <==> ReadsLike(s, word)
  {
    forall i | 0 <= i < |s| && i < |word| ensures Lower(s)[i] == word[i] <==> SameLetter(s[i], word[i]) {
      LowerAt(s, i);
    }
  }

  predicate LikeANumber(t: string) {
    BeginsLike(t, "int") || BeginsLike(t, "uint") || BeginsLike(t, "float") || BeginsLike(t, "decimal")
  }

  predicate LikeADate(t: string) {
    BeginsLike(t, "date")
  }

  predicate LikeABool(t: string) {
    ReadsLike(t, "bool") || ReadsLike(t, "boolean")
  }

  lemma ClassifyBare(t: string)
    requires Bare(t)
    ensures Classify(t) == if LikeANumber(t) then Numeric else if LikeADate(t) then Temporal
                           else if LikeABool(t) then Boolean else Categorical
  {
    TrimTrimmed(t);
    LowerBegins(t, "int");
    LowerBegins(t, "uint");
    LowerBegins(t, "float");
    LowerBegins(t, "decimal");
    LowerBegins(t, "date");
    LowerBegins(t, "bool");
    LowerBegins(t, "boolean");
  }

  /** No type is like two of them. */
  lemma LikeOne(t: string)
    ensures !(LikeANumber(t) && LikeADate(t)) && !(LikeANumber(t) && LikeABool(t)) && !(LikeADate(t) && LikeABool(t))
  {
    if |t| > 2 {
      assert LikeANumber(t) ==> SameLetter(t[0], 'i') || SameLetter(t[0], 'u') || SameLetter(t[0], 'f') ||
                                (SameLetter(t[0], 'd') && SameLetter(t[1], 'e'));
      assert LikeADate(t) ==> SameLetter(t[0], 'd') && SameLetter(t[1], 'a');
      assert LikeABool(t) ==> SameLetter(t[0], 'b');
    }
  }

  /** Under any wrappers, a column is numeric exactly if its bare type begins with int, uint, float or
      decimal in any case, temporal exactly if it begins with date, boolean exactly if it is bool or
      boolean, and categorical exactly if it is none of these. */
  lemma ClassifyExact(k: Stack, t: string)
    requires Padded(k) && Bare(t)
    ensures Classify(Wrapped(k, t)) == Numeric <==> LikeANumber(t)
    ensures Classify(Wrapped(k, t)) == Temporal <==> LikeADate(t)
    ensures Classify(Wrapped(k, t)) == Boolean <==> LikeABool(t)
    ensures Classify(Wrapped(k, t)) == Categorical <==> !LikeANumber(t) && !LikeADate(t) && !LikeABool(t)
  {
    ClassifyThrough(k, t);
    ClassifyBare(t);
    LikeOne(t);
  }

  lemma UnwrapPrefixed(w: Wrapper, t: string)
    ensures UnwrapType(Prefix(w) + t + ")") == UnwrapType(t)
  {
    StripWrapped(w, t);
    TrimTrimmed(Prefix(w) + t + ")");
  }

  /** The two wrappers by name. */
  lemma WrappersByName(t: string)
    ensures UnwrapType("Nullable(" + t + ")") == UnwrapType(t)
    ensures UnwrapType("LowCardinality(" + t + ")") == UnwrapType(t)
  {
    UnwrapPrefixed(Nullable, t);
    UnwrapPrefixed(LowCardinality, t);
  }

  // ---------------------------------------------------------------- suggested charts

  datatype Pick = Pick(column: string, kind: Kind)

  /** `iter().find(p)` is at `i`. */
  ghost predicate IsFirst<T(!new)>(xs: seq<T>, p: T -> bool, i: nat) {
    i < |xs| && p(xs[i]) && forall k :: 0 <= k < i ==> !p(xs[k])
  }

  method Find<T(!new)>(xs: seq<T>, p: T -> bool) returns (at: Option<nat>)
    ensures at.None? ==> forall k :: 0 <= k < |xs| ==> !p(xs[k])
    ensures at.Some? ==> IsFirst(xs, p, at.value)
  {
    for i := 0 to |xs|
      invariant forall k :: 0 <= k < i ==> !p(xs[k])
    {
      if p(xs[i]) {
        return Some(i);
      }
    }
    at := None;
  }

  predicate OfKind(column: (string, string), want: Kind) {
    Classify(column.1) == want
  }

  /** `picks` is the first column of kind `want`, if there is one. */
  ghost predicate FirstOf(columns: seq<(string, string)>, want: Kind, picks: seq<Pick>) {
    if picks == [] then forall i :: 0 <= i < |columns| ==> !OfKind(columns[i], want)
    else exists i :: 0 <= i < |columns| && OfKind(columns[i], want) && picks == [Pick(columns[i].0, want)] &&
           forall k :: 0 <= k < i ==> !OfKind(columns[k], want)
  }

  method PickFirst(columns: seq<(string, string)>, want: Kind) returns (picks: seq<Pick>)
    ensures FirstOf(columns, want, picks)
  {
    var at := Find(columns, column => OfKind(column, want));
    picks := if at.Some? then [Pick(columns[at.value].0, want)] else [];
  }

  /** One chart for each of the three kinds that occurs, on its first column, in this order. */
  method SuggestCharts(columns: seq<(string, string)>) returns (picks: seq<Pick>)
    ensures exists t, n, c :: picks == t + n + c && FirstOf(columns, Temporal, t) && FirstOf(columns, Numeric, n) &&
              FirstOf(columns, Categorical, c)
  {
    var wants := [Temporal, Numeric, Categorical];
    picks := [];
    ghost var found: seq<seq<Pick>> := [];
    for w := 0 to |wants|
      invariant |found| == w
      invariant forall k :: 0 <= k < w ==> FirstOf(columns, wants[k], found[k])
      invariant picks == if w == 0 then [] else if w == 1 then found[0] else if w == 2 then found[0] + found[1]
                         else found[0] + found[1] + found[2]
    {
      var pick := PickFirst(columns, wants[w]);
      picks, found := picks + pick, found + [pick];
    }
    assert picks == found[0] + found[1] + found[2];
  }
}
