/** `new StringTokenizer(query, ",")`: the tokens are the maximal runs of
    non-comma characters, so empty pieces between, before or after commas are
    skipped. `Segments` is the reference split that keeps every piece, and
    `Join` puts the pieces back together. */
module StringTokenizer {
  import opened JavaLang

  /** Where the current token ends: the first comma, or the end of `s`. */
  function TokenEnd(s: string): (n: nat)
    ensures n <= |s| && ',' !in s[..n]
    ensures n < |s| ==> s[n] == ','
  {
    var i := IndexOf(s, ',');
    if i < 0 then |s| else i
  }

  /** The successive tokens `hasMoreTokens`/`nextToken` hand out. */
  function Tokens(s: string): (r: seq<string>)
    ensures forall i :: 0 <= i < |r| ==> |r[i]| > 0 && ',' !in r[i]
    decreases |s|
  {
    if |s| == 0 then []
    else if s[0] == ',' then Tokens(s[1..])
    else
      var n := TokenEnd(s);
      [s[..n]] + Tokens(s[n..])
  }

  /** Every piece between commas, empty ones included. */
  function Segments(s: string): (r: seq<string>)
    ensures |r| > 0
    ensures forall i :: 0 <= i < |r| ==> ',' !in r[i]
    decreases |s|
  {
    var i := IndexOf(s, ',');
    if i < 0 then [s] else [s[..i]] + Segments(s[i + 1..])
  }

  /** The pieces glued back together with one comma between neighbours. */
  function Join(xs: seq<string>): string
    decreases |xs|
  {
    if |xs| == 0 then ""
    else if |xs| == 1 then xs[0]
    else xs[0] + "," + Join(xs[1..])
  }

  /** The pieces of `xs` that are not empty, in order. */
  function NonEmpty(xs: seq<string>): seq<string>
    decreases |xs|
  {
    if |xs| == 0 then []
    else (if |xs[0]| > 0 then [xs[0]] else []) + NonEmpty(xs[1..])
  }

  lemma JoinCons(x: string, xs: seq<string>)
    requires |xs| > 0
    ensures Join([x] + xs) == x + "," + Join(xs)
  {
    assert ([x] + xs)[1..] == xs;
  }

  lemma SplitAtComma(s: string, i: int)
    requires 0 <= i < |s| && s[i] == ','
    ensures s == s[..i] + "," + s[i + 1..]
  {
  }

  /** Splitting at every comma loses nothing: joining the pieces gives back the input. */
  lemma {:induction false} JoinSegments(s: string)
    ensures Join(Segments(s)) == s
    decreases |s|
  {
    var i := IndexOf(s, ',');
    if i >= 0 {
      var rest := s[i + 1..];
      JoinSegments(rest);
      JoinCons(s[..i], Segments(rest));
      SplitAtComma(s, i);
    }
  }

  /** Joining comma-free pieces and splitting again gives back the pieces. */
  lemma {:induction false} SegmentsJoin(xs: seq<string>)
    requires |xs| > 0
    requires forall i :: 0 <= i < |xs| ==> ',' !in xs[i]
    ensures Segments(Join(xs)) == xs
    decreases |xs|
  {
    if |xs| == 1 {
      assert IndexOf(xs[0], ',') == -1;
    } else {
      var s := Join(xs);
      var head := xs[0];
      assert s == head + "," + Join(xs[1..]);
      assert s[|head|] == ',';
      assert s[..|head|] == head;
      assert IndexOf(s, ',') == |head|;
      assert s[|head| + 1..] == Join(xs[1..]);
      SegmentsJoin(xs[1..]);
    }
  }

  lemma NonEmptyCons(x: string, xs: seq<string>)
    ensures NonEmpty([x] + xs) == (if |x| > 0 then [x] else []) + NonEmpty(xs)
  {
    assert ([x] + xs)[1..] == xs;
  }

  lemma TokensCons(s: string)
    requires |s| > 0 && s[0] != ','
    ensures TokenEnd(s) > 0
    ensures Tokens(s) == [s[..TokenEnd(s)]] + Tokens(s[TokenEnd(s)..])
  {
  }

  /** The tokenizer hands out exactly the non-empty pieces between commas. */
  lemma {:induction false} TokensAreNonEmptySegments(s: string)
    ensures Tokens(s) == NonEmpty(Segments(s))
    decreases |s|
  {
    if |s| == 0 {
      assert Segments(s) == [s];
      NonEmptyCons(s, []);
    } else if s[0] == ',' {
      LeadingComma(s);
      NonEmptyCons("", Segments(s[1..]));
      TokensAreNonEmptySegments(s[1..]);
    } else if TokenEnd(s) == |s| {
      LastToken(s);
      NonEmptyCons(s, []);
    } else {
      var n := TokenEnd(s);
      FirstToken(s);
      TokensAreNonEmptySegments(s[n + 1..]);
      NonEmptyCons(s[..n], Segments(s[n + 1..]));
    }
  }

  /** A leading comma opens an empty piece and is skipped by the tokenizer. */
  lemma LeadingComma(s: string)
    requires |s| > 0 && s[0] == ','
    ensures Segments(s) == [""] + Segments(s[1..]) && Tokens(s) == Tokens(s[1..])
  {
    assert IndexOf(s, ',') == 0;
    assert s[..0] == "";
  }

  /** A comma-free, non-empty text is one piece and one token. */
  lemma LastToken(s: string)
    requires |s| > 0 && s[0] != ',' && TokenEnd(s) == |s|
    ensures Segments(s) == [s] && Tokens(s) == [s]
  {
    TokensCons(s);
    assert s[..|s|] == s && s[|s|..] == [];
  }

  /** A text that starts with a token followed by a comma yields that token
      as its first piece and its first token, and the rest after the comma. */
  lemma FirstToken(s: string)
    requires |s| > 0 && s[0] != ',' && TokenEnd(s) < |s|
    ensures var n := TokenEnd(s);
      && n > 0
      && Segments(s) == [s[..n]] + Segments(s[n + 1..])
      && Tokens(s) == [s[..n]] + Tokens(s[n + 1..])
  {
    var n := TokenEnd(s);
    TokensCons(s);
    assert s[n..][0] == ',' && s[n..][1..] == s[n + 1..];
  }

  /** A query without commas is one token (when not empty). */
  lemma SingleToken(s: string)
    requires |s| > 0 && ',' !in s
    ensures Tokens(s) == [s]
  {
    assert TokenEnd(s) == |s|;
    assert s[..|s|] == s && s[|s|..] == [];
    assert Tokens(s) == [s] + Tokens([]);
  }

  /** Two comma-free clauses separated by one comma are two tokens. */
  lemma TwoTokens(a: string, b: string)
    requires |a| > 0 && ',' !in a
    requires |b| > 0 && ',' !in b
    ensures Tokens(a + "," + b) == [a, b]
  {
    var s := a + "," + b;
    assert s[0] == a[0];
    assert s[|a|] == ',';
    assert s[..|a|] == a;
    assert ',' !in s[..|a|];
    assert TokenEnd(s) == |a|;
    var rest := s[|a|..];
    assert rest[0] == ',' && rest[1..] == b;
    SingleToken(b);
  }
}
