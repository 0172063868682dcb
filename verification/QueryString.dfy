/**
 The payment gateway appends its parameters to a callback address that already has a
 query string, with a second '?'. The normaliser takes the string apart segment by
 segment; it is proved to be "split on both separators, drop empty pieces, join".
 */
module QueryString {

  // One more character for the last piece.
  function Extend(pieces: seq<string>, c: char): (r: seq<string>)
    requires pieces != []
    ensures r != []
  {
    pieces[..|pieces| - 1] + [pieces[|pieces| - 1] + [c]]
  }

  // Splits at every separator; there is always at least one piece.
  function Split(s: string, separators: set<char>): (pieces: seq<string>)
    ensures pieces != []
  {
    if s == [] then [""]
    else
      var front, c := Split(s[..|s| - 1], separators), s[|s| - 1];
      if c in separators then front + [""] else Extend(front, c)
  }

  function NonEmpty(pieces: seq<string>): seq<string> {
    if pieces == [] then []
    else NonEmpty(pieces[..|pieces| - 1]) + (if pieces[|pieces| - 1] == "" then [] else [pieces[|pieces| - 1]])
  }

  // implode('&', ...)
  function Join(pieces: seq<string>): string {
    if pieces == [] then ""
    else if |pieces| == 1 then pieces[0]
    else Join(pieces[..|pieces| - 1]) + "&" + pieces[|pieces| - 1]
  }

  const BOTH: set<char> := {'?', '&'}

  // The parameters of a query string: what both separators leave.
  function Tokens(s: string): seq<string> {
    NonEmpty(Split(s, BOTH))
  }

  // What the normaliser is for.
  function Normalized(s: string): string {
    if '?' in s then Join(Tokens(s)) else s
  }

  // str_replace('?', '&', ...)
  function Replaced(s: string): (r: string)
    ensures |r| == |s| && '?' !in r
  {
    if s == [] then [] else Replaced(s[..|s| - 1]) + [if s[|s| - 1] == '?' then '&' else s[|s| - 1]]
  }

  // ----- splitting -----

  lemma ExtendConcat(a: seq<string>, b: seq<string>, c: char)
    requires b != []
    ensures Extend(a + b, c) == a + Extend(b, c)
  {
  }

  lemma SplitOfEmpty(separators: set<char>)
    ensures Split("", separators) == [""]
  {
  }

  lemma SplitSnoc(s: string, c: char, separators: set<char>)
    ensures Split(s + [c], separators) ==
            if c in separators then Split(s, separators) + [""] else Extend(Split(s, separators), c)
  {
    assert (s + [c])[..|s|] == s;
  }

  lemma {:induction false} SplitAround(a: string, c: char, b: string, separators: set<char>)
    requires c in separators
    ensures Split(a + [c] + b, separators) == Split(a, separators) + Split(b, separators)
  {
    hide Split;
    hide Extend;
    if b == [] {
      SplitSnoc(a, c, separators);
      SplitOfEmpty(separators);
      assert a + [c] + b == a + [c];
    } else {
      var init, x := b[..|b| - 1], b[|b| - 1];
      assert b == init + [x] && a + [c] + b == a + [c] + init + [x];
      SplitAround(a, c, init, separators);
      SplitSnoc(a + [c] + init, x, separators);
      SplitSnoc(init, x, separators);
      ExtendConcat(Split(a, separators), Split(init, separators), x);
    }
  }

  lemma {:induction false} SplitWhole(s: string, separators: set<char>)
    requires forall c :: c in s ==> c !in separators
    ensures Split(s, separators) == [s]
  {
    if s != [] {
      SplitWhole(s[..|s| - 1], separators);
      assert s == s[..|s| - 1] + [s[|s| - 1]];
    }
  }

  lemma {:induction false} NonEmptyConcat(a: seq<string>, b: seq<string>)
    ensures NonEmpty(a + b) == NonEmpty(a) + NonEmpty(b)
  {
    if b == [] {
      assert a + b == a;
    } else {
      NonEmptyConcat(a, b[..|b| - 1]);
      assert (a + b)[..|a + b| - 1] == a + b[..|b| - 1];
    }
  }

  lemma TokensAround(a: string, c: char, b: string)
    requires c in BOTH
    ensures Tokens(a + [c] + b) == Tokens(a) + Tokens(b)
  {
    SplitAround(a, c, b, BOTH);
    NonEmptyConcat(Split(a, BOTH), Split(b, BOTH));
  }

  predicate IsPlain(s: string) {
    '?' !in s && '&' !in s
  }

  lemma TokensOfPlain(s: string)
    requires IsPlain(s)
    ensures Tokens(s) == if s == "" then [] else [s]
  {
    SplitWhole(s, BOTH);
    assert NonEmpty([s]) == NonEmpty([]) + if s == "" then [] else [s];
  }

  lemma {:induction false} ReplacedTokens(s: string)
    ensures Tokens(Replaced(s)) == Tokens(s)
  {
    ReplacedSplit(s);
  }

  lemma {:induction false} ReplacedSplit(s: string)
    ensures Split(Replaced(s), BOTH) == Split(s, BOTH)
  {
    if s != [] { ReplacedSplit(s[..|s| - 1]); }
  }

  lemma {:induction false} OneSeparatorEnough(s: string)
    requires '?' !in s
    ensures Split(s, {'&'}) == Split(s, BOTH)
  {
    if s != [] { OneSeparatorEnough(s[..|s| - 1]); }
  }

  // ----- segments -----

  // The tokens of a list of segments, one segment after the other.
  function TokensOfAll(segments: seq<string>): seq<string> {
    if segments == [] then [] else TokensOfAll(segments[..|segments| - 1]) + Tokens(segments[|segments| - 1])
  }

  function SplitAll(segments: seq<string>): seq<string> {
    if segments == [] then [] else SplitAll(segments[..|segments| - 1]) + Split(segments[|segments| - 1], BOTH)
  }

  lemma SplitAllSnoc(segments: seq<string>, last: string)
    ensures SplitAll(segments + [last]) == SplitAll(segments) + Split(last, BOTH)
  {
    assert (segments + [last])[..|segments|] == segments;
  }

  // Splitting at '&' first and at both afterwards is splitting at both.
  lemma {:induction false} SplitTwice(s: string)
    ensures SplitAll(Split(s, {'&'})) == Split(s, BOTH)
  {
    if s == [] {
      SplitAllSnoc([], "");
      assert [] + [""] == [""];
    } else {
      var rest, c := s[..|s| - 1], s[|s| - 1];
      assert s == rest + [c];
      SplitTwice(rest);
      SplitSnoc(rest, c, {'&'});
      SplitSnoc(rest, c, BOTH);
      var front := Split(rest, {'&'});
      SplitAllExtend(front, c);
      SplitAllSnoc(front, "");
      hide Split, SplitAll, Extend;
      assert c in {'&'} <==> c == '&';
      SplitOfEmpty(BOTH);
    }
  }

  lemma SplitAllExtend(front: seq<string>, c: char)
    requires front != []
    ensures SplitAll(front) != []
    ensures SplitAll(Extend(front, c)) == if c in BOTH then SplitAll(front) + [""] else Extend(SplitAll(front), c)
  {
    var init, last := front[..|front| - 1], front[|front| - 1];
    assert front == init + [last];
    SplitAllSnoc(init, last);
    SplitAllSnoc(init, last + [c]);
    SplitSnoc(last, c, BOTH);
    ExtendConcat(SplitAll(init), Split(last, BOTH), c);
    assert Extend(front, c) == init + [last + [c]];
    hide Split, SplitAll, Extend;
  }

  lemma {:induction false} TokensOfSplitAll(segments: seq<string>)
    ensures NonEmpty(SplitAll(segments)) == TokensOfAll(segments)
  {
    if segments != [] {
      var init, last := segments[..|segments| - 1], segments[|segments| - 1];
      TokensOfSplitAll(init);
      NonEmptyConcat(SplitAll(init), Split(last, BOTH));
    }
  }

  lemma {:induction false} SplitIsClean(s: string, separators: set<char>)
    ensures forall t, c :: t in Split(s, separators) && c in separators ==> c !in t
  {
    if s != [] {
      var front, c := Split(s[..|s| - 1], separators), s[|s| - 1];
      SplitIsClean(s[..|s| - 1], separators);
      assert forall t :: t in front[..|front| - 1] ==> t in front;
      assert front[|front| - 1] in front;
    }
  }

  lemma SegmentsHold(s: string)
    ensures TokensOfAll(Split(s, {'&'})) == Tokens(s)
    ensures forall segment :: segment in Split(s, {'&'}) ==> '&' !in segment
  {
    SplitTwice(s);
    TokensOfSplitAll(Split(s, {'&'}));
    SplitIsClean(s, {'&'});
    assert '&' in {'&'};
    hide Split;
  }

  // A segment cut at its first '?': the part before it, then the rest with every other
  // '?' replaced.
  lemma MarkedSegment(first: string, rest: string)
    requires IsPlain(first)
    ensures Tokens(first + ['?'] + rest) ==
            (if first == "" then [] else [first]) + NonEmpty(Split(Replaced(rest), {'&'}))
  {
    TokensAround(first, '?', rest);
    TokensOfPlain(first);
    ReplacedTokens(rest);
    OneSeparatorEnough(Replaced(rest));
    hide Split;
  }

  // strpos($segment, '?')
  method IndexOfMark(s: string) returns (k: nat)
    requires '?' in s
    ensures k < |s| && s[k] == '?' && '?' !in s[..k]
  {
    k := 0;
    while s[k] != '?'
      invariant k < |s| && '?' !in s[..k]
      invariant exists j :: k <= j < |s| && s[j] == '?'
      decreases |s| - k
    {
      k := k + 1;
    }
  }

  method NormalizeQueryString(queryString: string) returns (r: string)
    ensures r == Normalized(queryString)
  {
    hide Split, NonEmpty, Replaced, Tokens, Join;
    if queryString == "" || '?' !in queryString {
      return queryString;
    }
    var segments := Split(queryString, {'&'});
    SegmentsHold(queryString);
    var normalizedSegments := [];
    for i := 0 to |segments|
      invariant normalizedSegments == TokensOfAll(segments[..i])
    {
      var segment := segments[i];
      assert segments[..i + 1][..i] == segments[..i];
      assert segment in segments;
      if '?' !in segment {
        TokensOfPlain(segment);
        if segment != "" {
          normalizedSegments := normalizedSegments + [segment];
        }
        continue;
      }
      var k := IndexOfMark(segment);
      var firstSegment, rest := segment[..k], segment[k + 1..];
      assert segment == firstSegment + ['?'] + rest;
      MarkedSegment(firstSegment, rest);
      if firstSegment != "" {
        normalizedSegments := normalizedSegments + [firstSegment];
      }
      if rest == "" {
        NothingRests();
        continue;
      }
      normalizedSegments := AppendPieces(normalizedSegments, Split(Replaced(rest), {'&'}));
    }
    assert segments[..|segments|] == segments;
    r := Join(normalizedSegments);
  }

  lemma NothingRests()
    ensures NonEmpty(Split(Replaced(""), {'&'})) == []
  {
  }

  // The inner loop.
  method AppendPieces(before: seq<string>, pieces: seq<string>) returns (r: seq<string>)
    ensures r == before + NonEmpty(pieces)
  {
    r := before;
    for j := 0 to |pieces|
      invariant r == before + NonEmpty(pieces[..j])
    {
      assert pieces[..j + 1][..j] == pieces[..j];
      if pieces[j] != "" {
        r := r + [pieces[j]];
      }
    }
    assert pieces[..|pieces|] == pieces;
  }

  // ----- what normalising keeps -----

  lemma TokensArePlain(s: string)
    ensures forall t :: t in Tokens(s) ==> IsPlain(t) && t != ""
  {
    SplitIsClean(s, BOTH);
    NonEmptyMeaning(Split(s, BOTH));
    assert '?' in BOTH && '&' in BOTH;
    hide Split, NonEmpty;
  }

  lemma {:induction false} NonEmptyMeaning(pieces: seq<string>)
    ensures forall t :: t in NonEmpty(pieces) <==> t in pieces && t != ""
  {
    if pieces != [] {
      NonEmptyMeaning(pieces[..|pieces| - 1]);
      assert pieces == pieces[..|pieces| - 1] + [pieces[|pieces| - 1]];
    }
  }

  // Joining plain, non-empty pieces loses nothing and brings back no '?'.
  lemma {:induction false} TokensOfJoin(pieces: seq<string>)
    requires forall t :: t in pieces ==> IsPlain(t) && t != ""
    ensures Tokens(Join(pieces)) == pieces && '?' !in Join(pieces)
  {
    hide Tokens;
    if pieces == [] {
      TokensOfPlain("");
    } else if |pieces| == 1 {
      TokensOfPlain(pieces[0]);
    } else {
      var front, last := pieces[..|pieces| - 1], pieces[|pieces| - 1];
      TokensOfJoin(front);
      TokensAround(Join(front), '&', last);
      TokensOfPlain(last);
      assert Join(front) + "&" + last == Join(front) + ['&'] + last;
    }
  }

  // The parameters survive, in order, none added.
  lemma TokensPreserved(s: string)
    ensures Tokens(Normalized(s)) == Tokens(s)
  {
    TokensArePlain(s);
    TokensOfJoin(Tokens(s));
  }

  lemma NormalizedIsIdempotent(s: string)
    ensures Normalized(Normalized(s)) == Normalized(s)
    ensures '?' !in Normalized(s)
  {
    TokensArePlain(s);
    TokensOfJoin(Tokens(s));
  }
}
