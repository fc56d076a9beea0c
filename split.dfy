/**
 `split(s, delimiter)`: the tokens that successive
 `std::getline(stream, token, delimiter)` calls read from a string stream over
 `s`. Each call reads up to the next delimiter, which it consumes and drops;
 a call made at the end of the stream reads nothing and ends the loop, so a
 trailing delimiter yields no empty final token and the empty string yields
 no token at all.
 */
module Split {

  /** Position of the first `d` in `s`, or `|s|` when there is none. */
  function TokenEnd(s: string, d: char): (e: nat)
    ensures e <= |s|
    ensures forall k {:trigger s[k]} :: 0 <= k < e ==> s[k] != d
    ensures e < |s| ==> s[e] == d
  {
    if |s| == 0 || s[0] == d then 0 else 1 + TokenEnd(s[1..], d)
  }

  /** What is left of the stream after one getline: the delimiter is consumed. */
  function AfterToken(s: string, d: char): string
  {
    var e := TokenEnd(s, d);
    if e < |s| then s[e + 1..] else []
  }

  /** The tokens the getline loop produces on `s`. */
  function Tokens(s: string, d: char): seq<string>
    decreases |s|
  {
    if |s| == 0 then []
    else [s[..TokenEnd(s, d)]] + Tokens(AfterToken(s, d), d)
  }

  /** The tokens glued back together with `d` between them. */
  function Join(ts: seq<string>, d: char): string
  {
    if |ts| == 0 then []
    else if |ts| == 1 then ts[0]
    else ts[0] + [d] + Join(ts[1..], d)
  }

  /** The first delimiter position is determined by its characterisation. */
  lemma TokenEndUnique(s: string, d: char, e: nat)
    requires e <= |s|
    requires forall k :: 0 <= k < e ==> s[k] != d
    requires e < |s| ==> s[e] == d
    ensures TokenEnd(s, d) == e
  {
  }

  /** Cutting `s` around a delimiter at `e` and gluing it back gives `s`. */
  lemma Recompose(s: string, e: nat, d: char)
    requires e < |s| && s[e] == d
    ensures s[..e] + [d] + s[e + 1..] == s
  {
    assert s == s[..e] + s[e..];
    assert s[e..] == [d] + s[e + 1..];
  }

  /** One getline call on the stream positioned at `start`, which stops at `stop`. */
  lemma TokensStep(s: string, d: char, start: nat, stop: nat)
    requires start < |s| && start <= stop <= |s|
    requires forall k :: start <= k < stop ==> s[k] != d
    requires stop < |s| ==> s[stop] == d
    ensures Tokens(s[start..], d)
            == [s[start..stop]] + Tokens(s[if stop < |s| then stop + 1 else stop..], d)
  {
    var rest := s[start..];
    TokenEndUnique(rest, d, stop - start);
    assert rest[..stop - start] == s[start..stop];
    if stop < |s| {
      assert AfterToken(rest, d) == s[stop + 1..];
    } else {
      assert AfterToken(rest, d) == s[stop..];
    }
  }

  /** One `std::getline(stream, token, d)` on a stream positioned at `start`:
      reads characters up to the next `d` or the end. */
  method ReadToken(s: string, d: char, start: nat) returns (token: string, stop: nat)
    requires start < |s|
    ensures start <= stop <= |s| && token == s[start..stop]
    ensures forall k :: start <= k < stop ==> s[k] != d
    ensures stop < |s| ==> s[stop] == d
  {
    token := "";
    stop := start;
    while stop < |s| && s[stop] != d
      invariant start <= stop <= |s|
      invariant token == s[start..stop]
      invariant forall k :: start <= k < stop ==> s[k] != d
    {
      token := token + [s[stop]];
      stop := stop + 1;
    }
  }

  method Split(s: string, d: char) returns (tokens: seq<string>)
    ensures tokens == Tokens(s, d)
  {
    tokens := [];
    var pos := 0;
    while pos < |s|
      invariant 0 <= pos <= |s|
      invariant tokens + Tokens(s[pos..], d) == Tokens(s, d)
    {
      var token, stop := ReadToken(s, d, pos);
      TokensStep(s, d, pos, stop);
      var next := if stop < |s| then stop + 1 else stop;
      ghost var later := Tokens(s[next..], d);
      assert Tokens(s[pos..], d) == [token] + later;
      Reassociate(tokens, [token], later);
      pos := next;
      tokens := tokens + [token];
    }
  }

  /** No token contains the delimiter. */
  lemma {:induction false} TokensHaveNoDelimiter(s: string, d: char)
    ensures forall i :: 0 <= i < |Tokens(s, d)| ==> d !in Tokens(s, d)[i]
    decreases |s|
  {
    if |s| > 0 {
      TokensHaveNoDelimiter(AfterToken(s, d), d);
      var t := s[..TokenEnd(s, d)];
      assert d !in t by {
        forall k | 0 <= k < |t| ensures t[k] != d { }
      }
    }
  }

  /** A non-empty string yields at least one token; the empty string none. */
  lemma TokensEmptyIff(s: string, d: char)
    ensures Tokens(s, d) == [] <==> s == []
  {
  }

  /** Joining the tokens of a string that does not end in `d` gives the string back. */
  lemma {:induction false} JoinTokens(s: string, d: char)
    requires s == [] || s[|s| - 1] != d
    ensures Join(Tokens(s, d), d) == s
    decreases |s|
  {
    if |s| > 0 {
      var e := TokenEnd(s, d);
      var rest := AfterToken(s, d);
      if e < |s| {
        assert rest == s[e + 1..] && rest != [];
        JoinTokens(rest, d);
        var ts := Tokens(rest, d);
        assert ts != [];
        assert ([s[..e]] + ts)[1..] == ts;
        Recompose(s, e, d);
      }
    }
  }

  /** Joining a token in front of a non-empty list puts one delimiter between them. */
  lemma JoinCons(t: string, ts: seq<string>, d: char)
    requires ts != []
    ensures Join([t] + ts, d) == t + [d] + Join(ts, d)
  {
    assert ([t] + ts)[1..] == ts;
  }

  lemma Reassociate<T>(a: seq<T>, b: seq<T>, c: seq<T>)
    ensures a + b + c == a + (b + c)
  {
  }

  /** For a string ending in `d`, the tokens joined and that last `d` re-appended give it back. */
  lemma {:induction false} JoinTokensTrailing(s: string, d: char)
    requires s != [] && s[|s| - 1] == d
    ensures Join(Tokens(s, d), d) + [d] == s
    decreases |s|
  {
    var e := TokenEnd(s, d);
    var rest := AfterToken(s, d);
    assert Tokens(s, d) == [s[..e]] + Tokens(rest, d);
    Recompose(s, e, d);
    if e < |s| - 1 {
      assert rest == s[e + 1..];
      assert |rest| == |s| - e - 1 > 0;
      assert rest[|rest| - 1] == s[|s| - 1];
      JoinTokensTrailing(rest, d);
      var j := Join(Tokens(rest, d), d);
      JoinCons(s[..e], Tokens(rest, d), d);
      Reassociate(s[..e] + [d], j, [d]);
    } else {
      assert rest == [];
    }
  }

  /** Appending `d` to a non-empty string that does not already end in `d` adds no token. */
  lemma {:induction false} TrailingDelimiterAddsNoToken(s: string, d: char)
    requires s != [] && s[|s| - 1] != d
    ensures Tokens(s + [d], d) == Tokens(s, d)
    decreases |s|
  {
    var s' := s + [d];
    var e := TokenEnd(s, d);
    if e == |s| {
      TokenEndUnique(s', d, |s|);
      assert s'[..|s|] == s == s[..e];
      assert AfterToken(s', d) == [] == AfterToken(s, d);
    } else {
      TokenEndUnique(s', d, e);
      assert s'[..e] == s[..e];
      var rest := AfterToken(s, d);
      assert rest == s[e + 1..] && rest != [];
      assert AfterToken(s', d) == rest + [d];
      TrailingDelimiterAddsNoToken(rest, d);
    }
  }
}
