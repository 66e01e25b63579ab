/** Space-separated token lists: the way the authorize request spells its
    scope, and the splitting that reads such a list back. */
module Text {

  /** `string.Join(" ", tokens)`. */
  function JoinSpace(tokens: seq<string>): string
    decreases |tokens|
  {
    if |tokens| == 0 then ""
    else if |tokens| == 1 then tokens[0]
    else tokens[0] + " " + JoinSpace(tokens[1..])
  }

  /** One step of building the scope string: a separating space unless the
      accumulator is still empty, then the token. */
  function AppendToken(acc: string, token: string): string {
    (if acc != "" then acc + " " else acc) + token
  }

  /** Index of the first space, or the length when there is none. */
  function IndexOfSpace(s: string): (i: nat)
    ensures i <= |s|
    ensures i < |s| ==> s[i] == ' '
    ensures forall j :: 0 <= j < i ==> s[j] != ' '
    decreases |s|
  {
    if |s| == 0 || s[0] == ' ' then 0 else 1 + IndexOfSpace(s[1..])
  }

  /** `s.Split(' ')`: the pieces between spaces, empty pieces included. */
  function SplitSpace(s: string): (pieces: seq<string>)
    ensures 1 <= |pieces|
    decreases |s|
  {
    var i := IndexOfSpace(s);
    if i == |s| then [s] else [s[..i]] + SplitSpace(s[i + 1..])
  }

  predicate AllNonEmpty(tokens: seq<string>) {
    forall k :: 0 <= k < |tokens| ==> tokens[k] != ""
  }

  predicate NoSpaces(tokens: seq<string>) {
    forall k :: 0 <= k < |tokens| ==> ' ' !in tokens[k]
  }

  /** Appending a token step by step builds exactly the joined string. */
  lemma {:induction false} AppendTokenJoins(tokens: seq<string>, token: string)
    requires AllNonEmpty(tokens)
    ensures AppendToken(JoinSpace(tokens), token) == JoinSpace(tokens + [token])
    decreases |tokens|
  {
    if |tokens| == 0 {
      assert tokens + [token] == [token];
    } else if |tokens| == 1 {
      assert tokens + [token] == [tokens[0], token];
      assert [tokens[0], token][1..] == [token];
    } else {
      var rest := tokens[1..];
      AppendTokenJoins(rest, token);
      assert (tokens + [token])[1..] == rest + [token];
      assert JoinSpace(rest) != "" by {
        if |rest| == 1 { assert rest[0] == tokens[1]; }
      }
    }
  }

  /** Splitting a joined list of space-free tokens gives the list back. */
  lemma {:induction false} SplitJoin(tokens: seq<string>)
    requires 1 <= |tokens|
    requires NoSpaces(tokens)
    ensures SplitSpace(JoinSpace(tokens)) == tokens
    decreases |tokens|
  {
    var head := tokens[0];
    assert ' ' !in head;
    assert forall j :: 0 <= j < |head| ==> head[j] != ' ';
    if |tokens| == 1 {
      assert IndexOfSpace(head) == |head|;
    } else {
      var rest := tokens[1..];
      var s := JoinSpace(tokens);
      assert s == head + " " + JoinSpace(rest);
      assert s[|head|] == ' ';
      assert forall j :: 0 <= j < |head| ==> s[j] == head[j];
      var i := IndexOfSpace(s);
      assert i == |head|;
      assert s[..i] == head;
      assert s[i + 1..] == JoinSpace(rest);
      SplitJoin(rest);
    }
  }

  /** A join of non-empty, space-free tokens is non-empty and neither
      starts nor ends with a space. */
  lemma {:induction false} JoinSpaceEnds(tokens: seq<string>)
    requires 1 <= |tokens|
    requires AllNonEmpty(tokens) && NoSpaces(tokens)
    ensures var s := JoinSpace(tokens); |s| > 0 && s[0] != ' ' && s[|s| - 1] != ' '
    decreases |tokens|
  {
    assert ' ' !in tokens[0];
    if |tokens| > 1 {
      JoinSpaceEnds(tokens[1..]);
    } else {
      assert tokens[0][|tokens[0]| - 1] in tokens[0];
    }
  }

  /** What can be read back from a join of non-empty, space-free tokens. */
  lemma JoinedTokens(tokens: seq<string>)
    requires AllNonEmpty(tokens) && NoSpaces(tokens)
    ensures var s := JoinSpace(tokens);
      && (tokens != [] ==> SplitSpace(s) == tokens)
      && (tokens == [] ==> SplitSpace(s) == [""])
      && (s == "" <==> tokens == [])
      && (s != "" ==> s[0] != ' ' && s[|s| - 1] != ' ')
  {
    if tokens != [] {
      SplitJoin(tokens);
      JoinSpaceEnds(tokens);
    } else {
      assert SplitSpace("") == [""];
    }
  }
}
