/**
 * The page's token list (app/page.tsx): the listed symbols and the selected
 * one, held as React state and replaced by the add, select and remove
 * handlers. `selectedToken` is `None` where the page would hold `undefined`.
 */
module TokenList {
  import opened Wrappers

  /** `DEFAULT_TOKENS`. */
  const DEFAULT_TOKENS: seq<string> := ["0GUSDT"]

  /** No symbol is listed twice. */
  predicate Distinct(tokens: seq<string>)
  {
    forall i, j :: 0 <= i < j < |tokens| ==> tokens[i] != tokens[j]
  }

  /** `tokens.filter((t) => t !== token)`. */
  function Without(tokens: seq<string>, token: string): (rest: seq<string>)
    ensures |rest| <= |tokens|
  {
    if |tokens| == 0 then []
    else (if tokens[0] == token then [] else [tokens[0]]) + Without(tokens[1..], token)
  }

  /** Every copy of `token` is dropped; every other symbol keeps its number of copies. */
  lemma {:induction false} WithoutCounts(tokens: seq<string>, token: string)
    ensures multiset(Without(tokens, token))[token] == 0
    ensures forall u :: u != token ==> multiset(Without(tokens, token))[u] == multiset(tokens)[u]
  {
    if |tokens| > 0 {
      WithoutCounts(tokens[1..], token);
      assert tokens == [tokens[0]] + tokens[1..];
    }
  }

  /** The filter keeps order: filtering a concatenation concatenates the filtered parts. */
  lemma {:induction false} WithoutAppend(p: seq<string>, q: seq<string>, token: string)
    ensures Without(p + q, token) == Without(p, token) + Without(q, token)
  {
    if |p| == 0 {
      assert p + q == q;
    } else {
      var head := if p[0] == token then [] else [p[0]];
      assert (p + q)[0] == p[0];
      assert (p + q)[1..] == p[1..] + q;
      WithoutAppend(p[1..], q, token);
      assert Without(p + q, token) == head + Without(p[1..] + q, token);
      assert Without(p, token) == head + Without(p[1..], token);
    }
  }

  /** A list without `token` comes back unchanged. */
  lemma {:induction false} WithoutAbsent(tokens: seq<string>, token: string)
    requires token !in tokens
    ensures Without(tokens, token) == tokens
  {
    if |tokens| > 0 {
      assert token !in tokens[1..];
      WithoutAbsent(tokens[1..], token);
    }
  }

  /** A list holding nothing but copies of `token` is emptied by its removal. */
  lemma {:induction false} WithoutAllCopies(tokens: seq<string>, token: string)
    requires forall i :: 0 <= i < |tokens| ==> tokens[i] == token
    ensures Without(tokens, token) == []
  {
    if |tokens| > 0 {
      WithoutAllCopies(tokens[1..], token);
    }
  }

  /**
   * Removing `token` from `p + [u] + q` with `u` another symbol leaves `u`
   * between what is left of `p` and what is left of `q`: the other symbols
   * keep their order.
   */
  lemma WithoutKeepsOthersInPlace(p: seq<string>, u: string, q: seq<string>, token: string)
    requires u != token
    ensures Without(p + [u] + q, token) == Without(p, token) + [u] + Without(q, token)
  {
    WithoutAppend(p + [u], q, token);
    WithoutAppend(p, [u], token);
    assert [u][1..] == [];
  }

  lemma {:induction false} WithoutKeepsDistinct(tokens: seq<string>, token: string)
    requires Distinct(tokens)
    ensures Distinct(Without(tokens, token))
  {
    if |tokens| > 0 {
      var tail := tokens[1..];
      assert Distinct(tail);
      WithoutKeepsDistinct(tail, token);
      if tokens[0] != token {
        assert tokens[0] !in tail;
        WithoutCounts(tail, token);
        assert multiset(Without(tail, token))[tokens[0]] == 0;
      }
    }
  }

  /** From a list of two or more distinct symbols, a removal leaves at least one. */
  lemma RemovalFromDistinctLeavesOne(tokens: seq<string>, token: string)
    requires Distinct(tokens) && |tokens| > 1
    ensures |Without(tokens, token)| > 0
  {
    var kept := if tokens[0] != token then tokens[0] else tokens[1];
    assert kept in tokens;
    WithoutCounts(tokens, token);
    assert multiset(Without(tokens, token))[kept] > 0;
  }

  /** The token bar's state on the page. */
  class TokenBar {
    var tokens: seq<string>
    var selectedToken: Option<string>

    /** The selected symbol is one of the listed ones. */
    predicate SelectionListed()
      reads this
    {
      selectedToken.Some? && selectedToken.value in tokens
    }

    /** The initial state: the default list, its first symbol selected. */
    constructor ()
      ensures tokens == DEFAULT_TOKENS && selectedToken == Some(DEFAULT_TOKENS[0])
      ensures SelectionListed() && Distinct(tokens)
    {
      tokens := DEFAULT_TOKENS;
      selectedToken := Some(DEFAULT_TOKENS[0]);
    }

    /** `onSelectToken={setSelectedToken}`. */
    method SelectToken(token: string)
      modifies this
      ensures tokens == old(tokens) && selectedToken == Some(token)
      ensures token in tokens ==> SelectionListed()
    {
      selectedToken := Some(token);
    }

    /** `handleAddToken`: appends the symbol and selects it. */
    method AddToken(token: string)
      modifies this
      ensures tokens == old(tokens) + [token]
      ensures selectedToken == Some(token)
      ensures SelectionListed()
      ensures Distinct(old(tokens)) && token !in old(tokens) ==> Distinct(tokens)
    {
      var newTokens := tokens + [token];
      tokens := newTokens;
      selectedToken := Some(token);
    }

    /**
     * `handleRemoveToken`: drops every copy of the symbol; if it was the
     * selected one, selects the first remaining symbol, or nothing when
     * none remains.
     */
    method RemoveToken(token: string)
      modifies this
      ensures tokens == Without(old(tokens), token)
      ensures old(selectedToken) == Some(token) && |tokens| > 0 ==> selectedToken == Some(tokens[0])
      ensures old(selectedToken) == Some(token) && |tokens| == 0 ==> selectedToken.None?
      ensures old(selectedToken) != Some(token) ==> selectedToken == old(selectedToken)
      ensures Distinct(old(tokens)) ==> Distinct(tokens)
      ensures Distinct(old(tokens)) && |old(tokens)| > 1 && old(SelectionListed()) ==> SelectionListed()
    {
      var newTokens := Without(tokens, token);
      if Distinct(tokens) {
        WithoutKeepsDistinct(tokens, token);
        if |tokens| > 1 {
          RemovalFromDistinctLeavesOne(tokens, token);
        }
      }
      if selectedToken.Some? && selectedToken.value != token {
        WithoutCounts(tokens, token);
        assert multiset(newTokens)[selectedToken.value] == multiset(tokens)[selectedToken.value];
      }
      tokens := newTokens;
      if selectedToken == Some(token) {
        selectedToken := if |newTokens| > 0 then Some(newTokens[0]) else None;
      }
    }
  }
}
