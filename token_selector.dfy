/**
 * The symbol entry of the token bar (components/TokenSelector.tsx): the
 * draft text is upper-cased and trimmed, refused when empty or already
 * listed, and otherwise handed on with a `USDT` suffix.
 */
module TokenSelector {
  import opened Wrappers
  import TokenList

  /**
   * The code points `String.prototype.trim` strips: the ECMAScript
   * WhiteSpace and LineTerminator characters (tab to carriage return,
   * space, no-break space, the Unicode space separators, the line and
   * paragraph separators and the byte-order mark).
   */
  const WHITESPACE: set<char> := {
    '\t', '\n', '\U{000B}', '\U{000C}', '\r', ' ', '\U{00A0}', '\U{1680}',
    '\U{2000}', '\U{2001}', '\U{2002}', '\U{2003}', '\U{2004}', '\U{2005}', '\U{2006}',
    '\U{2007}', '\U{2008}', '\U{2009}', '\U{200A}',
    '\U{2028}', '\U{2029}', '\U{202F}', '\U{205F}', '\U{3000}', '\U{FEFF}'
  }

  predicate IsWhitespace(c: char)
  {
    c in WHITESPACE
  }

  predicate IsLowerAscii(c: char)
  {
    'a' <= c <= 'z'
  }

  /** `toUpperCase` on one character, for the ASCII letters. */
  function UpperChar(c: char): char
  {
    if IsLowerAscii(c) then (c as int - 32) as char else c
  }

  /**
   * `toUpperCase`: every lower-case letter becomes the capital at the same
   * alphabet position, every other character is kept, nothing moves.
   */
  function UpperAscii(s: string): (u: string)
    ensures |u| == |s|
    ensures forall i :: 0 <= i < |s| && IsLowerAscii(s[i]) ==> 'A' <= u[i] <= 'Z' && u[i] as int - 'A' as int == s[i] as int - 'a' as int
    ensures forall i :: 0 <= i < |s| && !IsLowerAscii(s[i]) ==> u[i] == s[i]
  {
    seq(|s|, i requires 0 <= i < |s| => UpperChar(s[i]))
  }

  /** No ASCII lower-case letter occurs in `s`. */
  predicate NoLowerAscii(s: string)
  {
    forall i :: 0 <= i < |s| ==> !IsLowerAscii(s[i])
  }

  /** The upper-cased text holds no lower-case letter, and text without one is its own upper-casing. */
  lemma UpperAsciiIsUpper(s: string)
    ensures NoLowerAscii(UpperAscii(s))
    ensures NoLowerAscii(s) ==> UpperAscii(s) == s
  {
  }

  /** The index of the first character at or after `i` that is not whitespace, or `|s|`. */
  function TrimStartIndex(s: string, i: nat): (k: nat)
    requires i <= |s|
    ensures i <= k <= |s|
    ensures forall j :: i <= j < k ==> IsWhitespace(s[j])
    ensures k < |s| ==> !IsWhitespace(s[k])
    decreases |s| - i
  {
    if i < |s| && IsWhitespace(s[i]) then TrimStartIndex(s, i + 1) else i
  }

  /** The index just after the last character before `j` and from `lo` on that is not whitespace, or `lo`. */
  function TrimEndIndex(s: string, lo: nat, j: nat): (e: nat)
    requires lo <= j <= |s|
    ensures lo <= e <= j
    ensures forall m :: e <= m < j ==> IsWhitespace(s[m])
    ensures e > lo ==> !IsWhitespace(s[e - 1])
  {
    if j > lo && IsWhitespace(s[j - 1]) then TrimEndIndex(s, lo, j - 1) else j
  }

  /**
   * `trim`: the slice of `s` between its leading and its trailing
   * whitespace. Everything outside the slice is whitespace, and the slice
   * neither starts nor ends with whitespace.
   */
  function Trim(s: string): (t: string)
    ensures exists k, e :: 0 <= k <= e <= |s| && t == s[k..e] &&
                           (forall j :: 0 <= j < k ==> IsWhitespace(s[j])) &&
                           (forall j :: e <= j < |s| ==> IsWhitespace(s[j]))
    ensures |t| > 0 ==> !IsWhitespace(t[0]) && !IsWhitespace(t[|t| - 1])
  {
    var k := TrimStartIndex(s, 0);
    var e := TrimEndIndex(s, k, |s|);
    assert e > k ==> k < |s|;
    s[k..e]
  }

  /** Text with no whitespace at either end is its own trim. */
  lemma TrimOfTrimmed(s: string)
    requires |s| > 0 ==> !IsWhitespace(s[0]) && !IsWhitespace(s[|s| - 1])
    ensures Trim(s) == s
  {
    assert TrimStartIndex(s, 0) == 0;
    assert s[0..|s|] == s;
  }

  /** Trimming text without a lower-case letter leaves none. */
  lemma TrimKeepsNoLower(s: string)
    requires NoLowerAscii(s)
    ensures NoLowerAscii(Trim(s))
  {
    var k := TrimStartIndex(s, 0);
    var t := Trim(s);
    assert t == s[k..TrimEndIndex(s, k, |s|)];
    forall i | 0 <= i < |t|
      ensures !IsLowerAscii(t[i])
    {
      assert t[i] == s[k + i];
    }
  }

  /**
   * `newToken.toUpperCase().trim()`: no lower-case letter, no whitespace at
   * either end, and never longer than the typed text.
   */
  function Normalize(raw: string): (n: string)
    ensures NoLowerAscii(n)
    ensures |n| > 0 ==> !IsWhitespace(n[0]) && !IsWhitespace(n[|n| - 1])
    ensures |n| <= |raw|
  {
    var u := UpperAscii(raw);
    UpperAsciiIsUpper(raw);
    TrimKeepsNoLower(u);
    Trim(u)
  }

  /** Normalizing is idempotent. */
  lemma NormalizeIsIdempotent(raw: string)
    ensures Normalize(Normalize(raw)) == Normalize(raw)
  {
    var n := Normalize(raw);
    assert UpperAscii(n) == n by {
      UpperAsciiIsUpper(n);
    }
    assert Trim(n) == n by {
      TrimOfTrimmed(n);
    }
  }

  /** `endsWith`. */
  predicate EndsWith(s: string, suffix: string)
  {
    |suffix| <= |s| && s[|s| - |suffix|..] == suffix
  }

  /**
   * `token.endsWith("USDT") ? token : \`${token}USDT\``: the result ends
   * in `USDT`; a suffixed symbol is kept, any other gains the suffix once.
   */
  function WithUsdtSuffix(token: string): (symbol: string)
    ensures EndsWith(symbol, "USDT")
    ensures EndsWith(token, "USDT") ==> symbol == token
    ensures !EndsWith(token, "USDT") ==> symbol == token + "USDT"
  {
    if EndsWith(token, "USDT") then token else token + "USDT"
  }

  /** Adding the suffix a second time changes nothing. */
  lemma WithUsdtSuffixIsIdempotent(token: string)
    ensures WithUsdtSuffix(WithUsdtSuffix(token)) == WithUsdtSuffix(token)
  {
  }

  /** The entry's local state: the draft text `newToken` and the `isAdding` flag. */
  datatype Draft = Draft(newToken: string, isAdding: bool)

  /** What one press of Add does: the symbol handed to `onAddToken`, if any, and the new entry state. */
  datatype AddOutcome = AddOutcome(emitted: Option<string>, draft: Draft)

  /**
   * `handleAddToken` as written: refuses a normalized draft that is empty
   * or listed as it stands, otherwise emits it with the suffix and clears
   * and closes the entry. A refusal leaves the entry as it was.
   */
  function HandleAddToken(tokens: seq<string>, draft: Draft): (r: AddOutcome)
    ensures r.emitted.None? <==> |Normalize(draft.newToken)| == 0 || Normalize(draft.newToken) in tokens
    ensures r.emitted.Some? ==> r.emitted.value == WithUsdtSuffix(Normalize(draft.newToken))
    ensures r.emitted.Some? ==> r.draft == Draft("", false)
    ensures r.emitted.None? ==> r.draft == draft
  {
    var token := Normalize(draft.newToken);
    if |token| > 0 && token !in tokens then AddOutcome(Some(WithUsdtSuffix(token)), Draft("", false))
    else AddOutcome(None, draft)
  }

  /**
   * The suffix adds no lower-case letter and keeps the first character; a
   * non-empty text other than `USDT` itself comes out longer than the suffix.
   */
  lemma SuffixedSymbolShape(token: string)
    requires NoLowerAscii(token)
    ensures NoLowerAscii(WithUsdtSuffix(token))
    ensures |token| > 0 ==> WithUsdtSuffix(token)[0] == token[0]
    ensures |token| > 0 && token != "USDT" ==> |WithUsdtSuffix(token)| > 4
  {
    var symbol := WithUsdtSuffix(token);
    if EndsWith(token, "USDT") {
      if |token| == 4 {
        assert token == token[|token| - 4..];
      }
    } else {
      forall i | 0 <= i < |symbol|
        ensures !IsLowerAscii(symbol[i])
      {
        if i < |token| {
          assert symbol[i] == token[i];
        } else {
          assert symbol[i] == "USDT"[i - |token|];
        }
      }
    }
  }

  /**
   * An emitted symbol is a well-formed pair name: it ends in `USDT`, has
   * no lower-case letter and no whitespace at its start, and is longer
   * than the suffix unless the draft itself was `USDT`.
   */
  lemma EmittedSymbolIsWellFormed(tokens: seq<string>, draft: Draft)
    requires HandleAddToken(tokens, draft).emitted.Some?
    ensures var symbol := HandleAddToken(tokens, draft).emitted.value;
            && EndsWith(symbol, "USDT")
            && NoLowerAscii(symbol)
            && |symbol| > 0 && !IsWhitespace(symbol[0])
            && (Normalize(draft.newToken) != "USDT" ==> |symbol| > 4)
  {
    NormalizeIsIdempotent(draft.newToken);
    SuffixedSymbolShape(Normalize(draft.newToken));
  }

  /**
   * The duplicate check compares the unsuffixed form: with `BTCUSDT`
   * listed, the draft `btc` is accepted and emits `BTCUSDT` again; once
   * the page appends it, removing `BTCUSDT` empties the list.
   */
  lemma UnsuffixedCheckEmitsListedSymbol()
    ensures HandleAddToken(["BTCUSDT"], Draft("btc", true)).emitted == Some("BTCUSDT")
    ensures TokenList.Without(["BTCUSDT"] + ["BTCUSDT"], "BTCUSDT") == []
  {
    var u := UpperAscii("btc");
    assert u[0] == 'B' && u[1] == 'T' && u[2] == 'C';
    assert u == "BTC";
    TrimOfTrimmed("BTC");
    var symbol := "BTCUSDT";
    assert |"BTC"| != |symbol|;
    assert !EndsWith("BTC", "USDT");
    assert "BTC" + "USDT" == symbol;
    TokenList.WithoutAllCopies([symbol] + [symbol], symbol);
  }

  /**
   * `handleAddToken` with the duplicate check on the symbol that would be
   * emitted: the same as written, except that a draft whose suffixed
   * form is already listed is refused as well.
   */
  function HandleAddTokenChecked(tokens: seq<string>, draft: Draft): (r: AddOutcome)
    ensures r.emitted.None? <==> |Normalize(draft.newToken)| == 0 || WithUsdtSuffix(Normalize(draft.newToken)) in tokens
    ensures r.emitted.Some? ==> r.emitted.value == WithUsdtSuffix(Normalize(draft.newToken)) && r.emitted.value !in tokens
    ensures r.emitted.Some? ==> r.draft == Draft("", false)
    ensures r.emitted.None? ==> r.draft == draft
  {
    var token := Normalize(draft.newToken);
    if |token| > 0 && WithUsdtSuffix(token) !in tokens then AddOutcome(Some(WithUsdtSuffix(token)), Draft("", false))
    else AddOutcome(None, draft)
  }

  /** With the corrected check, appending the emitted symbol keeps the list free of duplicates. */
  lemma CheckedAddKeepsDistinct(tokens: seq<string>, draft: Draft)
    requires TokenList.Distinct(tokens)
    requires HandleAddTokenChecked(tokens, draft).emitted.Some?
    ensures TokenList.Distinct(tokens + [HandleAddTokenChecked(tokens, draft).emitted.value])
  {
  }

  /**
   * On a list of suffixed symbols, which is what the page holds, the
   * corrected check refuses everything the written one refuses and, where
   * it accepts, does exactly what the written one does.
   */
  lemma CheckedRefinesWritten(tokens: seq<string>, draft: Draft)
    requires forall t :: t in tokens ==> EndsWith(t, "USDT")
    ensures HandleAddToken(tokens, draft).emitted.None? ==> HandleAddTokenChecked(tokens, draft).emitted.None?
    ensures HandleAddTokenChecked(tokens, draft).emitted.Some? ==>
              HandleAddTokenChecked(tokens, draft) == HandleAddToken(tokens, draft)
  {
    var token := Normalize(draft.newToken);
    if token in tokens {
      assert WithUsdtSuffix(token) == token;
    }
  }
  /**
   * One press of Add on the page's token bar, with the corrected check: an
   * accepted symbol is appended and selected through `onAddToken`, a
   * refused draft leaves the bar untouched, and a list free of duplicates
   * stays free of them.
   */
  method SubmitDraft(bar: TokenList.TokenBar, draft: Draft) returns (next: Draft)
    modifies bar
    ensures var r := HandleAddTokenChecked(old(bar.tokens), draft);
            && next == r.draft
            && (r.emitted.Some? ==> bar.tokens == old(bar.tokens) + [r.emitted.value] && bar.selectedToken == r.emitted)
            && (r.emitted.None? ==> bar.tokens == old(bar.tokens) && bar.selectedToken == old(bar.selectedToken))
    ensures TokenList.Distinct(old(bar.tokens)) ==> TokenList.Distinct(bar.tokens)
  {
    var r := HandleAddTokenChecked(bar.tokens, draft);
    if r.emitted.Some? {
      bar.AddToken(r.emitted.value);
    }
    next := r.draft;
  }
}
