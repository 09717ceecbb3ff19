/** The placeholder token both runners search for with the regular expression
    `/\{(\w+)\}/g`: an opening brace, one or more word characters, a closing brace. */
module PlaceholderSyntax {

  /** `\w` without the `u` flag. */
  predicate IsWordChar(c: char) {
    ('a' <= c <= 'z') || ('A' <= c <= 'Z') || ('0' <= c <= '9') || c == '_'
  }

  predicate IsWord(s: string) {
    |s| >= 1 && forall i :: 0 <= i < |s| ==> IsWordChar(s[i])
  }

  /** The token `{key}`. */
  function Token(key: string): string {
    "{" + key + "}"
  }

  /** The end of the run of word characters that starts at index `i` of `t`. */
  function WordEnd(t: string, i: nat): (e: nat)
    requires i <= |t|
    ensures i <= e <= |t|
    ensures forall j :: i <= j < e ==> IsWordChar(t[j])
    ensures e < |t| ==> !IsWordChar(t[e])
    decreases |t| - i
  {
    if i < |t| && IsWordChar(t[i]) then WordEnd(t, i + 1) else i
  }

  /** The length of the `{word}` token `t` starts with, or 0 when it starts with none.
      `\w+` is greedy and `}` is not a word character, so the only candidate is the
      longest run. */
  function TokenLength(t: string): (n: nat)
    ensures n == 0 || (3 <= n <= |t| && t[0] == '{' && t[n - 1] == '}' && IsWord(t[1..n - 1]))
  {
    if |t| >= 3 && t[0] == '{' then
      var e := WordEnd(t, 1);
      if e >= 2 && e < |t| && t[e] == '}' then e + 1 else 0
    else 0
  }

  /** `t` ends inside a token that could still be completed: a `{` followed only by word characters. */
  predicate OpenTail(t: string) {
    exists i :: 0 <= i < |t| && t[i] == '{' && forall j :: i < j < |t| ==> IsWordChar(t[j])
  }

  /** A word run is determined by where it meets its first non-word character. */
  lemma {:induction false} WordEndAt(t: string, i: nat, e: nat)
    requires i <= e <= |t|
    requires forall j :: i <= j < e ==> IsWordChar(t[j])
    requires e < |t| ==> !IsWordChar(t[e])
    ensures WordEnd(t, i) == e
    decreases |t| - i
  {
    if i < e {
      WordEndAt(t, i + 1, e);
    }
  }

  /** The token at the start of `x + y` is the one at the start of `x`, provided `x`
      does not end in an open token. */
  lemma TokenInPrefix(x: string, y: string)
    requires x != [] && !OpenTail(x)
    ensures TokenLength(x + y) == TokenLength(x)
  {
    var t := x + y;
    if t[0] == '{' && |t| >= 3 {
      assert x[0] == '{';
      var j :| 0 < j < |x| && !IsWordChar(x[j]);
      var e := WordEnd(x, 1);
      assert e <= j;
      WordEndAt(t, 1, e);
    }
  }

  /** A suffix of a string without an open tail has none either. */
  lemma SuffixNoOpenTail(x: string, k: nat)
    requires k <= |x| && !OpenTail(x)
    ensures !OpenTail(x[k..])
  {
    var s := x[k..];
    forall i | 0 <= i < |s| && s[i] == '{'
      ensures exists j :: i < j < |s| && !IsWordChar(s[j])
    {
      assert x[k + i] == '{';
      var j :| k + i < j < |x| && !IsWordChar(x[j]);
      assert s[j - k] == x[j];
    }
  }

  /** A token, once it is closed, is no open tail. */
  lemma TokenNoOpenTail(k: string)
    requires IsWord(k)
    ensures !OpenTail(Token(k))
  {
    var t := Token(k);
    assert t[|t| - 1] == '}';
  }

  /** A token is recognised whole, whatever follows it. */
  lemma TokenOfWord(k: string, rest: string)
    requires IsWord(k)
    ensures TokenLength(Token(k) + rest) == |k| + 2
  {
    var t := Token(k) + rest;
    assert forall j :: 1 <= j < |k| + 1 ==> t[j] == k[j - 1];
    assert t[|k| + 1] == '}';
    WordEndAt(t, 1, |k| + 1);
  }

  lemma SplitAt(s: string, n: nat)
    requires n <= |s|
    ensures s[..n] + s[n..] == s
  {
  }
}
