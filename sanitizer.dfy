/**
 * The redaction rule of MinecraftGameProvider.getLaunchArguments(true): every "--accessToken" is
 * dropped together with the single token that follows it. SanitizeFrom follows the source's loop
 * (a counter set to 2 on each "--accessToken"); KeepMask is an independent, index-wise statement of
 * the same rule, and SanitizeIsMasked proves the two agree.
 */
module Sanitizer {

  const ACCESS_TOKEN := "--accessToken"

  /** The loop over the tokens still to visit, with `remove` the counter on entry. */
  function SanitizeFrom(tokens: seq<string>, remove: int): seq<string>
    decreases |tokens|
  {
    if tokens == [] then []
    else
      var r := if tokens[0] == ACCESS_TOKEN then 2 else remove;
      if r > 0 then SanitizeFrom(tokens[1..], r - 1)
      else [tokens[0]] + SanitizeFrom(tokens[1..], r)
  }

  /** The loop as the source starts it, with the counter at 0. */
  function Sanitize(tokens: seq<string>): seq<string> {
    SanitizeFrom(tokens, 0)
  }

  /** Token `i` is redacted when it is the key or directly follows the key. */
  predicate Redacted(tokens: seq<string>, i: nat)
    requires i < |tokens|
  {
    tokens[i] == ACCESS_TOKEN || (i > 0 && tokens[i - 1] == ACCESS_TOKEN)
  }

  function KeepMask(tokens: seq<string>): (m: seq<bool>)
    ensures |m| == |tokens|
  {
    seq(|tokens|, i requires 0 <= i < |tokens| => !Redacted(tokens, i))
  }

  /** The elements of `s` whose flag in `keep` is set, in their original order. */
  function Select<T>(s: seq<T>, keep: seq<bool>): seq<T>
    requires |keep| == |s|
  {
    if s == [] then [] else (if keep[0] then [s[0]] else []) + Select(s[1..], keep[1..])
  }

  predicate IsSubsequence<T(==)>(a: seq<T>, b: seq<T>)
    decreases |b|
  {
    if a == [] then true
    else if b == [] then false
    else if a[0] == b[0] then IsSubsequence(a[1..], b[1..])
    else IsSubsequence(a, b[1..])
  }

  /** The mask when the token before `tokens` was (`afterKey`) or was not the key. */
  function MaskAfter(tokens: seq<string>, afterKey: bool): (m: seq<bool>)
    ensures |m| == |tokens|
  {
    seq(|tokens|, i requires 0 <= i < |tokens| =>
      !(tokens[i] == ACCESS_TOKEN || (if i == 0 then afterKey else tokens[i - 1] == ACCESS_TOKEN)))
  }

  lemma {:induction false} SanitizeFromIsMasked(tokens: seq<string>, remove: int)
    requires remove == 0 || remove == 1
    ensures SanitizeFrom(tokens, remove) == Select(tokens, MaskAfter(tokens, remove == 1))
    decreases |tokens|
  {
    if tokens != [] {
      var t, rest := tokens[0], tokens[1..];
      var m := MaskAfter(tokens, remove == 1);
      assert m[1..] == MaskAfter(rest, t == ACCESS_TOKEN);
      SanitizeFromIsMasked(rest, if t == ACCESS_TOKEN then 1 else 0);
    }
  }

  /** The loop removes exactly the key tokens and the tokens right after them, keeping the order. */
  lemma SanitizeIsMasked(tokens: seq<string>)
    ensures Sanitize(tokens) == Select(tokens, KeepMask(tokens))
  {
    assert KeepMask(tokens) == MaskAfter(tokens, false);
    SanitizeFromIsMasked(tokens, 0);
  }

  /** Whatever the counter, no "--accessToken" survives. */
  lemma {:induction false} SanitizeFromHasNoKey(tokens: seq<string>, remove: int)
    ensures ACCESS_TOKEN !in SanitizeFrom(tokens, remove)
    decreases |tokens|
  {
    if tokens != [] {
      var r := if tokens[0] == ACCESS_TOKEN then 2 else remove;
      SanitizeFromHasNoKey(tokens[1..], if r > 0 then r - 1 else r);
    }
  }

  lemma SanitizeHasNoKey(tokens: seq<string>)
    ensures ACCESS_TOKEN !in Sanitize(tokens)
  {
    SanitizeFromHasNoKey(tokens, 0);
  }

  /** Tokens without the key pass through with the counter at 0. */
  lemma {:induction false} SanitizeWithoutKey(tokens: seq<string>)
    requires ACCESS_TOKEN !in tokens
    ensures SanitizeFrom(tokens, 0) == tokens
    decreases |tokens|
  {
    if tokens != [] {
      assert tokens[0] != ACCESS_TOKEN;
      assert ACCESS_TOKEN !in tokens[1..] by {
        assert forall t :: t in tokens[1..] ==> t in tokens;
      }
      SanitizeWithoutKey(tokens[1..]);
    }
  }

  /** Sanitising an already sanitised list changes nothing. */
  lemma SanitizeIdempotent(tokens: seq<string>)
    ensures Sanitize(Sanitize(tokens)) == Sanitize(tokens)
  {
    SanitizeHasNoKey(tokens);
    SanitizeWithoutKey(Sanitize(tokens));
  }

  lemma {:induction false} SanitizeFromIsSubsequence(tokens: seq<string>, remove: int)
    ensures IsSubsequence(SanitizeFrom(tokens, remove), tokens)
    decreases |tokens|
  {
    if tokens != [] {
      var r := if tokens[0] == ACCESS_TOKEN then 2 else remove;
      var r' := if r > 0 then r - 1 else r;
      SanitizeFromIsSubsequence(tokens[1..], r');
      if r <= 0 {
        var out := SanitizeFrom(tokens, remove);
        assert out[0] == tokens[0] && out[1..] == SanitizeFrom(tokens[1..], r');
      } else {
        SubsequenceOfTail(SanitizeFrom(tokens[1..], r'), tokens);
      }
    }
  }

  lemma {:induction false} SubsequenceOfTail<T>(a: seq<T>, b: seq<T>)
    requires |b| > 0 && IsSubsequence(a, b[1..])
    ensures IsSubsequence(a, b)
    decreases |a| + |b|
  {
    if a != [] && a[0] == b[0] {
      // IsSubsequence(a, b) reduces to IsSubsequence(a[1..], b[1..])
      SubsequenceDropHead(a, b[1..]);
    }
  }

  lemma {:induction false} SubsequenceDropHead<T>(a: seq<T>, b: seq<T>)
    requires |a| > 0 && IsSubsequence(a, b)
    ensures IsSubsequence(a[1..], b)
    decreases |a| + |b|
  {
    if a[0] != b[0] {
      SubsequenceDropHead(a, b[1..]);
      SubsequenceOfTail(a[1..], b);
    } else if a[1..] != [] {
      SubsequenceOfTail(a[1..], b);
    }
  }

  /** The output is the input with some tokens taken out. */
  lemma SanitizeIsSubsequence(tokens: seq<string>)
    ensures IsSubsequence(Sanitize(tokens), tokens)
  {
    SanitizeFromIsSubsequence(tokens, 0);
  }

  /** A key given as the value of a previous key restarts the window: [K, K, X, Y] leaves [Y]. */
  lemma RepeatedKeyRestartsWindow(x: string, y: string)
    requires x != ACCESS_TOKEN && y != ACCESS_TOKEN
    ensures Sanitize([ACCESS_TOKEN, ACCESS_TOKEN, x, y]) == [y]
  {
    var s := [ACCESS_TOKEN, ACCESS_TOKEN, x, y];
    assert s[1..] == [ACCESS_TOKEN, x, y] && s[2..] == [x, y] && s[3..] == [y];
    assert SanitizeFrom([y], 0) == [y];
    assert SanitizeFrom([x, y], 1) == [y];
    assert SanitizeFrom([ACCESS_TOKEN, x, y], 1) == [y];
  }

  /** A trailing key has no value after it and is removed on its own. */
  lemma TrailingKeyRemovedAlone(prefix: seq<string>)
    ensures Sanitize(prefix + [ACCESS_TOKEN]) == Sanitize(prefix)
  {
    var s := prefix + [ACCESS_TOKEN];
    SanitizeIsMasked(s);
    SanitizeIsMasked(prefix);
    SelectSnocDropped(prefix, ACCESS_TOKEN, KeepMask(prefix));
    assert KeepMask(s) == KeepMask(prefix) + [false];
  }

  lemma {:induction false} SelectSnocDropped<T>(s: seq<T>, x: T, keep: seq<bool>)
    requires |keep| == |s|
    ensures Select(s + [x], keep + [false]) == Select(s, keep)
    decreases |s|
  {
    if s != [] {
      assert (s + [x])[1..] == s[1..] + [x] && (keep + [false])[1..] == keep[1..] + [false];
      SelectSnocDropped(s[1..], x, keep[1..]);
    }
  }
}
