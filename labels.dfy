/**
 * Playlist labels travel inside widget paths, where `&` separates parameters:
 * the playlist listing writes each `&` of a label as `[and]`, and the playlist
 * widgets turn every `[and]` back into `&` before querying the library. Both
 * are Python's `str.replace`, which rewrites the leftmost occurrence and
 * carries on after it.
 */
module Labels {

  const Token: string := "[and]"

  /** `label.replace('&', '[and]')`: no `&` is left, and nothing gets shorter. */
  function Escape(s: string): (r: string)
    ensures |s| <= |r|
    ensures '&' !in r
  {
    if s == [] then []
    else
      assert s == [s[0]] + s[1..];
      (if s[0] == '&' then Token else [s[0]]) + Escape(s[1..])
  }

  /** `label.replace('[and]', '&')`: never longer than its input. */
  function Unescape(s: string): (r: string)
    ensures |r| <= |s|
  {
    if |s| >= 5 && s[..5] == Token then "&" + Unescape(s[5..])
    else if s == [] then []
    else
      assert s == [s[0]] + s[1..];
      [s[0]] + Unescape(s[1..])
  }

  /** `s` holds `[and]` somewhere. */
  predicate HasToken(s: string) {
    |s| >= 5 && (s[..5] == Token || HasToken(s[1..]))
  }

  /**
   * Decoding leaves a parameter without `[and]` as it is, and puts an `&` into
   * one that has it.
   */
  lemma {:induction false} UnescapeWithoutToken(s: string)
    ensures !HasToken(s) ==> Unescape(s) == s
    ensures HasToken(s) ==> '&' in Unescape(s)
  {
    if |s| >= 5 && s[..5] == Token {
      assert Unescape(s) == "&" + Unescape(s[5..]);
    } else if s != [] {
      UnescapeWithoutToken(s[1..]);
      assert Unescape(s) == [s[0]] + Unescape(s[1..]);
      assert s == [s[0]] + s[1..];
      assert !HasToken(s) ==> !HasToken(s[1..]);
    }
  }

  /** A label without `&` is left as it is. */
  lemma {:induction false} EscapeWithoutAmpersand(s: string)
    requires '&' !in s
    ensures Escape(s) == s
  {
    if s != [] {
      assert '&' !in s[1..];
      EscapeWithoutAmpersand(s[1..]);
    }
  }

  /**
   * The escaped text starts with a word free of `[` only when the label
   * itself does: an escaped `&` always starts with `[`.
   */
  lemma {:induction false} EscapeStartsWith(t: string, w: string)
    requires '[' !in w
    requires |w| <= |Escape(t)| && Escape(t)[..|w|] == w
    ensures |w| <= |t| && t[..|w|] == w
  {
    if w != [] {
      assert Escape(t)[0] == w[0];
      assert t != [];
      assert t[0] != '&';
      assert Escape(t) == [t[0]] + Escape(t[1..]);
      assert Escape(t[1..])[..|w| - 1] == w[1..];
      EscapeStartsWith(t[1..], w[1..]);
    }
  }

  /** Decoding undoes encoding for every label that does not itself hold `[and]`. */
  lemma {:induction false} UnescapeEscape(s: string)
    requires !HasToken(s)
    ensures Unescape(Escape(s)) == s
  {
    if s != [] {
      assert !HasToken(s[1..]);
      UnescapeEscape(s[1..]);
      var e := Escape(s[1..]);
      if s[0] == '&' {
        assert Escape(s) == Token + e;
        assert (Token + e)[..5] == Token && (Token + e)[5..] == e;
      } else {
        assert Escape(s) == [s[0]] + e;
        if |[s[0]] + e| >= 5 && ([s[0]] + e)[..5] == Token {
          assert ([s[0]] + e)[1..5] == e[..4];
          assert Token[1..5] == "and]";
          EscapeStartsWith(s[1..], "and]");
          assert false;
        }
        assert ([s[0]] + e)[1..] == e;
      }
    }
  }

  /** Encoding undoes decoding for every path parameter without a bare `&`. */
  lemma {:induction false} EscapeUnescape(s: string)
    requires '&' !in s
    ensures Escape(Unescape(s)) == s
  {
    if |s| >= 5 && s[..5] == Token {
      assert '&' !in s[5..];
      EscapeUnescape(s[5..]);
      assert ("&" + Unescape(s[5..]))[1..] == Unescape(s[5..]);
      assert s == Token + s[5..];
    } else if s != [] {
      assert '&' !in s[1..];
      EscapeUnescape(s[1..]);
      assert ([s[0]] + Unescape(s[1..]))[1..] == Unescape(s[1..]);
      assert s == [s[0]] + s[1..];
    }
  }

  /** A label that holds `[and]` does not survive the trip: "[and]" comes back as "&". */
  lemma TokenLabelChanges()
    ensures Escape(Token) == Token
    ensures Unescape(Escape(Token)) == "&"
  {
    var t := Token;
    assert '&' !in t;
    EscapeWithoutAmpersand(t);
    assert t[..5] == t;
    assert HasToken(t);
  }
}
