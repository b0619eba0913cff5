/** The few JavaScript runtime and browser values the two chat components rely on:
    an optional value (a property that may be `undefined`), a browser `File`,
    `String.prototype.trim`, and the `value || fallback` idiom on strings. */
module Js {

  /** A value that may be absent (`undefined` or `null` in the source). */
  datatype Option<+T> = None | Some(value: T)

  /** A browser `File` object, as far as the components read it: its name, its size
      in bytes and its MIME type. Its binary content only travels to the backend. */
  datatype File = File(name: string, size: nat, mimeType: string)

  /** The characters `trim` removes: ECMAScript's WhiteSpace (tab, vertical tab, form
      feed, space, no-break space, zero-width no-break space and the Unicode space
      separators) and LineTerminator (line feed, carriage return, line and paragraph
      separators) code points. */
  predicate IsWhiteSpace(c: char): (ws: bool)
    // within ASCII these are exactly space and the controls tab through carriage return
    ensures c <= '\U{007F}' ==> (ws <==> c == ' ' || '\t' <= c <= '\r')
    // `trim` never removes a letter or a digit
    ensures ws ==> !('0' <= c <= '9' || 'A' <= c <= 'Z' || 'a' <= c <= 'z')
  {
    c == '\t' || c == '\n' || c == '\U{000B}' || c == '\U{000C}' || c == '\r' || c == ' '
    || c == '\U{00A0}' || c == '\U{1680}' || ('\U{2000}' <= c <= '\U{200A}')
    || c == '\U{2028}' || c == '\U{2029}' || c == '\U{202F}' || c == '\U{205F}'
    || c == '\U{3000}' || c == '\U{FEFF}'
  }

  ghost predicate AllWhiteSpace(s: string) {
    forall k :: 0 <= k < |s| ==> IsWhiteSpace(s[k])
  }

  /** `s.trimStart()`: a suffix of `s` that is empty or starts with a character
      `trim` keeps; what it drops is whitespace (TrimStartDropsWhiteSpace). */
  function TrimStart(s: string): (r: string)
    ensures |r| <= |s| && r == s[|s| - |r|..]
    ensures r == [] || !IsWhiteSpace(r[0])
  {
    if s != [] && IsWhiteSpace(s[0]) then TrimStart(s[1..]) else s
  }

  /** `s.trimEnd()`: a prefix of `s` that is empty or ends with a character `trim`
      keeps; what it drops is whitespace (TrimEndDropsWhiteSpace). */
  function TrimEnd(s: string): (r: string)
    ensures |r| <= |s| && r == s[..|r|]
    ensures r == [] || !IsWhiteSpace(r[|r| - 1])
  {
    if s != [] && IsWhiteSpace(s[|s| - 1]) then TrimEnd(s[..|s| - 1]) else s
  }

  lemma {:induction false} TrimStartDropsWhiteSpace(s: string)
    ensures AllWhiteSpace(s[..|s| - |TrimStart(s)|])
  {
    if s != [] && IsWhiteSpace(s[0]) {
      var n := |s| - |TrimStart(s)|;
      assert TrimStart(s) == TrimStart(s[1..]);
      TrimStartDropsWhiteSpace(s[1..]);
      forall k | 0 <= k < n ensures IsWhiteSpace(s[..n][k]) {
        if k == 0 {
          assert s[..n][k] == s[0];
        } else {
          assert s[..n][k] == s[1..][..n - 1][k - 1];
        }
      }
    }
  }

  lemma {:induction false} TrimEndDropsWhiteSpace(s: string)
    ensures AllWhiteSpace(s[|TrimEnd(s)|..])
  {
    if s != [] && IsWhiteSpace(s[|s| - 1]) {
      var p := s[..|s| - 1];
      var m := |TrimEnd(s)|;
      TrimEndDropsWhiteSpace(p);
      forall k | 0 <= k < |s| - m ensures IsWhiteSpace(s[m..][k]) {
        if k < |s| - 1 - m { assert s[m..][k] == p[m..][k]; }
      }
    }
  }

  /** `s.trim()`: the result is empty or starts and ends with a character `trim`
      keeps. It is empty exactly when `s` is all whitespace (TrimBlankIffAllWhiteSpace),
      and it is the middle of `s` (TrimStripsEnds). */
  function Trim(s: string): (r: string)
    ensures |r| <= |s|
    ensures r == [] || (!IsWhiteSpace(r[0]) && !IsWhiteSpace(r[|r| - 1]))
  {
    TrimEnd(TrimStart(s))
  }

  /** `r` is `s` with some whitespace removed from its two ends and nothing else. */
  ghost predicate StripsEnds(s: string, r: string) {
    exists lo :: 0 <= lo <= |s| - |r| && r <= s[lo..] && AllWhiteSpace(s[..lo])
                 && AllWhiteSpace(s[lo + |r|..])
  }

  /** What `trim` removes is whitespace at the two ends, and only that. */
  lemma TrimStripsEnds(s: string)
    ensures StripsEnds(s, Trim(s))
  {
    var t := TrimStart(s);
    var r := TrimEnd(t);
    var lo := |s| - |t|;
    TrimStartDropsWhiteSpace(s);
    TrimEndDropsWhiteSpace(t);
    assert s[lo..] == t;
    assert r <= s[lo..];
    assert s[lo + |r|..] == t[|r|..];
  }

  /** `trim` yields the empty string exactly when every character is whitespace. */
  lemma TrimBlankIffAllWhiteSpace(s: string)
    ensures Trim(s) == [] <==> AllWhiteSpace(s)
  {
    var t := TrimStart(s);
    var lo := |s| - |t|;
    TrimStartDropsWhiteSpace(s);
    assert s[lo..] == t;
    if Trim(s) == [] {
      // a non-empty `t` would start with whitespace TrimEnd drops
      TrimEndDropsWhiteSpace(t);
      assert t[|TrimEnd(t)|..] == t;
      assert t == [];
      assert s[..lo] == s;
    } else {
      assert s[lo] == t[0];
    }
  }

  /** JavaScript's `!s.trim()`: the string is empty once trimmed. */
  predicate IsBlank(s: string): (blank: bool)
    ensures blank <==> AllWhiteSpace(s)
  {
    TrimBlankIffAllWhiteSpace(s);
    Trim(s) == []
  }

  lemma TrimIdempotent(s: string)
    ensures Trim(Trim(s)) == Trim(s)
  {
    TrimUnchanged(Trim(s));
  }

  /** `trim` leaves a string alone exactly when it is empty or neither starts nor
      ends with whitespace. */
  lemma TrimUnchanged(s: string)
    ensures Trim(s) == s <==> s == [] || (!IsWhiteSpace(s[0]) && !IsWhiteSpace(s[|s| - 1]))
  {
    if s != [] && !IsWhiteSpace(s[0]) && !IsWhiteSpace(s[|s| - 1]) {
      assert TrimStart(s) == s;
      assert TrimEnd(s) == s;
    }
  }

  /** JavaScript's `value || fallback` on a property that is a string or absent:
      the value when it is a non-empty string, the fallback otherwise. */
  function OrElse(value: Option<string>, fallback: string): (r: string)
    ensures value.Some? && value.value != [] ==> r == value.value
    ensures value.None? || value.value == [] ==> r == fallback
  {
    if value.Some? && value.value != [] then value.value else fallback
  }

  /** JavaScript's `text.includes(part)`. */
  ghost predicate Contains(text: string, part: string) {
    exists i :: 0 <= i <= |text| && part <= text[i..]
  }
}
