/** Option, for values that JavaScript represents as `null`/`undefined` or a string. */
module Wrappers {
  datatype Option<+T> = None | Some(value: T)
}

/**
 * The XML escaper `escapeXml` of functions/rss.js: every `<`, `>`, `&`, `'`
 * and `"` is replaced by its entity, every other character is kept, in order.
 * `Unescape` is the matching decoder, used as the escaper's partner.
 */
module Xml {
  import opened Wrappers

  /** The five characters the escaper replaces. */
  predicate IsReserved(c: char) {
    c == '<' || c == '>' || c == '&' || c == '\'' || c == '"'
  }

  /** The replacement text the `switch` of `escapeXml` gives one character. */
  function EscapeChar(c: char): (r: string)
    ensures !IsReserved(c) <==> r == [c]
    ensures IsReserved(c) ==> 4 <= |r| && r[0] == '&' && r[|r| - 1] == ';'
  {
    if c == '<' then "&lt;"
    else if c == '>' then "&gt;"
    else if c == '&' then "&amp;"
    else if c == '\'' then "&apos;"
    else if c == '"' then "&quot;"
    else [c]
  }

  /** No character that could open a tag or close a quoted attribute value. */
  ghost predicate NoRawMarkup(t: string) {
    forall i :: 0 <= i < |t| ==> t[i] != '<' && t[i] != '>' && t[i] != '\'' && t[i] != '"'
  }

  /** `u` starts with one of the five entities the escaper produces. */
  predicate StartsWithEntity(u: string) {
    "&lt;" <= u || "&gt;" <= u || "&amp;" <= u || "&apos;" <= u || "&quot;" <= u
  }

  /** Every `&` in `t` begins one of the five entities. */
  ghost predicate AmpersandsAreEntities(t: string) {
    forall i :: 0 <= i < |t| && t[i] == '&' ==> StartsWithEntity(t[i..])
  }

  /** `escapeXml`: the global regular-expression replace walks the string left to right. */
  function Escape(s: string): (r: string)
    ensures |r| >= |s|
    ensures NoRawMarkup(r)
  {
    if s == [] then [] else EscapeChar(s[0]) + Escape(s[1..])
  }

  /** Prepends `c` to a decoded string, propagating a decoding failure. */
  function Cons(c: char, r: Option<string>): Option<string> {
    if r.None? then None else Some([c] + r.value)
  }

  /**
   * The first character of the decoded text and the number of characters of
   * `t` it takes: an entity, or one character that is not reserved.
   */
  function DecodeHead(t: string): (r: Option<(char, nat)>)
    requires t != []
    ensures r.Some? ==> 1 <= r.value.1 <= |t| && t[..r.value.1] == EscapeChar(r.value.0)
  {
    if t[0] == '&' then
      if "&lt;" <= t then Some(('<', 4))
      else if "&gt;" <= t then Some(('>', 4))
      else if "&amp;" <= t then Some(('&', 5))
      else if "&apos;" <= t then Some(('\'', 6))
      else if "&quot;" <= t then Some(('"', 6))
      else None
    else if IsReserved(t[0]) then None
    else Some((t[0], 1))
  }

  /**
   * Decoder of escaped text: resolves the five entities and refuses a raw
   * reserved character or an `&` that begins no entity.
   */
  function Unescape(t: string): Option<string>
    decreases |t|
  {
    if t == [] then Some([])
    else match DecodeHead(t)
      case None => None
      case Some((c, k)) => Cons(c, Unescape(t[k..]))
  }

  /** Escaping distributes over concatenation: each character is replaced on its own. */
  lemma {:induction false} EscapeAppend(a: string, b: string)
    ensures Escape(a + b) == Escape(a) + Escape(b)
  {
    if a == [] {
      assert a + b == b;
    } else {
      assert (a + b)[0] == a[0];
      assert (a + b)[1..] == a[1..] + b;
      EscapeAppend(a[1..], b);
    }
  }

  /** The escaper changes a string exactly when the string holds a reserved character. */
  lemma {:induction false} EscapeUnchangedIff(s: string)
    ensures Escape(s) == s <==> forall i :: 0 <= i < |s| ==> !IsReserved(s[i])
  {
    if s == [] {
    } else {
      EscapeUnchangedIff(s[1..]);
      if IsReserved(s[0]) {
        assert |EscapeChar(s[0])| > 1;
        assert |Escape(s)| > |s|;
      } else {
        assert Escape(s) == [s[0]] + Escape(s[1..]);
        if Escape(s) == s {
          assert Escape(s[1..]) == Escape(s)[1..];
        }
        assert (forall i :: 0 <= i < |s| ==> !IsReserved(s[i]))
           <==> (forall i :: 0 <= i < |s[1..]| ==> !IsReserved(s[1..][i]));
        if Escape(s[1..]) == s[1..] {
          assert s == [s[0]] + s[1..];
        }
      }
    }
  }

  /** Every `&` of the escaped text begins an entity. */
  lemma {:induction false} EscapeAmpersands(s: string)
    ensures AmpersandsAreEntities(Escape(s))
  {
    if s != [] {
      EscapeAmpersands(s[1..]);
      var head, tail := EscapeChar(s[0]), Escape(s[1..]);
      var t := head + tail;
      assert t == Escape(s);
      forall i | 0 <= i < |t| && t[i] == '&'
        ensures StartsWithEntity(t[i..])
      {
        if i < |head| {
          assert i == 0;
          assert head <= t;
        } else {
          assert t[i..] == tail[i - |head|..];
        }
      }
    }
  }

  /** The decoder reads the escaped form of one character back as that character. */
  lemma DecodeHeadEscape(c: char, tail: string)
    ensures DecodeHead(EscapeChar(c) + tail) == Some((c, |EscapeChar(c)|))
  {
  }

  /** Decoding the escaped text gives back the input. */
  lemma {:induction false} UnescapeEscape(s: string)
    ensures Unescape(Escape(s)) == Some(s)
  {
    if s != [] {
      UnescapeEscape(s[1..]);
      var c, tail := s[0], Escape(s[1..]);
      var t := EscapeChar(c) + tail;
      assert t == Escape(s);
      DecodeHeadEscape(c, tail);
      assert t[|EscapeChar(c)|..] == tail;
      assert s == [c] + s[1..];
    }
  }

  /** Whatever decodes to `s` is exactly the escaped form of `s`. */
  lemma {:induction false} EscapeUnescape(t: string, s: string)
    requires Unescape(t) == Some(s)
    ensures Escape(s) == t
    decreases |t|
  {
    if t != [] {
      var (c, k) := DecodeHead(t).value;
      var rest := Unescape(t[k..]).value;
      EscapeUnescape(t[k..], rest);
      assert s == [c] + rest;
      assert s[1..] == rest;
      assert t == t[..k] + t[k..];
    }
  }

  /** The escaper and the decoder are inverse to each other, in both directions. */
  lemma EscapeDecodes(s: string, t: string)
    ensures Escape(s) == t <==> Unescape(t) == Some(s)
  {
    if Escape(s) == t { UnescapeEscape(s); }
    if Unescape(t) == Some(s) { EscapeUnescape(t, s); }
  }

  /** Two different strings never escape to the same text. */
  lemma EscapeInjective(a: string, b: string)
    requires Escape(a) == Escape(b)
    ensures a == b
  {
    UnescapeEscape(a);
    UnescapeEscape(b);
  }
}
