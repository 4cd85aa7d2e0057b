/** escape (telegram/commands.go): makes arbitrary text safe to embed in a
    message sent with Telegram's HTML parse mode, by three ordered replace-all
    passes: "&" first, then "<", then ">". */
module Html {
  import GoStrings

  /** The characters escape rewrites. */
  predicate Special(c: char) {
    c == '&' || c == '<' || c == '>'
  }

  /** The entity escape produces for a single character. */
  function EscapeChar(c: char): string {
    if c == '&' then "&amp;"
    else if c == '<' then "&lt;"
    else if c == '>' then "&gt;"
    else [c]
  }

  /** escape: "&" is replaced before "<" and ">", so the ampersands the later
      passes introduce are never escaped again. */
  function Escape(s: string): (r: string)
    ensures '<' !in r && '>' !in r
    ensures (forall i :: 0 <= i < |s| ==> !Special(s[i])) ==> r == s
    ensures |r| >= |s|
  {
    var amp := GoStrings.ReplaceAll(s, '&', "&amp;");
    var lt := GoStrings.ReplaceAll(amp, '<', "&lt;");
    GoStrings.ReplaceAll(lt, '>', "&gt;")
  }

  /** escape works character by character. */
  lemma EscapeAppend(a: string, b: string)
    ensures Escape(a + b) == Escape(a) + Escape(b)
  {
    var amp, lt := "&amp;", "&lt;";
    GoStrings.ReplaceAllAppend(a, b, '&', amp);
    var a1, b1 := GoStrings.ReplaceAll(a, '&', amp), GoStrings.ReplaceAll(b, '&', amp);
    GoStrings.ReplaceAllAppend(a1, b1, '<', lt);
    var a2, b2 := GoStrings.ReplaceAll(a1, '<', lt), GoStrings.ReplaceAll(b1, '<', lt);
    GoStrings.ReplaceAllAppend(a2, b2, '>', "&gt;");
  }

  /** On one character the three passes together produce its entity. */
  lemma EscapeSingle(c: char)
    ensures Escape([c]) == EscapeChar(c)
  {
  }

  /** escape, stated per character: each character becomes its entity. */
  lemma {:induction false} EscapeCons(c: char, s: string)
    ensures Escape([c] + s) == EscapeChar(c) + Escape(s)
  {
    EscapeAppend([c], s);
    EscapeSingle(c);
  }

  /** The inverse of escape: the three entities back to their characters,
      anything else kept as it is. */
  function Unescape(s: string): string
    decreases |s|
  {
    if |s| == 0 then ""
    else if |s| >= 5 && s[..5] == "&amp;" then "&" + Unescape(s[5..])
    else if |s| >= 4 && s[..4] == "&lt;" then "<" + Unescape(s[4..])
    else if |s| >= 4 && s[..4] == "&gt;" then ">" + Unescape(s[4..])
    else [s[0]] + Unescape(s[1..])
  }

  lemma UnescapeCons(c: char, t: string)
    ensures Unescape(EscapeChar(c) + t) == [c] + Unescape(t)
  {
    var u := EscapeChar(c) + t;
    if c == '&' {
      assert u[..5] == "&amp;" && u[5..] == t;
    } else if c == '<' {
      assert u[1] == 'l' && u[..4] == "&lt;" && u[4..] == t;
    } else if c == '>' {
      assert u[1] == 'g' && u[..4] == "&gt;" && u[4..] == t;
    } else {
      assert u[0] == c && u[1..] == t;
    }
  }

  /** Round trip: because "&" is escaped first, unescaping the output of
      escape recovers the input exactly. */
  lemma {:induction false} UnescapeEscape(s: string)
    ensures Unescape(Escape(s)) == s
    decreases |s|
  {
    if |s| > 0 {
      assert s == [s[0]] + s[1..];
      EscapeCons(s[0], s[1..]);
      UnescapeCons(s[0], Escape(s[1..]));
      UnescapeEscape(s[1..]);
    }
  }

  /** escape changes a string exactly when it holds a special character. */
  lemma {:induction false} EscapeIdentityIff(s: string)
    ensures Escape(s) == s <==> forall i :: 0 <= i < |s| ==> !Special(s[i])
    decreases |s|
  {
    if |s| > 0 && exists i :: 0 <= i < |s| && Special(s[i]) {
      assert s == [s[0]] + s[1..];
      EscapeCons(s[0], s[1..]);
      if Special(s[0]) {
        assert |Escape(s)| == |EscapeChar(s[0])| + |Escape(s[1..])| > |s|;
      } else {
        var i :| 0 <= i < |s| && Special(s[i]);
        assert Special(s[1..][i - 1]);
        EscapeIdentityIff(s[1..]);
        assert Escape(s) == [s[0]] + Escape(s[1..]);
        assert Escape(s)[1..] == Escape(s[1..]);
      }
    }
  }
}
