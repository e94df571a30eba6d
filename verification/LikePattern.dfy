/** The ILIKE escaping of the user search, checked against a LIKE matcher (case folding abstracted). */
module LikePattern {

  predicate IsSpecial(c: char) {
    c == '\\' || c == '%' || c == '_'
  }

  /** What the escaping loop appends for one byte. */
  function EscapeChar(c: char): string {
    if IsSpecial(c) then ['\\', c] else [c]
  }

  function Escape(s: string): string {
    if s == "" then "" else EscapeChar(s[0]) + Escape(s[1..])
  }

  /** LIKE with `ESCAPE '\'`: a pattern ending in a lone escape matches nothing. */
  predicate Like(p: string, t: string)
    decreases |p| + |t|
  {
    if p == "" then t == ""
    else if p[0] == '%' then Like(p[1..], t) || (t != "" && Like(p, t[1..]))
    else if p[0] == '_' then t != "" && Like(p[1..], t[1..])
    else if p[0] == '\\' then |p| >= 2 && t != "" && t[0] == p[1] && Like(p[2..], t[1..])
    else t != "" && t[0] == p[0] && Like(p[1..], t[1..])
  }

  predicate Occurs(q: string, t: string) {
    exists i | 0 <= i <= |t| :: q <= t[i..]
  }

  lemma {:induction false} EscapeSnoc(s: string, c: char)
    ensures Escape(s + [c]) == Escape(s) + EscapeChar(c)
  {
    if s == "" {
      assert s + [c] == [c] && [c][1..] == "";
    } else {
      assert (s + [c])[1..] == s[1..] + [c];
      EscapeSnoc(s[1..], c);
    }
  }

  /** The byte loop over a growing buffer. */
  method EscapeLike(s: string) returns (out: string)
    ensures out == Escape(s)
  {
    out := "";
    var i := 0;
    while i < |s|
      invariant 0 <= i <= |s|
      invariant out == Escape(s[..i])
    {
      EscapeSnoc(s[..i], s[i]);
      assert s[..i + 1] == s[..i] + [s[i]];
      match s[i] {
        case '\\' => out := out + ['\\', '\\'];
        case '%' => out := out + ['\\', '%'];
        case '_' => out := out + ['\\', '_'];
        case _ => out := out + [s[i]];
      }
      i := i + 1;
    }
    assert s[..i] == s;
  }

  /** The inverse reader: an escape yields the character after it. */
  function Unescape(p: string): string {
    if p == "" then ""
    else if p[0] == '\\' && |p| >= 2 then [p[1]] + Unescape(p[2..])
    else [p[0]] + Unescape(p[1..])
  }

  lemma {:induction false} UnescapeUndoesEscape(s: string)
    ensures Unescape(Escape(s)) == s
  {
    if s != "" {
      var e := Escape(s);
      UnescapeUndoesEscape(s[1..]);
      if IsSpecial(s[0]) {
        assert e[2..] == Escape(s[1..]);
      } else {
        assert e[1..] == Escape(s[1..]);
      }
      assert s == [s[0]] + s[1..];
    }
  }

  lemma EscapeIsInjective(s: string, s': string)
    requires Escape(s) == Escape(s')
    ensures s == s'
  {
    UnescapeUndoesEscape(s);
    UnescapeUndoesEscape(s');
  }

  lemma {:induction false} PercentMatchesAll(t: string)
    ensures Like("%", t)
  {
    assert "%"[1..] == "";
    if t != "" {
      PercentMatchesAll(t[1..]);
    }
  }

  lemma {:induction false} EscapedIsLiteralPrefix(q: string, t: string)
    ensures Like(Escape(q) + "%", t) <==> q <= t
    decreases |q|
  {
    var p := Escape(q) + "%";
    if q == "" {
      assert p == "%";
      PercentMatchesAll(t);
    } else {
      var rest := Escape(q[1..]) + "%";
      if IsSpecial(q[0]) {
        assert p == ['\\', q[0]] + rest && p[2..] == rest;
      } else {
        assert p == [q[0]] + rest && p[1..] == rest;
      }
      if t != "" {
        EscapedIsLiteralPrefix(q[1..], t[1..]);
        assert q <= t <==> q[0] == t[0] && q[1..] <= t[1..] by {
          assert q == [q[0]] + q[1..] && t == [t[0]] + t[1..];
        }
      }
    }
  }

  /** The search pattern matches a text exactly when the query occurs in it literally. */
  lemma {:induction false} SearchIsLiteralSubstring(q: string, t: string)
    ensures Like("%" + Escape(q) + "%", t) <==> Occurs(q, t)
    decreases |t|
  {
    var tail := Escape(q) + "%";
    var p := "%" + Escape(q) + "%";
    assert p[0] == '%' && p[1..] == tail;
    EscapedIsLiteralPrefix(q, t);
    if q <= t {
      assert q <= t[0..];
    }
    if t != "" {
      SearchIsLiteralSubstring(q, t[1..]);
      forall i | 0 <= i < |t| ensures t[1..][i..] == t[i + 1..] { }
      if Occurs(q, t[1..]) {
        var i :| 0 <= i <= |t[1..]| && q <= t[1..][i..];
        assert q <= t[i + 1..];
      }
      if Occurs(q, t) && !(q <= t) {
        var i :| 0 <= i <= |t| && q <= t[i..];
        assert t[0..] == t;
        assert q <= t[1..][i - 1..];
      }
    } else if Occurs(q, t) {
      assert t[0..] == t;
    }
  }
}
