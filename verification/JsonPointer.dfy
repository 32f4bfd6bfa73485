/** JSON Pointers (RFC 6901): escaping, splitting and resolving. */
module JsonPointer {
  import opened Wrappers

  // ---------------------------------------------------------- text replacement

  /** `s.replace(c, with)` for a one-character pattern. */
  function ReplaceChar(s: string, c: char, with: string): string
  {
    if s == [] then [] else (if s[0] == c then with else [s[0]]) + ReplaceChar(s[1..], c, with)
  }

  /** `s.replace(a + b, with)` for a two-character pattern, left to right without overlap. */
  function ReplacePair(s: string, a: char, b: char, with: string): string
  {
    if |s| < 2 then s
    else if s[0] == a && s[1] == b then with + ReplacePair(s[2..], a, b, with)
    else [s[0]] + ReplacePair(s[1..], a, b, with)
  }

  function Escape(s: string): string
  {
    ReplaceChar(ReplaceChar(s, '~', "~0"), '/', "~1")
  }

  function Unescape(s: string): string
  {
    ReplacePair(ReplacePair(s, '~', '1', "/"), '~', '0', "~")
  }

  // -------------------------------------------------------------- one-pass form

  function Escaped(s: string): string
  {
    if s == [] then []
    else (if s[0] == '~' then "~0" else if s[0] == '/' then "~1" else [s[0]]) + Escaped(s[1..])
  }

  /** Half undone: `~1` is back to `/`, `~0` is not yet back to `~`. */
  function HalfEscaped(s: string): string
  {
    if s == [] then [] else (if s[0] == '~' then "~0" else [s[0]]) + HalfEscaped(s[1..])
  }

  lemma {:induction false} ReplaceCharSum(s: string, t: string, c: char, with: string)
    ensures ReplaceChar(s + t, c, with) == ReplaceChar(s, c, with) + ReplaceChar(t, c, with)
  {
    if s == [] {
      assert s + t == t;
    } else {
      ReplaceCharSum(s[1..], t, c, with);
      assert (s + t)[1..] == s[1..] + t && (s + t)[0] == s[0];
      var head := if s[0] == c then with else [s[0]];
      var x, y := ReplaceChar(s[1..], c, with), ReplaceChar(t, c, with);
      assert head + (x + y) == (head + x) + y;
    }
  }

  lemma {:induction false} EscapeIsEscaped(s: string)
    ensures Escape(s) == Escaped(s)
  {
    if s != [] {
      EscapeIsEscaped(s[1..]);
      var head := if s[0] == '~' then "~0" else [s[0]];
      ReplaceCharSum(head, ReplaceChar(s[1..], '~', "~0"), '/', "~1");
      EscapedHead(s[0]);
    }
  }

  lemma EscapedHead(c: char)
    ensures ReplaceChar(if c == '~' then "~0" else [c], '/', "~1")
         == if c == '~' then "~0" else if c == '/' then "~1" else [c]
  {
    assert ReplaceChar([], '/', "~1") == [];
    if c == '~' {
      assert "~0"[1..] == "0" && "0"[1..] == "";
      assert ReplaceChar("0", '/', "~1") == "0";
    } else {
      assert [c][1..] == [];
    }
  }

  lemma TwoHeads(a: char, b: char, rest: string)
    ensures var e := [a, b] + rest; e[1..] == [b] + rest && e[2..] == rest && e[1..][1..] == rest
  {
  }

  lemma {:induction false} FirstPass(s: string)
    ensures ReplacePair(Escaped(s), '~', '1', "/") == HalfEscaped(s)
  {
    if s != [] {
      FirstPass(s[1..]);
      var e, rest := Escaped(s), Escaped(s[1..]);
      if s[0] == '~' {
        TwoHeads('~', '0', rest);
        SkipHead("0" + rest, '~', '1', "/");
      } else if s[0] == '/' {
        TwoHeads('~', '1', rest);
      } else {
        assert e == [s[0]] + rest && e[1..] == rest;
        SkipHead(e, '~', '1', "/");
      }
    }
  }

  lemma {:induction false} SecondPass(s: string)
    ensures ReplacePair(HalfEscaped(s), '~', '0', "~") == s
  {
    if s != [] {
      SecondPass(s[1..]);
      var h, rest := HalfEscaped(s), HalfEscaped(s[1..]);
      if s[0] == '~' {
        assert h == "~0" + rest && h[2..] == rest;
      } else {
        assert h == [s[0]] + rest && h[1..] == rest;
        SkipHead(h, '~', '0', "~");
      }
      assert s == [s[0]] + s[1..];
    }
  }

  /** A character that does not start the pattern is kept. */
  lemma SkipHead(s: string, a: char, b: char, with: string)
    requires s != [] && s[0] != a
    ensures ReplacePair(s, a, b, with) == [s[0]] + ReplacePair(s[1..], a, b, with)
  {
    if |s| == 1 {
      assert s[1..] == [];
    }
  }

  /** Unescaping inverts escaping, for every string. */
  lemma UnescapeEscape(s: string)
    ensures Unescape(Escape(s)) == s
  {
    EscapeIsEscaped(s);
    FirstPass(s);
    SecondPass(s);
  }

  lemma {:induction false} EscapedHasNoSlash(s: string)
    ensures '/' !in Escaped(s)
  {
    if s != [] {
      EscapedHasNoSlash(s[1..]);
    }
  }

  lemma {:induction false} PlainIsEscaped(s: string)
    requires '~' !in s && '/' !in s
    ensures Escaped(s) == s
  {
    if s != [] {
      PlainIsEscaped(s[1..]);
      assert s == [s[0]] + s[1..];
      assert s[0] in s;
    }
  }

  // ------------------------------------------------------------------ pointers

  /** A pointer from its reference tokens. */
  function Render(tokens: seq<string>): string
  {
    if tokens == [] then "" else "/" + Escape(tokens[0]) + Render(tokens[1..])
  }

  function SplitSlash(s: string): seq<string>
  {
    if s == [] then [[]]
    else
      var rest := SplitSlash(s[1..]);
      if s[0] == '/' then [[]] + rest
      else if rest == [] then [[s[0]]] else [[s[0]] + rest[0]] + rest[1..]
  }

  function UnescapeAll(parts: seq<string>): seq<string>
  {
    if parts == [] then [] else [Unescape(parts[0])] + UnescapeAll(parts[1..])
  }

  /** The reference tokens of a pointer: the empty text, or texts after slashes. */
  function Parse(pointer: string): Option<seq<string>>
  {
    if pointer == "" then Some([])
    else if pointer[0] != '/' then None
    else Some(UnescapeAll(SplitSlash(pointer[1..])))
  }

  lemma {:induction false} SplitAtSlash(a: string, rest: string)
    requires '/' !in a
    ensures SplitSlash(a + "/" + rest) == [a] + SplitSlash(rest)
  {
    var s := a + "/" + rest;
    if a == [] {
      assert s[1..] == rest;
    } else {
      SplitAtSlash(a[1..], rest);
      assert s[1..] == a[1..] + "/" + rest;
      assert a == [a[0]] + a[1..];
      assert ([a[1..]] + SplitSlash(rest))[1..] == SplitSlash(rest);
    }
  }

  lemma {:induction false} SplitNoSlash(a: string)
    requires '/' !in a
    ensures SplitSlash(a) == [a]
  {
    if a != [] {
      SplitNoSlash(a[1..]);
      assert a == [a[0]] + a[1..];
    }
  }

  lemma EscapeFacts(t: string)
    ensures '/' !in Escape(t) && Unescape(Escape(t)) == t
  {
    EscapeIsEscaped(t);
    EscapedHasNoSlash(t);
    UnescapeEscape(t);
  }

  lemma UnescapeCons(t: string, parts: seq<string>)
    ensures UnescapeAll([Escape(t)] + parts) == [t] + UnescapeAll(parts)
  {
    EscapeFacts(t);
    assert ([Escape(t)] + parts)[1..] == parts;
  }

  lemma SlashCut(e: string, rest: string)
    ensures var s := "/" + e + rest; s != "" && s[0] == '/' && s[1..] == e + rest
  {
  }

  lemma SlashMoves(e: string, rest: string, more: string)
    ensures ("/" + e + rest) + more == "/" + e + (rest + more)
  {
  }

  lemma SlashGroups(e: string, s: string)
    requires s != "" && s[0] == '/'
    ensures e + s == e + "/" + s[1..]
  {
    assert s == "/" + s[1..];
  }

  lemma RenderTail(tokens: seq<string>)
    requires tokens != []
    ensures Render(tokens) != "" && Render(tokens)[0] == '/'
    ensures Render(tokens)[1..] == Escape(tokens[0]) + Render(tokens[1..])
  {
    SlashCut(Escape(tokens[0]), Render(tokens[1..]));
  }

  lemma {:induction false} SplitRendered(tokens: seq<string>)
    requires tokens != []
    ensures UnescapeAll(SplitSlash(Render(tokens)[1..])) == tokens
  {
    RenderTail(tokens);
    if tokens[1..] == [] {
      SplitLast(tokens[0]);
      assert Render(tokens)[1..] == Escape(tokens[0]);
      assert tokens == [tokens[0]];
    } else {
      RenderTail(tokens[1..]);
      SplitRendered(tokens[1..]);
      SplitFirst(tokens[0], Render(tokens[1..]), tokens[1..]);
      assert tokens == [tokens[0]] + tokens[1..];
    }
  }

  lemma SplitLast(token: string)
    ensures UnescapeAll(SplitSlash(Escape(token))) == [token]
  {
    EscapeFacts(token);
    SplitNoSlash(Escape(token));
    UnescapeCons(token, []);
    assert [Escape(token)] + [] == [Escape(token)];
  }

  lemma SplitFirst(token: string, s: string, rest: seq<string>)
    requires s != "" && s[0] == '/' && UnescapeAll(SplitSlash(s[1..])) == rest
    ensures UnescapeAll(SplitSlash(Escape(token) + s)) == [token] + rest
  {
    EscapeFacts(token);
    SlashGroups(Escape(token), s);
    SplitAtSlash(Escape(token), s[1..]);
    UnescapeCons(token, SplitSlash(s[1..]));
  }

  /** Parsing a rendered pointer gives its tokens back. */
  lemma ParseRender(tokens: seq<string>)
    ensures Parse(Render(tokens)) == Some(tokens)
  {
    if tokens != [] {
      SplitRendered(tokens);
    }
  }

  lemma {:induction false} RenderSum(a: seq<string>, b: seq<string>)
    ensures Render(a + b) == Render(a) + Render(b)
  {
    if a == [] {
      assert a + b == b;
    } else {
      RenderSum(a[1..], b);
      assert (a + b)[1..] == a[1..] + b;
      SlashMoves(Escape(a[0]), Render(a[1..]), Render(b));
    }
  }

  lemma {:induction false} SplitSum(a: string, b: string)
    ensures SplitSlash(a + "/" + b) == SplitSlash(a) + SplitSlash(b) && SplitSlash(a) != []
  {
    var s := a + "/" + b;
    if a == [] {
      assert s[0] == '/' && s[1..] == b;
    } else {
      SplitSum(a[1..], b);
      assert s[0] == a[0] && s[1..] == a[1..] + "/" + b;
      SplitStep(a[0], SplitSlash(a[1..]), SplitSlash(b));
    }
  }

  /** One more character in front of the first of two groups of segments. */
  lemma SplitStep(head: char, x: seq<string>, y: seq<string>)
    requires x != []
    ensures [""] + (x + y) == ([""] + x) + y
    ensures [[head] + (x + y)[0]] + (x + y)[1..] == ([[head] + x[0]] + x[1..]) + y
  {
    assert (x + y)[1..] == x[1..] + y;
  }

  lemma {:induction false} UnescapeAllSum(a: seq<string>, b: seq<string>)
    ensures UnescapeAll(a + b) == UnescapeAll(a) + UnescapeAll(b)
  {
    if a == [] {
      assert a + b == b;
    } else {
      UnescapeAllSum(a[1..], b);
      assert (a + b)[1..] == a[1..] + b;
    }
  }

  /** A pointer extended by rendered tokens is parsed to its own tokens and those. */
  lemma ParseExtended(pointer: string, tokens: seq<string>)
    requires Parse(pointer).Some?
    ensures Parse(pointer + Render(tokens)) == Some(Parse(pointer).value + tokens)
  {
    if tokens == [] {
      assert pointer + Render(tokens) == pointer && Parse(pointer).value + tokens == Parse(pointer).value;
    } else if pointer == "" {
      assert pointer + Render(tokens) == Render(tokens) && Parse(pointer).value + tokens == tokens;
      ParseRender(tokens);
    } else {
      RenderTail(tokens);
      SplitRendered(tokens);
      var tail := Render(tokens)[1..];
      SlashGroups(pointer, Render(tokens));
      assert (pointer + "/" + tail)[1..] == pointer[1..] + "/" + tail;
      SplitSum(pointer[1..], tail);
      UnescapeAllSum(SplitSlash(pointer[1..]), SplitSlash(tail));
    }
  }

  /** `"/".join(...)` of the escaped parts. */
  function Joined(parts: seq<string>): string
  {
    if parts == [] then "" else if |parts| == 1 then Escape(parts[0]) else Escape(parts[0]) + "/" + Joined(parts[1..])
  }

  /** `_pointer` renders its parts; of no parts it makes a slash, which is the pointer to an empty key. */
  lemma {:induction false} PointerRenders(parts: seq<string>)
    ensures "/" + Joined(parts) == Render(if parts == [] then [""] else parts)
  {
    if parts == [] {
      assert [""][1..] == [];
      EscapeIsEscaped("");
    } else if |parts| == 1 {
      assert parts[1..] == [];
    } else {
      PointerRenders(parts[1..]);
      var e, rest := Escape(parts[0]), Joined(parts[1..]);
      assert "/" + (e + "/" + rest) == "/" + e + ("/" + rest);
    }
  }

  lemma RenderInjective(a: seq<string>, b: seq<string>)
    requires Render(a) == Render(b)
    ensures a == b
  {
    ParseRender(a);
    ParseRender(b);
  }
}
