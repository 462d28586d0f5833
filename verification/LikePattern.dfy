/** The LIKE pattern of history search: an escaped query between two wildcards. */
module LikePattern {
  import opened Prelude

  /** Replacing every occurrence of one character. */
  function Replaced(s: string, c: char, other: string): string {
    if s == "" then "" else (if s[0] == c then other else [s[0]]) + Replaced(s[1..], c, other)
  }

  /** The three replacements in the order the search makes them. */
  function EscapeQuery(query: string): string {
    Replaced(Replaced(Replaced(query, '\\', "\\\\"), '%', "\\%"), '_', "\\_")
  }

  function SearchPattern(query: string): string {
    "%" + EscapeQuery(query) + "%"
  }

  /** LIKE with escape character backslash: `%` matches any text, `_` any one
      character, and an escaped character itself. A pattern that ends in a lone
      escape matches nothing. */
  predicate Like(pattern: string, text: string)
    decreases |pattern| + |text|
  {
    if pattern == "" then text == ""
    else if pattern[0] == '%' then Like(pattern[1..], text) || (text != "" && Like(pattern, text[1..]))
    else if pattern[0] == '_' then text != "" && Like(pattern[1..], text[1..])
    else if pattern[0] == '\\' then
      |pattern| >= 2 && text != "" && text[0] == pattern[1] && Like(pattern[2..], text[1..])
    else text != "" && text[0] == pattern[0] && Like(pattern[1..], text[1..])
  }

  /** Escaping one character at a time. */
  function EscapedChar(c: char): string {
    if c == '\\' || c == '%' || c == '_' then ['\\', c] else [c]
  }

  function Escaped(query: string): string {
    if query == "" then "" else EscapedChar(query[0]) + Escaped(query[1..])
  }

  lemma {:induction false} ReplacedConcat(a: string, b: string, c: char, other: string)
    ensures Replaced(a + b, c, other) == Replaced(a, c, other) + Replaced(b, c, other)
  {
    if a == "" {
      assert a + b == b;
    } else {
      ReplacedConcat(a[1..], b, c, other);
      assert (a + b)[1..] == a[1..] + b;
      var head := if a[0] == c then other else [a[0]];
      assert head + (Replaced(a[1..], c, other) + Replaced(b, c, other))
          == (head + Replaced(a[1..], c, other)) + Replaced(b, c, other);
    }
  }

  lemma ReplacedOne(x: char, c: char, other: string)
    ensures Replaced([x], c, other) == if x == c then other else [x]
  {
    assert [x][1..] == "";
  }

  lemma ReplacedTwo(x: char, y: char, c: char, other: string)
    requires x != c && y != c
    ensures Replaced([x, y], c, other) == [x, y]
  {
    ReplacedConcat([x], [y], c, other);
    ReplacedOne(x, c, other);
    ReplacedOne(y, c, other);
    assert [x] + [y] == [x, y];
  }

  lemma EscapeOneChar(c: char)
    ensures EscapeQuery([c]) == EscapedChar(c)
  {
    hide Replaced;
    ReplacedOne(c, '\\', "\\\\");
    if c == '\\' {
      ReplacedTwo('\\', '\\', '%', "\\%");
      ReplacedTwo('\\', '\\', '_', "\\_");
    } else {
      ReplacedOne(c, '%', "\\%");
      if c == '%' {
        ReplacedTwo('\\', '%', '_', "\\_");
      } else {
        ReplacedOne(c, '_', "\\_");
      }
    }
  }

  /** The three sequential replacements are one per-character escape: no
      replacement disturbs what an earlier one produced. */
  lemma {:induction false} EscapeIsPerCharacter(query: string)
    ensures EscapeQuery(query) == Escaped(query)
  {
    if query != "" {
      hide Replaced;
      var c, rest := query[0], query[1..];
      assert query == [c] + rest;
      EscapeIsPerCharacter(rest);
      EscapeOneChar(c);
      ReplacedConcat([c], rest, '\\', "\\\\");
      ReplacedConcat(Replaced([c], '\\', "\\\\"), Replaced(rest, '\\', "\\\\"), '%', "\\%");
      ReplacedConcat(Replaced(Replaced([c], '\\', "\\\\"), '%', "\\%"),
                     Replaced(Replaced(rest, '\\', "\\\\"), '%', "\\%"), '_', "\\_");
    }
  }

  lemma LikeLiteralChar(c: char, rest: string, text: string)
    ensures Like(EscapedChar(c) + rest, text) <==> text != "" && text[0] == c && Like(rest, text[1..])
  {
    var p := EscapedChar(c) + rest;
    if |EscapedChar(c)| == 2 {
      assert p[2..] == rest;
    } else {
      assert p[1..] == rest;
    }
  }

  /** An escaped query matches exactly itself, character by character. */
  lemma {:induction false} LikeLiteral(query: string, rest: string, text: string)
    ensures Like(Escaped(query) + rest, text)
       <==> |query| <= |text| && text[..|query|] == query && Like(rest, text[|query|..])
  {
    if query == "" {
      assert Escaped(query) + rest == rest;
      assert text[0..] == text;
    } else {
      hide Like;
      var c, tail := query[0], query[1..];
      assert Escaped(query) + rest == EscapedChar(c) + (Escaped(tail) + rest);
      LikeLiteralChar(c, Escaped(tail) + rest, text);
      if text != "" {
        LikeLiteral(tail, rest, text[1..]);
        if |query| <= |text| {
          assert text[1..][|tail|..] == text[|query|..];
          assert text[..|query|] == [text[0]] + text[1..][..|tail|];
          assert query == [c] + tail;
        }
      }
    }
  }

  lemma {:induction false} TrailingPercentMatchesAll(text: string)
    ensures Like("%", text)
  {
    if text == "" {
      assert "%"[1..] == "";
    } else {
      TrailingPercentMatchesAll(text[1..]);
    }
  }

  /** A leading `%` tries every suffix. */
  lemma {:induction false} LeadingPercent(rest: string, text: string)
    ensures Like("%" + rest, text) <==> exists i :: 0 <= i <= |text| && Like(rest, text[i..])
  {
    assert ("%" + rest)[1..] == rest;
    assert text[0..] == text;
    if text == "" {
      assert Like(rest, text[0..]) <==> Like("%" + rest, text);
    } else {
      LeadingPercent(rest, text[1..]);
      forall i | 0 < i <= |text| ensures text[i..] == text[1..][i - 1..] {
      }
      if exists i :: 0 <= i <= |text| && Like(rest, text[i..]) {
        var i :| 0 <= i <= |text| && Like(rest, text[i..]);
        if i > 0 {
          assert Like(rest, text[1..][i - 1..]);
        }
      }
      if exists i :: 0 <= i <= |text[1..]| && Like(rest, text[1..][i..]) {
        var i :| 0 <= i <= |text[1..]| && Like(rest, text[1..][i..]);
        assert Like(rest, text[i + 1..]);
      }
    }
  }

  /** A text matches the search pattern exactly when it contains the query,
      whatever wildcards and escapes the query itself holds. */
  lemma SearchPatternMatchesSubstring(query: string, text: string)
    ensures Like(SearchPattern(query), text) <==> Occurs(text, query)
  {
    hide Like, EscapeQuery, Escaped;
    EscapeIsPerCharacter(query);
    var body := Escaped(query) + "%";
    assert SearchPattern(query) == "%" + body;
    LeadingPercent(body, text);
    forall i | 0 <= i <= |text| ensures Like(body, text[i..]) <==> OccursAt(text, query, i) {
      LikeLiteral(query, "%", text[i..]);
      if |query| <= |text[i..]| {
        TrailingPercentMatchesAll(text[i..][|query|..]);
        assert text[i..][..|query|] == text[i..i + |query|];
      }
    }
  }
}
