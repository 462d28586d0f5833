/** Search normalization and the mapping of a match in the collapsed title back
    to UTF-16 offsets of the original one. */
module SearchText {
  import opened Prelude

  // ----------------------------------------------------------------- characters

  /** The ECMAScript whitespace set shared with the browser. */
  predicate IsSpace(c: char) {
    var n := c as int;
    || 0x09 <= n <= 0x0d || n == 0x20 || n == 0xa0 || n == 0x1680 || 0x2000 <= n <= 0x200a
    || n == 0x2028 || n == 0x2029 || n == 0x202f || n == 0x205f || n == 0x3000 || n == 0xfeff
  }

  /** ASCII lower case only. */
  function Lower(c: char): char {
    if 'A' <= c <= 'Z' then c + 32 as char else c
  }

  function Lowered(s: string): string {
    if s == "" then "" else Lowered(s[..|s| - 1]) + [Lower(s[|s| - 1])]
  }

  function CodeUnits(c: char): seq<int> {
    var n := c as int;
    if n < 0x10000 then [n] else [0xd800 + (n - 0x10000) / 0x400, 0xdc00 + (n - 0x10000) % 0x400]
  }

  /** The UTF-16 form of a text (section 2.1 of RFC 2781). */
  function Utf16(s: string): seq<int> {
    if s == "" then [] else Utf16(s[..|s| - 1]) + CodeUnits(s[|s| - 1])
  }

  function Utf16Length(s: string): nat {
    |Utf16(s)|
  }

  // ---------------------------------------------------------------- normalization

  function SkipSpaces(s: string): (r: string)
    ensures |r| <= |s|
    ensures s != "" && IsSpace(s[0]) ==> |r| < |s|
  {
    if s != "" && IsSpace(s[0]) then SkipSpaces(s[1..]) else s
  }

  /** Every maximal run of whitespace becomes one space. */
  function SubSpaces(s: string): string
    decreases |s|
  {
    if s == "" then ""
    else if IsSpace(s[0]) then " " + SubSpaces(SkipSpaces(s))
    else [s[0]] + SubSpaces(s[1..])
  }

  function StripLeft(s: string): string {
    if s != "" && s[0] == ' ' then StripLeft(s[1..]) else s
  }

  function StripRight(s: string): string {
    if s != "" && s[|s| - 1] == ' ' then StripRight(s[..|s| - 1]) else s
  }

  function UserSearchText(content: string): string {
    StripRight(StripLeft(SubSpaces(content)))
  }

  function NormalizeQuery(query: string): string {
    Lowered(UserSearchText(query))
  }

  // ----------------------------------------------------------- the collapsed title

  /** A character of the collapsed title and the original characters it covers. */
  datatype Cell = Cell(ch: char, lo: nat, hi: nat)

  function AddCell(front: seq<Cell>, c: char, n: nat): seq<Cell> {
    if !IsSpace(c) then front + [Cell(Lower(c), n, n + 1)]
    else if front == [] then []
    else if front[|front| - 1].ch != ' ' then front + [Cell(' ', n, n + 1)]
    else front[..|front| - 1] + [front[|front| - 1].(hi := n + 1)]
  }

  function Cells(title: string): seq<Cell> {
    if title == "" then [] else AddCell(Cells(title[..|title| - 1]), title[|title| - 1], |title| - 1)
  }

  function AddChar(front: string, c: char): string {
    if !IsSpace(c) then front + [Lower(c)]
    else if front == "" || front[|front| - 1] == ' ' then front
    else front + " "
  }

  function Chars(title: string): string {
    if title == "" then "" else AddChar(Chars(title[..|title| - 1]), title[|title| - 1])
  }

  /** The first index of `part` in `text` from `i` on, or -1. */
  function FindFrom(text: string, part: string, i: nat): (r: int)
    requires i <= |text|
    ensures r == -1 || (i <= r <= |text| && OccursAt(text, part, r))
    ensures r == -1 ==> forall k :: i <= k <= |text| ==> !OccursAt(text, part, k)
    ensures r >= 0 ==> forall k :: i <= k < r ==> !OccursAt(text, part, k)
    decreases |text| - i
  {
    if OccursAt(text, part, i) then i
    else if i == |text| then -1
    else FindFrom(text, part, i + 1)
  }

  function Offsets(title: string, cell: Cell): (int, int)
    requires cell.lo <= |title| && cell.hi <= |title|
  {
    (Utf16Length(title[..cell.lo]), Utf16Length(title[..cell.hi]))
  }

  ghost predicate CellsMatch(cells: seq<Cell>, chars: string, n: nat) {
    && |cells| == |chars|
    && (forall k :: 0 <= k < |cells| ==> cells[k].ch == chars[k])
    && (forall k :: 0 <= k < |cells| ==> cells[k].lo < cells[k].hi <= n)
  }

  lemma AddCellMatches(cells: seq<Cell>, chars: string, c: char, n: nat)
    requires CellsMatch(cells, chars, n)
    ensures CellsMatch(AddCell(cells, c, n), AddChar(chars, c), n + 1)
  {
    hide IsSpace, Lower;
  }

  lemma {:induction false} CellsInRange(title: string)
    ensures CellsMatch(Cells(title), Chars(title), |title|)
  {
    if title != "" {
      hide AddCell, AddChar, CellsMatch;
      CellsInRange(title[..|title| - 1]);
      AddCellMatches(Cells(title[..|title| - 1]), Chars(title[..|title| - 1]), title[|title| - 1], |title| - 1);
    }
  }

  /** One step of the loop on the spans: a new span, or the last one stretched. */
  function AddSpan(front: seq<(int, int)>, chars: string, c: char, from: int, end: int): seq<(int, int)> {
    if !IsSpace(c) || (chars != "" && chars[|chars| - 1] != ' ') then front + [(from, end)]
    else if front == [] then []
    else front[..|front| - 1] + [(front[|front| - 1].0, end)]
  }

  /** The UTF-16 span of each collapsed character. */
  function Spans(title: string): seq<(int, int)> {
    if title == "" then []
    else
      var front := title[..|title| - 1];
      AddSpan(Spans(front), Chars(front), title[|title| - 1], Utf16Length(front), Utf16Length(title))
  }

  ghost predicate SpansMatch(title: string, cells: seq<Cell>, spans: seq<(int, int)>) {
    && |cells| == |spans|
    && forall k :: 0 <= k < |cells| ==>
         cells[k].lo <= |title| && cells[k].hi <= |title| && spans[k] == Offsets(title, cells[k])
  }

  lemma AddSpanMatches(title: string, cells: seq<Cell>, chars: string, spans: seq<(int, int)>)
    requires title != "" && CellsMatch(cells, chars, |title| - 1)
    requires SpansMatch(title[..|title| - 1], cells, spans)
    ensures var n := |title| - 1;
      SpansMatch(title, AddCell(cells, title[n], n),
                 AddSpan(spans, chars, title[n], Utf16Length(title[..n]), Utf16Length(title)))
  {
    hide IsSpace, Lower, Utf16Length;
    var n := |title| - 1;
    assert title[..|title|] == title;
    forall k | 0 <= k < |cells| ensures Offsets(title[..n], cells[k]) == Offsets(title, cells[k]) {
      OffsetsOfPrefix(title, n, cells[k]);
    }
  }

  lemma {:induction false} SpansAreOffsets(title: string)
    ensures SpansMatch(title, Cells(title), Spans(title))
  {
    if title != "" {
      hide AddCell, AddChar, AddSpan, SpansMatch, Utf16Length;
      SpansAreOffsets(title[..|title| - 1]);
      CellsInRange(title[..|title| - 1]);
      AddSpanMatches(title, Cells(title[..|title| - 1]), Chars(title[..|title| - 1]), Spans(title[..|title| - 1]));
    }
  }

  /** Prefixes of a prefix have the same UTF-16 length. */
  lemma OffsetsOfPrefix(title: string, n: nat, cell: Cell)
    requires n <= |title| && cell.lo <= n && cell.hi <= n
    ensures Offsets(title[..n], cell) == Offsets(title, cell)
  {
    assert title[..n][..cell.lo] == title[..cell.lo];
    assert title[..n][..cell.hi] == title[..cell.hi];
  }

  lemma Utf16Empty()
    ensures Utf16Length("") == 0
  {
  }

  lemma Utf16Snoc(s: string)
    requires s != ""
    ensures Utf16Length(s) == Utf16Length(s[..|s| - 1]) + |CodeUnits(s[|s| - 1])|
  {
  }

  /** The loop of `title_match_range`: grows the collapsed characters and their
      spans while moving the UTF-16 offset. */
  method Collapse(title: string) returns (chars: string, spans: seq<(int, int)>)
    ensures chars == Chars(title) && spans == Spans(title)
  {
    hide IsSpace, CodeUnits, Lower, Utf16;
    chars, spans := "", [];
    var offset := 0;
    Utf16Empty();
    assert title[..0] == "";
    for i := 0 to |title|
      invariant chars == Chars(title[..i]) && spans == Spans(title[..i]) && |spans| == |chars|
      invariant offset == Utf16Length(title[..i])
    {
      assert title[..i + 1][..i] == title[..i];
      var c := title[i];
      Utf16Snoc(title[..i + 1]);
      var end := offset + |CodeUnits(c)|;
      if IsSpace(c) {
        if chars != "" && chars[|chars| - 1] != ' ' {
          chars := chars + " ";
          spans := spans + [(offset, end)];
        } else if chars != "" {
          spans := spans[..|spans| - 1] + [(spans[|spans| - 1].0, end)];
        }
      } else {
        chars := chars + [Lower(c)];
        spans := spans + [(offset, end)];
      }
      offset := end;
    }
    assert title[..|title|] == title;
  }

  method TitleMatchRange(title: string, query: string) returns (range: Option<(int, int)>)
    ensures range == MatchRange(title, query)
  {
    hide Chars, Cells, Spans, FindFrom, Utf16Length;
    var chars, spans := Collapse(title);
    SpansAreOffsets(title);
    CellsInRange(title);
    var index := FindFrom(chars, query, 0);
    if index < 0 || query == "" {
      return None;
    }
    return Some((spans[index].0, spans[index + |query| - 1].1));
  }

  function MatchRange(title: string, query: string): Option<(int, int)> {
    var index := FindFrom(Chars(title), query, 0);
    if index < 0 || query == "" then None
    else
      SpansAreOffsets(title);
      CellsInRange(title);
      Some((Spans(title)[index].0, Spans(title)[index + |query| - 1].1))
  }

  // -------------------------------------------------- collapse and normalization

  lemma CharsSnoc(s: string, c: char)
    ensures Chars(s + [c]) == AddChar(Chars(s), c)
  {
    hide AddChar;
    assert (s + [c])[..|s|] == s;
  }

  lemma LowerNeverSpace(c: char)
    ensures !IsSpace(c) ==> Lower(c) != ' '
  {
  }

  /** No collapsed title starts with a space. */
  lemma {:induction false} CharsStartNonspace(s: string)
    ensures Chars(s) != "" ==> Chars(s)[0] != ' '
  {
    if s != "" {
      CharsStartNonspace(s[..|s| - 1]);
      LowerNeverSpace(s[|s| - 1]);
    }
  }

  lemma AddCharConcat(a: string, b: string, c: char)
    requires b != "" || !IsSpace(c)
    ensures AddChar(a + b, c) == a + AddChar(b, c) && AddChar(b, c) != ""
  {
    hide IsSpace, Lower;
  }

  /** Collapsing splits at any non-space character. */
  lemma {:induction false} CharsSplit(a: string, b: string)
    requires b != "" ==> !IsSpace(b[0])
    ensures Chars(a + b) == Chars(a) + Chars(b)
    ensures b != "" ==> Chars(b) != ""
  {
    if b == "" {
      assert a + b == a;
    } else {
      hide IsSpace, AddChar, Chars;
      var n := |b| - 1;
      CharsSplit(a, b[..n]);
      assert a + b == (a + b[..n]) + [b[n]];
      assert b == b[..n] + [b[n]];
      CharsSnoc(a + b[..n], b[n]);
      CharsSnoc(b[..n], b[n]);
      if n == 0 {
        NoChars();
        assert b[..n] == "";
      }
      AddCharConcat(Chars(a), Chars(b[..n]), b[n]);
    }
  }

  lemma NoChars()
    ensures Chars("") == ""
  {
  }

  lemma AddCharExtends(front: string, c: char)
    ensures |front| <= |AddChar(front, c)| && AddChar(front, c)[..|front|] == front
  {
    hide IsSpace, Lower;
  }

  /** A non-space cell is either an old one or the one just added. */
  lemma AddCellCases(cells: seq<Cell>, chars: string, c: char, n: nat, k: nat)
    requires CellsMatch(cells, chars, n) && k < |AddCell(cells, c, n)| && AddCell(cells, c, n)[k].ch != ' '
    ensures if k < |cells| then AddCell(cells, c, n)[k] == cells[k]
            else k == |cells| && !IsSpace(c) && AddCell(cells, c, n)[k] == Cell(Lower(c), n, n + 1)
                 && |AddChar(chars, c)| == k + 1
  {
    hide IsSpace, Lower;
  }

  /** The front of a collapsed text is the collapsed front, when it ends in a
      non-space character; and that character covers just itself. */
  lemma {:induction false} NonspaceCell(title: string, k: nat)
    requires k < |Cells(title)| && Cells(title)[k].ch != ' '
    ensures var cell := Cells(title)[k];
      && cell.lo < |title| && cell.hi == cell.lo + 1 && !IsSpace(title[cell.lo])
      && |Chars(title[..cell.lo])| == k
      && |Chars(title)| > k && Chars(title[..cell.hi]) == Chars(title)[..k + 1]
  {
    hide IsSpace, Lower, AddCell, AddChar;
    var n := |title| - 1;
    var front := title[..n];
    CellsInRange(front);
    AddCellCases(Cells(front), Chars(front), title[n], n, k);
    AddCharExtends(Chars(front), title[n]);
    if k < |Cells(front)| {
      NonspaceCell(front, k);
      var cell := Cells(title)[k];
      assert front[..cell.lo] == title[..cell.lo] && front[..cell.hi] == title[..cell.hi];
      assert Chars(title)[..k + 1] == Chars(front)[..k + 1];
    } else {
      assert title[..|title|] == title;
      assert Chars(title)[..k + 1] == Chars(title);
    }
  }

  // ---------------------------------------------------------------- main results

  lemma Utf16Appended(s: string, c: char)
    ensures Utf16(s + [c]) == Utf16(s) + CodeUnits(c)
  {
    hide CodeUnits;
    assert (s + [c])[..|s|] == s;
  }

  lemma {:induction false} Utf16Concat(a: string, b: string)
    ensures Utf16(a + b) == Utf16(a) + Utf16(b)
  {
    hide CodeUnits;
    if b == "" {
      assert a + b == a;
    } else {
      hide Utf16;
      var n := |b| - 1;
      Utf16Concat(a, b[..n]);
      Utf16Appended(a + b[..n], b[n]);
      Utf16Appended(b[..n], b[n]);
      assert a + b == (a + b[..n]) + [b[n]] && b == b[..n] + [b[n]];
    }
  }

  /** Cutting the UTF-16 form at the offsets of two character positions cuts out
      exactly the characters between them. */
  lemma Utf16Slice(s: string, i: nat, j: nat)
    requires i <= j <= |s|
    ensures 0 <= Utf16Length(s[..i]) <= Utf16Length(s[..j]) <= |Utf16(s)|
    ensures Utf16(s)[Utf16Length(s[..i])..Utf16Length(s[..j])] == Utf16(s[i..j])
  {
    hide Utf16;
    assert s == s[..j] + s[j..];
    Utf16Concat(s[..j], s[j..]);
    assert s[..j] == s[..i] + s[i..j];
    Utf16Concat(s[..i], s[i..j]);
  }

  /** Appending one character to a text appends to its substitution: a space only
      when the text did not already end in one. */
  lemma {:induction false} SubSpacesSnoc(s: string, c: char)
    ensures SubSpaces(s + [c]) ==
      if !IsSpace(c) then SubSpaces(s) + [c]
      else if s != "" && IsSpace(s[|s| - 1]) then SubSpaces(s)
      else SubSpaces(s) + " "
    decreases |s|
  {
    hide IsSpace;
    if s == "" {
      assert s + [c] == [c] && [c][1..] == "";
      assert SkipSpaces([c]) == if IsSpace(c) then "" else [c];
    } else if IsSpace(s[0]) {
      SkipSnoc(s, c);
      var rest := SkipSpaces(s);
      if rest != "" {
        SubSpacesSnoc(rest, c);
        SkipKeepsLast(s);
      } else {
        AllSpacesLast(s);
        assert SkipSpaces([c]) == if IsSpace(c) then "" else [c];
        assert [c][1..] == "";
      }
    } else {
      SubSpacesSnoc(s[1..], c);
      assert (s + [c])[1..] == s[1..] + [c];
    }
  }

  lemma {:induction false} SkipSnoc(s: string, c: char)
    ensures SkipSpaces(s + [c]) == if SkipSpaces(s) != "" then SkipSpaces(s) + [c] else SkipSpaces([c])
  {
    hide IsSpace;
    if s == "" {
      assert s + [c] == [c];
    } else if IsSpace(s[0]) {
      assert (s + [c])[1..] == s[1..] + [c];
      SkipSnoc(s[1..], c);
    }
  }

  lemma {:induction false} SkipKeepsLast(s: string)
    requires SkipSpaces(s) != ""
    ensures s != "" && SkipSpaces(s)[|SkipSpaces(s)| - 1] == s[|s| - 1]
  {
    hide IsSpace;
    if IsSpace(s[0]) {
      SkipKeepsLast(s[1..]);
    }
  }

  lemma {:induction false} AllSpacesLast(s: string)
    requires s != "" && SkipSpaces(s) == ""
    ensures IsSpace(s[|s| - 1])
  {
    hide IsSpace;
    if |s| > 1 {
      AllSpacesLast(s[1..]);
    }
  }

  lemma {:induction false} StripLeftSnoc(t: string, x: char)
    ensures StripLeft(t + [x]) == if StripLeft(t) != "" then StripLeft(t) + [x] else if x == ' ' then "" else [x]
  {
    if t == "" {
      assert t + [x] == [x] && [x][1..] == "";
    } else if t[0] == ' ' {
      assert (t + [x])[1..] == t[1..] + [x];
      StripLeftSnoc(t[1..], x);
    }
  }

  lemma {:induction false} StripLeftKeepsLast(t: string)
    ensures StripLeft(t) != "" ==> t != "" && StripLeft(t)[|StripLeft(t)| - 1] == t[|t| - 1]
  {
    if t != "" && t[0] == ' ' {
      StripLeftKeepsLast(t[1..]);
    }
  }

  lemma LoweredSnoc(s: string, c: char)
    ensures Lowered(s + [c]) == Lowered(s) + [Lower(c)]
  {
    hide Lower;
    assert (s + [c])[..|s|] == s;
  }

  lemma {:induction false} LoweredAt(s: string)
    ensures |Lowered(s)| == |s| && forall k :: 0 <= k < |s| ==> Lowered(s)[k] == Lower(s[k])
  {
    if s != "" {
      hide Lower;
      LoweredAt(s[..|s| - 1]);
    }
  }

  lemma LowerKeepsSpace(c: char)
    ensures Lower(c) == ' ' <==> c == ' '
    ensures IsSpace(' ')
  {
  }

  /** A substituted text ends in a space exactly when the text ended in one. */
  lemma SubSpacesLast(s: string)
    requires s != ""
    ensures var t := SubSpaces(s);
      t != "" && (t[|t| - 1] == ' ' <==> IsSpace(s[|s| - 1])) && (t[|t| - 1] != ' ' ==> t[|t| - 1] == s[|s| - 1])
  {
    var c := s[|s| - 1];
    SubSpacesLastOf(s[..|s| - 1], c);
    assert s == s[..|s| - 1] + [c];
  }

  lemma {:induction false} SubSpacesLastOf(s: string, c: char)
    ensures var t := SubSpaces(s + [c]);
      t != "" && (t[|t| - 1] == ' ' <==> IsSpace(c)) && (t[|t| - 1] != ' ' ==> t[|t| - 1] == c)
  {
    hide IsSpace, SubSpaces;
    LowerKeepsSpace(c);
    SubSpacesSnoc(s, c);
    if IsSpace(c) && s != "" && IsSpace(s[|s| - 1]) {
      assert s == s[..|s| - 1] + [s[|s| - 1]];
      SubSpacesLastOf(s[..|s| - 1], s[|s| - 1]);
    }
  }

  lemma CollapseStep(t: string, t': string, c: char, endsInSpace: bool)
    requires t' == if !IsSpace(c) then t + [c] else if endsInSpace then t else t + " "
    requires endsInSpace ==> t != "" && t[|t| - 1] == ' '
    requires !endsInSpace && t != "" ==> t[|t| - 1] != ' '
    ensures Lowered(StripLeft(t')) == AddChar(Lowered(StripLeft(t)), c)
  {
    hide IsSpace, Lower, Lowered, StripLeft;
    var a := StripLeft(t);
    StripLeftKeepsLast(t);
    LoweredAt(a);
    if a != "" {
      LowerKeepsSpace(a[|a| - 1]);
    }
    LowerKeepsSpace(c);
    LowerKeepsSpace(' ');
    if !IsSpace(c) {
      StripLeftSnoc(t, c);
      LoweredSnoc(a, c);
      assert a == "" ==> a + [c] == [c];
    } else if !endsInSpace {
      StripLeftSnoc(t, ' ');
      LoweredSnoc(a, ' ');
    }
  }

  /** The loop collapses a title exactly as normalization does, except that it
      keeps one trailing space. */
  lemma {:induction false} CharsAreNormalized(s: string)
    ensures Chars(s) == Lowered(StripLeft(SubSpaces(s)))
  {
    if s != "" {
      hide IsSpace, Lower, Lowered, StripLeft, SubSpaces, AddChar;
      var front, c := s[..|s| - 1], s[|s| - 1];
      CharsAreNormalized(front);
      assert s == front + [c];
      SubSpacesSnoc(front, c);
      if front != "" {
        SubSpacesLast(front);
      } else {
        NoSubSpaces();
      }
      CollapseStep(SubSpaces(front), SubSpaces(s), c, front != "" && IsSpace(front[|front| - 1]));
    }
  }

  lemma NoSubSpaces()
    ensures SubSpaces("") == ""
  {
  }

  /** Stripping the right end keeps everything up to the last non-space. */
  lemma {:induction false} StripRightIsPrefix(s: string)
    ensures StripRight(s) <= s
    ensures StripRight(s) != "" ==> StripRight(s)[|StripRight(s)| - 1] != ' '
    ensures forall k :: |StripRight(s)| <= k < |s| ==> s[k] == ' '
  {
    if s != "" && s[|s| - 1] == ' ' {
      StripRightIsPrefix(s[..|s| - 1]);
    }
  }

  lemma {:induction false} StripRightLowered(s: string)
    ensures Lowered(StripRight(s)) == StripRight(Lowered(s))
  {
    if s != "" {
      hide Lower;
      var front, c := s[..|s| - 1], s[|s| - 1];
      LowerKeepsSpace(c);
      assert Lowered(s)[..|Lowered(s)| - 1] == Lowered(front);
      if c == ' ' {
        StripRightLowered(front);
      }
    }
  }

  lemma NormalizedIsStripped(s: string)
    ensures NormalizeQuery(s) == StripRight(Chars(s))
  {
    hide Lowered, StripLeft, SubSpaces, StripRight, Chars;
    CharsAreNormalized(s);
    StripRightLowered(StripLeft(SubSpaces(s)));
  }

  /** A normalized query neither starts nor ends with a space. */
  lemma NormalizedEnds(raw: string)
    ensures var q := NormalizeQuery(raw); q != "" ==> q[0] != ' ' && q[|q| - 1] != ' '
  {
    hide NormalizeQuery, Chars, StripRight;
    NormalizedIsStripped(raw);
    StripRightIsPrefix(Chars(raw));
    CharsStartNonspace(raw);
  }

  /** A query that ends in a non-space occurs in a text exactly when it occurs in
      the text without its trailing spaces. */
  lemma OccursStripped(text: string, q: string)
    requires q != "" && q[|q| - 1] != ' '
    ensures Occurs(text, q) <==> Occurs(StripRight(text), q)
  {
    hide StripRight;
    StripRightIsPrefix(text);
    var stripped := StripRight(text);
    forall i | 0 <= i <= |text| && OccursAt(text, q, i) ensures i <= |stripped| && OccursAt(stripped, q, i) {
      assert text[i..i + |q|][|q| - 1] == text[i + |q| - 1];
      assert stripped[i..i + |q|] == text[i..i + |q|];
    }
    forall i | 0 <= i <= |stripped| && OccursAt(stripped, q, i) ensures OccursAt(text, q, i) {
      assert stripped[i..i + |q|] == text[i..i + |q|];
    }
  }

  /** A range is returned exactly when the normalized query is not empty and occurs
      in the normalized title. */
  lemma MatchExactlyWhenOccurring(title: string, raw: string)
    ensures MatchRange(title, NormalizeQuery(raw)).Some?
       <==> NormalizeQuery(raw) != "" && Occurs(NormalizeQuery(title), NormalizeQuery(raw))
  {
    hide NormalizeQuery, Chars, Cells, Spans, StripRight;
    var q := NormalizeQuery(raw);
    NormalizedEnds(raw);
    NormalizedIsStripped(title);
    if q != "" {
      OccursStripped(Chars(title), q);
    }
  }

  /** Cutting the original title's UTF-16 form at the returned offsets gives whole
      characters, and normalizing those gives back the query. */
  lemma MatchedSliceIsTheQuery(title: string, raw: string) returns (i: nat, j: nat)
    requires MatchRange(title, NormalizeQuery(raw)).Some?
    ensures var range := MatchRange(title, NormalizeQuery(raw)).value;
      && i <= j <= |title|
      && 0 <= range.0 <= range.1 <= |Utf16(title)|
      && Utf16(title)[range.0..range.1] == Utf16(title[i..j])
      && NormalizeQuery(title[i..j]) == NormalizeQuery(raw)
  {
    hide NormalizeQuery, Chars, Cells, Spans, Utf16, IsSpace, StripRight;
    var q := NormalizeQuery(raw);
    var chars := Chars(title);
    var first := FindFrom(chars, q, 0);
    var last := first + |q| - 1;
    NormalizedEnds(raw);
    CellsInRange(title);
    SpansAreOffsets(title);
    assert chars[first..first + |q|][0] == chars[first];
    assert chars[first..first + |q|][|q| - 1] == chars[last];
    NonspaceCell(title, first);
    NonspaceCell(title, last);
    i, j := Cells(title)[first].lo, Cells(title)[last].hi;
    SliceCollapses(title, i, j, first, last, q);
    Utf16Slice(title, i, j);
  }

  lemma SliceCollapses(title: string, i: nat, j: nat, first: nat, last: nat, q: string)
    requires first <= last < |Chars(title)| && i <= |title| && j <= |title|
    requires i < |title| && !IsSpace(title[i]) && |Chars(title[..i])| == first
    requires Chars(title[..j]) == Chars(title)[..last + 1]
    requires q == Chars(title)[first..last + 1] && q[|q| - 1] != ' '
    ensures i <= j && NormalizeQuery(title[i..j]) == q
  {
    hide NormalizeQuery, Chars, IsSpace;
    if j < i {
      CharsMonotone(title, j, i);
    } else {
      assert title[..j] == title[..i] + title[i..j];
      CharsSplit(title[..i], title[i..j]);
      assert Chars(title[i..j]) == Chars(title[..j])[first..];
      NormalizedIsStripped(title[i..j]);
    }
  }

  lemma {:induction false} CharsMonotone(title: string, j: nat, i: nat)
    requires j <= i <= |title|
    ensures |Chars(title[..j])| <= |Chars(title[..i])|
  {
    if j < i {
      hide AddChar;
      CharsMonotone(title, j, i - 1);
      assert title[..i][..i - 1] == title[..i - 1];
      AddCharExtends(Chars(title[..i - 1]), title[i - 1]);
    }
  }

  // -------------------------------------------------------------------- the alphabet

  /** Lowering changes the ASCII capitals and nothing else. */
  lemma LowerIsAscii(c: char)
    ensures 'A' <= c <= 'Z' ==> Lower(c) as int == c as int + 32
    ensures !('A' <= c <= 'Z') ==> Lower(c) == c
  {
  }

  /** A character is one unit of its own value, or a high and a low surrogate from which
      its value can be read back. */
  lemma CodeUnitsDecode(c: char)
    ensures var u, n := CodeUnits(c), c as int;
            if n < 0x10000 then u == [n]
            else && |u| == 2 && 0xd800 <= u[0] < 0xdc00 && 0xdc00 <= u[1] < 0xe000
                 && n == 0x10000 + (u[0] - 0xd800) * 0x400 + (u[1] - 0xdc00)
  {
  }

  /** The range is that of the first occurrence in the collapsed title. */
  lemma MatchIsTheFirst(title: string, query: string)
    requires MatchRange(title, query).Some?
    ensures exists k :: 0 <= k && k + |query| <= |Chars(title)| && OccursAt(Chars(title), query, k)
              && (forall j :: 0 <= j < k ==> !OccursAt(Chars(title), query, j))
              && k + |query| <= |Spans(title)| && query != ""
              && MatchRange(title, query).value == (Spans(title)[k].0, Spans(title)[k + |query| - 1].1)
  {
    hide Chars, Spans;
    SpansAreOffsets(title);
    CellsInRange(title);
    var k := FindFrom(Chars(title), query, 0);
  }
}
