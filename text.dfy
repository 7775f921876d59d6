/**
 * The JavaScript string operations the intake path relies on: `trim`, the
 * `\d` character class, `split` on a one-character separator, `join`, and the
 * comma-separated tag expression `s.split(",").map(t => t.trim()).filter(Boolean)`.
 */
module Text {

  /** The characters `String.prototype.trim` removes: WhiteSpace and LineTerminator of ECMAScript. */
  predicate IsSpace(c: char) {
    c == '\t' || c == '\n' || c == '\U{000B}' || c == '\U{000C}' || c == '\r' || c == ' '
    || c == '\U{00A0}' || c == '\U{1680}' || ('\U{2000}' <= c <= '\U{200A}')
    || c == '\U{2028}' || c == '\U{2029}' || c == '\U{202F}' || c == '\U{205F}'
    || c == '\U{3000}' || c == '\U{FEFF}'
  }

  /** The regular-expression class `\d` (ASCII decimal digits only). */
  predicate IsDigit(c: char) {
    '0' <= c <= '9'
  }

  predicate AllDigits(s: string) {
    forall i :: 0 <= i < |s| ==> IsDigit(s[i])
  }

  /** Neither end of `s` is a space character. */
  predicate Trimmed(s: string) {
    |s| == 0 || (!IsSpace(s[0]) && !IsSpace(s[|s| - 1]))
  }

  /** `s` with its leading space characters removed (`trimStart`). */
  function TrimStart(s: string): (r: string)
    ensures |r| <= |s| && r == s[|s| - |r|..]
    ensures |r| == 0 || !IsSpace(r[0])
    ensures forall i :: 0 <= i < |s| - |r| ==> IsSpace(s[i])
  {
    if |s| > 0 && IsSpace(s[0]) then
      var rest := s[1..];
      assert forall i :: 1 <= i < |s| ==> s[i] == rest[i - 1];
      TrimStart(rest)
    else s
  }

  /** `s` with its trailing space characters removed (`trimEnd`). */
  function TrimEnd(s: string): (r: string)
    ensures |r| <= |s| && r == s[..|r|]
    ensures |r| == 0 || !IsSpace(r[|r| - 1])
    ensures forall i :: |r| <= i < |s| ==> IsSpace(s[i])
  {
    if |s| > 0 && IsSpace(s[|s| - 1]) then
      var front := s[..|s| - 1];
      assert forall i :: 0 <= i < |front| ==> s[i] == front[i];
      TrimEnd(front)
    else s
  }

  /** `s.trim()`: the longest infix of `s` that neither starts nor ends with a space. */
  function Trim(s: string): (r: string)
    ensures Trimmed(r)
    ensures |r| <= |s|
  {
    TrimEnd(TrimStart(s))
  }

  /**
   * What `trim` removes: `Trim(s)` is an infix of `s` with only spaces
   * before and after it, so together with `Trimmed` it is exactly `s`
   * without its leading and trailing spaces.
   */
  lemma TrimRemovesOnlySpace(s: string)
    ensures exists a, b :: 0 <= a <= b <= |s| && Trim(s) == s[a..b] && SpaceOutside(s, a, b)
  {
    var t := TrimStart(s);
    var r := TrimEnd(t);
    InfixOfSuffix(s, t, r);
    var a := |s| - |t|;
    var b := a + |r|;
    assert Trim(s) == r;
    assert r == s[a..b] && SpaceOutside(s, a, b);
  }

  /**
   * A suffix `t` of `s` with only spaces before it, and a prefix `r` of `t`
   * with only spaces after it: `r` is an infix of `s` with only spaces around it.
   */
  lemma InfixOfSuffix(s: string, t: string, r: string)
    requires |t| <= |s| && t == s[|s| - |t|..]
    requires |r| <= |t| && r == t[..|r|]
    requires forall i :: |r| <= i < |t| ==> IsSpace(t[i])
    requires forall i :: 0 <= i < |s| - |t| ==> IsSpace(s[i])
    ensures var a := |s| - |t|; a + |r| <= |s| && r == s[a..a + |r|] && SpaceOutside(s, a, a + |r|)
  {
    var a := |s| - |t|;
    forall i | a + |r| <= i < |s|
      ensures IsSpace(s[i])
    {
      assert s[i] == t[i - a];
    }
  }

  /** Every character of `s` before `a` and from `b` on is a space. */
  predicate SpaceOutside(s: string, a: nat, b: nat)
    requires a <= b <= |s|
  {
    (forall i :: 0 <= i < a ==> IsSpace(s[i])) && (forall i :: b <= i < |s| ==> IsSpace(s[i]))
  }

  /** Trimming a string that is already trimmed changes nothing. */
  lemma TrimOfTrimmed(s: string)
    requires Trimmed(s)
    ensures Trim(s) == s
  {
  }

  /** `trim` is idempotent. */
  lemma TrimIdempotent(s: string)
    ensures Trim(Trim(s)) == Trim(s)
  {
    TrimOfTrimmed(Trim(s));
  }

  /** `s.replace(/\D/g, '')`: the digits of `s`, in order. */
  function DigitsOnly(s: string): (r: string)
    ensures |r| <= |s| && AllDigits(r)
    ensures AllDigits(s) ==> r == s
    ensures |s| == 1 ==> r == if IsDigit(s[0]) then s else ""
  {
    if |s| == 0 then ""
    else if IsDigit(s[0]) then [s[0]] + DigitsOnly(s[1..])
    else DigitsOnly(s[1..])
  }

  /** The digits of a concatenation are the digits of its parts: so `DigitsOnly` keeps exactly the digits, in order. */
  lemma {:induction false} DigitsOnlyAppend(a: string, b: string)
    ensures DigitsOnly(a + b) == DigitsOnly(a) + DigitsOnly(b)
  {
    if |a| > 0 {
      assert (a + b)[0] == a[0] && (a + b)[1..] == a[1..] + b;
      DigitsOnlyAppend(a[1..], b);
    } else {
      assert a + b == b;
    }
  }

  /**
   * `s.split(sep)` for a one-character separator: the pieces between the
   * separators, none containing it, that joined by it give `s` back; never
   * empty, and `"".split(",")` is `[""]`.
   */
  function Split(s: string, sep: char): (parts: seq<string>)
    ensures |parts| >= 1
    ensures forall i :: 0 <= i < |parts| ==> sep !in parts[i]
    ensures Join(parts, [sep]) == s
  {
    if |s| == 0 then [""]
    else
      var rest := Split(s[1..], sep);
      if s[0] == sep then
        JoinCons("", rest, [sep]);
        [""] + rest
      else
        var parts := [[s[0]] + rest[0]] + rest[1..];
        JoinHead(rest, [s[0]], [sep]);
        assert forall i :: 1 <= i < |parts| ==> parts[i] == rest[i];
        parts
  }

  /** Joining a piece in front of non-empty pieces puts the separator between. */
  lemma JoinCons(p: string, parts: seq<string>, sep: string)
    requires |parts| >= 1
    ensures Join([p] + parts, sep) == p + sep + Join(parts, sep)
  {
    assert ([p] + parts)[1..] == parts;
  }

  /** Text put in front of the first piece goes in front of the join. */
  lemma JoinHead(parts: seq<string>, x: string, sep: string)
    requires |parts| >= 1
    ensures Join([x + parts[0]] + parts[1..], sep) == x + Join(parts, sep)
  {
    var q := [x + parts[0]] + parts[1..];
    if |parts| > 1 {
      assert q[1..] == parts[1..];
    }
  }

  /** `parts.join(sep)`. */
  function Join(parts: seq<string>, sep: string): string {
    if |parts| == 0 then ""
    else if |parts| == 1 then parts[0]
    else parts[0] + sep + Join(parts[1..], sep)
  }

  /** A piece without the separator splits to itself. */
  lemma {:induction false} SplitNoSep(p: string, sep: char)
    requires sep !in p
    ensures Split(p, sep) == [p]
  {
    if |p| > 0 {
      assert sep !in p[1..] by {
        forall i | 0 <= i < |p[1..]| ensures p[1..][i] != sep { assert p[1..][i] == p[i + 1]; }
      }
      SplitNoSep(p[1..], sep);
      assert p[0] != sep;
      assert [p[0]] + p[1..] == p;
    }
  }

  /** Splitting `p + sep + rest` yields `p` followed by the pieces of `rest`. */
  lemma {:induction false} SplitAtSep(p: string, sep: char, rest: string)
    requires sep !in p
    ensures Split(p + [sep] + rest, sep) == [p] + Split(rest, sep)
  {
    if |p| == 0 {
      assert p + [sep] + rest == [sep] + rest;
      assert ([sep] + rest)[1..] == rest;
    } else {
      SplitAtSep(p[1..], sep, rest);
      assert (p + [sep] + rest)[1..] == p[1..] + [sep] + rest;
      assert [p[0]] + p[1..] == p;
    }
  }

  /** `split` undoes `join` when no part holds the separator. */
  lemma {:induction false} SplitJoin(parts: seq<string>, sep: char)
    requires |parts| >= 1
    requires forall i :: 0 <= i < |parts| ==> sep !in parts[i]
    ensures Split(Join(parts, [sep]), sep) == parts
  {
    if |parts| == 1 {
      SplitNoSep(parts[0], sep);
    } else {
      SplitJoin(parts[1..], sep);
      SplitAtSep(parts[0], sep, Join(parts[1..], [sep]));
      assert [parts[0]] + parts[1..] == parts;
    }
  }

  /** `pieces.map(t => t.trim())`. */
  function TrimAll(pieces: seq<string>): (r: seq<string>)
    ensures |r| == |pieces|
    ensures forall i :: 0 <= i < |r| ==> r[i] == Trim(pieces[i])
  {
    if |pieces| == 0 then [] else [Trim(pieces[0])] + TrimAll(pieces[1..])
  }

  /** `pieces.filter(Boolean)`: the non-empty pieces, in order. */
  function NonEmpty(pieces: seq<string>): (r: seq<string>)
    ensures |r| <= |pieces|
    ensures forall i :: 0 <= i < |r| ==> r[i] != "" && r[i] in pieces
    ensures |pieces| == 1 ==> r == if pieces[0] == "" then [] else pieces
  {
    if |pieces| == 0 then []
    else if pieces[0] == "" then NonEmpty(pieces[1..])
    else [pieces[0]] + NonEmpty(pieces[1..])
  }

  /**
   * The filter works piece by piece: the kept pieces of a concatenation are
   * the kept pieces of each part, in order. With the one-piece case this
   * fixes the result for every input.
   */
  lemma {:induction false} NonEmptyAppend(a: seq<string>, b: seq<string>)
    ensures NonEmpty(a + b) == NonEmpty(a) + NonEmpty(b)
  {
    if |a| > 0 {
      NonEmptyAppend(a[1..], b);
      assert (a + b)[1..] == a[1..] + b;
    } else {
      assert a + b == b;
    }
  }

  /** Three pieces joined: the separator between neighbours. */
  lemma JoinThree(x: string, m: string, y: string, sep: string)
    ensures Join([x, m, y], sep) == x + sep + m + sep + y
  {
    var pieces := [x, m, y];
    assert Join([y], sep) == y;
    assert Join([m, y], sep) == m + sep + y by { assert [m, y][1..] == [y]; }
    assert pieces[1..] == [m, y];
  }

  /** Trimming three pieces, the middle one blank. */
  lemma TrimAllThree(x: string, m: string, y: string)
    requires Trim(x) == x && Trim(m) == "" && Trim(y) == y
    ensures TrimAll([x, m, y]) == [x, "", y]
  {
    var p := [x, m, y];
    var r := TrimAll(p);
    assert |r| == 3;
    assert r[0] == Trim(p[0]) && r[1] == Trim(p[1]) && r[2] == Trim(p[2]);
  }

  /** A lone space trims to nothing. */
  lemma TrimBlank()
    ensures Trim(" ") == ""
  {
  }

  /** The blank middle piece of three is dropped. */
  lemma NonEmptyThree(x: string, y: string)
    requires x != "" && y != ""
    ensures NonEmpty([x, "", y]) == [x, y]
  {
    assert [x, "", y] == [x] + ([""] + [y]);
    NonEmptyAppend([x], [""] + [y]);
    NonEmptyAppend([""], [y]);
  }

  /**
   * A blank piece between two tags is dropped: `"x, ,y"` gives the tags `x`
   * and `y`, whatever clean tags they are.
   */
  lemma SplitTagsDropsBlank(x: string, y: string)
    requires x != "" && Trimmed(x) && ',' !in x
    requires y != "" && Trimmed(y) && ',' !in y
    ensures SplitTags(x + ", ," + y) == [x, y]
  {
    JoinThree(x, " ", y, ",");
    assert x + ", ," + y == x + "," + " " + "," + y;
    SplitJoinComma([x, " ", y]);
    TrimBlank();
    TrimOfTrimmed(x);
    TrimOfTrimmed(y);
    TrimAllThree(x, " ", y);
    NonEmptyThree(x, y);
  }

  /** The tag expression: comma-split, trim each piece, drop the empty ones. */
  function SplitTags(s: string): seq<string> {
    NonEmpty(TrimAll(Split(s, ',')))
  }

  /** Every tag the expression produces is non-empty and already trimmed. */
  lemma SplitTagsClean(s: string)
    ensures forall i :: 0 <= i < |SplitTags(s)| ==> SplitTags(s)[i] != "" && Trimmed(SplitTags(s)[i])
  {
    var pieces := TrimAll(Split(s, ','));
    forall i | 0 <= i < |SplitTags(s)|
      ensures Trimmed(SplitTags(s)[i])
    {
      var t := SplitTags(s)[i];
      assert t in pieces;
      var j :| 0 <= j < |pieces| && pieces[j] == t;
      assert t == Trim(Split(s, ',')[j]);
    }
  }

  /** Clean tags (non-empty, trimmed, comma-free) survive a round trip through a comma-joined string. */
  lemma SplitTagsJoin(tags: seq<string>)
    requires forall i :: 0 <= i < |tags| ==> tags[i] != "" && Trimmed(tags[i]) && ',' !in tags[i]
    ensures SplitTags(Join(tags, ",")) == tags
  {
    if |tags| == 0 {
      SplitTagsEmpty();
    } else {
      SplitTagsJoinNonEmpty(tags);
    }
  }

  lemma SplitTagsJoinNonEmpty(tags: seq<string>)
    requires |tags| > 0
    requires forall i :: 0 <= i < |tags| ==> tags[i] != "" && Trimmed(tags[i]) && ',' !in tags[i]
    ensures SplitTags(Join(tags, ",")) == tags
  {
    assert Split(Join(tags, ","), ',') == tags by { SplitJoinComma(tags); }
    assert TrimAll(tags) == tags by { TrimAllOfTrimmed(tags); }
    assert NonEmpty(tags) == tags by { NonEmptyKeepsAll(tags); }
  }

  lemma SplitJoinComma(tags: seq<string>)
    requires |tags| >= 1
    requires forall i :: 0 <= i < |tags| ==> ',' !in tags[i]
    ensures Split(Join(tags, ","), ',') == tags
  {
    assert [','] == ",";
    SplitJoin(tags, ',');
  }

  /** The empty string has no tags. */
  lemma SplitTagsEmpty()
    ensures SplitTags("") == []
  {
    assert Split("", ',') == [""];
    assert TrimAll([""]) == [Trim("")];
    assert Trim("") == "";
    assert NonEmpty([""]) == [];
  }

  lemma TrimAllOfTrimmed(pieces: seq<string>)
    requires forall i :: 0 <= i < |pieces| ==> Trimmed(pieces[i])
    ensures TrimAll(pieces) == pieces
  {
    var r := TrimAll(pieces);
    forall i | 0 <= i < |pieces|
      ensures r[i] == pieces[i]
    {
      TrimOfTrimmed(pieces[i]);
    }
  }

  lemma {:induction false} NonEmptyKeepsAll(pieces: seq<string>)
    requires forall i :: 0 <= i < |pieces| ==> pieces[i] != ""
    ensures NonEmpty(pieces) == pieces
  {
    if |pieces| > 0 {
      NonEmptyKeepsAll(pieces[1..]);
    }
  }
}
