/** The JavaScript string operations the typing game relies on: `split(' ')`, `trim()`, `endsWith`, `startsWith`. */
module Text {
  /** Joins pieces with a separator between neighbours (the inverse of Split). */
  function Join(pieces: seq<string>, sep: char): string
    requires |pieces| >= 1
    decreases |pieces|
  {
    if |pieces| == 1 then pieces[0] else pieces[0] + [sep] + Join(pieces[1..], sep)
  }

  /**
   * `s.split(sep)` for a one-character separator: there is always at least one
   * piece, consecutive separators give empty pieces, and no piece holds the
   * separator. Joining the pieces back gives the original string.
   */
  function Split(s: string, sep: char): (pieces: seq<string>)
    ensures |pieces| >= 1
    ensures forall w :: w in pieces ==> sep !in w
    ensures Join(pieces, sep) == s
    decreases |s|
  {
    if |s| == 0 then [""]
    else
      var rest := Split(s[1..], sep);
      if s[0] == sep then
        assert Join([""] + rest, sep) == [sep] + Join(rest, sep) by {
          assert ([""] + rest)[1..] == rest;
        }
        [""] + rest
      else
        var pieces := [[s[0]] + rest[0]] + rest[1..];
        assert Join(pieces, sep) == [s[0]] + Join(rest, sep) by {
          if |rest| > 1 {
            assert pieces[1..] == rest[1..];
          }
        }
        assert forall w :: w in pieces ==> w == [s[0]] + rest[0] || w in rest;
        pieces
  }

  /** The number of occurrences of c in s. */
  function Occurrences(s: string, c: char): nat {
    if |s| == 0 then 0 else (if s[0] == c then 1 else 0) + Occurrences(s[1..], c)
  }

  /** There is one more piece than there are separators. */
  lemma {:induction false} SplitCount(s: string, sep: char)
    ensures |Split(s, sep)| == Occurrences(s, sep) + 1
    decreases |s|
  {
    if |s| > 0 {
      SplitCount(s[1..], sep);
    }
  }

  /**
   * Split is the only way to cut s into separator-free pieces that join back
   * to s: any such list of pieces is Split(s, sep).
   */
  lemma {:induction false} SplitUnique(pieces: seq<string>, sep: char)
    requires |pieces| >= 1
    requires forall w :: w in pieces ==> sep !in w
    ensures Split(Join(pieces, sep), sep) == pieces
    decreases |Join(pieces, sep)|
  {
    var s := Join(pieces, sep);
    if |pieces| == 1 {
      SplitOfSeparatorFree(pieces[0], sep);
    } else if pieces[0] == [] {
      var tail := pieces[1..];
      assert s == [sep] + Join(tail, sep);
      assert s[1..] == Join(tail, sep);
      assert forall w :: w in tail ==> w in pieces;
      SplitUnique(tail, sep);
      assert pieces == [""] + tail;
    } else {
      var c := pieces[0][0];
      assert c in pieces[0];
      var shorter := [pieces[0][1..]] + pieces[1..];
      assert shorter[1..] == pieces[1..];
      assert Join(shorter, sep) == pieces[0][1..] + [sep] + Join(pieces[1..], sep);
      assert s == [c] + Join(shorter, sep);
      assert s[1..] == Join(shorter, sep);
      forall w | w in shorter ensures sep !in w {
        if w == pieces[0][1..] {
          assert pieces[0] in pieces;
        } else {
          assert w in pieces;
        }
      }
      SplitUnique(shorter, sep);
      assert [c] + shorter[0] == pieces[0];
      assert [[c] + shorter[0]] + shorter[1..] == pieces;
    }
  }

  /** A string without the separator splits into itself. */
  lemma {:induction false} SplitOfSeparatorFree(s: string, sep: char)
    requires sep !in s
    ensures Split(s, sep) == [s]
    decreases |s|
  {
    if |s| > 0 {
      assert forall k :: 0 <= k < |s[1..]| ==> s[1..][k] == s[k + 1];
      SplitOfSeparatorFree(s[1..], sep);
      assert [s[0]] + s[1..] == s;
    }
  }

  /**
   * The characters `String.prototype.trim` removes: the ECMAScript white space
   * characters (tab, vertical tab, form feed, space, no-break space, byte order
   * mark and the Unicode space separators) and the line terminators.
   */
  predicate IsSpace(c: char) {
    || c == '\t' || c == '\n' || c == '\U{000B}' || c == '\U{000C}' || c == '\r'
    || c == ' ' || c == '\U{00A0}' || c == '\U{1680}'
    || ('\U{2000}' <= c <= '\U{200A}')
    || c == '\U{2028}' || c == '\U{2029}' || c == '\U{202F}' || c == '\U{205F}'
    || c == '\U{3000}' || c == '\U{FEFF}'
  }

  /** Drops leading white space: what remains is a suffix of s that does not start with white space. */
  function TrimStart(s: string): (r: string)
    ensures |r| <= |s| && r == s[|s| - |r|..]
    ensures r == [] || !IsSpace(r[0])
    ensures forall i :: 0 <= i < |s| - |r| ==> IsSpace(s[i])
    decreases |s|
  {
    if |s| > 0 && IsSpace(s[0]) then TrimStart(s[1..]) else s
  }

  /** Drops trailing white space: what remains is a prefix of s that does not end with white space. */
  function TrimEnd(s: string): (r: string)
    ensures |r| <= |s| && r == s[..|r|]
    ensures r == [] || !IsSpace(r[|r| - 1])
    ensures forall i :: |r| <= i < |s| ==> IsSpace(s[i])
    decreases |s|
  {
    if |s| > 0 && IsSpace(s[|s| - 1]) then TrimEnd(s[..|s| - 1]) else s
  }

  /** `s.trim()`: white space removed from both ends. */
  function Trim(s: string): (r: string)
    ensures |r| <= |s|
    ensures r == [] || (!IsSpace(r[0]) && !IsSpace(r[|r| - 1]))
  {
    TrimEnd(TrimStart(s))
  }

  /** A string with no white space at either end is its own trim. */
  lemma TrimUnpadded(s: string)
    requires s == [] || (!IsSpace(s[0]) && !IsSpace(s[|s| - 1]))
    ensures Trim(s) == s
  {
  }

  /** Trimming a string with one trailing space appended gives back an unpadded string. */
  lemma TrimDropsTrailingSpace(s: string)
    requires s == [] || (!IsSpace(s[0]) && !IsSpace(s[|s| - 1]))
    ensures Trim(s + " ") == s
  {
    var t := s + " ";
    assert IsSpace(' ');
    if s == [] {
      assert t[1..] == [];
      assert TrimStart(t) == [];
    } else {
      assert t[0] == s[0];
      assert TrimStart(t) == t;
      assert t[..|t| - 1] == s;
      assert TrimEnd(t) == TrimEnd(s);
      assert TrimEnd(s) == s;
    }
  }

  /** `s.endsWith(c)` for a one-character suffix. */
  predicate EndsWith(s: string, c: char) {
    |s| > 0 && s[|s| - 1] == c
  }

  /** `word.startsWith(prefix)`. */
  predicate StartsWith(word: string, prefix: string) {
    prefix <= word
  }
}
