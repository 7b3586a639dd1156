/**
 * The three `String.prototype` operations the codec relies on: `split` on a
 * one-character separator, its inverse `Array.prototype.join`, and `trim`.
 */
module JsText {

  /** `s.split(sep)`: the maximal separator-free fields, in order. */
  function Split(s: string, sep: char): (r: seq<string>)
    ensures |r| >= 1
  {
    if s == [] then [""]
    else
      var rest := Split(s[1..], sep);
      if s[0] == sep then [""] + rest
      else [[s[0]] + rest[0]] + rest[1..]
  }

  /** No field of a split contains the separator. */
  lemma {:induction false} SplitFieldsFree(s: string, sep: char)
    ensures forall i :: 0 <= i < |Split(s, sep)| ==> sep !in Split(s, sep)[i]
  {
    if s != [] {
      SplitFieldsFree(s[1..], sep);
    }
  }

  /** `parts.join(sep)`. */
  function Join(parts: seq<string>, sep: char): string
    requires |parts| >= 1
  {
    if |parts| == 1 then parts[0] else parts[0] + [sep] + Join(parts[1..], sep)
  }

  /** Joining the fields of a split restores the string. */
  lemma {:induction false} JoinOfSplit(s: string, sep: char)
    ensures Join(Split(s, sep), sep) == s
  {
    if s != [] {
      JoinOfSplit(s[1..], sep);
      var rest := Split(s[1..], sep);
      if s[0] != sep {
        var r := Split(s, sep);
        assert r[1..] == rest[1..];
        if |rest| > 1 {
          assert Join(rest, sep) == rest[0] + [sep] + Join(rest[1..], sep);
        }
      }
    }
  }

  /** A field with no separator in it, followed by the separator, splits off as one field. */
  lemma {:induction false} SplitField(field: string, sep: char, rest: string)
    requires sep !in field
    ensures Split(field + [sep] + rest, sep) == [field] + Split(rest, sep)
  {
    if field == [] {
      assert [] + [sep] + rest == [sep] + rest;
      assert ([sep] + rest)[1..] == rest;
    } else {
      assert (field + [sep] + rest)[1..] == field[1..] + [sep] + rest;
      SplitField(field[1..], sep, rest);
      assert [field[0]] + field[1..] == field;
    }
  }

  /** A separator-free string is a single field. */
  lemma {:induction false} SplitNoSeparator(s: string, sep: char)
    requires sep !in s
    ensures Split(s, sep) == [s]
  {
    if s != [] {
      SplitNoSeparator(s[1..], sep);
      assert [s[0]] + s[1..] == s;
    }
  }

  /** Splitting a join of separator-free fields gives back the fields. */
  lemma {:induction false} SplitOfJoin(parts: seq<string>, sep: char)
    requires |parts| >= 1
    requires forall i :: 0 <= i < |parts| ==> sep !in parts[i]
    ensures Split(Join(parts, sep), sep) == parts
  {
    if |parts| == 1 {
      SplitNoSeparator(parts[0], sep);
    } else {
      SplitOfJoin(parts[1..], sep);
      SplitField(parts[0], sep, Join(parts[1..], sep));
      assert [parts[0]] + parts[1..] == parts;
    }
  }

  // ---------------------------------------------------------------------------
  // trim

  /**
   * ECMAScript WhiteSpace and LineTerminator code points: TAB, VT, FF, SP,
   * NBSP, ZWNBSP, the other Unicode space separators (category Zs), LF, CR,
   * LINE SEPARATOR and PARAGRAPH SEPARATOR.
   */
  const JsWhitespace: set<char> := {
    '\t', '\U{B}', '\U{C}', ' ', '\U{A0}', '\U{FEFF}', '\U{1680}',
    '\U{2000}', '\U{2001}', '\U{2002}', '\U{2003}', '\U{2004}', '\U{2005}',
    '\U{2006}', '\U{2007}', '\U{2008}', '\U{2009}', '\U{200A}',
    '\U{202F}', '\U{205F}', '\U{3000}',
    '\n', '\r', '\U{2028}', '\U{2029}'
  }

  predicate IsJsWhitespace(c: char) {
    c in JsWhitespace
  }

  /** How many whitespace characters s starts with. */
  function LeadingSpace(s: string): (k: nat)
    ensures k <= |s|
    ensures forall i :: 0 <= i < k ==> IsJsWhitespace(s[i])
    ensures k == |s| || !IsJsWhitespace(s[k])
  {
    if s == [] || !IsJsWhitespace(s[0]) then 0 else 1 + LeadingSpace(s[1..])
  }

  /** Where the whitespace s ends with begins. */
  function TrailingSpace(s: string): (k: nat)
    ensures k <= |s|
    ensures forall i :: k <= i < |s| ==> IsJsWhitespace(s[i])
    ensures k == 0 || !IsJsWhitespace(s[k - 1])
  {
    if s == [] || !IsJsWhitespace(s[|s| - 1]) then |s| else TrailingSpace(s[..|s| - 1])
  }

  /** `s.trim()`: the leading whitespace is dropped, then the trailing whitespace. */
  function Trim(s: string): string {
    var t := s[LeadingSpace(s)..];
    t[..TrailingSpace(t)]
  }

  /**
   * What trim keeps: the piece of s that starts after the leading whitespace;
   * everything around it is whitespace, and it neither starts nor ends with
   * whitespace.
   */
  lemma TrimIsCore(s: string)
    ensures var lo, r := LeadingSpace(s), Trim(s);
      && lo + |r| <= |s| && r == s[lo..lo + |r|]
      && (forall i :: 0 <= i < lo ==> IsJsWhitespace(s[i]))
      && (forall i :: lo + |r| <= i < |s| ==> IsJsWhitespace(s[i]))
      && (r == [] || (!IsJsWhitespace(r[0]) && !IsJsWhitespace(r[|r| - 1])))
  {
  }

  /** A string trims to the empty string exactly when it is all whitespace (the blank entries). */
  lemma TrimBlank(s: string)
    ensures Trim(s) == [] <==> forall i :: 0 <= i < |s| ==> IsJsWhitespace(s[i])
  {
  }
}
