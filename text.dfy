/**
 * The two Python string operations the request router relies on:
 * `str.lower()` for the model choice and `str.split(',')[-1]` for stripping a
 * data-URL header ("data:image/jpeg;base64,") from the image payload.
 */
module Text {

  /** The KELVIN SIGN, which Python lower-cases to the ASCII letter 'k'. */
  const KELVIN: char := '\U{212A}'

  /**
   * One character of Python's `str.lower()`, for the ASCII and Latin-1
   * upper-case letters and the Kelvin sign; other characters are kept.
   */
  function LowerChar(c: char): char
  {
    if 'A' <= c <= 'Z' || ('À' <= c <= 'Þ' && c != '×') then
      (c as int + 32) as char
    else if c == KELVIN then
      'k'
    else
      c
  }

  /** Python's `s.lower()`, character by character. */
  function Lower(s: string): (r: string)
    ensures |r| == |s|
    ensures forall i :: 0 <= i < |s| ==> r[i] == LowerChar(s[i])
  {
    if s == [] then [] else [LowerChar(s[0])] + Lower(s[1..])
  }

  /** `w` consists of lower-case ASCII letters only. */
  predicate IsLowerWord(w: string)
  {
    forall i :: 0 <= i < |w| ==> 'a' <= w[i] <= 'z'
  }

  /** The upper-case ASCII partner of a lower-case ASCII letter. */
  function UpperAscii(c: char): char
    requires 'a' <= c <= 'z'
  {
    (c as int - 32) as char
  }

  /** `c` is the letter `w` in either case, or the Kelvin sign when `w` is 'k'. */
  predicate SpellsLetter(c: char, w: char)
    requires 'a' <= w <= 'z'
  {
    c == w || c == UpperAscii(w) || (w == 'k' && c == KELVIN)
  }

  /** Under `LowerChar`, a character lower-cases to a lower-case ASCII letter exactly when it spells that letter. */
  lemma LowerCharToLetter(c: char, w: char)
    requires 'a' <= w <= 'z'
    ensures LowerChar(c) == w <==> SpellsLetter(c, w)
  {
  }

  /**
   * `Lower(t) == w`, for a lower-case ASCII word `w`, holds exactly when `t`
   * spells `w` letter by letter ("SVM", "Svm", "svm", "sVm", ...); for a word
   * without 'k', such as "svm" or "xgboost", that means in ASCII letters of either case.
   */
  lemma LowerMatchesWord(t: string, w: string)
    requires IsLowerWord(w)
    ensures Lower(t) == w <==>
              |t| == |w| && forall i :: 0 <= i < |t| ==> SpellsLetter(t[i], w[i])
  {
    if |t| == |w| {
      forall i | 0 <= i < |t|
        ensures Lower(t)[i] == w[i] <==> SpellsLetter(t[i], w[i])
      {
        LowerCharToLetter(t[i], w[i]);
      }
    }
  }

  /**
   * Python's `s.split(sep)` with an explicit one-character separator: every
   * occurrence of `sep` ends a field, so the result always has one more field
   * than `s` has separators, and "" splits into [""].
   */
  function Split(s: string, sep: char): (parts: seq<string>)
    ensures |parts| >= 1
  {
    if s == [] then [[]]
    else
      var rest := Split(s[1..], sep);
      if s[0] == sep then [[]] + rest else [[s[0]] + rest[0]] + rest[1..]
  }

  /** Python's `sep.join(parts)`. */
  function Join(parts: seq<string>, sep: char): string
  {
    if |parts| == 0 then []
    else if |parts| == 1 then parts[0]
    else parts[0] + [sep] + Join(parts[1..], sep)
  }

  /** Joining the fields of a split with the same separator gives back the original string. */
  lemma {:induction false} SplitJoin(s: string, sep: char)
    ensures Join(Split(s, sep), sep) == s
  {
    if s != [] {
      var rest := Split(s[1..], sep);
      SplitJoin(s[1..], sep);
      if s[0] == sep {
        assert Split(s, sep) == [[]] + rest;
        assert ([[]] + rest)[1..] == rest;
      } else {
        var p := [[s[0]] + rest[0]] + rest[1..];
        assert Split(s, sep) == p;
        if |rest| == 1 {
          assert Join(rest, sep) == rest[0];
        } else {
          assert p[1..] == rest[1..];
          assert Join(rest, sep) == rest[0] + [sep] + Join(rest[1..], sep);
        }
      }
    }
  }

  /** No field of a split contains the separator. */
  lemma {:induction false} SplitFieldsFree(s: string, sep: char)
    ensures forall k :: 0 <= k < |Split(s, sep)| ==> sep !in Split(s, sep)[k]
  {
    if s != [] {
      SplitFieldsFree(s[1..], sep);
      var rest := Split(s[1..], sep);
      if s[0] != sep {
        assert sep !in rest[0];
        assert sep !in [s[0]] + rest[0];
      }
    }
  }

  /** A string splits into a single field exactly when it holds no separator, and that field is the string. */
  lemma {:induction false} SplitSingle(s: string, sep: char)
    ensures |Split(s, sep)| == 1 <==> sep !in s
    ensures sep !in s ==> Split(s, sep) == [s]
  {
    if s != [] {
      SplitSingle(s[1..], sep);
      assert s == [s[0]] + s[1..];
    }
  }

  /**
   * The last field of a split is a suffix of the string, holds no separator, and
   * is either the whole string (one field) or is preceded by a separator.
   */
  lemma {:induction false} SplitLast(s: string, sep: char)
    ensures var p := Split(s, sep); var l := p[|p| - 1];
      |l| <= |s| && s[|s| - |l|..] == l && sep !in l &&
      (|p| == 1 ==> l == s) &&
      (|p| > 1 ==> |l| < |s| && s[|s| - |l| - 1] == sep)
  {
    if s != [] {
      SplitLast(s[1..], sep);
      SplitFieldsFree(s, sep);
      var rest := Split(s[1..], sep);
      var t := s[1..];
      var lr := rest[|rest| - 1];
      assert t[|t| - |lr|..] == lr;
      assert s[|s| - |lr|..] == lr;
      if s[0] == sep {
        assert Split(s, sep) == [[]] + rest;
        if |rest| == 1 {
          assert lr == t;
          assert s[|s| - |lr| - 1] == s[0];
        } else {
          assert s[|s| - |lr| - 1] == t[|t| - |lr| - 1];
        }
      } else {
        assert Split(s, sep) == [[s[0]] + rest[0]] + rest[1..];
        if |rest| == 1 {
          assert lr == t && rest[0] == t;
          assert [s[0]] + t == s;
        } else {
          assert s[|s| - |lr| - 1] == t[|t| - |lr| - 1];
        }
      }
    }
  }

  /** `u` is a suffix of `s`. */
  predicate IsSuffix(u: string, s: string)
  {
    |u| <= |s| && s[|s| - |u|..] == u
  }

  /** `s.split(',')[-1]`: the payload after a data-URL header. */
  function StripHeader(s: string): string
  {
    var parts := Split(s, ',');
    parts[|parts| - 1]
  }

  /**
   * The stripped payload is the longest comma-free suffix of the string: a
   * suffix with no comma that is the whole string when it has no comma, and is
   * preceded by a comma (the last one) otherwise.
   */
  lemma StripHeaderSpec(s: string)
    ensures IsSuffix(StripHeader(s), s)
    ensures ',' !in StripHeader(s)
    ensures ',' !in s ==> StripHeader(s) == s
    ensures ',' in s ==> s[|s| - |StripHeader(s)| - 1] == ','
  {
    SplitLast(s, ',');
    SplitSingle(s, ',');
  }
}
