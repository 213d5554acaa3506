/** String operations the source relies on: str.lower(), str.startswith() and the `in` substring test. */
module Text {

  /** Lower-cases one character. Only the ASCII letters A-Z are mapped. */
  function LowerChar(c: char): (r: char)
    ensures 'A' <= c <= 'Z' ==> r as int == c as int + 32
    ensures !('A' <= c <= 'Z') ==> r == c
    ensures !('A' <= r <= 'Z')
  {
    if 'A' <= c <= 'Z' then (c as int + 32) as char else c
  }

  /** str.lower() on ASCII text. */
  function Lower(s: string): (r: string)
    ensures |r| == |s|
    ensures forall i :: 0 <= i < |s| ==> r[i] == LowerChar(s[i])
  {
    seq(|s|, i requires 0 <= i < |s| => LowerChar(s[i]))
  }

  lemma LowerIdempotent(s: string)
    ensures Lower(Lower(s)) == Lower(s)
  {
  }

  lemma LowerConcat(a: string, b: string)
    ensures Lower(a + b) == Lower(a) + Lower(b)
  {
  }

  /** s.startswith(p) */
  predicate StartsWith(s: string, p: string) {
    |p| <= |s| && s[..|p|] == p
  }

  /** The Python test `t in s` on strings. */
  predicate Contains(s: string, t: string) {
    exists i :: 0 <= i <= |s| - |t| && StartsWith(s[i..], t)
  }

  /** A string contains every string that is spliced into it. */
  lemma ContainsSpliced(a: string, t: string, b: string)
    ensures Contains(a + t + b, t)
  {
    assert StartsWith((a + t + b)[|a|..], t);
  }

  /** An occurrence of a string without spaces does not straddle a space. */
  lemma ContainsAroundSpace(a: string, b: string, t: string)
    requires Contains(a + " " + b, t)
    ensures Contains(a, t) || Contains(b, t) || ' ' in t
  {
    var s := a + " " + b;
    var i :| 0 <= i <= |s| - |t| && StartsWith(s[i..], t);
    if i + |t| <= |a| {
      assert a[i..][..|t|] == s[i..][..|t|];
      assert StartsWith(a[i..], t);
    } else if i > |a| {
      assert b[i - |a| - 1..][..|t|] == s[i..][..|t|];
      assert StartsWith(b[i - |a| - 1..], t);
    } else {
      assert t[|a| - i] == s[i..][..|t|][|a| - i] == ' ';
    }
  }

  /** An occurrence of a string of three or more characters starts with its first three characters. */
  lemma ContainsLeadingTriple(s: string, t: string)
    requires |t| >= 3 && Contains(s, t)
    ensures exists i :: 0 <= i < |s| - 2 && s[i] == t[0] && s[i + 1] == t[1] && s[i + 2] == t[2]
  {
    var i :| 0 <= i <= |s| - |t| && StartsWith(s[i..], t);
    assert s[i..][..|t|][0] == s[i] && s[i..][..|t|][1] == s[i + 1] && s[i..][..|t|][2] == s[i + 2];
  }

  /** A lowered word none of whose three-letter windows lowers to the start of t does not contain t. */
  lemma NotContainsLowerByTriple(w: string, t: string)
    requires |t| >= 3
    requires forall i :: 0 <= i < |w| - 2 ==>
      !(LowerChar(w[i]) == t[0] && LowerChar(w[i + 1]) == t[1] && LowerChar(w[i + 2]) == t[2])
    ensures !Contains(Lower(w), t)
  {
    if Contains(Lower(w), t) {
      ContainsLeadingTriple(Lower(w), t);
      assert false;
    }
  }

  /** Words joined by single spaces, as a sentence. */
  function JoinWords(ws: seq<string>): string
    decreases |ws|
  {
    if |ws| == 0 then "" else if |ws| == 1 then ws[0] else ws[0] + " " + JoinWords(ws[1..])
  }

  /** A lowered sentence contains a space-free string only if one of its lowered words does. */
  lemma {:induction false} NotContainsLowerJoin(ws: seq<string>, t: string)
    requires t != [] && ' ' !in t
    requires forall k :: 0 <= k < |ws| ==> !Contains(Lower(ws[k]), t)
    ensures !Contains(Lower(JoinWords(ws)), t)
    decreases |ws|
  {
    if |ws| == 0 {
      assert Lower(JoinWords(ws)) == [];
    } else if |ws| == 1 {
    } else {
      NotContainsLowerJoin(ws[1..], t);
      LowerConcat(ws[0] + " ", JoinWords(ws[1..]));
      LowerConcat(ws[0], " ");
      assert Lower(" ") == " ";
      if Contains(Lower(ws[0]) + " " + Lower(JoinWords(ws[1..])), t) {
        ContainsAroundSpace(Lower(ws[0]), Lower(JoinWords(ws[1..])), t);
        assert false;
      }
    }
  }
}
