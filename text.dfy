/** String helpers shared by the weather tool and the preference tools:
    ASCII upper-casing (Python's `str.upper` restricted to ASCII letters),
    `sep.join(parts)`, and substring occurrence. */
module Text {

  /** Upper-cases an ASCII lower-case letter; every other character is kept. */
  function UpperChar(c: char): (u: char)
    ensures 'a' <= c <= 'z' ==> 'A' <= u <= 'Z' && u as int == c as int - 32
    ensures !('a' <= c <= 'z') ==> u == c
  {
    if 'a' <= c <= 'z' then (c as int - 32) as char else c
  }

  /** `s.upper()` for ASCII text: the same length, each character upper-cased. */
  function Upper(s: string): (r: string)
    ensures |r| == |s|
    ensures forall i :: 0 <= i < |s| ==> r[i] == UpperChar(s[i])
  {
    if s == [] then [] else [UpperChar(s[0])] + Upper(s[1..])
  }

  /** Upper-casing twice is the same as upper-casing once. */
  lemma {:induction false} UpperIdempotent(s: string)
    ensures Upper(Upper(s)) == Upper(s)
  {
    var u := Upper(s);
    assert forall i :: 0 <= i < |u| ==> UpperChar(u[i]) == u[i];
  }

  /** Exactly the one-letter strings "f" and "F" upper-case to "F". */
  lemma {:induction false} UpperIsF(s: string)
    ensures Upper(s) == "F" <==> s == "f" || s == "F"
  {
    if Upper(s) == "F" {
      assert |s| == 1 && UpperChar(s[0]) == 'F';
    }
    if s == "f" || s == "F" {
      assert |Upper(s)| == 1 && Upper(s)[0] == 'F';
    }
  }

  /** Python's `sep.join(parts)`: the parts in order, `sep` between neighbours. */
  function Join(parts: seq<string>, sep: string): (r: string)
    ensures parts == [] ==> r == []
    ensures |parts| == 1 ==> r == parts[0]
  {
    if parts == [] then []
    else if |parts| == 1 then parts[0]
    else parts[0] + sep + Join(parts[1..], sep)
  }

  /** Joining one more part at the end adds the separator and that part
      after the earlier text: the parts appear in list order. */
  lemma {:induction false} JoinSnoc(parts: seq<string>, sep: string, last: string)
    requires parts != []
    ensures Join(parts + [last], sep) == Join(parts, sep) + sep + last
  {
    var longer := parts + [last];
    if |parts| == 1 {
      assert longer[1..] == [last];
    } else {
      assert longer[1..] == parts[1..] + [last];
      JoinSnoc(parts[1..], sep, last);
    }
  }

  /** `part` occurs in `s` starting at index `at`. */
  predicate OccursAt(s: string, part: string, at: nat) {
    at + |part| <= |s| && s[at..at + |part|] == part
  }

  /** `s.endswith(suffix)`. */
  predicate EndsWith(s: string, suffix: string) {
    |suffix| <= |s| && s[|s| - |suffix|..] == suffix
  }

  /** `part in s`, Python's substring test. */
  predicate Contains(s: string, part: string) {
    exists at: nat | at <= |s| :: OccursAt(s, part, at)
  }

  /** An occurrence survives having text put in front of it. */
  lemma OccursAfterPrefix(prefix: string, s: string, part: string, at: nat)
    requires OccursAt(s, part, at)
    ensures OccursAt(prefix + s, part, |prefix| + at)
  {
    assert (prefix + s)[|prefix| + at..|prefix| + at + |part|] == s[at..at + |part|];
  }

  /** An occurrence survives having text appended after it. */
  lemma OccursBeforeSuffix(s: string, suffix: string, part: string, at: nat)
    requires OccursAt(s, part, at)
    ensures OccursAt(s + suffix, part, at)
  {
    assert (s + suffix)[at..at + |part|] == s[at..at + |part|];
  }

  /** Every part of a joined list occurs in the joined text. */
  lemma {:induction false} JoinContainsPart(parts: seq<string>, sep: string, i: nat)
    requires i < |parts|
    ensures Contains(Join(parts, sep), parts[i])
  {
    if |parts| == 1 {
      assert OccursAt(Join(parts, sep), parts[i], 0);
    } else if i == 0 {
      var rest := sep + Join(parts[1..], sep);
      assert Join(parts, sep) == parts[0] + rest;
      assert OccursAt(parts[0], parts[0], 0);
      OccursBeforeSuffix(parts[0], rest, parts[0], 0);
    } else {
      JoinContainsPart(parts[1..], sep, i - 1);
      var at: nat :| OccursAt(Join(parts[1..], sep), parts[i], at);
      OccursAfterPrefix(parts[0] + sep, Join(parts[1..], sep), parts[i], at);
    }
  }
}
