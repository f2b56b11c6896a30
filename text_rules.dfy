/** Character-level rules shared by the two text normalisers of the
    repository (the description cleaner of the ingestion step and the
    preprocessor of the transaction classifier).  Both first lower-case a
    string and then delete every character outside a character class, which
    is what `re.sub(r'[^...]', '', text.lower())` does.  Only ASCII
    case mapping is modelled. */
module TextRules {
  import opened Common

  predicate IsUpper(c: char) { 'A' <= c <= 'Z' }

  predicate IsLowerLetter(c: char) { 'a' <= c <= 'z' }

  predicate IsDigit(c: char) { '0' <= c <= '9' }

  /** The ASCII characters for which Python's `str.isspace` holds, which is
      what `\s` matches in a `str` pattern: tab, line feed, vertical tab,
      form feed, carriage return, the four separators 0x1C-0x1F, and space. */
  predicate IsSpace(c: char): (b: bool)
    ensures b ==> !IsUpper(c) && !IsLowerLetter(c) && !IsDigit(c)
    ensures b <==> c in "\t\n\U{B}\U{C}\r\U{1C}\U{1D}\U{1E}\U{1F} "
  {
    9 <= c as int <= 13 || 28 <= c as int <= 32
  }

  /** `str.lower` on one character, for the ASCII range. */
  function LowerChar(c: char): (d: char)
    ensures !IsUpper(d)
    ensures !IsUpper(c) ==> d == c
    ensures IsUpper(c) ==> d as int == c as int + 32
  {
    if IsUpper(c) then (c as int + 32) as char else c
  }

  /** `str.lower` on a string: position by position, same length. */
  function Lower(s: string): (r: string)
    ensures |r| == |s|
    ensures forall i :: 0 <= i < |s| ==> r[i] == LowerChar(s[i])
  {
    if s == [] then [] else [LowerChar(s[0])] + Lower(s[1..])
  }

  /** How many characters of `s` the class `keep` admits. */
  function CountKept(s: string, keep: char -> bool): nat {
    if s == [] then 0
    else (if keep(s[0]) then 1 else 0) + CountKept(s[1..], keep)
  }

  /** `re.sub('[^K]', '', s)` for a character class K given as `keep`:
      the result holds only admitted characters, in their original order,
      and all of them. */
  function Filter(s: string, keep: char -> bool): (r: string)
    ensures forall i :: 0 <= i < |r| ==> keep(r[i])
    ensures IsSubsequence(r, s)
    ensures |r| == CountKept(s, keep) <= |s|
  {
    if s == [] then []
    else if keep(s[0]) then
      var rest := Filter(s[1..], keep);
      assert ([s[0]] + rest)[1..] == rest;
      [s[0]] + rest
    else Filter(s[1..], keep)
  }

  /** A subsequence made only of admitted characters is never longer than
      the number of admitted characters. */
  lemma {:induction false} KeptSubsequenceBound(r: string, s: string, keep: char -> bool)
    requires IsSubsequence(r, s)
    requires forall i :: 0 <= i < |r| ==> keep(r[i])
    ensures |r| <= CountKept(s, keep)
    decreases |s|
  {
    if r != [] {
      if r[0] == s[0] && IsSubsequence(r[1..], s[1..]) {
        KeptSubsequenceBound(r[1..], s[1..], keep);
      } else {
        KeptSubsequenceBound(r, s[1..], keep);
      }
    }
  }

  /** Filter is characterised without reference to its definition: the only
      subsequence of `s` that consists of admitted characters and has as many
      of them as `s` has is `Filter(s, keep)`. */
  lemma {:induction false} FilterUnique(r: string, s: string, keep: char -> bool)
    requires IsSubsequence(r, s)
    requires forall i :: 0 <= i < |r| ==> keep(r[i])
    requires |r| == CountKept(s, keep)
    ensures r == Filter(s, keep)
    decreases |s|
  {
    if s != [] {
      if keep(s[0]) {
        if r != [] && r[0] == s[0] && IsSubsequence(r[1..], s[1..]) {
          FilterUnique(r[1..], s[1..], keep);
        } else {
          assert r != [];
          KeptSubsequenceBound(r, s[1..], keep);
        }
      } else {
        if r != [] {
          assert keep(r[0]) && r[0] != s[0];
          FilterUnique(r, s[1..], keep);
        }
      }
    }
  }

  /** A string made only of admitted characters passes the filter unchanged. */
  lemma {:induction false} FilterKeepsAdmitted(s: string, keep: char -> bool)
    requires forall i :: 0 <= i < |s| ==> keep(s[i])
    ensures Filter(s, keep) == s
  {
    if s != [] {
      FilterKeepsAdmitted(s[1..], keep);
    }
  }

  /** The filter is idempotent. */
  lemma FilterIdempotent(s: string, keep: char -> bool)
    ensures Filter(Filter(s, keep), keep) == Filter(s, keep)
  {
    FilterKeepsAdmitted(Filter(s, keep), keep);
  }

  /** Lower-casing leaves a string without upper-case letters unchanged. */
  lemma LowerKeepsLowered(s: string)
    requires forall i :: 0 <= i < |s| ==> !IsUpper(s[i])
    ensures Lower(s) == s
  {
  }

  /** Lower-case, then filter: the shape of both normalisers. */
  function Normalise(s: string, keep: char -> bool): string {
    Filter(Lower(s), keep)
  }

  /** What a normaliser produces: admitted characters only, no upper-case
      letter, in the order of the lower-cased input, and every admitted
      character of it. */
  lemma NormaliseShape(s: string, keep: char -> bool)
    ensures var r := Normalise(s, keep);
      && (forall i :: 0 <= i < |r| ==> keep(r[i]) && !IsUpper(r[i]))
      && IsSubsequence(r, Lower(s))
      && |r| == CountKept(Lower(s), keep) <= |s|
  {
    var r := Normalise(s, keep);
    SubsequenceElements(r, Lower(s));
    forall i | 0 <= i < |r| ensures !IsUpper(r[i]) {
      assert r[i] in Lower(s);
    }
  }

  /** Normalising twice is normalising once. */
  lemma NormaliseIdempotent(s: string, keep: char -> bool)
    ensures Normalise(Normalise(s, keep), keep) == Normalise(s, keep)
  {
    var r := Normalise(s, keep);
    NormaliseShape(s, keep);
    LowerKeepsLowered(r);
    FilterKeepsAdmitted(r, keep);
  }
}
