/**
 * The parts of Ruby's String that the application relies on: `strip`,
 * `downcase`, and `gsub` with a one-character pattern. Only ASCII letters
 * change case; every other character is left as it is.
 */
module RubyString {

  /** The characters `strip` removes: NUL, tab, line feed, vertical tab,
      form feed, carriage return and space. */
  predicate IsWhitespace(c: char) {
    c == '\0' || c == '\t' || c == '\n' || c as int == 0x0B || c as int == 0x0C || c == '\r' || c == ' '
  }

  /** Every character of `t` is whitespace. */
  predicate AllWhitespace(t: string) {
    forall i :: 0 <= i < |t| ==> IsWhitespace(t[i])
  }

  predicate IsUpper(c: char) {
    'A' <= c <= 'Z'
  }

  /** String#lstrip: drops the leading whitespace and nothing else. */
  function LStrip(s: string): (r: string)
    ensures |r| <= |s| && r == s[|s| - |r|..]
    ensures AllWhitespace(s[..|s| - |r|])
    ensures r != [] ==> !IsWhitespace(r[0])
  {
    if s != [] && IsWhitespace(s[0]) then
      var r := LStrip(s[1..]);
      assert s[1..][..|s| - 1 - |r|] == s[1..|s| - |r|];
      r
    else s
  }

  /** String#rstrip: drops the trailing whitespace and nothing else. */
  function RStrip(s: string): (r: string)
    ensures |r| <= |s| && r == s[..|r|]
    ensures AllWhitespace(s[|r|..])
    ensures r != [] ==> !IsWhitespace(r[|r| - 1])
  {
    if s != [] && IsWhitespace(s[|s| - 1]) then
      var r := RStrip(s[..|s| - 1]);
      assert s[..|s| - 1][..|r|] == s[..|r|];
      assert s[|r|..] == s[..|s| - 1][|r|..] + [s[|s| - 1]];
      r
    else s
  }

  /** String#strip: `s` without its leading and trailing whitespace. */
  function Strip(s: string): (r: string)
    ensures |r| <= |s|
    ensures r == [] <==> AllWhitespace(s)
    ensures r != [] ==> !IsWhitespace(r[0]) && !IsWhitespace(r[|r| - 1])
  {
    var l := LStrip(s);
    var r := RStrip(l);
    StripSplits(s, |s| - |l|, l, r);
    r
  }

  /** `r` is `s` with some whitespace cut from its start and some from
      its end, and nothing else: a contiguous part of `s`. */
  predicate TrimmedFrom(s: string, r: string) {
    exists lead :: 0 <= lead <= |s| - |r| && AllWhitespace(s[..lead])
                   && s[lead..lead + |r|] == r && AllWhitespace(s[lead + |r|..])
  }

  /** What `strip` removes is whitespace before and after the result. */
  lemma StripCutsWhitespace(s: string)
    ensures TrimmedFrom(s, Strip(s))
  {
    var l := LStrip(s);
    var r := RStrip(l);
    CutWitness(s, |s| - |l|, l, r);
    assert Strip(s) == r;
  }

  lemma CutWitness(s: string, lead: nat, l: string, r: string)
    requires lead <= |s| && l == s[lead..] && AllWhitespace(s[..lead])
    requires |r| <= |l| && r == l[..|r|] && AllWhitespace(l[|r|..])
    ensures TrimmedFrom(s, r)
  {
    assert s[lead..lead + |r|] == r;
    assert s[lead + |r|..] == l[|r|..];
  }

  /** How `strip` cuts `s`: the whitespace before `lead`, the result, the whitespace after. */
  lemma StripSplits(s: string, lead: nat, l: string, r: string)
    requires lead <= |s| && l == s[lead..] && AllWhitespace(s[..lead])
    requires l != [] ==> !IsWhitespace(l[0])
    requires |r| <= |l| && r == l[..|r|] && AllWhitespace(l[|r|..])
    requires r != [] ==> !IsWhitespace(r[|r| - 1])
    ensures 0 <= lead <= |s| - |r| && AllWhitespace(s[..lead])
    ensures s[lead..lead + |r|] == r && AllWhitespace(s[lead + |r|..])
    ensures r == [] <==> AllWhitespace(s)
  {
    assert s[lead..] == l;
    assert s[lead..lead + |r|] == r;
    assert s[lead + |r|..] == l[|r|..];
    if r == [] {
      assert l[|r|..] == l;
      assert l == [];
      assert s[..lead] == s;
    } else {
      assert s[lead] == r[0];
    }
  }

  /** A string that neither starts nor ends with whitespace is left as it is. */
  lemma StripLeavesTrimmed(s: string)
    requires s != [] && !IsWhitespace(s[0]) && !IsWhitespace(s[|s| - 1])
    ensures Strip(s) == s
  {
    assert LStrip(s) == s;
    assert RStrip(s) == s;
  }

  /** Stripping twice removes nothing more than stripping once. */
  lemma {:induction false} StripIdempotent(s: string)
    ensures Strip(Strip(s)) == Strip(s)
  {
    var r := Strip(s);
    assert LStrip(r) == r;
    assert RStrip(r) == r;
  }

  /** The character `downcase` gives for `c`. */
  function DowncaseChar(c: char): char {
    if IsUpper(c) then (c as int + 32) as char else c
  }

  /** String#downcase on ASCII: every upper-case letter becomes its lower-case form. */
  function Downcase(s: string): (r: string)
    ensures |r| == |s|
    ensures forall i :: 0 <= i < |s| ==> r[i] == DowncaseChar(s[i])
  {
    if s == [] then [] else [DowncaseChar(s[0])] + Downcase(s[1..])
  }

  /** String#gsub(from, to) where both are one-character strings: every
      occurrence of `from` is replaced, one for one. */
  function GsubChar(s: string, from: char, to: char): (r: string)
    ensures |r| == |s|
    ensures forall i :: 0 <= i < |s| ==> r[i] == (if s[i] == from then to else s[i])
  {
    if s == [] then [] else [if s[0] == from then to else s[0]] + GsubChar(s[1..], from, to)
  }
}
