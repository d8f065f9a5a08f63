/** `String.capitalizeFirstLetter` (Extensions.swift): the first character upper-cased, the
    rest lower-cased. Modelled for ASCII text only, where case mapping is one character to one. */
module Extensions {

  predicate IsAscii(c: char) {
    c as int < 128
  }

  predicate IsAsciiString(s: string) {
    forall i :: 0 <= i < |s| ==> IsAscii(s[i])
  }

  predicate IsUpperAscii(c: char) {
    'A' <= c <= 'Z'
  }

  predicate IsLowerAscii(c: char) {
    'a' <= c <= 'z'
  }

  function LowerChar(c: char): (r: char)
    ensures IsAscii(c) ==> IsAscii(r)
    ensures !IsUpperAscii(r)
    ensures IsUpperAscii(c) || r == c
  {
    if IsUpperAscii(c) then (c as int + 32) as char else c
  }

  function UpperChar(c: char): (r: char)
    ensures IsAscii(c) ==> IsAscii(r)
    ensures !IsLowerAscii(r)
    ensures IsLowerAscii(c) || r == c
  {
    if IsLowerAscii(c) then (c as int - 32) as char else c
  }

  /** Upper- and lower-casing a character forget whichever case it had. */
  lemma CaseOfCaseMapping(c: char)
    ensures UpperChar(LowerChar(c)) == UpperChar(c)
    ensures LowerChar(UpperChar(c)) == LowerChar(c)
    ensures LowerChar(LowerChar(c)) == LowerChar(c)
    ensures UpperChar(UpperChar(c)) == UpperChar(c)
  {
  }

  /** Every character of an ASCII string lower-cased. */
  function Lowercased(s: string): (r: string)
    requires IsAsciiString(s)
    ensures |r| == |s|
    ensures IsAsciiString(r)
    ensures forall i :: 0 <= i < |s| ==> r[i] == LowerChar(s[i])
  {
    if s == [] then [] else [LowerChar(s[0])] + Lowercased(s[1..])
  }

  /** Every character of an ASCII string upper-cased. */
  function Uppercased(s: string): (r: string)
    requires IsAsciiString(s)
    ensures |r| == |s|
    ensures IsAsciiString(r)
    ensures forall i :: 0 <= i < |s| ==> r[i] == UpperChar(s[i])
  {
    if s == [] then [] else [UpperChar(s[0])] + Uppercased(s[1..])
  }

  /** `prefix(n)`: at most the first `n` characters. */
  function Prefix(s: string, n: nat): string {
    if |s| <= n then s else s[..n]
  }

  /** `dropFirst()`: all but the first character; nothing for the empty string. */
  function DropFirst(s: string): string {
    if s == [] then [] else s[1..]
  }

  /** `self.prefix(1).uppercased() + self.lowercased().dropFirst()`. */
  function CapitalizeFirstLetter(s: string): (r: string)
    requires IsAsciiString(s)
    ensures |r| == |s|
    ensures |s| > 0 ==> r[0] == UpperChar(s[0])
    ensures forall i :: 1 <= i < |s| ==> r[i] == LowerChar(s[i])
    ensures IsAsciiString(r)
  {
    Uppercased(Prefix(s, 1)) + DropFirst(Lowercased(s))
  }

  lemma CapitalizeEmpty()
    ensures CapitalizeFirstLetter("") == ""
  {
  }

  /** Capitalizing twice is capitalizing once. */
  lemma CapitalizeIdempotent(s: string)
    requires IsAsciiString(s)
    ensures CapitalizeFirstLetter(CapitalizeFirstLetter(s)) == CapitalizeFirstLetter(s)
  {
    var c := CapitalizeFirstLetter(s);
    var cc := CapitalizeFirstLetter(c);
    forall i | 0 <= i < |s|
      ensures cc[i] == c[i]
    {
      CaseOfCaseMapping(s[i]);
    }
  }

  /** The result does not depend on the case of the input. */
  lemma CapitalizeIgnoresCase(s: string)
    requires IsAsciiString(s)
    ensures IsAsciiString(Lowercased(s))
    ensures CapitalizeFirstLetter(Lowercased(s)) == CapitalizeFirstLetter(s)
  {
    var l := Lowercased(s);
    var a := CapitalizeFirstLetter(s);
    var b := CapitalizeFirstLetter(l);
    forall i | 0 <= i < |s|
      ensures a[i] == b[i]
    {
      CaseOfCaseMapping(s[i]);
    }
  }

  lemma CapitalizeIgnoresUppercase(s: string)
    requires IsAsciiString(s)
    ensures IsAsciiString(Uppercased(s))
    ensures CapitalizeFirstLetter(Uppercased(s)) == CapitalizeFirstLetter(s)
  {
    var u := Uppercased(s);
    var a := CapitalizeFirstLetter(s);
    var b := CapitalizeFirstLetter(u);
    forall i | 0 <= i < |s|
      ensures a[i] == b[i]
    {
      CaseOfCaseMapping(s[i]);
    }
  }
}
