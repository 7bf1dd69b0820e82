/** The rules for texts and addresses, told with the whitespace characters written out: what Python's
    `str.strip()` removes and its `\s` matches. */
module TextRules {
  import opened Validation

  const WHITESPACE := "\t\n\U{0B}\U{0C}\r\U{1C}\U{1D}\U{1E}\U{1F} \U{85}\U{A0}\U{1680}"
    + "\U{2000}\U{2001}\U{2002}\U{2003}\U{2004}\U{2005}\U{2006}\U{2007}\U{2008}\U{2009}\U{200A}"
    + "\U{2028}\U{2029}\U{202F}\U{205F}\U{3000}"

  predicate Blank(s: string) {
    forall c | c in s :: c in WHITESPACE
  }

  /** Neither end is whitespace. */
  predicate Bounded(s: string) {
    s != "" && s[0] !in WHITESPACE && s[|s| - 1] !in WHITESPACE
  }

  lemma SpaceIsWritten(c: char)
    ensures IsSpace(c) <==> c in WHITESPACE
  {
    var n := c as int;
    if IsSpace(c) {
      var k := if n <= 0x0D then n - 0x09 else if n <= 0x20 then n - 0x1C + 5
               else if n == 0x85 then 10 else if n == 0xA0 then 11 else if n == 0x1680 then 12
               else if n <= 0x200A then n - 0x2000 + 13 else if n <= 0x2029 then n - 0x2028 + 24
               else if n == 0x202F then 26 else if n == 0x205F then 27 else 28;
      assert |WHITESPACE| == 29;
      assert WHITESPACE[k] == c;
    }
  }

  lemma AllSpaceIsBlank(s: string)
    ensures AllSpace(s) <==> Blank(s)
  {
    hide IsSpace;
    forall c
      ensures IsSpace(c) <==> c in WHITESPACE
    {
      SpaceIsWritten(c);
    }
  }

  lemma TrimmedIsBounded(s: string)
    requires s != ""
    ensures Trimmed(s) <==> Bounded(s)
  {
    hide IsSpace;
    SpaceIsWritten(s[0]);
    SpaceIsWritten(s[|s| - 1]);
  }

  // ---- texts -------------------------------------------------------------------------------

  /** Every string is blank, or has one core with whitespace around it. */
  lemma CoreExists(value: string) returns (before: string, core: string, after: string)
    ensures value == before + core + after && Blank(before) && Blank(after)
    ensures if Blank(value) then core == "" else Bounded(core)
  {
    hide IsSpace;
    before, after := StripDecomposes(value);
    core := Strip(value);
    AllSpaceIsBlank(before);
    AllSpaceIsBlank(after);
    if core != "" {
      TrimmedIsBounded(core);
      assert core[0] in value;
    }
    hide Blank, Bounded;
    if core == "" { BlankJoins(before, after); }
  }

  lemma BlankJoins(a: string, b: string)
    requires Blank(a) && Blank(b)
    ensures Blank(a + "" + b)
  {
  }

  /** A text of nothing but whitespace is refused, whatever the limit. */
  lemma BlankIsRefused(value: string, limit: nat)
    requires Blank(value)
    ensures Clean(value, limit).None? && CleanEmail(value).None?
  {
    hide IsSpace, Strip, Blank, Bounded;
    StripOfBlank(value);
  }

  lemma StripOfBlank(value: string)
    requires Blank(value)
    ensures Strip(value) == ""
  {
    hide IsSpace, Strip;
    var before, after := StripDecomposes(value);
    FirstIsInside(before, Strip(value), after);
    if Strip(value) != "" { TrimmedIsBounded(Strip(value)); }
  }

  lemma FirstIsInside(before: string, core: string, after: string)
    ensures core != "" ==> core[0] in before + core + after
  {
    if core != "" { assert (before + core + after)[|before|] == core[0]; }
  }

  /** Of any other text exactly the core is kept, if it is within the limit, and cut nowhere. */
  lemma CoreIsKept(before: string, core: string, after: string, limit: nat)
    requires Blank(before) && Blank(after) && Bounded(core)
    ensures Clean(before + core + after, limit) == if |core| <= limit then Some(core) else None
  {
    hide IsSpace, Strip, Blank;
    AllSpaceIsBlank(before);
    AllSpaceIsBlank(after);
    TrimmedIsBounded(core);
    StripIsTheCore(before, core, after);
  }

  // ---- addresses ---------------------------------------------------------------------------

  /** No whitespace, one '@' that is not the first character, and a '.' strictly inside what
      follows it. */
  ghost predicate IsAddress(s: string) {
    && (forall c | c in s :: c !in WHITESPACE)
    && exists at: nat, dot: nat ::
         && 0 < at && at + 1 < dot < |s| - 1 && s[at] == '@' && s[dot] == '.'
         && forall i | 0 <= i < |s| && s[i] == '@' :: i == at
  }

  lemma IsAddressExactly(s: string)
    requires Bounded(s)
    ensures ValidEmail(s) <==> IsAddress(s)
  {
    hide IsSpace, ValidEmail;
    TrimmedIsBounded(s);
    EmailExactly(s);
    forall c
      ensures IsSpace(c) <==> c in WHITESPACE
    {
      SpaceIsWritten(c);
    }
    if at: nat, dot: nat :| Shape(s, at, dot) {
      assert s[at] == '@' && s[dot] == '.';
    }
    if IsAddress(s) {
      var at: nat, dot: nat :| && 0 < at && at + 1 < dot < |s| - 1 && s[at] == '@' && s[dot] == '.'
                               && forall i | 0 <= i < |s| && s[i] == '@' :: i == at;
      assert Shape(s, at, dot);
    }
  }

  /** An address is kept exactly as its core, and anything else is refused. */
  lemma AddressIsKept(before: string, core: string, after: string)
    requires Blank(before) && Blank(after) && Bounded(core)
    ensures CleanEmail(before + core + after) == if |core| <= 100 && IsAddress(core) then Some(core) else None
  {
    hide IsSpace, Strip, Blank, ValidEmail, IsAddress;
    CoreIsKept(before, core, after, 100);
    IsAddressExactly(core);
  }
}
