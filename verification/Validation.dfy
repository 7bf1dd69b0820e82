/** The string rules of the request models: trimming, blank and length checks, and the email
    pattern. Strings are sequences of Unicode scalar values, as Python's `str` is. */
module Validation {

  datatype Option<+T> = None | Some(value: T)

  const TITLE_MAX := 100
  const CONTENT_MAX := 1000
  const NAME_MAX := 50
  const EMAIL_MAX := 100
  const MAX_INT4 := 2_147_483_647

  /** The characters that `str.strip()` removes and that `\s` matches: both use Python's own
      Unicode whitespace table. */
  predicate IsSpace(c: char) {
    var n := c as int;
    || 0x09 <= n <= 0x0D
    || 0x1C <= n <= 0x20
    || n == 0x85 || n == 0xA0 || n == 0x1680
    || 0x2000 <= n <= 0x200A
    || n == 0x2028 || n == 0x2029 || n == 0x202F || n == 0x205F || n == 0x3000
  }

  predicate AllSpace(s: string) {
    forall c | c in s :: IsSpace(c)
  }

  /** No whitespace at either end. */
  predicate Trimmed(s: string) {
    s != "" ==> !IsSpace(s[0]) && !IsSpace(s[|s| - 1])
  }

  /** What validation lets through to a text column with the given limit. */
  predicate ValidText(s: string, limit: nat) {
    0 < |s| <= limit && Trimmed(s)
  }

  /** PostgreSQL holds every character in a text but U+0000, which validation lets through. */
  predicate Storable(s: string) {
    '\0' !in s
  }

  /** What the database may hold in a text column with the given limit. */
  predicate StoredText(s: string, limit: nat) {
    ValidText(s, limit) && Storable(s)
  }

  function StripLeft(s: string): string {
    if s != "" && IsSpace(s[0]) then StripLeft(s[1..]) else s
  }

  function StripRight(s: string): string {
    if s != "" && IsSpace(s[|s| - 1]) then StripRight(s[..|s| - 1]) else s
  }

  /** `str.strip()` */
  function Strip(s: string): string {
    StripRight(StripLeft(s))
  }

  lemma {:induction false} StripLeftDropsSpace(before: string, rest: string)
    requires AllSpace(before) && (rest == "" || !IsSpace(rest[0]))
    ensures StripLeft(before + rest) == rest
  {
    hide IsSpace;
    if before == "" {
      assert before + rest == rest;
    } else {
      assert (before + rest)[1..] == before[1..] + rest;
      StripLeftDropsSpace(before[1..], rest);
    }
  }

  lemma {:induction false} StripRightDropsSpace(rest: string, after: string)
    requires AllSpace(after) && (rest == "" || !IsSpace(rest[|rest| - 1]))
    ensures StripRight(rest + after) == rest
  {
    hide IsSpace;
    if after == "" {
      assert rest + after == rest;
    } else {
      var n := |after| - 1;
      assert (rest + after)[..|rest| + n] == rest + after[..n];
      StripRightDropsSpace(rest, after[..n]);
    }
  }

  /** Stripping finds the one trimmed core of a string: whatever way a string is cut into
      whitespace, a trimmed core and whitespace, a non-empty core is what `Strip` returns. */
  lemma StripIsTheCore(before: string, core: string, after: string)
    requires AllSpace(before) && AllSpace(after) && Trimmed(core) && core != ""
    ensures Strip(before + core + after) == core
  {
    hide IsSpace;
    assert before + core + after == before + (core + after);
    StripLeftDropsSpace(before, core + after);
    StripRightDropsSpace(core, after);
  }

  lemma {:induction false} StripLeftCuts(s: string) returns (before: string)
    ensures s == before + StripLeft(s) && AllSpace(before)
    ensures StripLeft(s) == "" || !IsSpace(StripLeft(s)[0])
  {
    hide IsSpace;
    if s != "" && IsSpace(s[0]) {
      before := StripLeftCuts(s[1..]);
      before := [s[0]] + before;
    } else {
      before := "";
    }
  }

  lemma {:induction false} StripRightCuts(s: string) returns (after: string)
    ensures s == StripRight(s) + after && AllSpace(after)
    ensures StripRight(s) == "" || !IsSpace(StripRight(s)[|StripRight(s)| - 1])
  {
    hide IsSpace;
    if s != "" && IsSpace(s[|s| - 1]) {
      after := StripRightCuts(s[..|s| - 1]);
      after := after + [s[|s| - 1]];
    } else {
      after := "";
    }
  }

  lemma StripDecomposes(s: string) returns (before: string, after: string)
    ensures s == before + Strip(s) + after
    ensures AllSpace(before) && AllSpace(after) && Trimmed(Strip(s))
  {
    hide IsSpace;
    before := StripLeftCuts(s);
    after := StripRightCuts(StripLeft(s));
    var r := Strip(s);
    assert r != "" ==> r[0] == StripLeft(s)[0];
  }

  /** `_clean`: the stripped value, or nothing where the source raises. */
  function Clean(value: string, limit: nat): Option<string> {
    var trimmed := Strip(value);
    if trimmed == "" then None
    else if |trimmed| > limit then None
    else Some(trimmed)
  }

  /** `_clean` accepts a value exactly when it is a valid text wrapped in whitespace, and then
      answers that text: what is stored is always valid, and nothing storable is refused. */
  lemma CleanExactly(value: string, limit: nat, text: string)
    ensures Clean(value, limit) == Some(text) <==>
            ValidText(text, limit) &&
            exists before, after :: AllSpace(before) && AllSpace(after) && value == before + text + after
  {
    hide IsSpace;
    var b, a := StripDecomposes(value);
    if Clean(value, limit) == Some(text) {
      assert value == b + text + a;
    }
    if ValidText(text, limit) {
      forall before, after | AllSpace(before) && AllSpace(after) && value == before + text + after
        ensures Clean(value, limit) == Some(text)
      {
        StripIsTheCore(before, text, after);
      }
    }
  }

  lemma ValidTextIsClean(text: string, limit: nat)
    requires ValidText(text, limit)
    ensures Clean(text, limit) == Some(text)
  {
    hide IsSpace;
    assert "" + text + "" == text;
    StripIsTheCore("", text, "");
  }

  /** Re-submitting a stored value stores the same value. */
  lemma CleanIdempotent(value: string, limit: nat)
    ensures Clean(value, limit).Some? ==>
              var text := Clean(value, limit).value;
              ValidText(text, limit) && Clean(text, limit) == Some(text)
  {
    hide IsSpace;
    if Clean(value, limit).Some? {
      var text := Clean(value, limit).value;
      CleanExactly(value, limit, text);
      ValidTextIsClean(text, limit);
    }
  }

  // ---- the email pattern -------------------------------------------------------------------

  /** The pieces of `^[^\s@]+@[^\s@]+\.[^\s@]+$`. As in Python, `$` also matches just before a
      final line feed. */
  datatype Piece = OneOrMore | Literal(c: char) | End

  const EMAIL: seq<Piece> := [OneOrMore, Literal('@'), OneOrMore, Literal('.'), OneOrMore, End]

  predicate InClass(c: char) {
    !IsSpace(c) && c != '@'
  }

  predicate AllInClass(s: string) {
    forall c | c in s :: InClass(c)
  }

  /** Backtracking match of a pattern at the start of a string. */
  predicate Matches(pattern: seq<Piece>, s: string)
    decreases |s|, |pattern|
  {
    if pattern == [] then true
    else match pattern[0]
      case End => s == "" || s == "\n"
      case Literal(c) => s != "" && s[0] == c && Matches(pattern[1..], s[1..])
      case OneOrMore =>
        && s != "" && InClass(s[0])
        && (Matches(pattern, s[1..]) || Matches(pattern[1..], s[1..]))
  }

  predicate ValidEmail(s: string) {
    Matches(EMAIL, s)
  }

  /** `_clean_email` */
  function CleanEmail(value: string): Option<string> {
    match Clean(value, EMAIL_MAX)
    case None => None
    case Some(trimmed) => if ValidEmail(trimmed) then Some(trimmed) else None
  }

  predicate Splits(rest: seq<Piece>, s: string, k: nat)
    requires k <= |s|
  {
    1 <= k && AllInClass(s[..k]) && Matches(rest, s[k..])
  }

  /** A repeated class matches iff some non-empty prefix is in the class and the rest matches. */
  lemma {:induction false} RepeatMatches(rest: seq<Piece>, s: string)
    ensures Matches([OneOrMore] + rest, s) <==> exists k: nat | k <= |s| :: Splits(rest, s, k)
    decreases |s|
  {
    hide IsSpace;
    var p := [OneOrMore] + rest;
    assert p[1..] == rest;
    if s != "" {
      var t := s[1..];
      RepeatMatches(rest, t);
      if Matches(p, s) {
        if Matches(rest, t) {
          assert Splits(rest, s, 1);
        } else {
          var k: nat :| k <= |t| && Splits(rest, t, k);
          assert s[..k + 1] == [s[0]] + t[..k] && s[k + 1..] == t[k..];
          assert Splits(rest, s, k + 1);
        }
      }
      forall k: nat | k <= |s| && Splits(rest, s, k)
        ensures Matches(p, s)
      {
        assert s[0] == s[..k][0];
        if k == 1 {
          assert s[1..] == t;
        } else {
          assert s[..k] == [s[0]] + t[..k - 1] && s[k..] == t[k - 1..];
          assert Splits(rest, t, k - 1);
        }
      }
    }
  }

  /** Where the one '@' of an address stands, with a '.' strictly inside what follows it. */
  predicate Shape(s: string, at: nat, dot: nat) {
    && 0 < at < |s| && s[at] == '@'
    && (forall i | 0 <= i < |s| :: s[i] == '@' ==> i == at)
    && at + 1 < dot < |s| - 1 && s[dot] == '.'
  }

  predicate NoSpace(s: string) {
    forall c | c in s :: !IsSpace(c)
  }

  lemma SuffixLast(s: string, k: nat)
    requires k <= |s|
    ensures k < |s| ==> s[k..][|s| - k - 1] == s[|s| - 1]
  {
  }

  lemma TailMatches(s: string)
    requires Trimmed(s)
    ensures Matches([OneOrMore, End], s) <==> s != "" && AllInClass(s)
  {
    assert [OneOrMore] + [End] == [OneOrMore, End];
    RepeatMatches([End], s);
    forall k: nat | k <= |s| && Splits([End], s, k)
      ensures AllInClass(s)
    {
      assert s == s[..k] + s[k..];
      SuffixLast(s, k);
    }
    if s != "" && AllInClass(s) {
      assert s[..|s|] == s;
      assert Splits([End], s, |s|);
    }
  }

  /** One literal character, then `rest`. */
  lemma LiteralSplits(c: char, rest: seq<Piece>, s: string, k: nat)
    requires k <= |s|
    ensures Splits([Literal(c)] + rest, s, k) <==>
            1 <= k < |s| && AllInClass(s[..k]) && s[k] == c && Matches(rest, s[k + 1..])
  {
    var p := [Literal(c)] + rest;
    assert p[1..] == rest;
    if k < |s| {
      assert s[k..][1..] == s[k + 1..];
    }
  }

  lemma SuffixTrimmed(s: string, k: nat)
    requires Trimmed(s) && k <= |s| && (k < |s| ==> !IsSpace(s[k]))
    ensures Trimmed(s[k..])
  {
  }

  lemma DomainMatches(s: string)
    requires Trimmed(s)
    ensures Matches([OneOrMore, Literal('.'), OneOrMore, End], s) <==>
            AllInClass(s) && exists dot :: 0 < dot < |s| - 1 && s[dot] == '.'
  {
    hide IsSpace;
    var rest := [Literal('.')] + [OneOrMore, End];
    assert [OneOrMore] + rest == [OneOrMore, Literal('.'), OneOrMore, End];
    RepeatMatches(rest, s);
    forall k: nat | k <= |s|
      ensures Splits(rest, s, k) <==> AllInClass(s) && 0 < k < |s| - 1 && s[k] == '.'
    {
      DomainSplits(s, k);
    }
  }

  lemma DomainSplits(s: string, k: nat)
    requires Trimmed(s) && k <= |s|
    ensures Splits([Literal('.')] + [OneOrMore, End], s, k) <==>
            AllInClass(s) && 0 < k < |s| - 1 && s[k] == '.'
  {
    assert !IsSpace('.');
    hide IsSpace;
    LiteralSplits('.', [OneOrMore, End], s, k);
    if k < |s| {
      var tail := s[k + 1..];
      assert s == s[..k] + [s[k]] + tail;
      if tail != "" && InClass(tail[0]) {
        SuffixTrimmed(s, k + 1);
        TailMatches(tail);
      }
    }
  }

  const DOMAIN: seq<Piece> := [OneOrMore, Literal('.'), OneOrMore, End]

  lemma MatchedAddress(s: string, k: nat) returns (dot: nat)
    requires Trimmed(s) && k <= |s| && Splits([Literal('@')] + DOMAIN, s, k)
    ensures NoSpace(s) && Shape(s, k, dot)
  {
    assert !IsSpace('@');
    hide IsSpace;
    LiteralSplits('@', DOMAIN, s, k);
    var tail := s[k + 1..];
    SuffixTrimmed(s, k + 1);
    DomainMatches(tail);
    var d :| 0 < d < |tail| - 1 && tail[d] == '.';
    dot := k + 1 + d;
    assert forall i | 0 <= i < k :: InClass(s[..k][i]) && s[..k][i] == s[i];
    assert forall i | k < i < |s| :: InClass(tail[i - k - 1]) && tail[i - k - 1] == s[i];
  }

  lemma ShapeMatches(s: string, k: nat, dot: nat)
    requires Trimmed(s) && NoSpace(s) && Shape(s, k, dot)
    ensures Splits([Literal('@')] + DOMAIN, s, k)
  {
    hide IsSpace;
    var tail := s[k + 1..];
    assert forall i | 0 <= i < |s| && i != k :: InClass(s[i]);
    assert forall i | 0 <= i < |tail| :: tail[i] == s[k + 1 + i];
    assert tail[dot - k - 1] == '.';
    SuffixTrimmed(s, k + 1);
    DomainMatches(tail);
    LiteralSplits('@', DOMAIN, s, k);
  }

  /** The pattern accepts a trimmed string iff it has no whitespace, exactly one '@', something
      before the '@', and a '.' strictly inside what follows. */
  lemma EmailExactly(s: string)
    requires Trimmed(s)
    ensures ValidEmail(s) <==> NoSpace(s) && exists at: nat, dot: nat :: Shape(s, at, dot)
  {
    hide IsSpace;
    var rest := [Literal('@')] + DOMAIN;
    assert EMAIL == [OneOrMore] + rest;
    RepeatMatches(rest, s);
    forall k: nat | k <= |s| && Splits(rest, s, k)
      ensures NoSpace(s) && exists dot: nat :: Shape(s, k, dot)
    {
      var dot := MatchedAddress(s, k);
    }
    if NoSpace(s) {
      forall at: nat, dot: nat | Shape(s, at, dot)
        ensures Splits(rest, s, at)
      {
        ShapeMatches(s, at, dot);
      }
    }
  }
}
