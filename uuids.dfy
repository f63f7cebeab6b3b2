/** `UUID(text)` and `str(UUID(text))` of Python's `uuid` module, as the
    wrapper and the snapshot cache use them: the `urn:` and `uuid:` marks,
    the surrounding braces and every dash are dropped, the 32 hexadecimal
    digits left are the id, and the id is written in lower case as
    `8-4-4-4-12` digits. Two texts denote the same UUID exactly when they
    give the same written form. */
module Uuids {
  import opened Wrappers
  import Text

  /** What `UUID(text)` raises when the digits left are not 32 characters. */
  const BadUuid := "badly formed hexadecimal UUID string"

  /** What `int(h, 16)` raises in `UUID(text)` when the 32 characters `h`
      left are not all hexadecimal digits (Python 3's wording; the `repr` of
      `h` is written as `h` in single quotes). */
  function NotHex(h: string): string
  {
    "invalid literal for int() with base 16: '" + h + "'"
  }
  const Braces := {'{', '}'}

  /** `s.replace(pat, '')`: every occurrence, found from the left, goes. */
  function RemoveAll(s: string, pat: string): string
    requires pat != ""
    decreases |s|
  {
    if |s| < |pat| then s
    else if s[..|pat|] == pat then RemoveAll(s[|pat|..], pat)
    else [s[0]] + RemoveAll(s[1..], pat)
  }

  function LStripAny(s: string, cs: set<char>): string
  {
    if s != [] && s[0] in cs then LStripAny(s[1..], cs) else s
  }

  function RStripAny(s: string, cs: set<char>): string
  {
    if s != [] && s[|s| - 1] in cs then RStripAny(s[..|s| - 1], cs) else s
  }

  /** What is left of `text` once the marks, the braces and the dashes are
      dropped. */
  function Digits(text: string): string
  {
    var unmarked := RemoveAll(RemoveAll(text, "urn:"), "uuid:");
    RemoveAll(RStripAny(LStripAny(unmarked, Braces), Braces), "-")
  }

  predicate IsHexDigit(c: char)
  {
    ('0' <= c <= '9') || ('a' <= c <= 'f') || ('A' <= c <= 'F')
  }

  predicate IsLowerHexDigit(c: char)
  {
    ('0' <= c <= '9') || ('a' <= c <= 'f')
  }

  function Lower(c: char): char
  {
    if 'A' <= c <= 'F' then (c as int - 'A' as int + 'a' as int) as char else c
  }

  function LowerAll(s: string): (r: string)
    ensures |r| == |s| && forall i :: 0 <= i < |s| ==> r[i] == Lower(s[i])
  {
    if s == [] then [] else [Lower(s[0])] + LowerAll(s[1..])
  }

  /** The 32 digits of an id. */
  predicate IsHex(h: string)
  {
    |h| == 32 && forall i :: 0 <= i < |h| ==> IsHexDigit(h[i])
  }

  /** Where the written form has its dashes. */
  predicate DashAt(i: int)
  {
    i == 8 || i == 13 || i == 18 || i == 23
  }

  /** The written form of a UUID: 36 characters, dashes at 8, 13, 18 and 23,
      lower-case hexadecimal digits elsewhere. */
  predicate Canonical(s: string)
  {
    |s| == 36 && forall i :: 0 <= i < |s| ==> if DashAt(i) then s[i] == '-' else IsLowerHexDigit(s[i])
  }

  /** `'%s-%s-%s-%s-%s' % (hex[:8], hex[8:12], hex[12:16], hex[16:20], hex[20:])`. */
  function Format(h: string): string
    requires |h| == 32
  {
    h[..8] + "-" + h[8..12] + "-" + h[12..16] + "-" + h[16..20] + "-" + h[20..]
  }

  /** `Format` puts dashes between the five groups of digits. */
  lemma FormatGroups(a: string, b: string, c: string, d: string, e: string)
    requires |a| == 8 && |b| == 4 && |c| == 4 && |d| == 4 && |e| == 12
    ensures Format(a + b + c + d + e) == a + "-" + b + "-" + c + "-" + d + "-" + e
  {
    var h := a + b + c + d + e;
    assert h[..8] == a;
    assert h[8..12] == b;
    assert h[12..16] == c;
    assert h[16..20] == d;
    assert h[20..] == e;
  }

  /** The characters of `Format(h)`, position by position. */
  lemma FormatAt(h: string, i: nat)
    requires |h| == 32 && i < 36
    ensures |Format(h)| == 36
    ensures DashAt(i) ==> Format(h)[i] == '-'
    ensures !DashAt(i) ==> Format(h)[i] == h[if i < 8 then i else if i < 13 then i - 1 else if i < 18 then i - 2
                                             else if i < 23 then i - 3 else i - 4]
  {
  }

  /** Written out, lower-case digits give the written form of a UUID. */
  lemma FormatCanonical(h: string)
    requires |h| == 32 && forall i :: 0 <= i < 32 ==> IsLowerHexDigit(h[i])
    ensures Canonical(Format(h))
  {
    forall i | 0 <= i < 36
      ensures if DashAt(i) then Format(h)[i] == '-' else IsLowerHexDigit(Format(h)[i])
    {
      FormatAt(h, i);
    }
  }

  /** The steps `UUID(text)` takes, in order: dropping every occurrence of
      a pattern, stripping the braces at either end, and checking that 32
      hexadecimal digits are left, which are then written out in lower
      case. */
  datatype Stage = Drop(pat: string) | StripBraces | Check

  predicate ValidStages(stages: seq<Stage>)
  {
    forall i :: 0 <= i < |stages| ==> stages[i].Drop? ==> stages[i].pat != ""
  }

  /** `text` taken through `stages`, or the `ValueError` a check raises. */
  function Run(text: string, stages: seq<Stage>): Result<string, string>
    requires ValidStages(stages)
    // `text` is named last so that the verifier unrolls `Run` on the stages
    // of `Parse` only when the text is known as well.
    decreases |stages|, 0, text
  {
    if stages == [] then Ok(text)
    else match stages[0]
      case Drop(pat) => Run(RemoveAll(text, pat), stages[1..])
      case StripBraces => Run(RStripAny(LStripAny(text, Braces), Braces), stages[1..])
      case Check => Checked(text, stages[1..])
  }

  /** The check step on the digits `h`: the length test, then `int(h, 16)`;
      then the rest of the stages. */
  function Checked(h: string, rest: seq<Stage>): Result<string, string>
    requires ValidStages(rest)
    decreases |rest|, 1, h
  {
    if |h| != 32 then Err(BadUuid)
    else if !IsHex(h) then Err(NotHex(h))
    else Run(Format(LowerAll(h)), rest)
  }

  /** The stages of `UUID(text)`. */
  const Stages: seq<Stage> := [Drop("urn:"), Drop("uuid:"), StripBraces, Drop("-"), Check]

  /** `str(UUID(text))`: the written form of the id `text` denotes, or the
      `ValueError` it raises. */
  function Parse(text: string): Result<string, string>
  {
    Run(text, Stages)
  }

  /** `UUID(text)` accepts exactly the texts that leave 32 hexadecimal
      digits, and writes those digits out in lower case. It raises the
      length error when other than 32 characters are left, and the error of
      `int(h, 16)` when the 32 left are not all hexadecimal digits. */
  lemma ParseMeaning(text: string)
    ensures Parse(text).Ok? <==> IsHex(Digits(text))
    ensures Parse(text).Ok? ==> Canonical(Parse(text).value) && Parse(text).value == Format(LowerAll(Digits(text)))
    ensures |Digits(text)| != 32 ==> Parse(text) == Err(BadUuid)
    ensures |Digits(text)| == 32 && !IsHex(Digits(text)) ==> Parse(text) == Err(NotHex(Digits(text)))
  {
    var s1 := RemoveAll(text, "urn:");
    var s2 := RemoveAll(s1, "uuid:");
    var s3 := RStripAny(LStripAny(s2, Braces), Braces);
    var h := RemoveAll(s3, "-");
    assert Stages[0] == Drop("urn:") && Stages[1..][0] == Drop("uuid:");
    assert Stages[1..][1..][0] == StripBraces && Stages[1..][1..][1..][0] == Drop("-");
    assert Stages[1..][1..][1..][1..][0] == Check && Stages[1..][1..][1..][1..][1..] == [];
    assert Parse(text) == Run(s1, Stages[1..]);
    assert Run(s1, Stages[1..]) == Run(s2, Stages[1..][1..]);
    assert Run(s2, Stages[1..][1..]) == Run(s3, Stages[1..][1..][1..]);
    assert Run(s3, Stages[1..][1..][1..]) == Run(h, Stages[1..][1..][1..][1..]);
    assert Run(h, Stages[1..][1..][1..][1..]) == Checked(h, []);
    assert h == Digits(text);
    if IsHex(h) {
      var low := LowerAll(h);
      assert Checked(h, []) == Run(Format(low), []) == Ok(Format(low));
      assert forall i :: 0 <= i < 32 ==> IsLowerHexDigit(low[i]);
      FormatCanonical(low);
    }
  }

  /** A pattern whose first character does not occur is never removed. */
  lemma {:induction false} RemoveAbsent(s: string, pat: string)
    requires pat != "" && pat[0] !in s
    ensures RemoveAll(s, pat) == s
    decreases |s|
  {
    if |s| >= |pat| {
      assert s[..|pat|][0] == s[0];
      RemoveAbsent(s[1..], pat);
      assert s == [s[0]] + s[1..];
    }
  }

  /** Removing one character distributes over a concatenation. */
  lemma {:induction false} RemoveCharAppend(a: string, b: string, c: char)
    ensures RemoveAll(a + b, [c]) == RemoveAll(a, [c]) + RemoveAll(b, [c])
    decreases |a|
  {
    if a == [] {
      assert a + b == b;
    } else {
      assert (a + b)[1..] == a[1..] + b;
      assert (a + b)[..1] == [a[0]] && a[..1] == [a[0]];
      RemoveCharAppend(a[1..], b, c);
      if a[0] != c {
        Text.Associative([a[0]], RemoveAll(a[1..], [c]), RemoveAll(b, [c]));
      }
    }
  }

  /** Dropping the dashes of `x`, a dash and then dash-free `y`. */
  lemma DashJoin(x: string, y: string)
    requires '-' !in y
    ensures RemoveAll(x + "-" + y, "-") == RemoveAll(x, "-") + y
  {
    var dy := "-" + y;
    assert x + "-" + y == x + dy;
    RemoveCharAppend(x, dy, '-');
    assert dy[..1] == "-" && dy[1..] == y;
    assert RemoveAll(dy, "-") == RemoveAll(y, "-");
    RemoveAbsent(y, "-");
  }

  /** Nothing is removed, nothing is stripped, from text with no braces and
      no dash at either end, or with no such character at all. */
  lemma StripNone(s: string)
    requires s == [] || (s[0] !in Braces && s[|s| - 1] !in Braces)
    ensures RStripAny(LStripAny(s, Braces), Braces) == s
  {
  }

  /** The digits of a run of hexadecimal digits are those digits. */
  lemma HexDigits(h: string)
    requires forall i :: 0 <= i < |h| ==> IsHexDigit(h[i])
    ensures RemoveAll(h, "-") == h && RemoveAll(h, "urn:") == h && RemoveAll(h, "uuid:") == h
  {
    RemoveAbsent(h, "-");
    RemoveAbsent(h, "urn:");
    RemoveAbsent(h, "uuid:");
  }

  /** Text of digits and dashes, a digit at each end, has no marks and no
      braces: only its dashes are dropped. */
  lemma PlainDigits(f: string)
    requires f != [] && IsHexDigit(f[0]) && IsHexDigit(f[|f| - 1])
    requires forall i :: 0 <= i < |f| ==> f[i] == '-' || IsHexDigit(f[i])
    ensures Digits(f) == RemoveAll(f, "-")
  {
    assert 'u' !in f by {
      forall i | 0 <= i < |f| ensures f[i] != 'u' {
        assert f[i] == '-' || IsHexDigit(f[i]);
      }
    }
    assert "urn:"[0] == 'u' && "uuid:"[0] == 'u';
    RemoveAbsent(f, "urn:");
    RemoveAbsent(f, "uuid:");
    StripNone(f);
  }

  /** The digits of the written form are the 32 digits written. */
  lemma FormatDigits(h: string)
    requires IsHex(h)
    ensures Digits(Format(h)) == h
  {
    var f := Format(h);
    var a, b, c, d, e := h[..8], h[8..12], h[12..16], h[16..20], h[20..];
    forall i | 0 <= i < 36 ensures f[i] == '-' || IsHexDigit(f[i]) {
      FormatAt(h, i);
    }
    FormatAt(h, 0);
    FormatAt(h, 35);
    PlainDigits(f);
    assert '-' !in a && '-' !in b && '-' !in c && '-' !in d && '-' !in e;
    DashJoin(a + "-" + b + "-" + c + "-" + d, e);
    DashJoin(a + "-" + b + "-" + c, d);
    DashJoin(a + "-" + b, c);
    DashJoin(a, b);
    RemoveAbsent(a, "-");
    assert h == a + b + c + d + e;
  }

  /** The 32 digits of an id and its written form, in either case, denote
      the same UUID, and `str` writes it in lower case. */
  lemma SameUuid(h: string)
    requires IsHex(h)
    ensures Parse(h) == Ok(Format(LowerAll(h)))
    ensures Parse(Format(h)) == Parse(h)
  {
    HexDigits(h);
    StripNone(h);
    FormatDigits(h);
    ParseMeaning(h);
    ParseMeaning(Format(h));
  }

  /** `str(UUID(s))` gives back a written form unchanged: parsing the
      written form again changes nothing. */
  lemma ParseCanonical(s: string)
    requires Canonical(s)
    ensures Parse(s) == Ok(s)
  {
    var h := s[..8] + s[9..13] + s[14..18] + s[19..23] + s[24..];
    assert |h| == 32;
    forall i | 0 <= i < 36 && !DashAt(i)
      ensures s[i] == h[if i < 8 then i else if i < 13 then i - 1 else if i < 18 then i - 2
                        else if i < 23 then i - 3 else i - 4]
    {
    }
    assert IsHex(h);
    FormatDigits(h);
    forall i | 0 <= i < 36 ensures Format(h)[i] == s[i] {
      FormatAt(h, i);
    }
    assert Format(h) == s;
    LowerAllLower(h);
    ParseMeaning(s);
  }

  /** Lower-case digits are left as they are. */
  lemma LowerAllLower(h: string)
    requires forall i :: 0 <= i < |h| ==> IsLowerHexDigit(h[i])
    ensures LowerAll(h) == h
  {
    forall i | 0 <= i < |h| ensures LowerAll(h)[i] == h[i] {
    }
  }

  /** `str(UUID(...))` is idempotent. */
  lemma ParseIdempotent(text: string)
    requires Parse(text).Ok?
    ensures Parse(Parse(text).value) == Parse(text)
  {
    ParseMeaning(text);
    ParseCanonical(Parse(text).value);
  }

  lemma {:induction false} RemoveShorter(s: string, pat: string)
    requires pat != ""
    ensures |RemoveAll(s, pat)| <= |s|
    decreases |s|
  {
    if |s| >= |pat| {
      if s[..|pat|] == pat {
        RemoveShorter(s[|pat|..], pat);
      } else {
        RemoveShorter(s[1..], pat);
      }
    }
  }

  lemma {:induction false} StripShorter(s: string, cs: set<char>)
    ensures |LStripAny(s, cs)| <= |s| && |RStripAny(s, cs)| <= |s|
    decreases |s|
  {
    if s != [] {
      StripShorter(s[1..], cs);
      StripShorter(s[..|s| - 1], cs);
    }
  }

  /** A text shorter than 32 characters is not an id: the empty text among
      them. */
  lemma ShortRefused(text: string)
    requires |text| < 32
    ensures Parse(text) == Err(BadUuid)
  {
    var u := RemoveAll(text, "urn:");
    RemoveShorter(text, "urn:");
    RemoveShorter(u, "uuid:");
    var v := RemoveAll(u, "uuid:");
    StripShorter(v, Braces);
    StripShorter(LStripAny(v, Braces), Braces);
    RemoveShorter(RStripAny(LStripAny(v, Braces), Braces), "-");
    ParseMeaning(text);
  }
}
