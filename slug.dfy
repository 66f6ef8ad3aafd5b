/**
  * `_nameToSlug`, the slug builder of the app and project handlers: trim,
  * lower-case, replace accented letters and separators through a fixed table,
  * drop every character outside `a-z`, `0-9`, space and `-`, turn each run of
  * whitespace into one `-` and each run of `-` into one `-`.
  */
module Slug {

  /** the characters JavaScript's `\s` matches */
  predicate IsSpace(c: char) {
    || c == ' ' || c == '\t' || c == '\n' || c == '\r' || c == '\U{b}' || c == '\U{c}'
    || c == '\U{a0}' || c == '\U{1680}' || '\U{2000}' <= c <= '\U{200a}'
    || c == '\U{2028}' || c == '\U{2029}' || c == '\U{202f}' || c == '\U{205f}'
    || c == '\U{3000}' || c == '\U{feff}'
  }

  predicate AllSpace(s: string) {
    forall i :: 0 <= i < |s| ==> IsSpace(s[i])
  }

  /** the characters a slug is made of */
  predicate SlugChar(c: char) {
    'a' <= c <= 'z' || '0' <= c <= '9' || c == '-'
  }

  predicate NoDoubleDash(s: string) {
    forall i :: 0 <= i < |s| - 1 ==> !(s[i] == '-' && s[i + 1] == '-')
  }

  /** what every slug looks like */
  predicate IsSlug(s: string) {
    (forall i :: 0 <= i < |s| ==> SlugChar(s[i])) && NoDoubleDash(s)
  }

  // ---------------------------------------------------------------- trim

  function TrimStart(s: string): (r: string)
    ensures |r| <= |s| && r == s[|s| - |r|..]
    ensures r == [] || !IsSpace(r[0])
    ensures AllSpace(s[..|s| - |r|])
  {
    if s != [] && IsSpace(s[0]) then TrimStart(s[1..]) else s
  }

  function TrimEnd(s: string): (r: string)
    ensures |r| <= |s| && r == s[..|r|]
    ensures r == [] || !IsSpace(r[|r| - 1])
    ensures AllSpace(s[|r|..])
  {
    if s != [] && IsSpace(s[|s| - 1]) then
      var r := TrimEnd(s[..|s| - 1]);
      assert s[|r|..] == s[..|s| - 1][|r|..] + [s[|s| - 1]];
      r
    else s
  }

  /** trims whitespace at both ends */
  function Trim(s: string): string {
    TrimEnd(TrimStart(s))
  }

  // ---------------------------------------------------------------- lower case

  /** `toLowerCase` on one character, for the ASCII and Latin-1 capitals and the
    * two other capitals that lower-case into ASCII: the Kelvin sign gives `k`,
    * and the dotted capital I gives `i` (JavaScript adds a combining dot after
    * it, which the invalid-character step removes again) */
  function Lower(c: char): char {
    if 'A' <= c <= 'Z' then (c as int + 32) as char
    else if '\U{c0}' <= c <= '\U{de}' && c != '\U{d7}' then (c as int + 32) as char
    else if c == '\U{212a}' then 'k'
    else if c == '\U{130}' then 'i'
    else c
  }

  function LowerCase(s: string): (r: string)
    ensures |r| == |s|
  {
    seq(|s|, i requires 0 <= i < |s| => Lower(s[i]))
  }

  // ---------------------------------------------------------------- accents

  /** the replacement table, applied one entry after the other */
  const From: string := "àáäâèéëêìíïîòóöôùúüûñç·/_,:;"
  const To: string   := "aaaaeeeeiiiioooouuuunc------"

  /** replaces every occurrence of the single character `from` by `to` */
  function ReplaceChar(s: string, from: char, to: char): (r: string)
    ensures |r| == |s|
  {
    seq(|s|, i requires 0 <= i < |s| => if s[i] == from then to else s[i])
  }

  /** the first `k` table replacements applied in turn to a whole string */
  function ReplaceTable(s: string, k: nat): (r: string)
    requires k <= |From|
    ensures |r| == |s|
  {
    if k == 0 then s else ReplaceChar(ReplaceTable(s, k - 1), From[k - 1], To[k - 1])
  }

  /** the same replacements followed by one character */
  function ReplacedChar(c: char, k: nat): char
    requires k <= |From|
  {
    if k == 0 then c
    else
      var d := ReplacedChar(c, k - 1);
      if d == From[k - 1] then To[k - 1] else d
  }

  /** the table read as "each accented letter becomes its base letter, each
    * separator becomes `-`", independently of the order of its entries */
  function Deaccented(c: char): char {
    if c in "àáäâ" then 'a'
    else if c in "èéëê" then 'e'
    else if c in "ìíïî" then 'i'
    else if c in "òóöô" then 'o'
    else if c in "ùúüû" then 'u'
    else if c == 'ñ' then 'n'
    else if c == 'ç' then 'c'
    else if c in "·/_,:;" then '-'
    else c
  }

  function Deaccent(s: string): (r: string)
    ensures |r| == |s|
  {
    seq(|s|, i requires 0 <= i < |s| => Deaccented(s[i]))
  }

  // ---------------------------------------------------------------- final clean-up

  /** the characters `[a-z0-9 -]` keeps */
  predicate Valid(c: char) {
    'a' <= c <= 'z' || '0' <= c <= '9' || c == ' ' || c == '-'
  }

  /** drops every character but lower-case letters, digits, spaces and hyphens */
  function RemoveInvalid(s: string): (r: string)
    ensures forall i :: 0 <= i < |r| ==> Valid(r[i])
    ensures forall c :: c in s && Valid(c) ==> c in r
    ensures forall c :: c in r ==> c in s
  {
    if s == [] then []
    else if Valid(s[0]) then [s[0]] + RemoveInvalid(s[1..])
    else RemoveInvalid(s[1..])
  }

  /** turns every run of whitespace into one hyphen */
  function SpacesToDash(s: string): (r: string)
    ensures forall c :: c in r ==> c == '-' || (c in s && !IsSpace(c))
    decreases |s|
  {
    if s == [] then []
    else if IsSpace(s[0]) then ['-'] + SpacesToDash(TrimStart(s))
    else [s[0]] + SpacesToDash(s[1..])
  }

  function SkipDashes(s: string): (r: string)
    ensures |r| <= |s| && r == s[|s| - |r|..]
    ensures r == [] || r[0] != '-'
  {
    if s != [] && s[0] == '-' then SkipDashes(s[1..]) else s
  }

  /** collapses every run of hyphens into one */
  function CollapseDashes(s: string): (r: string)
    ensures forall c :: c in r ==> c in s
    ensures NoDoubleDash(r)
    ensures (r != [] && r[0] == '-') <==> (s != [] && s[0] == '-')
    decreases |s|
  {
    if s == [] then []
    else if s[0] == '-' then ['-'] + CollapseDashes(SkipDashes(s[1..]))
    else [s[0]] + CollapseDashes(s[1..])
  }

  /** the slug `_nameToSlug(s)` returns */
  function Slugify(s: string): string {
    CollapseDashes(SpacesToDash(RemoveInvalid(Deaccent(LowerCase(Trim(s))))))
  }

  /** `_nameToSlug`, with its loop over the replacement table */
  method NameToSlug(name: string) returns (slug: string)
    ensures slug == Slugify(name)
    ensures IsSlug(slug)
  {
    var str := Trim(name);
    str := LowerCase(str);
    ghost var lowered := str;
    for i := 0 to |From|
      invariant str == ReplaceTable(lowered, i)
    {
      str := ReplaceChar(str, From[i], To[i]);
    }
    TableIsPerPosition(lowered);
    str := RemoveInvalid(str);
    str := SpacesToDash(str);
    str := CollapseDashes(str);
    slug := str;
    SlugifyIsSlug(name);
  }

  // ---------------------------------------------------------------- properties

  lemma TableLengths()
    ensures |From| == |To| == 28
  {
  }

  /** table entry `k` maps to what `Deaccented` says */
  lemma TableEntry(k: nat)
    requires k < |From|
    ensures Deaccented(From[k]) == To[k]
  {
  }

  /** no replacement character is replaced again by an entry of the table */
  lemma ReplacementFinal(k: nat)
    requires k < |To|
    ensures To[k] !in From
  {
  }

  lemma {:induction false} ReplacedCharPrefix(c: char, k: nat)
    requires k <= |From|
    ensures ReplacedChar(c, k) == if c in From[..k] then Deaccented(c) else c
  {
    if k > 0 {
      TableLengths();
      ReplacedCharPrefix(c, k - 1);
      assert From[..k] == From[..k - 1] + [From[k - 1]];
      if c in From[..k - 1] {
        var j :| 0 <= j < k - 1 && From[j] == c;
        TableEntry(j);
        ReplacementFinal(j);
        assert ReplacedChar(c, k - 1) != From[k - 1];
      } else if c == From[k - 1] {
        TableEntry(k - 1);
      }
    }
  }

  lemma {:induction false} ReplaceTableAt(s: string, k: nat, i: nat)
    requires k <= |From| && i < |s|
    ensures ReplaceTable(s, k)[i] == ReplacedChar(s[i], k)
  {
    if k > 0 {
      ReplaceTableAt(s, k - 1, i);
    }
  }

  /** Replacing the table's entries one after the other, over the whole
    * string, is the same as mapping every position through the table once. */
  lemma TableIsPerPosition(s: string)
    ensures ReplaceTable(s, |From|) == Deaccent(s)
  {
    forall i | 0 <= i < |s|
      ensures ReplaceTable(s, |From|)[i] == Deaccent(s)[i]
    {
      ReplaceTableAt(s, |From|, i);
      ReplacedCharPrefix(s[i], |From|);
      assert From[..|From|] == From;
      if s[i] !in From {
        assert Deaccented(s[i]) == s[i];
      }
    }
  }

  lemma SpacesToDashChars(s: string)
    requires forall i :: 0 <= i < |s| ==> Valid(s[i])
    ensures forall i :: 0 <= i < |SpacesToDash(s)| ==> SlugChar(SpacesToDash(s)[i])
  {
    var r := SpacesToDash(s);
    forall i | 0 <= i < |r| ensures SlugChar(r[i]) {
      assert r[i] in r;
    }
  }

  /** Every slug is made of `a-z`, `0-9` and `-` only, and never holds `--`. */
  lemma SlugifyIsSlug(s: string)
    ensures IsSlug(Slugify(s))
  {
    var v := RemoveInvalid(Deaccent(LowerCase(Trim(s))));
    SpacesToDashChars(v);
    var d := SpacesToDash(v);
    var r := CollapseDashes(d);
    forall i | 0 <= i < |r| ensures SlugChar(r[i]) {
      assert r[i] in r;
      var j :| 0 <= j < |d| && d[j] == r[i];
    }
  }

  /** A slug never holds a '/', so it is a single path segment. */
  lemma SlugifyHasNoSlash(s: string)
    ensures '/' !in Slugify(s)
    ensures multiset(Slugify(s))['/'] == 0
  {
    var r := Slugify(s);
    SlugifyIsSlug(s);
    forall i | 0 <= i < |r| ensures r[i] != '/' {
      assert SlugChar(r[i]);
    }
    assert '/' !in multiset(r);
  }

  lemma {:induction false} TrimStartSpaces(w: string, s: string)
    requires AllSpace(w)
    ensures TrimStart(w + s) == TrimStart(s)
    decreases |w|
  {
    if w != [] {
      var ws := w + s;
      assert ws[0] == w[0] && IsSpace(ws[0]);
      assert ws[1..] == w[1..] + s;
      calc {
        TrimStart(ws);
        TrimStart(ws[1..]);
        { TrimStartSpaces(w[1..], s); }
        TrimStart(s);
      }
    } else {
      assert w + s == s;
    }
  }

  lemma {:induction false} TrimEndSpaces(s: string, w: string)
    requires AllSpace(w)
    ensures TrimEnd(s + w) == TrimEnd(s)
    decreases |w|
  {
    if w != [] {
      var sw := s + w;
      assert sw[|sw| - 1] == w[|w| - 1] && IsSpace(sw[|sw| - 1]);
      assert sw[..|sw| - 1] == s + w[..|w| - 1];
      calc {
        TrimEnd(sw);
        TrimEnd(sw[..|sw| - 1]);
        { TrimEndSpaces(s, w[..|w| - 1]); }
        TrimEnd(s);
      }
    } else {
      assert s + w == s;
    }
  }

  lemma {:induction false} TrimTrailing(s: string, w: string)
    requires AllSpace(w)
    ensures Trim(s + w) == Trim(s)
  {
    if s == [] {
      assert s + w == w;
      TrimStartSpaces(w, []);
      assert w + [] == w;
    } else if IsSpace(s[0]) {
      assert (s + w)[1..] == s[1..] + w;
      TrimTrailing(s[1..], w);
    } else {
      TrimEndSpaces(s, w);
    }
  }

  /** Whitespace around a name does not change its slug. */
  lemma SurroundingSpaceIgnored(before: string, s: string, after: string)
    requires AllSpace(before) && AllSpace(after)
    ensures Slugify(before + s + after) == Slugify(s)
  {
    assert before + s + after == before + (s + after);
    TrimStartSpaces(before, s + after);
    TrimTrailing(s, after);
    assert Trim(before + s + after) == Trim(s);
  }

  lemma {:induction false} RemoveInvalidKeeps(s: string)
    requires forall i :: 0 <= i < |s| ==> Valid(s[i])
    ensures RemoveInvalid(s) == s
  {
    if s != [] {
      RemoveInvalidKeeps(s[1..]);
    }
  }

  lemma {:induction false} SpacesToDashKeeps(s: string)
    requires forall i :: 0 <= i < |s| ==> !IsSpace(s[i])
    ensures SpacesToDash(s) == s
    decreases |s|
  {
    if s != [] {
      SpacesToDashKeeps(s[1..]);
    }
  }

  lemma {:induction false} CollapseDashesKeeps(s: string)
    requires NoDoubleDash(s)
    ensures CollapseDashes(s) == s
    decreases |s|
  {
    if s != [] {
      if s[0] == '-' {
        assert |s| == 1 || s[1] != '-';
        assert SkipDashes(s[1..]) == s[1..];
      }
      CollapseDashesKeeps(s[1..]);
    }
  }

  lemma TrimKeeps(t: string)
    requires forall i :: 0 <= i < |t| ==> !IsSpace(t[i])
    ensures Trim(t) == t
  {
    assert TrimStart(t) == t;
  }

  lemma LowerCaseKeeps(t: string)
    requires forall i :: 0 <= i < |t| ==> SlugChar(t[i])
    ensures LowerCase(t) == t
  {
  }

  lemma DeaccentKeeps(t: string)
    requires forall i :: 0 <= i < |t| ==> SlugChar(t[i])
    ensures Deaccent(t) == t
  {
    forall i | 0 <= i < |t| ensures Deaccented(t[i]) == t[i] {
      assert t[i] !in From;
    }
  }

  /** A slug is its own slug: `_nameToSlug` is idempotent. */
  lemma SlugifyIdempotent(s: string)
    ensures Slugify(Slugify(s)) == Slugify(s)
  {
    var t := Slugify(s);
    SlugifyIsSlug(s);
    TrimKeeps(t);
    LowerCaseKeeps(t);
    DeaccentKeeps(t);
    RemoveInvalidKeeps(t);
    SpacesToDashKeeps(t);
    CollapseDashesKeeps(t);
  }
}
