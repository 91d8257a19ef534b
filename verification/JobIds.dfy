/** Queue job ids: every part is cleaned up, then the parts are joined with a double underscore. */
module JobIds {
  /** `\s` in a regular expression of ECMAScript. */
  predicate IsSpace(c: char) {
    || '\t' <= c <= '\r' || c == ' ' || c == '\U{a0}' || c == '\U{1680}' || '\U{2000}' <= c <= '\U{200a}'
    || c == '\U{2028}' || c == '\U{2029}' || c == '\U{202f}' || c == '\U{205f}' || c == '\U{3000}' || c == '\U{feff}'
  }

  predicate IsWordOrDash(c: char) {
    'a' <= c <= 'z' || 'A' <= c <= 'Z' || '0' <= c <= '9' || c == '-' || c == '_'
  }

  predicate IsEdge(c: char) {
    c == '-' || c == '_'
  }

  /** `replace(/[...]/g, repl)`: every character that satisfies `p`. */
  function ReplaceEach(p: char -> bool, repl: char, s: string): string {
    if s == "" then "" else [if p(s[0]) then repl else s[0]] + ReplaceEach(p, repl, s[1..])
  }

  /** `replace(/c+/g, "c")`. */
  function Collapse(c: char, s: string): string {
    if s == "" then ""
    else if |s| > 1 && s[0] == c && s[1] == c then Collapse(c, s[1..])
    else [s[0]] + Collapse(c, s[1..])
  }

  function StripFront(s: string): string {
    if s != "" && IsEdge(s[0]) then StripFront(s[1..]) else s
  }

  function StripBack(s: string): string {
    if s != "" && IsEdge(s[|s| - 1]) then StripBack(s[..|s| - 1]) else s
  }

  function Sanitize(value: string): string {
    var spaced := ReplaceEach((c: char) => c == ':' || IsSpace(c), '_', value);
    var dashed := ReplaceEach((c: char) => !IsWordOrDash(c), '-', spaced);
    var stripped := StripBack(StripFront(Collapse('_', Collapse('-', dashed))));
    if stripped == "" then "part" else stripped
  }

  function SanitizeAll(parts: seq<string>): seq<string> {
    if parts == [] then [] else [Sanitize(parts[0])] + SanitizeAll(parts[1..])
  }

  function Join(parts: seq<string>): string {
    if parts == [] then "" else if |parts| == 1 then parts[0] else parts[0] + "__" + Join(parts[1..])
  }

  function BuildJobId(parts: seq<string>): string {
    Join(SanitizeAll(parts))
  }

  // ----- what a clean part is -----

  predicate Doubled(c: char, s: string, i: int) {
    0 <= i && i + 1 < |s| && s[i] == c && s[i + 1] == c
  }

  ghost predicate NoDouble(c: char, s: string) {
    forall i :: !Doubled(c, s, i)
  }

  predicate AllWordOrDash(s: string) {
    forall i | 0 <= i < |s| :: IsWordOrDash(s[i])
  }

  /** Letters, digits, dashes and underscores; no doubled dash or underscore, and neither at either end; not empty. */
  ghost predicate Clean(s: string) {
    && s != "" && AllWordOrDash(s) && NoDouble('-', s) && NoDouble('_', s)
    && !IsEdge(s[0]) && !IsEdge(s[|s| - 1])
  }

  lemma {:induction false} ReplacedEverywhere(p: char -> bool, repl: char, s: string)
    ensures |ReplaceEach(p, repl, s)| == |s|
    ensures forall i :: 0 <= i < |s| ==> ReplaceEach(p, repl, s)[i] == if p(s[i]) then repl else s[i]
  {
    if s != "" {
      ReplacedEverywhere(p, repl, s[1..]);
      assert forall i :: 1 <= i < |s| ==> ReplaceEach(p, repl, s)[i] == ReplaceEach(p, repl, s[1..])[i - 1] && s[1..][i - 1] == s[i];
    }
  }

  lemma {:induction false} Collapsed(c: char, s: string)
    ensures NoDouble(c, Collapse(c, s)) && (AllWordOrDash(s) ==> AllWordOrDash(Collapse(c, s)))
    ensures |Collapse(c, s)| <= |s| && (s != "" ==> Collapse(c, s) != "" && Collapse(c, s)[0] == s[0])
  {
    if s != "" {
      Collapsed(c, s[1..]);
      var rest := Collapse(c, s[1..]);
      if !(|s| > 1 && s[0] == c && s[1] == c) {
        forall i ensures !Doubled(c, Collapse(c, s), i) {
          assert !Doubled(c, rest, i - 1);
        }
      }
    }
  }

  /** Collapsing one character creates no double of another. */
  lemma {:induction false} CollapseKeepsNoDouble(c: char, e: char, s: string)
    requires c != e && NoDouble(e, s)
    ensures NoDouble(e, Collapse(c, s))
  {
    if s != "" {
      forall i ensures !Doubled(e, s[1..], i) {
        assert !Doubled(e, s, i + 1);
      }
      CollapseKeepsNoDouble(c, e, s[1..]);
      Collapsed(c, s[1..]);
      if !(|s| > 1 && s[0] == c && s[1] == c) {
        assert !Doubled(e, s, 0);
        forall i ensures !Doubled(e, Collapse(c, s), i) {
          assert !Doubled(e, Collapse(c, s[1..]), i - 1);
        }
      }
    }
  }

  /** What remains after stripping is a slice with clean edges. */
  lemma {:induction false} StrippedFront(s: string) returns (k: nat)
    ensures k <= |s| && StripFront(s) == s[k..] && (k < |s| ==> !IsEdge(s[k]))
  {
    if s != "" && IsEdge(s[0]) {
      k := StrippedFront(s[1..]);
      assert s[1..][k..] == s[k + 1..];
      k := k + 1;
    } else {
      k := 0;
    }
  }

  lemma {:induction false} StrippedBack(s: string) returns (k: nat)
    ensures k <= |s| && StripBack(s) == s[..k] && (k > 0 ==> !IsEdge(s[k - 1]))
  {
    if s != "" && IsEdge(s[|s| - 1]) {
      k := StrippedBack(s[..|s| - 1]);
      assert s[..|s| - 1][..k] == s[..k];
    } else {
      k := |s|;
    }
  }

  lemma DropKeepsNoDouble(c: char, s: string, lo: nat)
    requires lo <= |s| && NoDouble(c, s)
    ensures NoDouble(c, s[lo..])
  {
    forall i ensures !Doubled(c, s[lo..], i) {
      assert !Doubled(c, s, lo + i);
    }
  }

  lemma TakeKeepsNoDouble(c: char, s: string, hi: nat)
    requires hi <= |s| && NoDouble(c, s)
    ensures NoDouble(c, s[..hi])
  {
    forall i ensures !Doubled(c, s[..hi], i) {
      assert !Doubled(c, s, i);
    }
  }

  lemma StripIsClean(s: string)
    requires AllWordOrDash(s) && NoDouble('-', s) && NoDouble('_', s)
    ensures StripBack(StripFront(s)) == "" || Clean(StripBack(StripFront(s)))
  {
    var lo := StrippedFront(s);
    var hi := StrippedBack(s[lo..]);
    DropKeepsNoDouble('-', s, lo);
    DropKeepsNoDouble('_', s, lo);
    TakeKeepsNoDouble('-', s[lo..], hi);
    TakeKeepsNoDouble('_', s[lo..], hi);
    assert hi > 0 ==> s[lo..][..hi][0] == s[lo] && s[lo..][..hi][hi - 1] == s[lo..][hi - 1];
  }

  /** Every part comes out clean, whatever went in. */
  lemma SanitizeIsClean(value: string)
    ensures Clean(Sanitize(value))
  {
    var spaced := ReplaceEach((c: char) => c == ':' || IsSpace(c), '_', value);
    var dashed := ReplaceEach((c: char) => !IsWordOrDash(c), '-', spaced);
    ReplacedEverywhere((c: char) => !IsWordOrDash(c), '-', spaced);
    var single := Collapse('-', dashed);
    Collapsed('-', dashed);
    Collapsed('_', single);
    CollapseKeepsNoDouble('_', '-', single);
    StripIsClean(Collapse('_', single));
  }

  lemma {:induction false} ReplaceNothing(p: char -> bool, repl: char, s: string)
    requires forall i :: 0 <= i < |s| ==> !p(s[i])
    ensures ReplaceEach(p, repl, s) == s
  {
    ReplacedEverywhere(p, repl, s);
  }

  lemma {:induction false} CollapseNothing(c: char, s: string)
    requires NoDouble(c, s)
    ensures Collapse(c, s) == s
  {
    if s != "" {
      assert !Doubled(c, s, 0);
      DropKeepsNoDouble(c, s, 1);
      CollapseNothing(c, s[1..]);
    }
  }

  /** Clean parts are left as they are; so the clean strings are exactly the possible results, and cleaning twice is cleaning once. */
  lemma CleanIsFixed(value: string)
    ensures Sanitize(value) == value <==> Clean(value)
    ensures Sanitize(Sanitize(value)) == Sanitize(value)
  {
    SanitizeIsClean(value);
    if Clean(value) {
      CleanUnchanged(value);
    }
    CleanUnchanged(Sanitize(value));
  }

  lemma CleanUnchanged(s: string)
    requires Clean(s)
    ensures Sanitize(s) == s
  {
    ReplaceNothing((c: char) => c == ':' || IsSpace(c), '_', s);
    ReplaceNothing((c: char) => !IsWordOrDash(c), '-', s);
    CollapseNothing('-', s);
    CollapseNothing('_', s);
  }

  predicate IsLetterOrDigit(c: char) {
    IsWordOrDash(c) && !IsEdge(c)
  }

  function Letters(s: string): string {
    if s == "" then "" else (if IsLetterOrDigit(s[0]) then [s[0]] else "") + Letters(s[1..])
  }

  lemma {:induction false} LettersAppend(s: string, t: string)
    ensures Letters(s + t) == Letters(s) + Letters(t)
  {
    if s == "" {
      assert s + t == t;
    } else {
      assert (s + t)[1..] == s[1..] + t && (s + t)[0] == s[0];
      LettersAppend(s[1..], t);
      var head := if IsLetterOrDigit(s[0]) then [s[0]] else "";
      assert Letters(s + t) == head + (Letters(s[1..]) + Letters(t));
    }
  }

  lemma {:induction false} ReplaceKeepsLetters(p: char -> bool, repl: char, s: string)
    requires !IsLetterOrDigit(repl) && forall c :: p(c) ==> !IsLetterOrDigit(c)
    ensures Letters(ReplaceEach(p, repl, s)) == Letters(s)
  {
    if s != "" {
      ReplaceKeepsLetters(p, repl, s[1..]);
    }
  }

  lemma {:induction false} CollapseKeepsLetters(c: char, s: string)
    requires IsEdge(c)
    ensures Letters(Collapse(c, s)) == Letters(s)
  {
    if s != "" {
      CollapseKeepsLetters(c, s[1..]);
    }
  }

  lemma {:induction false} StripKeepsLetters(s: string)
    ensures Letters(StripFront(s)) == Letters(s) && Letters(StripBack(s)) == Letters(s)
    decreases |s|
  {
    if s != "" {
      if IsEdge(s[0]) {
        StripKeepsLetters(s[1..]);
      }
      if IsEdge(s[|s| - 1]) {
        var front := s[..|s| - 1];
        StripKeepsLetters(front);
        LettersAppend(front, [s[|s| - 1]]);
        assert s == front + [s[|s| - 1]];
      }
    }
  }

  /** The letters and digits of a part survive, all of them and in order; "part" stands in when there are none. */
  lemma SanitizeKeepsLetters(value: string)
    ensures if Letters(value) == "" then Sanitize(value) == "part" else Letters(Sanitize(value)) == Letters(value)
  {
    var spaced := ReplaceEach((c: char) => c == ':' || IsSpace(c), '_', value);
    var dashed := ReplaceEach((c: char) => !IsWordOrDash(c), '-', spaced);
    ReplaceKeepsLetters((c: char) => c == ':' || IsSpace(c), '_', value);
    ReplaceKeepsLetters((c: char) => !IsWordOrDash(c), '-', spaced);
    CollapseKeepsLetters('-', dashed);
    var s := Collapse('_', Collapse('-', dashed));
    CollapseKeepsLetters('_', Collapse('-', dashed));
    StripKeepsLetters(s);
    StripKeepsLetters(StripFront(s));
    SanitizeIsClean(value);
    if StripBack(StripFront(s)) != "" {
      assert IsLetterOrDigit(Sanitize(value)[0]);
    }
  }

  /** What stands for a character that is neither letter nor digit: an underscore for colons, white space and underscores, else a dash. */
  function Separator(c: char): char {
    if c == ':' || c == '_' || IsSpace(c) then '_' else '-'
  }

  /** Between two clean parts, any other character comes out as its separator and nothing else changes. */
  lemma StrayCharacter(x: string, c: char, y: string)
    requires Clean(x) && Clean(y) && !IsLetterOrDigit(c)
    ensures Sanitize(x + [c] + y) == x + [Separator(c)] + y
  {
    var z := x + [Separator(c)] + y;
    var isGap := (e: char) => e == ':' || IsSpace(e);
    var isOdd := (e: char) => !IsWordOrDash(e);
    var spaced := ReplaceEach(isGap, '_', x + [c] + y);
    ReplacedEverywhere(isGap, '_', x + [c] + y);
    ReplacedEverywhere(isOdd, '-', spaced);
    assert ReplaceEach(isOdd, '-', spaced) == z;
    JoinedIsClean(x, Separator(c), y);
    CollapseNothing('-', z);
    CollapseNothing('_', z);
  }

  lemma JoinedIsClean(x: string, c: char, y: string)
    requires Clean(x) && Clean(y) && IsEdge(c)
    ensures Clean(x + [c] + y)
  {
    var z := x + [c] + y;
    forall e, i | e == '-' || e == '_' ensures !Doubled(e, z, i) {
      assert !Doubled(e, x, i) && !Doubled(e, y, i - |x| - 1);
    }
  }

  // ----- decoding -----

  /** Where the first double underscore starts, or the length of `s`. */
  function FirstSeparator(s: string): (k: nat)
    ensures k <= |s| && (k < |s| ==> Doubled('_', s, k))
  {
    if s == "" || Doubled('_', s, 0) then 0 else 1 + FirstSeparator(s[1..])
  }

  /** `split("__")`. */
  function Split(s: string): seq<string>
    decreases |s|
  {
    var k := FirstSeparator(s);
    if k == |s| then [s] else [s[..k]] + Split(s[k + 2..])
  }

  lemma {:induction false} SeparatorAfter(p: string, rest: string)
    requires NoDouble('_', p) && (p != "" ==> p[|p| - 1] != '_')
    ensures FirstSeparator(p + "__" + rest) == |p|
    ensures FirstSeparator(p) == |p|
  {
    if p != "" {
      assert !Doubled('_', p, 0);
      DropKeepsNoDouble('_', p, 1);
      SeparatorAfter(p[1..], rest);
      assert (p + "__" + rest)[1..] == p[1..] + "__" + rest;
      assert !Doubled('_', p + "__" + rest, 0);
    }
  }

  ghost predicate AllClean(parts: seq<string>) {
    forall i :: 0 <= i < |parts| ==> Clean(parts[i])
  }

  lemma {:induction false} SplitUndoesJoin(parts: seq<string>)
    requires parts != [] && AllClean(parts)
    ensures Split(Join(parts)) == parts
  {
    assert Clean(parts[0]);
    if |parts| == 1 {
      SeparatorAfter(parts[0], "");
    } else {
      var rest := Join(parts[1..]);
      SeparatorAfter(parts[0], rest);
      var s := parts[0] + "__" + rest;
      assert s[..|parts[0]|] == parts[0] && s[|parts[0]| + 2..] == rest;
      SplitUndoesJoin(parts[1..]);
    }
  }

  lemma {:induction false} SanitizedAt(parts: seq<string>, i: nat)
    requires i < |parts|
    ensures |SanitizeAll(parts)| == |parts| && SanitizeAll(parts)[i] == Sanitize(parts[i])
  {
    if |parts| > 1 {
      SanitizedAt(parts[1..], if i == 0 then 0 else i - 1);
    }
  }

  lemma SanitizedParts(parts: seq<string>)
    requires parts != []
    ensures AllClean(SanitizeAll(parts)) && |SanitizeAll(parts)| == |parts|
  {
    SanitizedAt(parts, 0);
    forall i | 0 <= i < |parts| ensures Clean(SanitizeAll(parts)[i]) {
      SanitizedAt(parts, i);
      SanitizeIsClean(parts[i]);
    }
  }

  /** A job id decodes to the cleaned parts it was built from. */
  lemma JobIdDecodes(parts: seq<string>)
    requires parts != []
    ensures Split(BuildJobId(parts)) == SanitizeAll(parts)
  {
    SanitizedParts(parts);
    SplitUndoesJoin(SanitizeAll(parts));
  }

  /** Two jobs share an id exactly when their parts clean up to the same strings. */
  lemma SameIdIffSameParts(parts: seq<string>, others: seq<string>)
    requires parts != [] && others != []
    ensures BuildJobId(parts) == BuildJobId(others) <==> SanitizeAll(parts) == SanitizeAll(others)
  {
    JobIdDecodes(parts);
    JobIdDecodes(others);
  }

  /** On parts that are already clean, different parts give different ids. */
  lemma CleanPartsGiveDistinctIds(parts: seq<string>, others: seq<string>)
    requires parts != [] && others != [] && AllClean(parts) && AllClean(others)
    requires BuildJobId(parts) == BuildJobId(others)
    ensures parts == others
  {
    SameIdIffSameParts(parts, others);
    AllCleanUnchanged(parts);
    AllCleanUnchanged(others);
  }

  lemma {:induction false} AllCleanUnchanged(parts: seq<string>)
    requires AllClean(parts)
    ensures SanitizeAll(parts) == parts
  {
    if parts != [] {
      CleanUnchanged(parts[0]);
      AllCleanUnchanged(parts[1..]);
    }
  }

  /** On others they need not: a colon and an underscore are told apart by no id. */
  lemma UncleanPartsCollide()
    ensures "a:b" != "a_b" && BuildJobId(["a:b"]) == BuildJobId(["a_b"])
  {
    var p := (c: char) => c == ':' || IsSpace(c);
    ReplacedEverywhere(p, '_', "a:b");
    ReplacedEverywhere(p, '_', "a_b");
    assert ReplaceEach(p, '_', "a:b") == ReplaceEach(p, '_', "a_b");
  }
}
