/**
 * `transformSafeName` of the DocxTemplater node: turns a tool's name into
 * the name of a template filter. It is a chain of four string operations:
 * `toLowerCase()`, then three `replace` calls whose regular expressions
 * carry no `g` flag, so each rewrites only its FIRST match:
 *   - `/-/`          -> `_`   the first hyphen becomes an underscore;
 *   - `/[^a-z0-9_]/` -> ``    the first character outside [a-z0-9_] is deleted;
 *   - `/_{2,}/`      -> `_`   the first run of two or more underscores
 *                             becomes a single underscore.
 */
module SafeName {

  predicate IsUpperAscii(c: char) {
    'A' <= c <= 'Z'
  }

  /** The characters `[a-z0-9_]` that the strip step keeps. */
  predicate IsSafeChar(c: char) {
    'a' <= c <= 'z' || '0' <= c <= '9' || c == '_'
  }

  /** Positions `k` and `k + 1` of `s` both hold `_`. */
  predicate IsDoubleUnderscore(s: string, k: int) {
    0 <= k && k + 1 < |s| && s[k] == '_' && s[k + 1] == '_'
  }

  /** A name made only of safe characters, with no two underscores in a row. */
  predicate IsCleanName(s: string) {
    && (forall k :: 0 <= k < |s| ==> IsSafeChar(s[k]))
    && (forall k :: 0 <= k < |s| ==> !IsDoubleUnderscore(s, k))
  }

  function LowerChar(c: char): (d: char)
    ensures !IsUpperAscii(d)
    ensures !IsUpperAscii(c) ==> d == c
    ensures IsUpperAscii(c) ==> 'a' <= d <= 'z' && d as int - 'a' as int == c as int - 'A' as int
  {
    if IsUpperAscii(c) then (c as int + 32) as char else c
  }

  /** `toLowerCase()`, on ASCII letters only. */
  function ToLower(s: string): (r: string)
    ensures |r| == |s|
    ensures forall k :: 0 <= k < |r| ==> !IsUpperAscii(r[k])
    ensures forall k :: 0 <= k < |s| && !IsUpperAscii(s[k]) ==> r[k] == s[k]
    ensures forall k :: 0 <= k < |s| && IsUpperAscii(s[k]) ==>
      'a' <= r[k] <= 'z' && r[k] as int - 'a' as int == s[k] as int - 'A' as int
  {
    seq(|s|, k requires 0 <= k < |s| => LowerChar(s[k]))
  }

  /** `replace(/-/, '_')`. */
  function ReplaceFirstHyphen(s: string): (r: string)
    ensures |r| == |s|
  {
    if s == [] then []
    else if s[0] == '-' then "_" + s[1..]
    else [s[0]] + ReplaceFirstHyphen(s[1..])
  }

  /** `replace(/[^a-z0-9_]/, '')`. */
  function StripFirstUnsafe(s: string): (r: string)
    ensures |s| - 1 <= |r| <= |s|
  {
    if s == [] then []
    else if !IsSafeChar(s[0]) then s[1..]
    else [s[0]] + StripFirstUnsafe(s[1..])
  }

  /** Drops the underscores at the front of `s`. */
  function DropLeadingUnderscores(s: string): (r: string)
    ensures |r| <= |s|
    ensures r == [] || r[0] != '_'
    ensures r == s[|s| - |r|..]
  {
    if s != [] && s[0] == '_' then DropLeadingUnderscores(s[1..]) else s
  }

  /** `replace(/_{2,}/, '_')`: the leftmost match, taken greedily. */
  function CollapseFirstRun(s: string): (r: string)
    ensures |r| <= |s|
  {
    if |s| < 2 then s
    else if s[0] == '_' && s[1] == '_' then "_" + DropLeadingUnderscores(s)
    else [s[0]] + CollapseFirstRun(s[1..])
  }

  /** The whole sanitizer, `transformSafeName(toolName)`. */
  function TransformSafeName(name: string): (r: string)
    ensures |r| <= |name|
    ensures forall k :: 0 <= k < |r| ==> !IsUpperAscii(r[k])
  {
    var lowered := ToLower(name);
    var r := CollapseFirstRun(StripFirstUnsafe(ReplaceFirstHyphen(lowered)));
    ReplaceFirstHyphenChars(lowered);
    StripFirstUnsafeChars(ReplaceFirstHyphen(lowered));
    CollapseFirstRunChars(StripFirstUnsafe(ReplaceFirstHyphen(lowered)));
    assert forall c :: c in lowered ==> !IsUpperAscii(c);
    assert forall k :: 0 <= k < |r| ==> r[k] in lowered || r[k] == '_';
    r
  }

  // ---------------------------------------------------------------------
  // No step brings in a character of its own, apart from the `_` of the hyphen step.

  lemma {:induction false} ReplaceFirstHyphenChars(s: string)
    ensures forall c :: c in ReplaceFirstHyphen(s) ==> c in s || c == '_'
    decreases |s|
  {
    if s != [] && s[0] != '-' {
      ReplaceFirstHyphenChars(s[1..]);
    }
  }

  lemma {:induction false} StripFirstUnsafeChars(s: string)
    ensures forall c :: c in StripFirstUnsafe(s) ==> c in s
    decreases |s|
  {
    if s != [] && IsSafeChar(s[0]) {
      StripFirstUnsafeChars(s[1..]);
    }
  }

  lemma {:induction false} CollapseFirstRunChars(s: string)
    ensures forall c :: c in CollapseFirstRun(s) ==> c in s
    decreases |s|
  {
    if |s| >= 2 && !(s[0] == '_' && s[1] == '_') {
      CollapseFirstRunChars(s[1..]);
    }
  }

  // ---------------------------------------------------------------------
  // Each step rewrites at most its first match.

  /** `i` is the position of the first hyphen of `s`. */
  predicate IsFirstHyphen(s: string, i: int) {
    0 <= i < |s| && s[i] == '-' && forall k :: 0 <= k < i ==> s[k] != '-'
  }

  lemma {:induction false} ReplaceFirstHyphenAt(s: string, i: int)
    requires IsFirstHyphen(s, i)
    ensures ReplaceFirstHyphen(s) == s[..i] + "_" + s[i + 1..]
    decreases |s|
  {
    if i > 0 {
      assert IsFirstHyphen(s[1..], i - 1);
      ReplaceFirstHyphenAt(s[1..], i - 1);
      assert s[..i] == [s[0]] + s[1..][..i - 1];
    }
  }

  lemma {:induction false} ReplaceFirstHyphenNone(s: string)
    requires '-' !in s
    ensures ReplaceFirstHyphen(s) == s
    decreases |s|
  {
    if s != [] {
      assert s[0] != '-';
      ReplaceFirstHyphenNone(s[1..]);
    }
  }

  /** `i` is the position of the first character of `s` outside [a-z0-9_]. */
  predicate IsFirstUnsafe(s: string, i: int) {
    0 <= i < |s| && !IsSafeChar(s[i]) && forall k :: 0 <= k < i ==> IsSafeChar(s[k])
  }

  /** The strip step deletes exactly the first unsafe character... */
  lemma {:induction false} StripFirstUnsafeAt(s: string, i: int)
    requires IsFirstUnsafe(s, i)
    ensures StripFirstUnsafe(s) == s[..i] + s[i + 1..]
    decreases |s|
  {
    if i > 0 {
      assert IsFirstUnsafe(s[1..], i - 1);
      StripFirstUnsafeAt(s[1..], i - 1);
      assert s[..i] == [s[0]] + s[1..][..i - 1];
    }
  }

  /** ...and leaves a string without one alone. */
  lemma {:induction false} StripFirstUnsafeNone(s: string)
    requires forall k :: 0 <= k < |s| ==> IsSafeChar(s[k])
    ensures StripFirstUnsafe(s) == s
    decreases |s|
  {
    if s != [] {
      StripFirstUnsafeNone(s[1..]);
    }
  }

  /**
   * `s[i..j]` is the first run of two or more underscores in `s`: it starts
   * at the first position where two underscores meet and is as long as
   * possible.
   */
  predicate IsFirstRun(s: string, i: int, j: int) {
    && 0 <= i && i + 2 <= j <= |s|
    && (forall k :: i <= k < j ==> s[k] == '_')
    && (j == |s| || s[j] != '_')
    && (forall k :: 0 <= k < i ==> !IsDoubleUnderscore(s, k))
  }

  lemma {:induction false} DropLeadingUnderscoresAt(s: string, j: int)
    requires 0 <= j <= |s|
    requires forall k :: 0 <= k < j ==> s[k] == '_'
    requires j == |s| || s[j] != '_'
    ensures DropLeadingUnderscores(s) == s[j..]
    decreases |s|
  {
    if j > 0 {
      DropLeadingUnderscoresAt(s[1..], j - 1);
    }
  }

  lemma {:induction false} CollapseFirstRunAt(s: string, i: int, j: int)
    requires IsFirstRun(s, i, j)
    ensures CollapseFirstRun(s) == s[..i] + "_" + s[j..]
    decreases |s|
  {
    if i == 0 {
      CollapseRunAtFront(s, i, j);
    } else {
      FirstRunInTail(s, i, j);
      CollapseFirstRunAt(s[1..], i - 1, j - 1);
    }
  }

  /** A run of underscores at the very front becomes one underscore. */
  lemma CollapseRunAtFront(s: string, i: int, j: int)
    requires IsFirstRun(s, i, j) && i == 0
    ensures CollapseFirstRun(s) == s[..i] + "_" + s[j..]
  {
    assert s[0] == '_' && s[1] == '_';
    DropLeadingUnderscoresAt(s, j);
  }

  /**
   * A first run that does not start at 0 is also the first run of the tail,
   * one place earlier, and the rewrite happens behind `s[0]`.
   */
  lemma FirstRunInTail(s: string, i: int, j: int)
    requires IsFirstRun(s, i, j) && i > 0
    ensures IsFirstRun(s[1..], i - 1, j - 1)
    ensures CollapseFirstRun(s) == [s[0]] + CollapseFirstRun(s[1..])
    ensures s[..i] + "_" + s[j..] == [s[0]] + (s[1..][..i - 1] + "_" + s[1..][j - 1..])
  {
    FirstRunOfTail(s, i, j);
    assert !IsDoubleUnderscore(s, 0);
    ConsSplice(s, i, j);
  }

  lemma FirstRunOfTail(s: string, i: int, j: int)
    requires IsFirstRun(s, i, j) && i > 0
    ensures IsFirstRun(s[1..], i - 1, j - 1)
  {
    var t := s[1..];
    forall k | i - 1 <= k < j - 1 ensures t[k] == '_' {
      assert t[k] == s[k + 1];
    }
    forall k | 0 <= k < i - 1 ensures !IsDoubleUnderscore(t, k) {
      assert !IsDoubleUnderscore(s, k + 1);
    }
  }

  /** Splicing `_` into `s` is the same as splicing it into the tail behind `s[0]`. */
  lemma ConsSplice(s: string, i: int, j: int)
    requires 0 < i <= j <= |s|
    ensures s[..i] + "_" + s[j..] == [s[0]] + (s[1..][..i - 1] + "_" + s[1..][j - 1..])
  {
    assert s[..i] == [s[0]] + s[1..][..i - 1];
    assert s[j..] == s[1..][j - 1..];
  }

  lemma {:induction false} CollapseFirstRunNone(s: string)
    requires forall k :: 0 <= k < |s| ==> !IsDoubleUnderscore(s, k)
    ensures CollapseFirstRun(s) == s
    decreases |s|
  {
    if |s| >= 2 {
      assert !IsDoubleUnderscore(s, 0);
      forall k | 0 <= k < |s| - 1 ensures !IsDoubleUnderscore(s[1..], k) {
        assert !IsDoubleUnderscore(s, k + 1);
      }
      CollapseFirstRunNone(s[1..]);
    }
  }

  // ---------------------------------------------------------------------
  // Properties of the whole sanitizer.

  /** A name that lower-cases to a clean name comes back lower-cased and otherwise unchanged. */
  lemma CleanOnceLowered(name: string)
    requires IsCleanName(ToLower(name))
    ensures TransformSafeName(name) == ToLower(name)
  {
    var s := ToLower(name);
    assert '-' !in s by {
      forall k | 0 <= k < |s| ensures s[k] != '-' {
        assert IsSafeChar(s[k]);
      }
    }
    ReplaceFirstHyphenNone(s);
    StripFirstUnsafeNone(s);
    CollapseFirstRunNone(s);
  }

  /** A name that is already clean comes back unchanged. */
  lemma CleanNameUnchanged(s: string)
    requires IsCleanName(s)
    ensures TransformSafeName(s) == s
  {
    assert forall k :: 0 <= k < |s| ==> !IsUpperAscii(s[k]);
    assert ToLower(s) == s;
    CleanOnceLowered(s);
  }

  lemma LowerDateAndTime()
    ensures ToLower("Date_&_Time") == "date_&_time"
  {
    var lowered := ToLower("Date_&_Time");
    forall k | 0 <= k < 11 ensures lowered[k] == "date_&_time"[k] {
      assert lowered[k] == LowerChar("Date_&_Time"[k]);
    }
  }

  lemma HyphenDateAndTime()
    ensures ReplaceFirstHyphen("date_&_time") == "date_&_time"
  {
    ReplaceFirstHyphenNone("date_&_time");
  }

  lemma StripDateAndTime()
    ensures StripFirstUnsafe("date_&_time") == "date__time"
  {
    assert IsFirstUnsafe("date_&_time", 5);
    StripFirstUnsafeAt("date_&_time", 5);
  }

  lemma CollapseDateAndTime()
    ensures CollapseFirstRun("date__time") == "date_time"
  {
    DateAndTimeRun();
    CollapseFirstRunAt("date__time", 4, 6);
    DateAndTimeSplice();
  }

  lemma DateAndTimeRun()
    ensures IsFirstRun("date__time", 4, 6)
  {
  }

  lemma DateAndTimeSplice()
    ensures "date__time"[..4] + "_" + "date__time"[6..] == "date_time"
  {
  }

  /** The example in the source's comment: "Date_&_Time" becomes "date_time". */
  lemma DateAndTimeExample()
    ensures TransformSafeName("Date_&_Time") == "date_time"
  {
    LowerDateAndTime();
    HyphenDateAndTime();
    StripDateAndTime();
    CollapseDateAndTime();
  }

  /**
   * Because each replace rewrites only its first match, the sanitizer does
   * not remove every unsafe character and is not idempotent: "a&&b" loses
   * one ampersand, and sanitizing the result again loses the other.
   */
  lemma FirstMatchOnlyExample()
    ensures TransformSafeName("a&&b") == "a&b"
    ensures TransformSafeName(TransformSafeName("a&&b")) == "ab"
    ensures !IsCleanName(TransformSafeName("a&&b"))
  {
    SanitizeDoubleAmpersand();
    SanitizeSingleAmpersand();
    assert !IsSafeChar("a&b"[1]);
  }

  lemma SanitizeDoubleAmpersand()
    ensures TransformSafeName("a&&b") == "a&b"
  {
    ReplaceFirstHyphenNone("a&&b");
    assert IsFirstUnsafe("a&&b", 1);
    StripFirstUnsafeAt("a&&b", 1);
    CollapseFirstRunNone("a&b");
  }

  lemma SanitizeSingleAmpersand()
    ensures TransformSafeName("a&b") == "ab"
  {
    ReplaceFirstHyphenNone("a&b");
    assert IsFirstUnsafe("a&b", 1);
    StripFirstUnsafeAt("a&b", 1);
    CollapseFirstRunNone("ab");
  }

  lemma LowerSpacedName()
    ensures ToLower("Date & Time") == "date & time"
  {
    var lowered := ToLower("Date & Time");
    forall k | 0 <= k < 11 ensures lowered[k] == "date & time"[k] {
      assert lowered[k] == LowerChar("Date & Time"[k]);
    }
  }

  lemma HyphenSpacedName()
    ensures ReplaceFirstHyphen("date & time") == "date & time"
  {
    ReplaceFirstHyphenNone("date & time");
  }

  lemma StripSpacedName()
    ensures StripFirstUnsafe("date & time") == "date& time"
  {
    assert IsFirstUnsafe("date & time", 4);
    StripFirstUnsafeAt("date & time", 4);
  }

  lemma CollapseSpacedName()
    ensures CollapseFirstRun("date& time") == "date& time"
  {
    CollapseFirstRunNone("date& time");
  }

  /** A name with a space keeps all but its first space: "Date & Time" becomes "date& time". */
  lemma SpacedNameExample()
    ensures TransformSafeName("Date & Time") == "date& time"
  {
    LowerSpacedName();
    HyphenSpacedName();
    StripSpacedName();
    CollapseSpacedName();
  }

  lemma LowerLength()
    ensures ToLower("Length") == "length"
  {
    var lowered := ToLower("Length");
    forall k | 0 <= k < 6 ensures lowered[k] == "length"[k] {
      assert lowered[k] == LowerChar("Length"[k]);
    }
  }

  /** A tool named "Length" is given the filter name "length". */
  lemma LengthExample()
    ensures TransformSafeName("Length") == "length"
  {
    LowerLength();
    assert IsCleanName("length");
    CleanOnceLowered("Length");
  }
}
