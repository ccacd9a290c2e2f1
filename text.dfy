/**
 * String helpers shared by the validators and the services: JavaScript's
 * `String.prototype.trim`, `startsWith`, `split(' ')`, ASCII character classes
 * and case-insensitive substring search.
 */
module Text {
  import opened Wrappers

  /** JavaScript truthiness of an optional string: present and not empty. */
  predicate Truthy(o: Option<string>) {
    o.Some? && o.value != ""
  }

  /** The white space and line terminators that `String.prototype.trim` removes. */
  predicate IsSpace(c: char) {
    || c in {' ', '\t', '\n', '\r', '\U{B}', '\U{C}', '\U{A0}', '\U{1680}',
             '\U{2028}', '\U{2029}', '\U{202F}', '\U{205F}', '\U{3000}', '\U{FEFF}'}
    || ('\U{2000}' <= c <= '\U{200A}')
  }

  predicate IsLower(c: char) { 'a' <= c <= 'z' }
  predicate IsUpper(c: char) { 'A' <= c <= 'Z' }
  predicate IsDigit(c: char) { '0' <= c <= '9' }
  predicate IsAlnum(c: char) { IsLower(c) || IsUpper(c) || IsDigit(c) }
  predicate IsHexDigit(c: char) { IsDigit(c) || 'a' <= c <= 'f' || 'A' <= c <= 'F' }

  /**
   * A document identifier: 24 hexadecimal digits, as `isMongoId` accepts it.
   * This approximates `ObjectId.isValid`, which also accepts any 12-character
   * string and integers.
   */
  predicate IsObjectId(s: string) {
    |s| == 24 && forall i :: 0 <= i < |s| ==> IsHexDigit(s[i])
  }

  /** Every character of `s` is an ASCII letter or digit (Joi `alphanum`, `[a-zA-Z0-9]`). */
  predicate AllAlnum(s: string) {
    forall i :: 0 <= i < |s| ==> IsAlnum(s[i])
  }

  function TrimStart(s: string): (r: string)
    ensures |r| <= |s|
    ensures r == [] || !IsSpace(r[0])
  {
    if |s| > 0 && IsSpace(s[0]) then TrimStart(s[1..]) else s
  }

  /** `TrimStart` only drops characters from the front. */
  lemma {:induction false} TrimStartIsSuffix(s: string)
    ensures TrimStart(s) == s[|s| - |TrimStart(s)|..]
  {
    if |s| > 0 && IsSpace(s[0]) {
      TrimStartIsSuffix(s[1..]);
    }
  }

  function TrimEnd(s: string): (r: string)
    ensures |r| <= |s|
    ensures r == [] || !IsSpace(r[|r| - 1])
  {
    if |s| > 0 && IsSpace(s[|s| - 1]) then TrimEnd(s[..|s| - 1]) else s
  }

  /** Neither end of `s` is white space. */
  predicate IsTrimmed(s: string) {
    s == [] || (!IsSpace(s[0]) && !IsSpace(s[|s| - 1]))
  }

  /** `s.trim()`: the result is a piece of `s` that neither starts nor ends with white space. */
  function Trim(s: string): (r: string)
    ensures |r| <= |s|
    ensures IsTrimmed(r)
  {
    var u := TrimStart(s);
    assert u != [] ==> TrimEnd(u) != [] && TrimEnd(u)[0] == u[0] by {
      if u != [] { TrimEndKeepsNonSpaceHead(u); }
    }
    TrimEnd(u)
  }

  /** Trimming leaves a string alone exactly when it is already trimmed. */
  lemma TrimFixesExactlyTrimmed(s: string)
    ensures Trim(s) == s <==> IsTrimmed(s)
  {
    if IsTrimmed(s) && s != [] {
      assert TrimStart(s) == s;
      assert TrimEnd(s) == s;
    }
  }

  /** Trimming twice is trimming once. */
  lemma TrimIdempotent(s: string)
    ensures Trim(Trim(s)) == Trim(s)
  {
    var t := Trim(s);
    if t != [] {
      assert TrimStart(t) == t;
      assert TrimEnd(t) == t;
    }
  }

  /** A string trims to nothing exactly when it is all white space. */
  lemma {:induction false} TrimEmptyIff(s: string)
    ensures Trim(s) == [] <==> forall i :: 0 <= i < |s| ==> IsSpace(s[i])
  {
    TrimStartEmptyIff(s);
    var u := TrimStart(s);
    if u != [] {
      TrimStartIsSuffix(s);
      TrimEndKeepsNonSpaceHead(u);
      assert !IsSpace(s[|s| - |u|]);
    }
  }

  lemma {:induction false} TrimStartEmptyIff(s: string)
    ensures TrimStart(s) == [] <==> forall i :: 0 <= i < |s| ==> IsSpace(s[i])
  {
    if |s| > 0 && IsSpace(s[0]) {
      TrimStartEmptyIff(s[1..]);
      assert forall i :: 1 <= i < |s| ==> s[i] == s[1..][i - 1];
    }
  }

  /** `TrimEnd` keeps a first character that is not white space. */
  lemma {:induction false} TrimEndKeepsNonSpaceHead(u: string)
    requires u != [] && !IsSpace(u[0])
    ensures TrimEnd(u) != [] && TrimEnd(u)[0] == u[0]
  {
    if IsSpace(u[|u| - 1]) {
      TrimEndKeepsNonSpaceHead(u[..|u| - 1]);
    }
  }

  /** `s.startsWith(p)`. */
  predicate StartsWith(s: string, p: string) {
    |p| <= |s| && s[..|p|] == p
  }

  /** `s.split(sep)` for a one-character separator: never empty, no field holds the separator. */
  function Split(s: string, sep: char): (r: seq<string>)
    ensures |r| >= 1
    ensures forall i :: 0 <= i < |r| ==> sep !in r[i]
  {
    if |s| == 0 then [""]
    else
      var rest := Split(s[1..], sep);
      if s[0] == sep then [""] + rest
      else [[s[0]] + rest[0]] + rest[1..]
  }

  /** `parts.join(sep)`. */
  function Join(parts: seq<string>, sep: char): string {
    if |parts| == 0 then ""
    else if |parts| == 1 then parts[0]
    else parts[0] + [sep] + Join(parts[1..], sep)
  }

  /** Splitting and joining with the same separator gives the string back. */
  lemma {:induction false} JoinSplit(s: string, sep: char)
    ensures Join(Split(s, sep), sep) == s
  {
    if |s| > 0 {
      var rest := Split(s[1..], sep);
      JoinSplit(s[1..], sep);
      if s[0] == sep {
        assert Split(s, sep) == [""] + rest;
        assert ([""] + rest)[1..] == rest;
      } else if |rest| == 1 {
        assert Split(s, sep) == [[s[0]] + rest[0]];
      } else {
        var parts := [[s[0]] + rest[0]] + rest[1..];
        assert Split(s, sep) == parts;
        assert parts[1..] == rest[1..];
        assert Join(rest, sep) == rest[0] + [sep] + Join(rest[1..], sep);
        assert s == [s[0]] + s[1..];
      }
    }
  }

  /** A field free of the separator, then the separator, splits into that field followed by the rest's fields. */
  lemma {:induction false} SplitAfterField(field: string, sep: char, rest: string)
    requires sep !in field
    ensures Split(field + [sep] + rest, sep) == [field] + Split(rest, sep)
  {
    if field == [] {
      assert [] + [sep] + rest == [sep] + rest;
      assert ([sep] + rest)[1..] == rest;
    } else {
      var s := field + [sep] + rest;
      assert s[0] == field[0];
      assert s[1..] == field[1..] + [sep] + rest;
      SplitAfterField(field[1..], sep, rest);
      assert [field[0]] + field[1..] == field;
    }
  }

  /** A string free of the separator is a single field. */
  lemma {:induction false} SplitWithoutSeparator(s: string, sep: char)
    requires sep !in s
    ensures Split(s, sep) == [s]
  {
    if |s| > 0 {
      SplitWithoutSeparator(s[1..], sep);
      assert [s[0]] + s[1..] == s;
    }
  }

  /** Whether `needle` occurs in `hay` starting at index `i`. */
  predicate OccursAt(hay: string, needle: string, i: int) {
    0 <= i && i + |needle| <= |hay| && hay[i..i + |needle|] == needle
  }

  /** Substring search, `hay.includes(needle)`. */
  function Contains(hay: string, needle: string): bool
    decreases |hay|
  {
    StartsWith(hay, needle) || (|hay| > 0 && Contains(hay[1..], needle))
  }

  /** `Contains` finds exactly the occurrences of the needle. */
  lemma {:induction false} ContainsIff(hay: string, needle: string)
    ensures Contains(hay, needle) <==> exists i :: OccursAt(hay, needle, i)
    decreases |hay|
  {
    assert StartsWith(hay, needle) <==> OccursAt(hay, needle, 0) by {
      if |needle| <= |hay| { assert hay[..|needle|] == hay[0..0 + |needle|]; }
    }
    if |hay| > 0 {
      ContainsIff(hay[1..], needle);
      forall i | 1 <= i && OccursAt(hay, needle, i) ensures OccursAt(hay[1..], needle, i - 1) {
        assert hay[1..][i - 1..i - 1 + |needle|] == hay[i..i + |needle|];
      }
      forall i | OccursAt(hay[1..], needle, i) ensures OccursAt(hay, needle, i + 1) {
        assert hay[i + 1..i + 1 + |needle|] == hay[1..][i..i + |needle|];
      }
    }
  }

  /**
   * Simple case folding of the Latin letters: ASCII, Latin-1 Supplement and
   * Latin Extended-A, which hold every letter of the FAQ languages. Each
   * capital maps to its small letter; every other character is unchanged.
   * The capitals: A-Z; À-Þ except ×; in Latin Extended-A the first of each
   * capital/small pair, and Ÿ, whose small letter ÿ is in Latin-1.
   */
  predicate IsLatinCapital(c: char) {
    var n := c as int;
    || IsUpper(c)
    || (0xC0 <= n <= 0xDE && n != 0xD7)
    || ((0x100 <= n <= 0x12F || 0x132 <= n <= 0x137 || 0x14A <= n <= 0x177) && n % 2 == 0)
    || ((0x139 <= n <= 0x148 || 0x179 <= n <= 0x17E) && n % 2 == 1)
    || n == 0x178
  }

  /** The fold of one character: a Latin capital becomes its small letter, and nothing else changes. */
  function LowerChar(c: char): (r: char)
    ensures IsUpper(c) ==> r == (c as int + 32) as char
    ensures 0xC0 <= c as int <= 0xDE && c as int != 0xD7 ==> r as int == c as int + 32
    ensures ((0x100 <= c as int <= 0x12F || 0x132 <= c as int <= 0x137 || 0x14A <= c as int <= 0x177)
      && c as int % 2 == 0) ==> r as int == c as int + 1
    ensures (0x139 <= c as int <= 0x148 || 0x179 <= c as int <= 0x17E) && c as int % 2 == 1 ==>
      r as int == c as int + 1
    ensures c as int == 0x178 ==> r as int == 0xFF
    ensures r != c <==> IsLatinCapital(c)
    ensures IsLower(r) ==> IsLower(c) || IsUpper(c)
    ensures c as int >= 0x180 ==> r == c
  {
    var n := c as int;
    if IsUpper(c) || (0xC0 <= n <= 0xDE && n != 0xD7) then (n + 32) as char
    else if (0x100 <= n <= 0x12F || 0x132 <= n <= 0x137 || 0x14A <= n <= 0x177) && n % 2 == 0 then (n + 1) as char
    else if (0x139 <= n <= 0x148 || 0x179 <= n <= 0x17E) && n % 2 == 1 then (n + 1) as char
    else if n == 0x178 then 0xFF as char
    else c
  }

  function Lower(s: string): (r: string)
    ensures |r| == |s|
  {
    seq(|s|, i requires 0 <= i < |s| => LowerChar(s[i]))
  }

  /** Folding is idempotent: a small letter is its own fold. */
  lemma LowerIdempotent(s: string)
    ensures Lower(Lower(s)) == Lower(s)
  {
    forall i | 0 <= i < |s| ensures LowerChar(LowerChar(s[i])) == LowerChar(s[i]) {
    }
  }

  /** Case-insensitive search for a literal query. */
  predicate ContainsIgnoringCase(hay: string, needle: string) {
    Contains(Lower(hay), Lower(needle))
  }

  /** An exact occurrence is also an occurrence ignoring case. */
  lemma ContainsIgnoringCaseOfContains(hay: string, needle: string)
    requires Contains(hay, needle)
    ensures ContainsIgnoringCase(hay, needle)
  {
    ContainsIff(hay, needle);
    var i :| OccursAt(hay, needle, i);
    assert Lower(hay)[i..i + |needle|] == Lower(needle) by {
      forall j | 0 <= j < |needle| ensures Lower(hay)[i..i + |needle|][j] == Lower(needle)[j] {
        assert hay[i..i + |needle|][j] == needle[j];
      }
    }
    assert OccursAt(Lower(hay), Lower(needle), i);
    ContainsIff(Lower(hay), Lower(needle));
  }

  /** Accented capitals fold too: the query "é" finds "École". */
  lemma FoldsAccentedCapitals()
    ensures ContainsIgnoringCase("\U{C9}cole", "\U{E9}")
    ensures ContainsIgnoringCase("\U{152}uvre", "\U{153}u")
  {
    assert StartsWith(Lower("\U{C9}cole"), Lower("\U{E9}"));
    assert StartsWith(Lower("\U{152}uvre"), Lower("\U{153}u"));
  }

  /**
   * The shape of an e-mail address: one `@`, a non-empty local part, a dotted
   * domain of non-empty labels, no spaces.
   */
  predicate IsEmailAddress(s: string) {
    var parts := Split(s, '@');
    && ' ' !in s
    && |parts| == 2
    && parts[0] != ""
    && var labels := Split(parts[1], '.');
       && |labels| >= 2
       && forall i :: 0 <= i < |labels| ==> labels[i] != ""
  }
}
