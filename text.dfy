/**
 * String operations of JavaScript that the core relies on, over `string` (= `seq<char>`):
 * `includes`, `indexOf`, `startsWith`, `replace` with a string pattern, `split` on one
 * character and `Array.prototype.join`.
 */
module Text {
  import opened Wrappers

  predicate IsDigit(c: char) { '0' <= c <= '9' }

  predicate IsAsciiLetter(c: char) { 'a' <= c <= 'z' || 'A' <= c <= 'Z' }

  predicate IsAlnum(c: char) { IsDigit(c) || IsAsciiLetter(c) }

  /** `pat` occurs in `text` starting at index `i`. */
  predicate OccursAt(text: string, pat: string, i: nat) {
    i + |pat| <= |text| && text[i..i + |pat|] == pat
  }

  /** `pat` occurs somewhere in `text`. */
  ghost predicate Occurs(text: string, pat: string) {
    exists i: nat :: OccursAt(text, pat, i)
  }

  /** `text.indexOf(pat, from)`: the first occurrence at or after `from`. */
  function IndexOfFrom(text: string, pat: string, from: nat): (r: Option<nat>)
    decreases |text| - from
    ensures r.Some? ==> from <= r.value && OccursAt(text, pat, r.value)
    ensures r.Some? ==> forall j: nat :: from <= j < r.value ==> !OccursAt(text, pat, j)
    ensures r.None? ==> forall j: nat :: from <= j ==> !OccursAt(text, pat, j)
  {
    if from + |pat| > |text| then None
    else if text[from..from + |pat|] == pat then Some(from)
    else IndexOfFrom(text, pat, from + 1)
  }

  /** `text.indexOf(pat)`. */
  function IndexOf(text: string, pat: string): (r: Option<nat>)
    ensures r.Some? <==> Occurs(text, pat)
    ensures r.Some? ==> OccursAt(text, pat, r.value)
    ensures r.Some? ==> forall j: nat :: j < r.value ==> !OccursAt(text, pat, j)
  {
    IndexOfFrom(text, pat, 0)
  }

  /** `text.includes(pat)`. */
  function Includes(text: string, pat: string): (b: bool)
    ensures b <==> Occurs(text, pat)
  {
    IndexOf(text, pat).Some?
  }

  /** `text.startsWith(pat)`. */
  predicate StartsWith(text: string, pat: string) {
    |pat| <= |text| && text[..|pat|] == pat
  }

  /** `text.replace(pat, rep)` with a string pattern: only the first occurrence is replaced. */
  function ReplaceFirst(text: string, pat: string, rep: string): (r: string)
    ensures !Occurs(text, pat) ==> r == text
    ensures forall i: nat ::
      OccursAt(text, pat, i) && (forall j: nat :: j < i ==> !OccursAt(text, pat, j)) ==>
      r == text[..i] + rep + text[i + |pat|..]
  {
    match IndexOf(text, pat)
    case None => text
    case Some(i) =>
      assert forall k: nat :: OccursAt(text, pat, k) && (forall j: nat :: j < k ==> !OccursAt(text, pat, j)) ==> k == i;
      text[..i] + rep + text[i + |pat|..]
  }

  /** A first character outside `prefix` cannot start an occurrence that straddles the join. */
  lemma {:induction false} IncludesAfterPrefix(prefix: string, rest: string, pat: string)
    requires |pat| > 0 && pat[0] !in prefix
    ensures Includes(prefix + rest, pat) <==> Includes(rest, pat)
  {
    var text := prefix + rest;
    if Occurs(text, pat) {
      var i: nat :| OccursAt(text, pat, i);
      assert text[i] == pat[0];
      assert i >= |prefix|;
      assert text[i..i + |pat|] == rest[i - |prefix|..i - |prefix| + |pat|];
      assert OccursAt(rest, pat, i - |prefix|);
    }
    if Occurs(rest, pat) {
      var i: nat :| OccursAt(rest, pat, i);
      assert text[|prefix| + i..|prefix| + i + |pat|] == rest[i..i + |pat|];
      assert OccursAt(text, pat, |prefix| + i);
    }
  }

  /** An occurrence in `rest` is an occurrence in `prefix + rest`. */
  lemma IncludesInSuffix(prefix: string, rest: string, pat: string)
    requires Includes(rest, pat)
    ensures Includes(prefix + rest, pat)
  {
    var i: nat :| OccursAt(rest, pat, i);
    assert (prefix + rest)[|prefix| + i..|prefix| + i + |pat|] == rest[i..i + |pat|];
    assert OccursAt(prefix + rest, pat, |prefix| + i);
  }

  /** An occurrence in `front` is an occurrence in `front + back`. */
  lemma IncludesInPrefix(front: string, back: string, pat: string)
    requires Includes(front, pat)
    ensures Includes(front + back, pat)
  {
    var i: nat :| OccursAt(front, pat, i);
    assert (front + back)[i..i + |pat|] == front[i..i + |pat|];
    assert OccursAt(front + back, pat, i);
  }

  /** A prefix of `a` is a prefix of anything that starts with `a`. */
  lemma StartsWithConcat(a: string, b: string, pat: string)
    requires StartsWith(a, pat)
    ensures StartsWith(a + b, pat)
  {
    assert (a + b)[..|pat|] == a[..|pat|];
  }

  /** A common lead does not change whether one text starts with another. */
  lemma StartsWithCommon(lead: string, a: string, b: string)
    ensures StartsWith(lead + a, lead + b) <==> StartsWith(a, b)
  {
    if |b| <= |a| {
      assert (lead + a)[..|lead + b|] == lead + a[..|b|];
      if (lead + a)[..|lead + b|] == lead + b {
        assert (lead + a[..|b|])[|lead|..] == a[..|b|];
        assert (lead + b)[|lead|..] == b;
      }
    }
  }

  /** Texts whose first characters differ do not start one another. */
  lemma DifferentFirst(a: string, b: string, pat: string)
    requires |a| > 0 && |pat| > 0 && a[0] != pat[0]
    ensures !StartsWith(a + b, pat)
  {
    assert (a + b)[0] == a[0];
  }

  /** No occurrence starts where the text differs from the first character of `pat`. */
  lemma MismatchAt(text: string, pat: string, i: nat)
    requires i < |text| && |pat| > 0 && text[i] != pat[0]
    ensures !OccursAt(text, pat, i)
  {
    if i + |pat| <= |text| {
      assert text[i..i + |pat|][0] == text[i];
    }
  }

  /** `parts.join(sep)`. */
  function Join(parts: seq<string>, sep: string): string {
    if |parts| == 0 then ""
    else if |parts| == 1 then parts[0]
    else parts[0] + sep + Join(parts[1..], sep)
  }

  /** `s.split(sep)` for a one-character separator; joining the parts gives `s` back. */
  function Split(s: string, sep: char): (parts: seq<string>)
    decreases |s|
    ensures |parts| >= 1
    ensures forall p :: p in parts ==> sep !in p
    ensures Join(parts, [sep]) == s
  {
    if s == [] then [""]
    else
      var rest := Split(s[1..], sep);
      if s[0] == sep then
        assert s == [sep] + s[1..];
        [""] + rest
      else
        var first := [s[0]] + rest[0];
        assert forall p :: p in [first] + rest[1..] ==> p == first || p in rest;
        if |rest| == 1 then
          assert s == [s[0]] + rest[0];
          [first]
        else
          assert Join(rest, [sep]) == rest[0] + [sep] + Join(rest[1..], [sep]);
          assert s == [s[0]] + Join(rest, [sep]);
          assert ([first] + rest[1..])[1..] == rest[1..];
          [first] + rest[1..]
  }

  /** Splitting stops at the first separator. */
  lemma {:induction false} SplitAfterFirst(a: string, sep: char, b: string)
    requires sep !in a
    ensures Split(a + [sep] + b, sep) == [a] + Split(b, sep)
    decreases |a|
  {
    if a == [] {
      assert a + [sep] + b == [sep] + b;
      assert ([sep] + b)[1..] == b;
    } else {
      var s := a + [sep] + b;
      assert s[0] == a[0] && s[0] != sep;
      assert s[1..] == a[1..] + [sep] + b;
      SplitAfterFirst(a[1..], sep, b);
      var rest := Split(s[1..], sep);
      assert rest == [a[1..]] + Split(b, sep);
      assert Split(s, sep) == [[s[0]] + rest[0]] + rest[1..];
      assert [a[0]] + a[1..] == a;
    }
  }

  /** A string without the separator is a single part. */
  lemma {:induction false} SplitWithoutSeparator(a: string, sep: char)
    requires sep !in a
    ensures Split(a, sep) == [a]
    decreases |a|
  {
    if a != [] {
      SplitWithoutSeparator(a[1..], sep);
      assert [a[0]] + a[1..] == a;
    }
  }

  /** Splitting a join of separator-free parts recovers the parts. */
  lemma {:induction false} SplitJoin(parts: seq<string>, sep: char)
    requires |parts| >= 1
    requires forall p :: p in parts ==> sep !in p
    ensures Split(Join(parts, [sep]), sep) == parts
    decreases |parts|
  {
    if |parts| == 1 {
      SplitWithoutSeparator(parts[0], sep);
    } else {
      assert parts[0] in parts;
      assert forall p :: p in parts[1..] ==> p in parts;
      SplitJoin(parts[1..], sep);
      SplitAfterFirst(parts[0], sep, Join(parts[1..], [sep]));
      assert [parts[0]] + parts[1..] == parts;
    }
  }
}
