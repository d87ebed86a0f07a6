/**
 * Value types and string helpers shared by every module of the model:
 * optional values, results of operations that can throw, and the handful
 * of JavaScript string operations the bot relies on (`startsWith`,
 * `split`, `join`, ASCII case mapping, number formatting).
 */
module Common {

  datatype Option<T> = None | Some(value: T)

  /** The outcome of an operation that may throw; `error` is the thrown message or code. */
  datatype Result<T> = Ok(value: T) | Err(error: string)

  /** The kinds of Discord interaction the handlers tell apart. */
  datatype InteractionKind =
    | ChatCommand
    | Button
    | StringSelect
    | UserSelect
    | RoleSelect
    | MentionableSelect
    | ChannelSelect
    | ModalSubmit
    | Autocomplete

  predicate IsAnySelectMenu(k: InteractionKind)
  {
    k == StringSelect || k == UserSelect || k == RoleSelect || k == MentionableSelect || k == ChannelSelect
  }

  /** Buttons and select menus, as `isMessageComponent()` reports them. */
  predicate IsMessageComponent(k: InteractionKind)
  {
    k == Button || IsAnySelectMenu(k)
  }

  /** Index of the first element satisfying `p`, as `findFirst` / `find` return it. */
  function FirstIndex<T>(s: seq<T>, p: T -> bool): (r: Option<nat>)
    ensures r.Some? ==> r.value < |s| && p(s[r.value]) && forall j :: 0 <= j < r.value ==> !p(s[j])
    ensures r.None? ==> forall j :: 0 <= j < |s| ==> !p(s[j])
  {
    if |s| == 0 then None
    else if p(s[0]) then Some(0)
    else match FirstIndex(s[1..], p)
      case None => None
      case Some(k) => Some(k + 1)
  }

  /** The first element satisfying `p`, or `None`. */
  function FindFirst<T>(s: seq<T>, p: T -> bool): (r: Option<T>)
    ensures r.Some? ==> r.value in s && p(r.value)
    ensures r.None? <==> forall x :: x in s ==> !p(x)
  {
    match FirstIndex(s, p)
    case None => None
    case Some(k) => Some(s[k])
  }

  /** `values?.[0]`: the first selected value of a menu, if any. */
  function FirstValue(values: Option<seq<string>>): (v: Option<string>)
    ensures v.Some? <==> values.Some? && |values.value| > 0
    ensures v.Some? ==> v.value == values.value[0]
  {
    if values.Some? && |values.value| > 0 then Some(values.value[0]) else None
  }

  /** JavaScript `s.startsWith(p)`. */
  predicate StartsWith(s: string, p: string)
  {
    |p| <= |s| && s[..|p|] == p
  }

  lemma StartsWithConcat(p: string, rest: string)
    ensures StartsWith(p + rest, p)
    ensures (p + rest)[|p|..] == rest
  {
    assert (p + rest)[..|p|] == p;
  }

  /** A text that differs from `p` at position `i` is not `p` and does not start with it. */
  lemma DiffersAt(s: string, p: string, i: nat)
    requires i < |s| && i < |p| && s[i] != p[i]
    ensures s != p && !StartsWith(s, p)
  {
    if |p| <= |s| {
      assert s[..|p|][i] == s[i];
    }
  }

  /** ASCII lower-casing of one character, as `toLowerCase` does on ASCII text. */
  function LowerChar(c: char): char
  {
    if 'A' <= c <= 'Z' then (c as int + 32) as char else c
  }

  /** ASCII upper-casing of one character, as `toUpperCase` does on ASCII text. */
  function UpperChar(c: char): char
  {
    if 'a' <= c <= 'z' then (c as int - 32) as char else c
  }

  function ToLower(s: string): (r: string)
    ensures |r| == |s|
  {
    seq(|s|, i requires 0 <= i < |s| => LowerChar(s[i]))
  }

  function ToUpper(s: string): (r: string)
    ensures |r| == |s|
  {
    seq(|s|, i requires 0 <= i < |s| => UpperChar(s[i]))
  }

  /** Upper-casing forgets any earlier lower-casing, so it is case-insensitive. */
  lemma UpperOfLower(s: string)
    ensures ToUpper(ToLower(s)) == ToUpper(s)
  {
    assert forall i :: 0 <= i < |s| ==> ToUpper(ToLower(s))[i] == ToUpper(s)[i];
  }

  lemma UpperIdempotent(s: string)
    ensures ToUpper(ToUpper(s)) == ToUpper(s)
  {
    assert forall i :: 0 <= i < |s| ==> ToUpper(ToUpper(s))[i] == ToUpper(s)[i];
  }

  /** JavaScript `s.split(sep)` for a one-character separator: never empty. */
  function Split(s: string, sep: char): (parts: seq<string>)
    ensures |parts| >= 1
  {
    if |s| == 0 then [""]
    else
      var rest := Split(s[1..], sep);
      if s[0] == sep then [""] + rest else [[s[0]] + rest[0]] + rest[1..]
  }

  /** JavaScript `parts.join(sep)`. */
  function Join(parts: seq<string>, sep: string): string
  {
    if |parts| == 0 then ""
    else if |parts| == 1 then parts[0]
    else parts[0] + sep + Join(parts[1..], sep)
  }

  /** JavaScript `s.split(sep)[k]`, which is `undefined` past the last part. */
  function Segment(s: string, sep: char, k: nat): Option<string>
  {
    var parts := Split(s, sep);
    if k < |parts| then Some(parts[k]) else None
  }

  /** JavaScript `s.split(sep).pop()`: the text after the last separator. */
  function LastSegment(s: string, sep: char): string
  {
    var parts := Split(s, sep);
    parts[|parts| - 1]
  }

  /** The text of `s` before its first `sep` (all of `s` when there is none). */
  function UpTo(s: string, sep: char): (r: string)
    ensures |r| <= |s| && r == s[..|r|]
    ensures sep !in r
    ensures |r| < |s| ==> s[|r|] == sep
  {
    if |s| == 0 || s[0] == sep then "" else [s[0]] + UpTo(s[1..], sep)
  }

  /** `UpTo` stops at the first separator. */
  lemma UpToFirstSep(s: string, sep: char, k: nat)
    requires k < |s| && s[k] == sep && sep !in s[..k]
    ensures UpTo(s, sep) == s[..k]
  {
    var r := UpTo(s, sep);
    assert forall i :: 0 <= i < k ==> s[..k][i] == s[i];
    assert |r| <= k ==> r == s[..k][..|r|];
  }

  /** The first part of a split is the text before the first separator. */
  lemma {:induction false} SplitHead(s: string, sep: char)
    ensures Split(s, sep)[0] == UpTo(s, sep)
  {
    if |s| > 0 && s[0] != sep {
      SplitHead(s[1..], sep);
    }
  }

  /** A string without the separator splits into itself. */
  lemma {:induction false} SplitWithoutSep(s: string, sep: char)
    requires sep !in s
    ensures Split(s, sep) == [s]
  {
    if |s| > 0 {
      SplitWithoutSep(s[1..], sep);
      assert [s[0]] + s[1..] == s;
    }
  }

  /** Splitting `a + sep + b`, where `a` holds no separator, yields `a` then the parts of `b`. */
  lemma {:induction false} SplitAfterFirst(a: string, sep: char, b: string)
    requires sep !in a
    ensures Split(a + [sep] + b, sep) == [a] + Split(b, sep)
  {
    if |a| == 0 {
      assert a + [sep] + b == [sep] + b;
      assert ([sep] + b)[1..] == b;
    } else {
      SplitAfterFirst(a[1..], sep, b);
      assert (a + [sep] + b)[1..] == a[1..] + [sep] + b;
      assert [a[0]] + a[1..] == a;
    }
  }

  /** Joining the parts of a split gives back the string. */
  lemma {:induction false} JoinSplit(s: string, sep: char)
    ensures Join(Split(s, sep), [sep]) == s
  {
    if |s| > 0 {
      var rest := Split(s[1..], sep);
      JoinSplit(s[1..], sep);
      if s[0] == sep {
        assert Join([""] + rest, [sep]) == "" + [sep] + Join(rest, [sep]);
      } else {
        var parts := [[s[0]] + rest[0]] + rest[1..];
        if |rest| == 1 {
          assert Join(parts, [sep]) == [s[0]] + rest[0];
        } else {
          assert parts[1..] == rest[1..];
          assert Join(rest, [sep]) == rest[0] + [sep] + Join(rest[1..], [sep]);
        }
        assert [s[0]] + s[1..] == s;
      }
    }
  }

  /** Splitting a join of separator-free parts gives back the parts. */
  lemma {:induction false} SplitJoin(parts: seq<string>, sep: char)
    requires |parts| >= 1
    requires forall i :: 0 <= i < |parts| ==> sep !in parts[i]
    ensures Split(Join(parts, [sep]), sep) == parts
  {
    if |parts| == 1 {
      SplitWithoutSep(parts[0], sep);
    } else {
      SplitJoin(parts[1..], sep);
      SplitAfterFirst(parts[0], sep, Join(parts[1..], [sep]));
      assert parts[0] + [sep] + Join(parts[1..], [sep]) == Join(parts, [sep]);
      assert [parts[0]] + parts[1..] == parts;
    }
  }

  function DigitChar(d: nat): char
    requires d < 10
  {
    ('0' as int + d) as char
  }

  /** Decimal rendering of a natural number, as a template literal prints it. */
  function NatToString(n: nat): (r: string)
    ensures |r| >= 1
    ensures forall i :: 0 <= i < |r| ==> '0' <= r[i] <= '9'
  {
    if n < 10 then [DigitChar(n)] else NatToString(n / 10) + [DigitChar(n % 10)]
  }

  /** Elements of `s`, keeping the first occurrence of each, as `[...new Set(s)]` does. */
  function Dedupe<T(==)>(s: seq<T>): (r: seq<T>)
  {
    DedupeFrom(s, [])
  }

  function DedupeFrom<T(==)>(s: seq<T>, seen: seq<T>): (r: seq<T>)
    decreases |s|
  {
    if |s| == 0 then seen
    else if s[0] in seen then DedupeFrom(s[1..], seen)
    else DedupeFrom(s[1..], seen + [s[0]])
  }

  predicate NoDuplicates<T(==)>(s: seq<T>)
  {
    forall i, j :: 0 <= i < j < |s| ==> s[i] != s[j]
  }

  lemma {:induction false} DedupeFromProps<T>(s: seq<T>, seen: seq<T>)
    requires NoDuplicates(seen)
    ensures NoDuplicates(DedupeFrom(s, seen))
    ensures forall x :: x in DedupeFrom(s, seen) <==> x in seen || x in s
    ensures |seen| <= |DedupeFrom(s, seen)| && DedupeFrom(s, seen)[..|seen|] == seen
    decreases |s|
  {
    if |s| > 0 {
      if s[0] in seen {
        DedupeFromProps(s[1..], seen);
      } else {
        DedupeFromProps(s[1..], seen + [s[0]]);
        var r := DedupeFrom(s[1..], seen + [s[0]]);
        assert r[..|seen|] == (seen + [s[0]])[..|seen|];
      }
      assert forall x :: x in s <==> x == s[0] || x in s[1..];
    }
  }

  /** De-duplication keeps exactly the elements of its input, each once, first occurrences first. */
  lemma DedupeProps<T>(s: seq<T>)
    ensures NoDuplicates(Dedupe(s))
    ensures forall x :: x in Dedupe(s) <==> x in s
    ensures |s| > 0 ==> Dedupe(s)[0] == s[0]
  {
    DedupeFromProps(s, []);
    if |s| > 0 {
      assert [] + [s[0]] == [s[0]];
      DedupeFromProps(s[1..], [s[0]]);
    }
  }

  /** `pat` occurs in `s` at some position. */
  predicate Occurs(s: string, pat: string)
  {
    exists i :: 0 <= i <= |s| && OccursAt(s, pat, i)
  }

  predicate OccursAt(s: string, pat: string, i: int)
  {
    0 <= i && i + |pat| <= |s| && s[i..i + |pat|] == pat
  }

  /**
   * `s.replace(/pat/g, rep)`: occurrences are found left to right and do
   * not overlap; the text put in is not scanned again.
   */
  function ReplaceAll(s: string, pat: string, rep: string): string
    requires |pat| > 0
    decreases |s|
  {
    if |s| < |pat| then s
    else if s[..|pat|] == pat then rep + ReplaceAll(s[|pat|..], pat, rep)
    else [s[0]] + ReplaceAll(s[1..], pat, rep)
  }

  /** The pattern does not start at position `j` of `s`. */
  predicate NoMatchAt(s: string, pat: string, j: nat)
  {
    j + |pat| > |s| || s[j..j + |pat|] != pat
  }

  /** Where the pattern does not start, the first character is copied and the rest is scanned. */
  lemma SkipUnmatched(s: string, pat: string, rep: string)
    requires |pat| > 0 && |s| > 0 && NoMatchAt(s, pat, 0)
    ensures ReplaceAll(s, pat, rep) == [s[0]] + ReplaceAll(s[1..], pat, rep)
  {
    if |s| >= |pat| {
      assert s[..|pat|] == s[0..|pat|];
    }
  }

  /** Characters before the first possible match are copied as they are. */
  lemma {:induction false} KeepUnmatchedPrefix(s: string, pat: string, rep: string, k: nat)
    requires |pat| > 0 && k <= |s|
    requires forall j :: 0 <= j < k ==> NoMatchAt(s, pat, j)
    ensures ReplaceAll(s, pat, rep) == s[..k] + ReplaceAll(s[k..], pat, rep)
    decreases k
  {
    if k > 0 {
      var t := s[1..];
      ShiftNoMatch(s, pat, k);
      KeepUnmatchedPrefix(t, pat, rep, k - 1);
      SkipUnmatched(s, pat, rep);
      calc {
        ReplaceAll(s, pat, rep);
        [s[0]] + ReplaceAll(t, pat, rep);
        [s[0]] + (t[..k - 1] + ReplaceAll(t[k - 1..], pat, rep));
        { assert t[k - 1..] == s[k..]; assert [s[0]] + t[..k - 1] == s[..k]; }
        s[..k] + ReplaceAll(s[k..], pat, rep);
      }
    }
  }

  /** Dropping the first character shifts the positions where the pattern does not start. */
  lemma ShiftNoMatch(s: string, pat: string, k: nat)
    requires 0 < k <= |s|
    requires forall j :: 0 <= j < k ==> NoMatchAt(s, pat, j)
    ensures forall j :: 0 <= j < k - 1 ==> NoMatchAt(s[1..], pat, j)
  {
    forall j | 0 <= j < k - 1
      ensures NoMatchAt(s[1..], pat, j)
    {
      assert NoMatchAt(s, pat, j + 1);
      if j + |pat| <= |s[1..]| {
        assert s[1..][j..j + |pat|] == s[j + 1..j + 1 + |pat|];
      }
    }
  }

  /** Text in which the pattern does not occur comes back unchanged. */
  lemma {:induction false} ReplaceAllAbsent(s: string, pat: string, rep: string)
    requires |pat| > 0 && !Occurs(s, pat)
    ensures ReplaceAll(s, pat, rep) == s
    decreases |s|
  {
    if |s| >= |pat| {
      assert !OccursAt(s, pat, 0);
      assert s[0..|pat|] == s[..|pat|];
      forall i | OccursAt(s[1..], pat, i)
        ensures OccursAt(s, pat, i + 1)
      {
        assert s[1..][i..i + |pat|] == s[i + 1..i + 1 + |pat|];
      }
      ReplaceAllAbsent(s[1..], pat, rep);
    }
  }

  /** One step of `ReplaceAll`: a pattern at the start of the text is replaced, and the rest is processed after it. */
  lemma {:induction false} ReplaceAllPresent(s: string, pat: string, rep: string)
    requires |pat| > 0 && StartsWith(s, pat)
    ensures ReplaceAll(s, pat, rep) == rep + ReplaceAll(s[|pat|..], pat, rep)
  {
  }
}
