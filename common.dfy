/** Shared vocabulary: optional values, the JavaScript character classes the
    regular expressions use, and the string and array built-ins the stores and
    utilities call (toLowerCase, trim, split, join, includes, filter). */
module Common {

  datatype Option<+T> = None | Some(value: T)

  // ---------------------------------------------------------------------------
  // Character classes (JavaScript regular expressions without the `u` flag)
  // ---------------------------------------------------------------------------

  /** `\d` */
  predicate IsDigit(c: char) { '0' <= c <= '9' }

  predicate IsUpper(c: char) { 'A' <= c <= 'Z' }

  predicate IsLower(c: char) { 'a' <= c <= 'z' }

  /** `\w` */
  predicate IsWordChar(c: char) { IsDigit(c) || IsUpper(c) || IsLower(c) || c == '_' }

  /** `\s`, which is also the set `String.prototype.trim` removes: the
      ECMAScript WhiteSpace and LineTerminator code points. */
  predicate IsSpace(c: char) {
    c == '\t' || c == '\n' || c == '\U{000B}' || c == '\U{000C}' || c == '\r' || c == ' '
    || c == '\U{00A0}' || c == '\U{1680}' || ('\U{2000}' <= c <= '\U{200A}')
    || c == '\U{2028}' || c == '\U{2029}' || c == '\U{202F}' || c == '\U{205F}'
    || c == '\U{3000}' || c == '\U{FEFF}'
  }

  function LowerChar(c: char): (r: char)
    ensures !IsUpper(r)
    ensures IsUpper(c) ==> IsLower(r)
    ensures !IsUpper(c) ==> r == c
  {
    if IsUpper(c) then (c as int + 32) as char else c
  }

  function UpperChar(c: char): (r: char)
    ensures !IsLower(r)
    ensures IsLower(c) ==> IsUpper(r)
    ensures !IsLower(c) ==> r == c
  {
    if IsLower(c) then (c as int - 32) as char else c
  }

  /** `toLowerCase`, ASCII letters only. */
  function Lower(s: string): (r: string)
    ensures |r| == |s|
    ensures forall i :: 0 <= i < |s| ==> r[i] == LowerChar(s[i])
  {
    seq(|s|, i requires 0 <= i < |s| => LowerChar(s[i]))
  }

  /** `toUpperCase`, ASCII letters only. */
  function Upper(s: string): (r: string)
    ensures |r| == |s|
    ensures forall i :: 0 <= i < |s| ==> r[i] == UpperChar(s[i])
  {
    seq(|s|, i requires 0 <= i < |s| => UpperChar(s[i]))
  }

  // ---------------------------------------------------------------------------
  // trim
  // ---------------------------------------------------------------------------

  function TrimStart(s: string): (r: string)
    ensures |r| <= |s| && r == s[|s| - |r|..]
    ensures forall i :: 0 <= i < |s| - |r| ==> IsSpace(s[i])
    ensures r != [] ==> !IsSpace(r[0])
  {
    if s != [] && IsSpace(s[0]) then
      var r := TrimStart(s[1..]);
      assert s[1..][|s| - 1 - |r|..] == s[|s| - |r|..];
      assert forall i :: 1 <= i < |s| - |r| ==> s[i] == s[1..][i - 1];
      r
    else s
  }

  function TrimEnd(s: string): (r: string)
    ensures |r| <= |s| && r == s[..|r|]
    ensures forall i :: |r| <= i < |s| ==> IsSpace(s[i])
    ensures r != [] ==> !IsSpace(r[|r| - 1])
  {
    if s != [] && IsSpace(s[|s| - 1]) then
      var r := TrimEnd(s[..|s| - 1]);
      assert s[..|s| - 1][..|r|] == s[..|r|];
      assert forall i :: |r| <= i < |s| - 1 ==> s[i] == s[..|s| - 1][i];
      r
    else s
  }

  /** `String.prototype.trim`: the longest slice of `s` that neither starts
      nor ends with whitespace, everything cut away being whitespace. */
  function Trim(s: string): (r: string)
    ensures exists k :: OccursAt(s, r, k) && (forall i :: 0 <= i < k ==> IsSpace(s[i]))
                        && (forall i :: k + |r| <= i < |s| ==> IsSpace(s[i]))
    ensures r != [] ==> !IsSpace(r[0]) && !IsSpace(r[|r| - 1])
  {
    var t := TrimStart(s);
    var r := TrimEnd(t);
    TrimCut(s, t, r);
    r
  }

  lemma TrimCut(s: string, t: string, r: string)
    requires |t| <= |s| && t == s[|s| - |t|..] && forall i :: 0 <= i < |s| - |t| ==> IsSpace(s[i])
    requires |r| <= |t| && r == t[..|r|] && forall i :: |r| <= i < |t| ==> IsSpace(t[i])
    ensures var k := |s| - |t|;
      OccursAt(s, r, k) && (forall i :: 0 <= i < k ==> IsSpace(s[i]))
      && (forall i :: k + |r| <= i < |s| ==> IsSpace(s[i]))
  {
    var k := |s| - |t|;
    assert s[k..k + |r|] == r by {
      assert forall i :: 0 <= i < |r| ==> s[k + i] == t[i] == r[i];
    }
    forall i | k + |r| <= i < |s| ensures IsSpace(s[i]) {
      assert s[i] == t[i - k];
    }
  }

  predicate NoEdgeSpace(s: string) {
    s != [] ==> !IsSpace(s[0]) && !IsSpace(s[|s| - 1])
  }

  lemma TrimIdentity(s: string)
    requires NoEdgeSpace(s)
    ensures Trim(s) == s
  {
  }

  // ---------------------------------------------------------------------------
  // includes / startsWith
  // ---------------------------------------------------------------------------

  predicate StartsWith(s: string, prefix: string) {
    |prefix| <= |s| && s[..|prefix|] == prefix
  }

  /** `s.includes(sub)`, scanning left to right. */
  predicate Contains(s: string, sub: string)
    decreases |s|
  {
    StartsWith(s, sub) || (s != [] && Contains(s[1..], sub))
  }

  /** `sub` occurs in `s` at index `i`. */
  predicate OccursAt(s: string, sub: string, i: int) {
    0 <= i <= |s| - |sub| && s[i..i + |sub|] == sub
  }

  /** `includes` holds exactly when `sub` occurs at some index of `s`. */
  lemma {:induction false} ContainsAt(s: string, sub: string)
    ensures Contains(s, sub) <==> exists i :: OccursAt(s, sub, i)
    decreases |s|
  {
    if StartsWith(s, sub) {
      assert OccursAt(s, sub, 0);
    } else if s == [] {
    } else {
      ContainsAt(s[1..], sub);
      if exists i :: OccursAt(s, sub, i) {
        var i :| OccursAt(s, sub, i);
        assert i != 0;
        assert OccursAt(s[1..], sub, i - 1);
      }
      if Contains(s[1..], sub) {
        var j :| OccursAt(s[1..], sub, j);
        assert OccursAt(s, sub, j + 1);
      }
    }
  }

  /** A string cannot contain a word that uses a character it lacks. */
  lemma {:induction false} NotContainsMissingChar(s: string, sub: string, c: char)
    requires c in sub && c !in s
    ensures !Contains(s, sub)
    decreases |s|
  {
    if s != [] {
      NotContainsMissingChar(s[1..], sub, c);
    }
  }

  // ---------------------------------------------------------------------------
  // split / join
  // ---------------------------------------------------------------------------

  /** `parts.join(sep)`. */
  function Join(parts: seq<string>, sep: string): string
  {
    if parts == [] then [] else if |parts| == 1 then parts[0] else parts[0] + sep + Join(parts[1..], sep)
  }

  function IndexOfChar(s: string, c: char): (r: Option<nat>)
    ensures r.Some? ==> r.value < |s| && s[r.value] == c && c !in s[..r.value]
    ensures r.None? ==> c !in s
  {
    if s == [] then None
    else if s[0] == c then Some(0)
    else match IndexOfChar(s[1..], c)
      case None => None
      case Some(k) => assert s[1..][..k] == s[1..k + 1]; Some(k + 1)
  }

  /** `s.split(sep)` for a one-character separator: every maximal piece
      between separators, including empty ones; "" splits into [""]. */
  function Split(s: string, sep: char): (parts: seq<string>)
    ensures |parts| >= 1
    ensures forall i :: 0 <= i < |parts| ==> sep !in parts[i]
    decreases |s|
  {
    match IndexOfChar(s, sep)
    case None => [s]
    case Some(k) => [s[..k]] + Split(s[k + 1..], sep)
  }

  /** `s.split(sep).join(sep) == s`. */
  lemma {:induction false} JoinSplit(s: string, sep: char)
    ensures Join(Split(s, sep), [sep]) == s
    decreases |s|
  {
    match IndexOfChar(s, sep)
    case None =>
    case Some(k) =>
      var rest := Split(s[k + 1..], sep);
      SplitAtIndex(s, sep, k);
      JoinCons(s[..k], rest, [sep]);
      JoinSplit(s[k + 1..], sep);
      assert s == s[..k] + [sep] + s[k + 1..];
  }

  /** Joining a piece in front of a non-empty list puts one separator between. */
  lemma JoinCons(first: string, rest: seq<string>, sep: string)
    requires rest != []
    ensures Join([first] + rest, sep) == first + sep + Join(rest, sep)
  {
    var parts := [first] + rest;
    assert parts[0] == first && parts[1..] == rest;
  }

  lemma {:induction false} IndexOfCharAfter(a: string, c: char, rest: string)
    requires c !in a
    ensures IndexOfChar(a + [c] + rest, c) == Some(|a|)
  {
    if a != [] {
      assert (a + [c] + rest)[1..] == a[1..] + [c] + rest;
      IndexOfCharAfter(a[1..], c, rest);
    }
  }

  lemma {:induction false} IndexOfCharPrefix(a: string, c: char, rest: string)
    requires IndexOfChar(a, c).Some?
    ensures IndexOfChar(a + rest, c) == IndexOfChar(a, c)
  {
    if a[0] != c {
      assert (a + rest)[1..] == a[1..] + rest;
      IndexOfCharPrefix(a[1..], c, rest);
    }
  }

  lemma {:induction false} NoIndexOfMissing(s: string, c: char)
    requires c !in s
    ensures IndexOfChar(s, c).None?
  {
    if s != [] {
      assert forall x :: x in s[1..] ==> x in s;
      NoIndexOfMissing(s[1..], c);
    }
  }

  /** A string without the separator splits into itself alone. */
  lemma SplitWithoutSeparator(s: string, sep: char)
    requires sep !in s
    ensures Split(s, sep) == [s]
  {
    NoIndexOfMissing(s, sep);
  }

  /** Splitting at a separator splits both halves. */
  lemma {:induction false} SplitConcat(a: string, b: string, sep: char)
    ensures Split(a + [sep] + b, sep) == Split(a, sep) + Split(b, sep)
    decreases |a|
  {
    match IndexOfChar(a, sep)
    case None =>
      SplitAtFreePrefix(a, b, sep);
    case Some(k) =>
      SplitConcat(a[k + 1..], b, sep);
      SplitConcatStep(a, b, sep, k);
  }

  /** The step of `SplitConcat` past the first separator of `a`. */
  lemma SplitConcatStep(a: string, b: string, sep: char, k: nat)
    requires IndexOfChar(a, sep) == Some(k)
    requires Split(a[k + 1..] + [sep] + b, sep) == Split(a[k + 1..], sep) + Split(b, sep)
    ensures Split(a + [sep] + b, sep) == Split(a, sep) + Split(b, sep)
  {
    SplitPastPrefixSeparator(a, b, sep, k);
    SplitAtIndex(a, sep, k);
    ConsAppend(a[..k], Split(a[k + 1..], sep), Split(b, sep));
  }

  lemma ConsAppend<T>(x: T, p: seq<T>, q: seq<T>)
    ensures [x] + (p + q) == ([x] + p) + q
  {
  }

  /** A separator-free `a` is the first piece of `a + [sep] + b`. */
  lemma SplitAtFreePrefix(a: string, b: string, sep: char)
    requires sep !in a
    ensures Split(a + [sep] + b, sep) == [a] + Split(b, sep)
    ensures Split(a, sep) == [a]
  {
    var s := a + [sep] + b;
    IndexOfCharAfter(a, sep, b);
    assert s[..|a|] == a && s[|a| + 1..] == b;
    NoIndexOfMissing(a, sep);
  }

  /** A separator inside `a` ends the first piece of `a + [sep] + b` as it
      ends that of `a`. */
  lemma SplitPastPrefixSeparator(a: string, b: string, sep: char, k: nat)
    requires IndexOfChar(a, sep) == Some(k)
    ensures Split(a + [sep] + b, sep) == [a[..k]] + Split(a[k + 1..] + [sep] + b, sep)
  {
    var rest := [sep] + b;
    var s := a + rest;
    assert a + [sep] + b == s;
    IndexOfCharPrefix(a, sep, rest);
    SplitAtIndex(s, sep, k);
    ConcatSlices(a, rest, k);
    assert a[k + 1..] + rest == a[k + 1..] + [sep] + b;
  }

  /** Cutting `a + rest` inside `a` cuts `a` there. */
  lemma ConcatSlices<T>(a: seq<T>, rest: seq<T>, k: nat)
    requires k < |a|
    ensures (a + rest)[..k] == a[..k] && (a + rest)[k + 1..] == a[k + 1..] + rest
  {
  }

  /** The first piece ends at the first separator. */
  lemma SplitAtIndex(s: string, sep: char, k: nat)
    requires IndexOfChar(s, sep) == Some(k)
    ensures Split(s, sep) == [s[..k]] + Split(s[k + 1..], sep)
  {
  }

  /** Joining pieces free of the separator and splitting again gives the pieces back. */
  lemma {:induction false} SplitJoin(parts: seq<string>, sep: char)
    requires |parts| >= 1 && forall i :: 0 <= i < |parts| ==> sep !in parts[i]
    ensures Split(Join(parts, [sep]), sep) == parts
    decreases |parts|
  {
    if |parts| > 1 {
      var a, rest := parts[0], Join(parts[1..], [sep]);
      var s := a + [sep] + rest;
      assert Join(parts, [sep]) == s;
      IndexOfCharAfter(a, sep, rest);
      SplitAtIndex(s, sep, |a|);
      CutAround(a, sep, rest);
      SplitJoin(parts[1..], sep);
      assert parts == [a] + parts[1..];
    }
  }

  /** The pieces on either side of one element. */
  lemma CutAround<T>(a: seq<T>, x: T, rest: seq<T>)
    ensures (a + [x] + rest)[..|a|] == a && (a + [x] + rest)[|a| + 1..] == rest
  {
  }

  /** Joining pieces of the same lengths gives strings of the same length. */
  lemma {:induction false} JoinSameLengths(a: seq<string>, b: seq<string>, sep: string)
    requires |a| == |b| && forall i :: 0 <= i < |a| ==> |a[i]| == |b[i]|
    ensures |Join(a, sep)| == |Join(b, sep)|
    decreases |a|
  {
    if |a| > 1 {
      JoinSameLengths(a[1..], b[1..], sep);
    }
  }

  /** A string with no separator at either end and none doubled splits into
      non-empty pieces. */
  lemma {:induction false} SplitNonEmptyParts(s: string, sep: char)
    requires s != [] && s[0] != sep && s[|s| - 1] != sep
    requires forall i :: 0 <= i < |s| - 1 ==> !(s[i] == sep && s[i + 1] == sep)
    ensures forall i :: 0 <= i < |Split(s, sep)| ==> Split(s, sep)[i] != []
    decreases |s|
  {
    match IndexOfChar(s, sep)
    case None =>
    case Some(k) =>
      var rest := s[k + 1..];
      assert k > 0 && k < |s| - 1;
      assert rest[0] == s[k + 1];
      forall i | 0 <= i < |rest| - 1 ensures !(rest[i] == sep && rest[i + 1] == sep) {
        assert rest[i] == s[k + 1 + i] && rest[i + 1] == s[k + 2 + i];
      }
      SplitNonEmptyParts(rest, sep);
  }

  // ---------------------------------------------------------------------------
  // filter
  // ---------------------------------------------------------------------------

  /** `Array.prototype.filter`. */
  function Filter<T>(s: seq<T>, keep: T -> bool): (r: seq<T>)
    ensures |r| <= |s|
    ensures forall i :: 0 <= i < |r| ==> r[i] in s && keep(r[i])
  {
    if s == [] then [] else (if keep(s[0]) then [s[0]] else []) + Filter(s[1..], keep)
  }

  /** Every element that passes the test is kept. */
  lemma {:induction false} FilterKeeps<T>(s: seq<T>, keep: T -> bool)
    ensures forall i :: 0 <= i < |s| && keep(s[i]) ==> s[i] in Filter(s, keep)
  {
    if s != [] {
      FilterKeeps(s[1..], keep);
      forall i | 0 <= i < |s| && keep(s[i]) ensures s[i] in Filter(s, keep) {
        if i > 0 {
          assert s[i] == s[1..][i - 1];
        }
      }
    }
  }

  /** Filtering keeps order: it distributes over concatenation. */
  lemma {:induction false} FilterConcat<T>(a: seq<T>, b: seq<T>, keep: T -> bool)
    ensures Filter(a + b, keep) == Filter(a, keep) + Filter(b, keep)
  {
    if a == [] {
      assert a + b == b;
    } else {
      assert (a + b)[1..] == a[1..] + b;
      FilterConcat(a[1..], b, keep);
    }
  }

  /** Filtering changes nothing when every element is kept. */
  lemma {:induction false} FilterKeepsAll<T>(s: seq<T>, keep: T -> bool)
    requires forall i :: 0 <= i < |s| ==> keep(s[i])
    ensures Filter(s, keep) == s
  {
    if s != [] {
      FilterKeepsAll(s[1..], keep);
    }
  }

  lemma FilterPairKept<T>(a: T, b: T, keep: T -> bool)
    requires keep(a) && keep(b)
    ensures Filter([a, b], keep) == [a, b]
  {
    assert [a, b][1..] == [b] && [b][1..] == [];
  }

  /** Filtering twice with the same test is filtering once. */
  lemma {:induction false} FilterIdempotent<T>(s: seq<T>, keep: T -> bool)
    ensures Filter(Filter(s, keep), keep) == Filter(s, keep)
  {
    var r := Filter(s, keep);
    forall i | 0 <= i < |r| ensures keep(r[i]) {
      assert r[i] in r;
    }
    FilterKeepsAll(r, keep);
  }

  /** No two elements share a key. */
  predicate UniqueBy<T, K(==)>(s: seq<T>, key: T -> K) {
    forall i, j :: 0 <= i < j < |s| ==> key(s[i]) != key(s[j])
  }

  /** Filtering out the key of the head of a list with unique keys leaves
      exactly its tail. */
  lemma FilterOutHead<T, K>(s: seq<T>, keep: T -> bool, key: T -> K)
    requires s != [] && UniqueBy(s, key)
    requires forall x :: keep(x) == (key(x) != key(s[0]))
    ensures Filter(s, keep) == s[1..]
  {
    var rest := s[1..];
    assert s == [s[0]] + rest;
    FilterConcat([s[0]], rest, keep);
    assert Filter([s[0]], keep) == [] by {
      assert [s[0]][1..] == [];
    }
    forall k | 0 <= k < |rest| ensures keep(rest[k]) {
      assert rest[k] == s[k + 1];
    }
    FilterKeepsAll(rest, keep);
  }

  /** Filtering keeps keys unique. */
  lemma {:induction false} FilterKeepsUnique<T, K>(s: seq<T>, keep: T -> bool, key: T -> K)
    requires UniqueBy(s, key)
    ensures UniqueBy(Filter(s, keep), key)
  {
    if s != [] {
      var tail := s[1..];
      assert UniqueBy(tail, key) by {
        forall a, b | 0 <= a < b < |tail| ensures key(tail[a]) != key(tail[b]) {
          assert key(s[a + 1]) != key(s[b + 1]);
        }
      }
      FilterKeepsUnique(tail, keep, key);
      var rest := Filter(tail, keep);
      if keep(s[0]) {
        var r := [s[0]] + rest;
        assert Filter(s, keep) == r;
        forall i, j | 0 <= i < j < |r| ensures key(r[i]) != key(r[j]) {
          if i == 0 {
            assert rest[j - 1] in tail;
            var m :| 0 <= m < |tail| && tail[m] == rest[j - 1];
            assert key(s[0]) != key(s[m + 1]);
          }
        }
      }
    }
  }

  /** Filtering a singleton appended at the end. */
  lemma FilterSnoc<T>(s: seq<T>, x: T, keep: T -> bool)
    ensures Filter(s + [x], keep) == Filter(s, keep) + (if keep(x) then [x] else [])
  {
    FilterConcat(s, [x], keep);
  }

  // ---------------------------------------------------------------------------
  // The first element that gives an answer (a loop with an early return)
  // ---------------------------------------------------------------------------

  function FirstSome<T, U>(xs: seq<T>, f: T -> Option<U>): Option<U> {
    if xs == [] then None
    else match f(xs[0])
      case Some(u) => Some(u)
      case None => FirstSome(xs[1..], f)
  }

  /** The answer comes from the first element that gives one. */
  lemma {:induction false} FirstSomeIndex<T, U>(xs: seq<T>, f: T -> Option<U>) returns (k: nat)
    requires FirstSome(xs, f).Some?
    ensures k < |xs| && f(xs[k]) == FirstSome(xs, f)
    ensures forall j :: 0 <= j < k ==> f(xs[j]).None?
  {
    if f(xs[0]).Some? {
      k := 0;
    } else {
      var k' := FirstSomeIndex(xs[1..], f);
      k := k' + 1;
      forall j | 0 <= j < k ensures f(xs[j]).None? {
        if j > 0 {
          assert xs[j] == xs[1..][j - 1];
        }
      }
    }
  }

  /** There is no answer exactly when no element gives one. */
  lemma {:induction false} FirstSomeNone<T, U>(xs: seq<T>, f: T -> Option<U>)
    requires FirstSome(xs, f).None?
    ensures forall k :: 0 <= k < |xs| ==> f(xs[k]).None?
  {
    if xs != [] {
      FirstSomeNone(xs[1..], f);
      forall k | 0 <= k < |xs| ensures f(xs[k]).None? {
        if k > 0 {
          assert xs[k] == xs[1..][k - 1];
        }
      }
    }
  }

  // ---------------------------------------------------------------------------
  // The first position that gives an answer (a left-to-right scan)
  // ---------------------------------------------------------------------------

  /** The first position `j` in `from..end` where `m(j)` answers, with its answer. */
  function FirstHit(m: nat -> Option<nat>, from: nat, end: nat): Option<(nat, nat)>
    requires from <= end
    decreases end - from
  {
    match m(from)
    case Some(e) => Some((from, e))
    case None => if from == end then None else FirstHit(m, from + 1, end)
  }

  /** The scan skips no position that answers. */
  lemma {:induction false} FirstHitSkipsNothing(m: nat -> Option<nat>, from: nat, end: nat)
    requires from <= end && FirstHit(m, from, end).Some?
    ensures forall j :: from <= j < FirstHit(m, from, end).value.0 ==> m(j).None?
    decreases end - from
  {
    if m(from).None? {
      FirstHitSkipsNothing(m, from + 1, end);
    }
  }

  /** The scan finds nothing only when no position answers. */
  lemma {:induction false} FirstHitNoneNowhere(m: nat -> Option<nat>, from: nat, end: nat)
    requires from <= end && FirstHit(m, from, end).None?
    ensures forall j :: from <= j <= end ==> m(j).None?
    decreases end - from
  {
    if from < end {
      FirstHitNoneNowhere(m, from + 1, end);
    }
  }

  // ---------------------------------------------------------------------------
  // replace(/[class]+/g, c): collapse every maximal run of a character class
  // ---------------------------------------------------------------------------

  function DropWhile(s: string, inRun: char -> bool): (r: string)
    ensures |r| <= |s| && r == s[|s| - |r|..]
    ensures forall i :: 0 <= i < |s| - |r| ==> inRun(s[i])
    ensures r != [] ==> !inRun(r[0])
  {
    if s != [] && inRun(s[0]) then
      var r := DropWhile(s[1..], inRun);
      assert s[1..][|s| - 1 - |r|..] == s[|s| - |r|..];
      assert forall i :: 1 <= i < |s| - |r| ==> s[i] == s[1..][i - 1];
      r
    else s
  }

  /** `s.replace(/[class]+/g, rep)`: each maximal run of characters in the
      class is replaced by the single character `rep`. */
  function CollapseRuns(s: string, inRun: char -> bool, rep: char): (r: string)
    ensures |r| <= |s|
    ensures s != [] && !inRun(s[0]) ==> r != [] && r[0] == s[0]
    ensures s != [] && inRun(s[0]) ==> r != [] && r[0] == rep
    ensures s == [] <==> r == []
    decreases |s|
  {
    if s == [] then []
    else if inRun(s[0]) then [rep] + CollapseRuns(DropWhile(s, inRun), inRun, rep)
    else [s[0]] + CollapseRuns(s[1..], inRun, rep)
  }

  /** Every character of a collapsed string is the replacement or a character
      of the input outside the class. */
  lemma {:induction false} CollapseRunsChars(s: string, inRun: char -> bool, rep: char)
    ensures forall i :: 0 <= i < |CollapseRuns(s, inRun, rep)| ==>
      var c := CollapseRuns(s, inRun, rep)[i]; c == rep || (!inRun(c) && c in s)
    decreases |s|
  {
    if s == [] {
    } else if inRun(s[0]) {
      var t := DropWhile(s, inRun);
      CollapseRunsChars(t, inRun, rep);
      forall c | c in t ensures c in s {
        var k :| 0 <= k < |t| && t[k] == c;
        assert s[|s| - |t| + k] == c;
      }
    } else {
      CollapseRunsChars(s[1..], inRun, rep);
    }
  }

  /** When the replacement is itself in the class, it never appears twice in a row. */
  lemma {:induction false} CollapseRunsNoDoubles(s: string, inRun: char -> bool, rep: char)
    requires inRun(rep)
    ensures forall i :: 0 <= i < |CollapseRuns(s, inRun, rep)| - 1 ==>
      !(CollapseRuns(s, inRun, rep)[i] == rep && CollapseRuns(s, inRun, rep)[i + 1] == rep)
    decreases |s|
  {
    if s == [] {
    } else if inRun(s[0]) {
      CollapseRunsNoDoubles(DropWhile(s, inRun), inRun, rep);
    } else {
      CollapseRunsNoDoubles(s[1..], inRun, rep);
    }
  }

  /** A string whose only class characters are isolated copies of `rep` is
      left unchanged. */
  lemma {:induction false} CollapseRunsIdentity(s: string, inRun: char -> bool, rep: char)
    requires forall i :: 0 <= i < |s| ==> inRun(s[i]) ==> s[i] == rep
    requires forall i :: 0 <= i < |s| - 1 ==> !(inRun(s[i]) && inRun(s[i + 1]))
    ensures CollapseRuns(s, inRun, rep) == s
    decreases |s|
  {
    if s == [] {
    } else if inRun(s[0]) {
      assert |s| > 1 ==> !inRun(s[1]);
      assert DropWhile(s, inRun) == s[1..];
      CollapseRunsIdentity(s[1..], inRun, rep);
    } else {
      CollapseRunsIdentity(s[1..], inRun, rep);
    }
  }

  /** `replace(/\s+/g, ' ').trim()`: whitespace runs become one space and the
      ends are trimmed. */
  function Squish(s: string): string {
    Trim(CollapseRuns(s, IsSpace, ' '))
  }

  /** Spaced: `keep` characters separated by single spaces. */
  predicate Spaced(r: string, keep: char -> bool) {
    && (forall k :: 0 <= k < |r| ==> (keep(r[k]) && !IsSpace(r[k])) || r[k] == ' ')
    && (forall k :: 0 <= k < |r| - 1 ==> !(r[k] == ' ' && r[k + 1] == ' '))
  }

  lemma CollapseSpaced(s: string, keep: char -> bool)
    requires forall k :: 0 <= k < |s| ==> keep(s[k]) || IsSpace(s[k])
    ensures Spaced(CollapseRuns(s, IsSpace, ' '), keep)
  {
    var c := CollapseRuns(s, IsSpace, ' ');
    CollapseRunsChars(s, IsSpace, ' ');
    CollapseRunsNoDoubles(s, IsSpace, ' ');
    forall k | 0 <= k < |c| ensures (keep(c[k]) && !IsSpace(c[k])) || c[k] == ' ' {
      if c[k] != ' ' {
        var j :| 0 <= j < |s| && s[j] == c[k];
      }
    }
  }

  lemma SliceSpaced(c: string, keep: char -> bool, lo: nat, hi: nat)
    requires lo <= hi <= |c| && Spaced(c, keep)
    ensures Spaced(c[lo..hi], keep)
  {
    var r := c[lo..hi];
    assert forall k :: 0 <= k < |r| ==> r[k] == c[lo + k];
  }

  lemma TrimSpaced(c: string, keep: char -> bool)
    requires Spaced(c, keep)
    ensures NoEdgeSpace(Trim(c)) && Spaced(Trim(c), keep)
  {
    var r := Trim(c);
    var off :| OccursAt(c, r, off);
    SliceSpaced(c, keep, off, off + |r|);
  }

  /** When every character is whitespace or satisfies `keep`, the squished
      string consists of `keep` characters separated by single spaces. */
  lemma SquishShape(s: string, keep: char -> bool)
    requires forall k :: 0 <= k < |s| ==> keep(s[k]) || IsSpace(s[k])
    ensures NoEdgeSpace(Squish(s)) && Spaced(Squish(s), keep)
  {
    CollapseSpaced(s, keep);
    TrimSpaced(CollapseRuns(s, IsSpace, ' '), keep);
  }

  /** A string of that shape is left unchanged. */
  lemma SquishIdentity(s: string)
    requires NoEdgeSpace(s)
    requires forall k :: 0 <= k < |s| ==> IsSpace(s[k]) ==> s[k] == ' '
    requires forall k :: 0 <= k < |s| - 1 ==> !(s[k] == ' ' && s[k + 1] == ' ')
    ensures Squish(s) == s
  {
    CollapseRunsIdentity(s, IsSpace, ' ');
    TrimIdentity(s);
  }

  /** The outputs a present value contributes: one or none. */
  function Present<U>(x: Option<U>): (r: seq<U>)
    ensures |r| <= 1 && (x.None? ==> r == []) && (x.Some? ==> r == [x.value])
  {
    if x.Some? then [x.value] else []
  }

  /** The present values of `f` over `s`, in order. */
  function FilterMap<T, U>(s: seq<T>, f: T -> Option<U>): seq<U> {
    if s == [] then []
    else Present(f(s[0])) + FilterMap(s[1..], f)
  }

  lemma {:induction false} FilterMapConcat<T, U>(a: seq<T>, b: seq<T>, f: T -> Option<U>)
    ensures FilterMap(a + b, f) == FilterMap(a, f) + FilterMap(b, f)
    decreases |a|
  {
    if a == [] {
      assert a + b == b;
    } else {
      assert (a + b)[1..] == a[1..] + b;
      FilterMapConcat(a[1..], b, f);
    }
  }

  lemma SliceSnoc<T>(s: seq<T>, k: nat)
    requires k < |s|
    ensures s[..k + 1] == s[..k] + [s[k]]
  {
  }

  lemma SliceEnds<T>(s: seq<T>)
    ensures s[..0] == [] && s[..|s|] == s
  {
  }

  /** One step of a loop that computes `FilterMap(s, f)` element by element. */
  lemma FilterMapStep<T, U>(s: seq<T>, k: nat, acc: seq<U>, f: T -> Option<U>, x: Option<U>)
    requires k < |s| && acc == FilterMap(s[..k], f) && x == f(s[k])
    ensures FilterMap(s[..k + 1], f) == if x.Some? then acc + [x.value] else acc
  {
    SliceSnoc(s, k);
    FilterMapSnoc(s[..k], s[k], f);
  }

  lemma FilterMapSnoc<T, U>(s: seq<T>, x: T, f: T -> Option<U>)
    ensures FilterMap(s + [x], f) == FilterMap(s, f) + Present(f(x))
  {
    FilterMapConcat(s, [x], f);
    assert [x][1..] == [];
  }

  lemma {:induction false} FilterMapLength<T, U>(s: seq<T>, f: T -> Option<U>)
    ensures |FilterMap(s, f)| <= |s|
  {
    if s != [] {
      FilterMapLength(s[1..], f);
    }
  }

  /** Every value kept is the value of `f` at some element. */
  lemma {:induction false} FilterMapFrom<T, U>(s: seq<T>, f: T -> Option<U>)
    ensures forall i :: 0 <= i < |FilterMap(s, f)| ==>
      exists k :: 0 <= k < |s| && f(s[k]) == Some(FilterMap(s, f)[i])
  {
    if s != [] {
      FilterMapFrom(s[1..], f);
      var tail := FilterMap(s[1..], f);
      var r := FilterMap(s, f);
      forall i | 0 <= i < |r| ensures exists k :: 0 <= k < |s| && f(s[k]) == Some(r[i]) {
        if f(s[0]).Some? && i == 0 {
          assert r[0] == f(s[0]).value;
        } else {
          var d := if f(s[0]).Some? then 1 else 0;
          assert r == (if d == 1 then [f(s[0]).value] else []) + tail;
          assert r[i] == tail[i - d];
          var k :| 0 <= k < |s[1..]| && f(s[1..][k]) == Some(tail[i - d]);
          assert f(s[k + 1]) == Some(r[i]);
        }
      }
    } else {
      assert FilterMap(s, f) == [];
    }
  }

  lemma FilterMapPair<T, U>(a: T, b: T, f: T -> Option<U>)
    ensures FilterMap([a, b], f) == Present(f(a)) + Present(f(b))
  {
    assert [a, b][1..] == [b] && [b][1..] == [];
    assert FilterMap([b], f) == Present(f(b)) + FilterMap([], f);
  }

  /** A left-to-right pass that threads a state from element to element and
      keeps the outputs that are present. */
  function Scan<T, S, U>(s: seq<T>, st: S, step: (T, S) -> (Option<U>, S)): seq<U> {
    if s == [] then []
    else Present(step(s[0], st).0) + Scan(s[1..], step(s[0], st).1, step)
  }

  lemma ScanPair<T, S, U>(a: T, b: T, st: S, step: (T, S) -> (Option<U>, S))
    ensures Scan([a, b], st, step) == Present(step(a, st).0) + Present(step(b, step(a, st).1).0)
  {
    assert [a, b][1..] == [b] && [b][1..] == [];
    assert Scan([b], step(a, st).1, step) == Present(step(b, step(a, st).1).0) + Scan([], step(b, step(a, st).1).1, step);
  }

  /** Indices into `s[1..]` of the elements giving `out`, moved to indices
      into `s`. */
  lemma ShiftIndices<T, U>(s: seq<T>, rest: seq<nat>, out: seq<U>, f: T -> Option<U>) returns (shifted: seq<nat>)
    requires s != [] && |rest| == |out|
    requires forall k :: 0 <= k < |rest| ==> rest[k] < |s[1..]| && f(s[1..][rest[k]]) == Some(out[k])
    requires forall i, j :: 0 <= i < j < |rest| ==> rest[i] < rest[j]
    ensures |shifted| == |out|
    ensures forall k :: 0 <= k < |shifted| ==> 0 < shifted[k] < |s| && f(s[shifted[k]]) == Some(out[k])
    ensures forall i, j :: 0 <= i < j < |shifted| ==> shifted[i] < shifted[j]
  {
    shifted := seq(|rest|, k requires 0 <= k < |rest| => rest[k] + 1);
    forall k | 0 <= k < |shifted| ensures 0 < shifted[k] < |s| && f(s[shifted[k]]) == Some(out[k]) {
      assert s[shifted[k]] == s[1..][rest[k]];
    }
  }

  /** The first element, giving `v`, put in front of later indices. */
  lemma ConsIndex<T, U>(s: seq<T>, shifted: seq<nat>, out: seq<U>, f: T -> Option<U>, v: U) returns (idx: seq<nat>)
    requires s != [] && f(s[0]) == Some(v) && |shifted| == |out|
    requires forall k :: 0 <= k < |shifted| ==> 0 < shifted[k] < |s| && f(s[shifted[k]]) == Some(out[k])
    requires forall i, j :: 0 <= i < j < |shifted| ==> shifted[i] < shifted[j]
    ensures |idx| == |[v] + out|
    ensures forall k :: 0 <= k < |idx| ==> idx[k] < |s| && f(s[idx[k]]) == Some(([v] + out)[k])
    ensures forall i, j :: 0 <= i < j < |idx| ==> idx[i] < idx[j]
  {
    idx := [0] + shifted;
    forall k | 1 <= k < |idx| ensures idx[k] < |s| && f(s[idx[k]]) == Some(([v] + out)[k]) {
      assert idx[k] == shifted[k - 1] && ([v] + out)[k] == out[k - 1];
    }
  }

  /** When every step yields nothing or what `f` yields for its element, each
      output of the pass is `f` of its own element, the elements are distinct
      and in order (`idx` gives them, strictly increasing), and there are no
      more outputs than elements. */
  lemma {:induction false} ScanSound<T, S, U>(s: seq<T>, st: S, step: (T, S) -> (Option<U>, S), f: T -> Option<U>)
    returns (idx: seq<nat>)
    requires forall x, t :: step(x, t).0.None? || step(x, t).0 == f(x)
    ensures |Scan(s, st, step)| <= |s|
    ensures |idx| == |Scan(s, st, step)|
    ensures forall k :: 0 <= k < |idx| ==> idx[k] < |s| && f(s[idx[k]]) == Some(Scan(s, st, step)[k])
    ensures forall i, j :: 0 <= i < j < |idx| ==> idx[i] < idx[j]
  {
    if s == [] {
      assert Scan(s, st, step) == [];
      idx := [];
    } else {
      var tail := Scan(s[1..], step(s[0], st).1, step);
      var rest := ScanSound(s[1..], step(s[0], st).1, step, f);
      var shifted := ShiftIndices(s, rest, tail, f);
      if step(s[0], st).0.None? {
        assert Scan(s, st, step) == tail;
        idx := shifted;
      } else {
        var v := step(s[0], st).0.value;
        assert Scan(s, st, step) == [v] + tail;
        idx := ConsIndex(s, shifted, tail, f, v);
      }
    }
  }
}
