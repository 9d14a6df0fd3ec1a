/**
 The net that keeps secrets off the event stream (`redacting-sink.ts`): needles, the replacement of each in
 turn, and the walk over an event's values.
 */
module Redaction {
  import opened Wrappers

  const OPEN: char := '\U{00AB}'
  const CLOSE: char := '\U{00BB}'
  const WORD := "redacted"
  const REDACTED: string := [OPEN] + WORD + [CLOSE]
  const MIN_REDACTABLE_SECRET_LENGTH: nat := 4
  const MAX_DEPTH: nat := 12

  /** `t` starts with `m` at `i`. */
  predicate At(m: string, t: string, i: int) {
    0 <= i && i + |m| <= |t| && t[i..i + |m|] == m
  }

  ghost predicate Occurs(m: string, t: string) {
    exists i :: At(m, t, i)
  }

  /** `t.includes(m)`. */
  predicate Includes(t: string, m: string)
    ensures Includes(t, m) <==> Occurs(m, t)
  {
    exists i :: 0 <= i <= |t| && At(m, t, i)
  }

  /** `value.split(needle).join(REDACTED)`: the occurrences from the left, none overlapping. */
  function Replace(s: string, needle: string): string
    requires needle != []
    decreases |s|
  {
    if |s| < |needle| then s
    else if s[..|needle|] == needle then REDACTED + Replace(s[|needle|..], needle)
    else [s[0]] + Replace(s[1..], needle)
  }

  predicate NoneEmpty(needles: seq<string>) {
    forall i :: 0 <= i < |needles| ==> needles[i] != []
  }

  /** Every needle in turn. */
  function RedactString(s: string, needles: seq<string>): string
    requires NoneEmpty(needles)
  {
    if needles == [] then s
    else Replace(RedactString(s, needles[..|needles| - 1]), needles[|needles| - 1])
  }

  predicate NoGuillemets(m: string) {
    OPEN !in m && CLOSE !in m
  }

  /** A needle the mark itself can neither contain nor touch. */
  ghost predicate Clean(m: string) {
    m != [] && NoGuillemets(m) && !Occurs(m, WORD)
  }

  // ---- where an occurrence can lie ----

  lemma AtHead(m: string, c: char, rest: string, i: int)
    requires At(m, [c] + rest, i) && i > 0
    ensures At(m, rest, i - 1)
  {
    assert ([c] + rest)[i..i + |m|] == rest[i - 1..i - 1 + |m|];
  }

  lemma AtTail(m: string, front: string, rest: string, i: int)
    requires At(m, front + rest, i) && i >= |front|
    ensures At(m, rest, i - |front|)
  {
    assert (front + rest)[i..i + |m|] == rest[i - |front|..i - |front| + |m|];
  }

  lemma OccursIn(m: string, s: string, k: nat)
    requires k <= |s| && Occurs(m, s[k..])
    ensures Occurs(m, s)
  {
    var i :| At(m, s[k..], i);
    assert s[k..][i..i + |m|] == s[k + i..k + i + |m|];
    assert At(m, s, k + i);
  }

  /** What lies in or across a mark holds a guillemet, or is a piece of its word. */
  lemma InMark(m: string, rest: string, i: int)
    requires m != [] && At(m, REDACTED + rest, i) && i < |REDACTED|
    ensures !NoGuillemets(m) || Occurs(m, WORD)
  {
    var t := REDACTED + rest;
    assert forall k :: 0 <= k < |m| ==> m[k] == t[i + k];
    if i == 0 {
      assert m[0] == OPEN;
    } else if i + |m| >= |REDACTED| {
      assert m[|REDACTED| - 1 - i] == CLOSE;
    } else {
      assert WORD[i - 1..i - 1 + |m|] == t[i..i + |m|];
      assert At(m, WORD, i - 1);
    }
  }

  /** A piece at the front of the result with no mark in it was copied. */
  lemma {:induction false} FrontIsCopied(s: string, needle: string, k: nat)
    requires needle != [] && k <= |Replace(s, needle)|
    ensures OPEN in Replace(s, needle)[..k] || (k <= |s| && Replace(s, needle)[..k] == s[..k])
    decreases |s|
  {
    if |s| < |needle| || k == 0 {
    } else if s[..|needle|] == needle {
      assert Replace(s, needle)[..k][0] == OPEN;
    } else {
      var rest := Replace(s[1..], needle);
      assert Replace(s, needle)[..k] == [s[0]] + rest[..k - 1];
      FrontIsCopied(s[1..], needle, k - 1);
    }
  }

  /** Whatever occurs after a replacement holds a guillemet or a piece of the mark, or was there before. */
  lemma {:induction false} OccurredBefore(s: string, needle: string, m: string, i: int)
    requires needle != [] && m != [] && At(m, Replace(s, needle), i)
    ensures !NoGuillemets(m) || Occurs(m, WORD) || (m != needle && Occurs(m, s))
    decreases |s|
  {
    if |s| < |needle| {
      assert At(m, s, i);
    } else if s[..|needle|] == needle {
      var tail := Replace(s[|needle|..], needle);
      if i < |REDACTED| {
        InMark(m, tail, i);
      } else {
        AtTail(m, REDACTED, tail, i);
        OccurredBefore(s[|needle|..], needle, m, i - |REDACTED|);
        if m != needle && Occurs(m, s[|needle|..]) {
          OccursIn(m, s, |needle|);
        }
      }
    } else if i > 0 {
      AtHead(m, s[0], Replace(s[1..], needle), i);
      OccurredBefore(s[1..], needle, m, i - 1);
      if m != needle && Occurs(m, s[1..]) {
        OccursIn(m, s, 1);
      }
    } else {
      FrontIsCopied(s, needle, |m|);
      assert OPEN !in m ==> At(m, s, 0);
    }
  }

  /** Replacing one needle removes it, and brings back no other. */
  lemma {:induction false} ReplaceRemoves(s: string, needle: string, m: string)
    requires needle != [] && Clean(m) && (m == needle || !Occurs(m, s))
    ensures !Occurs(m, Replace(s, needle))
  {
    if i :| At(m, Replace(s, needle), i) {
      OccurredBefore(s, needle, m, i);
    }
  }

  /** Clean needles: not one of them is left, whatever their order. */
  lemma {:induction false} NoNeedleSurvives(s: string, needles: seq<string>, k: nat)
    requires NoneEmpty(needles) && k < |needles| && Clean(needles[k])
    ensures !Occurs(needles[k], RedactString(s, needles))
  {
    var n := |needles| - 1;
    if k < n {
      NoNeedleSurvives(s, needles[..n], k);
    }
    ReplaceRemoves(RedactString(s, needles[..n]), needles[n], needles[k]);
  }

  lemma {:induction false} ReplaceWithout(s: string, needle: string)
    requires needle != [] && !Occurs(needle, s)
    ensures Replace(s, needle) == s
    decreases |s|
  {
    if |s| >= |needle| {
      assert !At(needle, s, 0);
      if Occurs(needle, s[1..]) {
        OccursIn(needle, s, 1);
      }
      ReplaceWithout(s[1..], needle);
    }
  }

  lemma {:induction false} RedactWithout(s: string, needles: seq<string>)
    requires NoneEmpty(needles) && forall k :: 0 <= k < |needles| ==> !Occurs(needles[k], s)
    ensures RedactString(s, needles) == s
  {
    if needles != [] {
      var n := |needles| - 1;
      assert forall k :: 0 <= k < n ==> needles[..n][k] == needles[k];
      RedactWithout(s, needles[..n]);
      ReplaceWithout(s, needles[n]);
    }
  }

  // ---- what a replacement leaves as it was ----

  /** `join`. */
  function Join(pieces: seq<string>, sep: string): string {
    if pieces == [] then "" else if |pieces| == 1 then pieces[0] else pieces[0] + sep + Join(pieces[1..], sep)
  }

  lemma {:induction false} JoinMore(piece: string, pieces: seq<string>, sep: string)
    requires pieces != []
    ensures Join([piece] + pieces, sep) == piece + sep + Join(pieces, sep)
  {
    assert ([piece] + pieces)[1..] == pieces;
  }

  lemma {:induction false} JoinLonger(c: char, pieces: seq<string>, sep: string)
    requires pieces != []
    ensures Join([[c] + pieces[0]] + pieces[1..], sep) == [c] + Join(pieces, sep)
  {
    var longer := [[c] + pieces[0]] + pieces[1..];
    if |pieces| > 1 {
      assert longer[1..] == pieces[1..];
      assert [c] + (pieces[0] + sep + Join(pieces[1..], sep)) == [c] + pieces[0] + sep + Join(pieces[1..], sep);
    }
  }

  /** The needle behind a piece is its first occurrence from the start of that piece. */
  ghost predicate FirstBehind(piece: string, needle: string) {
    forall j :: 0 <= j < |piece| ==> !At(needle, piece + needle, j)
  }

  /** The pieces of `split`: the needle was found behind each but the last, and is not in the last. */
  ghost predicate SplitAt(pieces: seq<string>, needle: string) {
    && pieces != [] && !Occurs(needle, pieces[|pieces| - 1])
    && forall i :: 0 <= i < |pieces| - 1 ==> FirstBehind(pieces[i], needle)
  }

  lemma {:induction false} HeadOfJoin(c: char, pieces: seq<string>, needle: string)
    requires |pieces| > 1 && needle != [] && At(needle, [c] + pieces[0] + needle, 0)
    ensures var s := [c] + Join(pieces, needle); |needle| <= |s| && s[..|needle|] == needle
  {
    var s, front := [c] + Join(pieces, needle), [c] + pieces[0] + needle;
    assert s == front + Join(pieces[1..], needle);
    assert s[..|needle|] == front[0..|needle|];
  }

  /**
   A replacement splits its text at the needle and joins the pieces again with the mark: nothing else of it
   is lost, added or moved.
   */
  lemma {:induction false} ReplaceIsSplitAndJoin(s: string, needle: string) returns (pieces: seq<string>)
    requires needle != []
    ensures SplitAt(pieces, needle) && s == Join(pieces, needle) && Replace(s, needle) == Join(pieces, REDACTED)
    decreases |s|
  {
    if |s| < |needle| {
      pieces := [s];
    } else if s[..|needle|] == needle {
      var rest := ReplaceIsSplitAndJoin(s[|needle|..], needle);
      pieces := [""] + rest;
      JoinMore("", rest, needle);
      JoinMore("", rest, REDACTED);
      assert s == "" + needle + s[|needle|..];
      SplitMore(rest, needle);
    } else {
      var rest := ReplaceIsSplitAndJoin(s[1..], needle);
      pieces := [[s[0]] + rest[0]] + rest[1..];
      JoinLonger(s[0], rest, needle);
      JoinLonger(s[0], rest, REDACTED);
      SplitLonger(s, rest, needle);
    }
  }

  lemma SplitMore(rest: seq<string>, needle: string)
    requires SplitAt(rest, needle)
    ensures SplitAt([""] + rest, needle)
  {
    assert forall i :: 0 < i < |[""] + rest| ==> ([""] + rest)[i] == rest[i - 1];
  }

  lemma {:induction false} LongerPiece(c: char, rest: seq<string>, needle: string)
    requires needle != [] && |rest| > 1 && FirstBehind(rest[0], needle)
    requires var s := [c] + Join(rest, needle); |s| >= |needle| && s[..|needle|] != needle
    ensures FirstBehind([c] + rest[0], needle)
  {
    var piece := [c] + rest[0];
    forall j | 0 <= j < |piece|
      ensures !At(needle, piece + needle, j)
    {
      if At(needle, piece + needle, j) {
        if j == 0 {
          HeadOfJoin(c, rest, needle);
        } else {
          assert piece + needle == [c] + (rest[0] + needle);
          AtHead(needle, c, rest[0] + needle, j);
        }
      }
    }
  }

  lemma {:induction false} SplitLonger(s: string, rest: seq<string>, needle: string)
    requires needle != [] && |s| >= |needle| && s[..|needle|] != needle && SplitAt(rest, needle) && s[1..] == Join(rest, needle)
    ensures SplitAt([[s[0]] + rest[0]] + rest[1..], needle)
  {
    assert s == [s[0]] + Join(rest, needle);
    if |rest| == 1 {
      if i :| At(needle, [s[0]] + rest[0], i) {
        LongerOccurs(s, rest[0], needle, i);
      }
    } else {
      LongerPiece(s[0], rest, needle);
    }
  }

  lemma LongerOccurs(s: string, last: string, needle: string, i: int)
    requires needle != [] && s != [] && s == [s[0]] + last && At(needle, s, i)
    ensures (|needle| <= |s| && s[..|needle|] == needle) || Occurs(needle, last)
  {
    if i > 0 {
      AtHead(needle, s[0], last, i);
    }
  }

  lemma {:induction false} RedactTwice(s: string, needles: seq<string>)
    requires NoneEmpty(needles) && forall k :: 0 <= k < |needles| ==> Clean(needles[k])
    ensures RedactString(RedactString(s, needles), needles) == RedactString(s, needles)
  {
    forall k | 0 <= k < |needles|
      ensures !Occurs(needles[k], RedactString(s, needles))
    {
      NoNeedleSurvives(s, needles, k);
    }
    RedactWithout(RedactString(s, needles), needles);
  }

  /** The needles are replaced from the first to the last: the longest, as they are built, before any it holds. */
  lemma {:induction false} InTurn(s: string, first: seq<string>, rest: seq<string>)
    requires NoneEmpty(first) && NoneEmpty(rest)
    ensures NoneEmpty(first + rest) && RedactString(s, first + rest) == RedactString(RedactString(s, first), rest)
    ensures forall needle :: needle != [] ==> RedactString(s, [needle]) == Replace(s, needle)
    decreases |rest|
  {
    if rest == [] {
      assert first + rest == first;
    } else {
      var n := |rest| - 1;
      assert (first + rest)[..|first| + n] == first + rest[..n] && (first + rest)[|first| + n] == rest[n];
      InTurn(s, first, rest[..n]);
    }
  }

  /** `redactString`: a needle that does not occur is passed over. */
  method RedactInTurn(value: string, needles: seq<string>) returns (out: string)
    requires NoneEmpty(needles)
    ensures out == RedactString(value, needles)
  {
    out := value;
    for i := 0 to |needles|
      invariant out == RedactString(value, needles[..i])
    {
      assert needles[..i + 1][..i] == needles[..i];
      if Includes(out, needles[i]) {
        out := Replace(out, needles[i]);
      } else {
        ReplaceWithout(out, needles[i]);
      }
    }
    assert needles[..|needles|] == needles;
  }

  // ---- exactly which needles ----

  lemma OccursAround(m: string, a: string, b: string)
    ensures Occurs(m, b) ==> Occurs(m, a + b)
    ensures Occurs(m, a) ==> Occurs(m, a + b)
  {
    if i :| At(m, b, i) {
      assert (a + b)[|a| + i..|a| + i + |m|] == b[i..i + |m|];
      assert At(m, a + b, |a| + i);
    }
    if i :| At(m, a, i) {
      assert (a + b)[i..i + |m|] == a[i..i + |m|];
      assert At(m, a + b, i);
    }
  }

  lemma {:induction false} ReplaceLeavesMark(s: string, needle: string)
    requires needle != [] && Occurs(needle, s)
    ensures Occurs(REDACTED, Replace(s, needle))
    decreases |s|
  {
    var i :| At(needle, s, i);
    if s[..|needle|] == needle {
      assert At(REDACTED, Replace(s, needle), 0);
    } else {
      assert s[1..][i - 1..i - 1 + |needle|] == s[i..i + |needle|];
      assert At(needle, s[1..], i - 1);
      ReplaceLeavesMark(s[1..], needle);
      OccursAround(REDACTED, [s[0]], Replace(s[1..], needle));
    }
  }

  /** Redaction either finds nothing, or leaves a mark. */
  lemma {:induction false} UntouchedOrMarked(s: string, needles: seq<string>)
    requires NoneEmpty(needles)
    ensures Occurs(REDACTED, RedactString(s, needles)) ||
            (RedactString(s, needles) == s && forall k :: 0 <= k < |needles| ==> !Occurs(needles[k], s))
  {
    if needles != [] {
      var n := |needles| - 1;
      var out := RedactString(s, needles[..n]);
      UntouchedOrMarked(s, needles[..n]);
      if Occurs(needles[n], out) {
        ReplaceLeavesMark(out, needles[n]);
      } else {
        ReplaceWithout(out, needles[n]);
        assert forall k :: 0 <= k < n ==> needles[..n][k] == needles[k];
      }
    }
  }

  lemma SliceOfSlice(s: string, a: int, b: int, c: int, d: int)
    requires 0 <= a <= b <= |s| && 0 <= c <= d <= b - a
    ensures s[a..b][c..d] == s[a + c..a + d]
  {
    assert forall k :: 0 <= k < d - c ==> s[a..b][c..d][k] == s[a + c + k] && s[a + c..a + d][k] == s[a + c + k];
  }

  lemma OccursThrough(m: string, t: string, s: string)
    requires Occurs(m, t) && Occurs(t, s)
    ensures Occurs(m, s)
  {
    var i :| At(m, t, i);
    var j :| At(t, s, j);
    SliceOfSlice(s, j, j + |t|, i, i + |m|);
    assert At(m, s, j + i);
  }

  ghost predicate Removes(needles: seq<string>)
    requires NoneEmpty(needles)
  {
    forall s, k :: 0 <= k < |needles| ==> !Occurs(needles[k], RedactString(s, needles))
  }

  /**
   Needles without guillemets are gone from every result if and only if none of them is a piece of the
   word in the mark.
   */
  lemma RemovesExactly(needles: seq<string>)
    requires NoneEmpty(needles) && forall k :: 0 <= k < |needles| ==> NoGuillemets(needles[k])
    ensures Removes(needles) <==> forall k :: 0 <= k < |needles| ==> !Occurs(needles[k], WORD)
  {
    if forall k :: 0 <= k < |needles| ==> !Occurs(needles[k], WORD) {
      forall s, k | 0 <= k < |needles|
        ensures !Occurs(needles[k], RedactString(s, needles))
      {
        NoNeedleSurvives(s, needles, k);
      }
    } else {
      var k :| 0 <= k < |needles| && Occurs(needles[k], WORD);
      var s := needles[k];
      UntouchedOrMarked(s, needles);
      assert At(s, s, 0);
      assert At(WORD, WORD, 0);
      OccursAround(WORD, [OPEN], WORD);
      OccursAround(WORD, [OPEN] + WORD, [CLOSE]);
      OccursThrough(s, WORD, REDACTED);
      OccursThrough(s, REDACTED, RedactString(s, needles));
    }
  }

  // ---- building the needles ----

  /** `encodeURIComponent` is taken as given: `encode`. */
  ghost predicate IsNeedle(m: string, secrets: seq<string>, encode: string -> string) {
    |m| >= MIN_REDACTABLE_SECRET_LENGTH &&
    exists s :: s in secrets && |s| >= MIN_REDACTABLE_SECRET_LENGTH && (m == s || m == encode(s))
  }

  predicate LongestFirst(needles: seq<string>) {
    forall i, j :: 0 <= i < j < |needles| ==> |needles[i]| >= |needles[j]|
  }

  lemma InsertedHas(needles: seq<string>, i: nat, m: string)
    requires i <= |needles|
    ensures forall n :: n in needles[..i] + [m] + needles[i..] <==> n in needles || n == m
  {
    assert needles == needles[..i] + needles[i..];
  }

  /** Where a needle goes so that the longest stay first, behind those as long. */
  method Insert(needles: seq<string>, m: string) returns (longer: seq<string>)
    requires LongestFirst(needles)
    ensures LongestFirst(longer) && forall n :: n in longer <==> n in needles || n == m
    ensures |longer| == |needles| + 1
  {
    var i := |needles|;
    while i > 0 && |needles[i - 1]| < |m|
      invariant 0 <= i <= |needles| && forall j :: i <= j < |needles| ==> |needles[j]| < |m|
    {
      i := i - 1;
    }
    longer := needles[..i] + [m] + needles[i..];
    InsertedHas(needles, i, m);
  }

  method BuildNeedles(secrets: seq<string>, encode: string -> string) returns (needles: seq<string>)
    ensures LongestFirst(needles) && forall m :: m in needles <==> IsNeedle(m, secrets, encode)
    ensures forall s <- secrets :: |s| >= 4 ==> s in needles && (|encode(s)| >= 4 ==> encode(s) in needles)
    ensures forall m <- needles :: |m| >= 4 && exists s <- secrets :: |s| >= 4 && (m == s || m == encode(s))
  {
    needles := [];
    for i := 0 to |secrets|
      invariant LongestFirst(needles) && forall m :: m in needles <==> IsNeedle(m, secrets[..i], encode)
    {
      var secret := secrets[i];
      assert secrets[..i + 1] == secrets[..i] + [secret];
      if |secret| < MIN_REDACTABLE_SECRET_LENGTH {
        continue;
      }
      if secret !in needles {
        needles := Insert(needles, secret);
      }
      var encoded := encode(secret);
      if |encoded| >= MIN_REDACTABLE_SECRET_LENGTH && encoded !in needles {
        needles := Insert(needles, encoded);
      }
    }
    assert secrets[..|secrets|] == secrets;
  }

  // ---- an event's values ----

  datatype Value =
    | Null
    | Bool(b: bool)
    | Num(n: real)
    | Str(s: string)
    | Arr(items: seq<Value>)
    | Obj(fields: seq<Field>)

  /** A member of an object, under its key. */
  datatype Field = Field(key: string, value: Value)

  function RedactValue(v: Value, needles: seq<string>, depth: nat): Value
    requires NoneEmpty(needles)
    decreases v, 0
  {
    if needles == [] then v
    else if depth > MAX_DEPTH then (if v.Str? || v.Arr? || v.Obj? then Str(REDACTED) else v)
    else
      match v
      case Str(s) => Str(RedactString(s, needles))
      case Arr(items) => Arr(seq(|items|, i requires 0 <= i < |items| => RedactValue(items[i], needles, depth + 1)))
      case Obj(fields) => Obj(seq(|fields|, i requires 0 <= i < |fields| =>
                                    assert fields[i] < v; Field(fields[i].key, RedactValue(fields[i].value, needles, depth + 1))))
      case _ => v
  }

  /** No string anywhere below holds one of the needles. */
  ghost predicate Scrubbed(v: Value, needles: seq<string>)
    decreases v
  {
    match v
    case Str(s) => forall k :: 0 <= k < |needles| ==> !Occurs(needles[k], s)
    case Arr(items) => forall i :: 0 <= i < |items| ==> Scrubbed(items[i], needles)
    case Obj(fields) => forall i :: 0 <= i < |fields| ==> Scrubbed(fields[i].value, needles)
    case _ => true
  }

  lemma CleanNotInMark(m: string)
    requires Clean(m)
    ensures !Occurs(m, REDACTED)
  {
    if i :| At(m, REDACTED, i) {
      assert REDACTED + [] == REDACTED;
      InMark(m, [], i);
    }
  }

  /** At every depth, beyond the cap too, no string of the result holds a clean needle. */
  lemma {:induction false} ValueIsScrubbed(v: Value, needles: seq<string>, depth: nat)
    requires NoneEmpty(needles) && forall k :: 0 <= k < |needles| ==> Clean(needles[k])
    ensures Scrubbed(RedactValue(v, needles, depth), needles)
    decreases v
  {
    if needles == [] {
      NothingToScrub(v);
    } else if depth > MAX_DEPTH {
      forall k | 0 <= k < |needles| {
        CleanNotInMark(needles[k]);
      }
    } else {
      match v
      case Str(s) =>
        forall k | 0 <= k < |needles| {
          NoNeedleSurvives(s, needles, k);
        }
      case Arr(items) =>
        forall i | 0 <= i < |items| {
          ValueIsScrubbed(items[i], needles, depth + 1);
        }
      case Obj(fields) =>
        forall i | 0 <= i < |fields| {
          ValueIsScrubbed(fields[i].value, needles, depth + 1);
        }
      case _ =>
    }
  }

  lemma {:induction false} NothingToScrub(v: Value)
    ensures Scrubbed(v, [])
    decreases v
  {
    match v
    case Arr(items) =>
      forall i | 0 <= i < |items| {
        NothingToScrub(items[i]);
      }
    case Obj(fields) =>
      forall i | 0 <= i < |fields| {
        NothingToScrub(fields[i].value);
      }
    case _ =>
  }

  /** Redacting a second time changes nothing. */
  lemma {:induction false} RedactValueTwice(v: Value, needles: seq<string>, depth: nat)
    requires NoneEmpty(needles) && forall k :: 0 <= k < |needles| ==> Clean(needles[k])
    ensures RedactValue(RedactValue(v, needles, depth), needles, depth) == RedactValue(v, needles, depth)
    decreases v
  {
    if needles != [] && depth <= MAX_DEPTH {
      match v
      case Str(s) => RedactTwice(s, needles);
      case Arr(items) =>
        forall i | 0 <= i < |items| {
          RedactValueTwice(items[i], needles, depth + 1);
        }
      case Obj(fields) =>
        forall i | 0 <= i < |fields| {
          RedactValueTwice(fields[i].value, needles, depth + 1);
        }
      case _ =>
    }
  }

  function Height(v: Value): nat {
    match v
    case Arr(items) => 1 + Tallest(items)
    case Obj(fields) => 1 + TallestField(fields)
    case _ => 0
  }

  function Tallest(items: seq<Value>): nat {
    if items == [] then 0 else Max(Height(items[0]), Tallest(items[1..]))
  }

  function TallestField(fields: seq<Field>): nat {
    if fields == [] then 0 else Max(Height(fields[0].value), TallestField(fields[1..]))
  }

  lemma {:induction false} TallestBounds(items: seq<Value>, i: nat)
    requires i < |items|
    ensures Height(items[i]) <= Tallest(items)
  {
    if i > 0 {
      TallestBounds(items[1..], i - 1);
    }
  }

  lemma {:induction false} TallestFieldBounds(fields: seq<Field>, i: nat)
    requires i < |fields|
    ensures Height(fields[i].value) <= TallestField(fields)
  {
    if i > 0 {
      TallestFieldBounds(fields[1..], i - 1);
    }
  }

  /** A value within the depth cap that holds no needle comes through as it was. */
  lemma {:induction false} NothingElseChanges(v: Value, needles: seq<string>, depth: nat)
    requires NoneEmpty(needles) && Scrubbed(v, needles) && depth + Height(v) <= MAX_DEPTH
    ensures RedactValue(v, needles, depth) == v
    decreases v
  {
    if needles != [] {
      match v
      case Str(s) => RedactWithout(s, needles);
      case Arr(items) =>
        forall i | 0 <= i < |items|
          ensures RedactValue(items[i], needles, depth + 1) == items[i]
        {
          TallestBounds(items, i);
          NothingElseChanges(items[i], needles, depth + 1);
        }
      case Obj(fields) =>
        forall i | 0 <= i < |fields|
          ensures RedactValue(fields[i].value, needles, depth + 1) == fields[i].value
        {
          TallestFieldBounds(fields, i);
          NothingElseChanges(fields[i].value, needles, depth + 1);
        }
      case _ =>
    }
  }

  /** What lies at a place, by the child's number at each level. */
  function Reach(v: Value, path: seq<nat>): Option<Value>
    decreases path
  {
    if path == [] then Some(v)
    else
      match v
      case Arr(items) => if path[0] < |items| then Reach(items[path[0]], path[1..]) else None
      case Obj(fields) => if path[0] < |fields| then Reach(fields[path[0]].value, path[1..]) else None
      case _ => None
  }

  /** A string with its needles replaced, a container of as many members under the same keys, or what it was. */
  predicate Stands(was: Value, now: Value, needles: seq<string>)
    requires NoneEmpty(needles)
  {
    match was
    case Str(s) => now == Str(RedactString(s, needles))
    case Arr(items) => now.Arr? && |now.items| == |items|
    case Obj(fields) => now.Obj? && |now.fields| == |fields| && forall i :: 0 <= i < |fields| ==> now.fields[i].key == fields[i].key
    case _ => now == was
  }

  /**
   Place by place: what was there stands there, redacted, and nothing stands elsewhere; one level beyond the
   cap strings and containers are the mark, and plain values as they were.
   */
  lemma {:induction false} RedactedInPlace(v: Value, needles: seq<string>, depth: nat, path: seq<nat>)
    requires NoneEmpty(needles) && needles != [] && depth + |path| <= MAX_DEPTH + 1
    ensures var was, now := Reach(v, path), Reach(RedactValue(v, needles, depth), path);
            && (was.Some? <==> now.Some?)
            && (was.Some? ==>
                  if depth + |path| <= MAX_DEPTH then Stands(was.value, now.value, needles)
                  else now.value == if was.value.Str? || was.value.Arr? || was.value.Obj? then Str(REDACTED) else was.value)
    decreases path
  {
    if path != [] {
      match v
      case Arr(items) =>
        if path[0] < |items| {
          RedactedInPlace(items[path[0]], needles, depth + 1, path[1..]);
        }
      case Obj(fields) =>
        if path[0] < |fields| {
          RedactedInPlace(fields[path[0]].value, needles, depth + 1, path[1..]);
        }
      case _ =>
    }
  }

  /** `createRedactingSink`, on one event: no clean secret, raw or encoded, is left in any string of it. */
  method ScrubEvent(event: Value, secrets: seq<string>, encode: string -> string) returns (scrubbed: Value, ghost needles: seq<string>)
    ensures LongestFirst(needles) && (forall m :: m in needles <==> IsNeedle(m, secrets, encode)) && NoneEmpty(needles)
    ensures scrubbed == RedactValue(event, needles, 0)
    ensures (forall m <- needles :: Clean(m)) ==> Scrubbed(scrubbed, needles)
  {
    var found := BuildNeedles(secrets, encode);
    needles := found;
    forall i | 0 <= i < |needles|
      ensures IsNeedle(needles[i], secrets, encode)
    {
      assert needles[i] in needles;
    }
    scrubbed := RedactValue(event, found, 0);
    if forall m <- needles :: Clean(m) {
      ValueIsScrubbed(event, needles, 0);
    }
  }
}
