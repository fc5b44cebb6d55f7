/**
  Removing the secrets of a page from what an agent is told about it (page_state.py:102-111, 217).

  Python's `str.replace` is modelled on all its inputs, the empty pattern included.
 */
module Redaction {
  import opened Wrappers

  const DOT := '\U{2022}'

  function Mask(): string {
    [DOT, DOT, DOT, DOT]
  }

  // ---------- str.replace ----------

  ghost predicate At(t: string, s: string, i: nat) {
    i + |s| <= |t| && forall j | 0 <= j < |s| :: t[i + j] == s[j]
  }

  ghost predicate Contains(t: string, s: string) {
    exists i: nat :: At(t, s, i)
  }

  /** The leftmost place where `s` occurs, at or after `from`. */
  function Find(t: string, s: string, from: nat): (r: Option<nat>)
    ensures r.Some? ==> At(t, s, r.value) && from <= r.value && forall i: nat | from <= i < r.value :: !At(t, s, i)
    ensures r.None? ==> forall i: nat | from <= i :: !At(t, s, i)
    decreases |t| - from
  {
    if from + |s| > |t| then None
    else if t[from..from + |s|] == s then Some(from)
    else Find(t, s, from + 1)
  }

  function Splice(before: string, m: string, after: string): string {
    before + m + after
  }

  /** `t.replace("", m)`: around every character. */
  function Interleave(t: string, m: string): string {
    if t == "" then m else Splice(m, [t[0]], Interleave(t[1..], m))
  }

  /** `t.replace(s, m)`. */
  function Replace(t: string, s: string, m: string): string
    decreases |t|
  {
    if |s| == 0 then Interleave(t, m)
    else
      var first := Find(t, s, 0);
      if first.None? then t
      else Splice(t[..first.value], m, Replace(t[first.value + |s|..], s, m))
  }

  function Join(pieces: seq<string>, separator: string): string {
    if pieces == [] then ""
    else if |pieces| == 1 then pieces[0]
    else pieces[0] + separator + Join(pieces[1..], separator)
  }

  /**
    What `replace` means: the text is cut at `s` as early as possible each time, no piece contains `s`, and
    the same pieces are joined by the mask; nothing else of the text is lost or added.
   */
  lemma {:induction false} ReplaceIsSplitJoin(t: string, s: string, m: string) returns (pieces: seq<string>)
    requires s != ""
    ensures pieces != [] && Join(pieces, s) == t && Join(pieces, m) == Replace(t, s, m)
    ensures forall k | 0 <= k < |pieces| :: !Contains(pieces[k], s)
    ensures forall k, j: nat | 0 <= k < |pieces| - 1 && j < |pieces[k]| :: !At(pieces[k] + s, s, j)
    decreases |t|
  {
    hide Find, At, Contains, Replace, Join;
    if Find(t, s, 0).None? {
      FindNone(t, s, m);
      pieces := [t];
      JoinOne(t, s);
      JoinOne(t, m);
    } else {
      var i := Find(t, s, 0).value;
      FindSome(t, s, i);
      ReplaceFirst(t, s, i, m);
      var rest := ReplaceIsSplitJoin(t[i + |s|..], s, m);
      pieces := [t[..i]] + rest;
      LeftmostCut(t, s, i);
      JoinMore(t[..i], rest, s);
      JoinMore(t[..i], rest, m);
      BeforeFirst(t, s, i);
    }
  }

  lemma FindNone(t: string, s: string, m: string)
    requires Find(t, s, 0).None? && s != ""
    ensures !Contains(t, s) && Replace(t, s, m) == t
  {
  }

  lemma FindSome(t: string, s: string, i: nat)
    requires Find(t, s, 0) == Some(i)
    ensures i + |s| <= |t| && t == Splice(t[..i], s, t[i + |s|..]) && forall k: nat | k < i :: !At(t, s, k)
  {
    assert At(t, s, i);
    AtSplices(t, s, i);
  }

  lemma AtSplices(t: string, s: string, i: nat)
    requires At(t, s, i)
    ensures t == Splice(t[..i], s, t[i + |s|..])
  {
  }

  lemma ReplaceFirst(t: string, s: string, i: nat, m: string)
    requires Find(t, s, 0) == Some(i) && s != "" && i + |s| <= |t|
    ensures Replace(t, s, m) == Splice(t[..i], m, Replace(t[i + |s|..], s, m))
  {
    hide Find, At, Splice;
  }

  /** No earlier place of the text begins an occurrence. */
  lemma LeftmostCut(t: string, s: string, i: nat)
    requires i + |s| <= |t| && t == Splice(t[..i], s, t[i + |s|..]) && forall k: nat | k < i :: !At(t, s, k)
    ensures forall j: nat | j < |t[..i]| :: !At(t[..i] + s, s, j)
  {
    forall j: nat | j < i
      ensures !At(t[..i] + s, s, j)
    {
      if At(t[..i] + s, s, j) {
        assert t[0..i + |s|] == t[..i] + s;
        PartAt(t, s, 0, i + |s|, j);
      }
    }
  }

  lemma JoinOne(piece: string, separator: string)
    ensures Join([piece], separator) == piece
  {
  }

  lemma JoinMore(piece: string, rest: seq<string>, separator: string)
    requires rest != []
    ensures Join([piece] + rest, separator) == Splice(piece, separator, Join(rest, separator))
  {
  }

  /** An occurrence in a part of a text is one in the text. */
  lemma PartAt(t: string, s: string, from: nat, to: nat, k: nat)
    requires from <= to <= |t| && At(t[from..to], s, k)
    ensures At(t, s, from + k)
  {
  }

  lemma BeforeFirst(t: string, s: string, i: nat)
    requires i <= |t| && s != "" && forall k: nat | k < i :: !At(t, s, k)
    ensures !Contains(t[..i], s)
  {
    forall k: nat
      ensures !At(t[..i], s, k)
    {
      if At(t[..i], s, k) {
        assert t[0..i] == t[..i];
        PartAt(t, s, 0, i, k);
      }
    }
  }

  lemma PartsContainNoMore(t: string, s: string, from: nat, to: nat)
    requires from <= to <= |t| && !Contains(t, s)
    ensures !Contains(t[from..to], s)
  {
    forall k: nat
      ensures !At(t[from..to], s, k)
    {
      if At(t[from..to], s, k) {
        PartAt(t, s, from, to, k);
      }
    }
  }

  lemma AbsentIsUnchanged(t: string, s: string, m: string)
    requires !Contains(t, s)
    ensures Replace(t, s, m) == t
  {
    if s == "" {
      EmptyIsEverywhere(t);
    }
  }

  lemma EmptyIsEverywhere(t: string)
    ensures Contains(t, "")
  {
    assert At(t, "", 0);
  }

  // ---------- one secret ----------

  /** Secrets that replacement really removes. */
  ghost predicate Safe(s: string) {
    s != "" && s[0] != DOT && s[|s| - 1] != DOT && !Contains(s, Mask())
  }

  lemma NoDotIsSafe(s: string)
    requires s != "" && DOT !in s
    ensures Safe(s)
  {
    forall k: nat
      ensures !At(s, Mask(), k)
    {
      if At(s, Mask(), k) {
        MaskHasDots(s, k);
      }
    }
  }

  lemma MaskHasDots(s: string, k: nat)
    requires At(s, Mask(), k)
    ensures DOT in s
  {
    assert s[k + 0] == Mask()[0];
  }

  /** Where an occurrence in a text with an inserted mask can be. */
  lemma AcrossMask(x: string, z: string, q: string, k: nat)
    requires q != "" && At(x + Mask() + z, q, k)
    ensures || At(x, q, k)
            || (k >= |x| + 4 && At(z, q, k - |x| - 4))
            || q[0] == DOT || q[|q| - 1] == DOT || Contains(q, Mask())
  {
    var t, n := x + Mask() + z, |q|;
    if k + n <= |x| {
      forall j | 0 <= j < n
        ensures x[k + j] == q[j]
      {
        assert t[k + j] == q[j];
      }
    } else if k >= |x| + 4 {
      forall j | 0 <= j < n
        ensures z[k - |x| - 4 + j] == q[j]
      {
        assert t[k + j] == q[j];
      }
    } else if k >= |x| {
      assert q[0] == t[k + 0];
    } else if k + n <= |x| + 4 {
      assert q[n - 1] == t[k + (n - 1)];
    } else {
      var j := |x| - k;
      forall i | 0 <= i < 4
        ensures q[j + i] == Mask()[i]
      {
        assert t[k + (j + i)] == q[j + i];
      }
      assert At(q, Mask(), j);
    }
  }

  /** A safe secret cannot come into being across an inserted mask. */
  lemma NoneAcrossMask(x: string, z: string, q: string)
    requires Safe(q) && !Contains(x, q) && !Contains(z, q)
    ensures !Contains(Splice(x, Mask(), z), q)
  {
    forall k: nat
      ensures !At(x + Mask() + z, q, k)
    {
      if At(x + Mask() + z, q, k) {
        AcrossMask(x, z, q, k);
      }
    }
  }

  /** The text around the first occurrence has no more of `q` than the text. */
  lemma PartsKeepOut(t: string, s: string, q: string, i: nat)
    requires s != "" && Find(t, s, 0) == Some(i) && i + |s| <= |t|
    requires q != s ==> !Contains(t, q)
    ensures !Contains(t[..i], q) && (q != s ==> !Contains(t[i + |s|..], q))
  {
    hide Contains, At, Find;
    FindSome(t, s, i);
    if q == s {
      BeforeFirst(t, s, i);
    } else {
      PartsContainNoMore(t, q, 0, i);
      assert t[0..i] == t[..i];
      PartsContainNoMore(t, q, i + |s|, |t|);
      assert t[i + |s|..|t|] == t[i + |s|..];
    }
  }

  /** Replacing `s` removes it, and brings no safe secret back. */
  lemma {:induction false} PassKeepsOut(t: string, s: string, q: string)
    requires Safe(q) && (q != s ==> !Contains(t, q))
    ensures !Contains(Replace(t, s, Mask()), q)
    decreases |t|
  {
    hide *;
    if s == "" {
      SafeNotEmpty(q);
      var z := EmptyPassKeepsOut(t, q);
      ReplaceEmpty(t, Mask());
    } else if Find(t, s, 0).None? {
      FindNone(t, s, Mask());
    } else {
      var i := Find(t, s, 0).value;
      FindSome(t, s, i);
      ReplaceFirst(t, s, i, Mask());
      PartsKeepOut(t, s, q, i);
      PassKeepsOut(t[i + |s|..], s, q);
      NoneAcrossMask(t[..i], Replace(t[i + |s|..], s, Mask()), q);
    }
  }

  lemma ReplaceEmpty(t: string, m: string)
    ensures Replace(t, "", m) == Interleave(t, m)
  {
  }

  lemma SafeNotEmpty(q: string)
    requires Safe(q)
    ensures q != ""
  {
  }

  /** Replacing the empty string puts a mask around every character. */
  lemma {:induction false} EmptyPassKeepsOut(t: string, q: string) returns (z: string)
    requires Safe(q) && !Contains(t, q)
    ensures Interleave(t, Mask()) == Mask() + z && !Contains(z, q) && !Contains(Mask() + z, q)
    decreases |t|
  {
    PartsContainNoMore(t, q, 0, 0);
    assert t[0..0] == "" && "" + Mask() == Mask();
    if t == "" {
      z := "";
      assert Mask() + "" == Mask();
    } else {
      var rest := EmptyPassKeepsOut(t[1..], q) by {
        PartsContainNoMore(t, q, 1, |t|);
        assert t[1..|t|] == t[1..];
      }
      z := [t[0]] + Mask() + rest;
      PartsContainNoMore(t, q, 0, 1);
      assert t[0..1] == [t[0]];
      NoneAcrossMask([t[0]], rest, q);
      assert Mask() + [t[0]] + (Mask() + rest) == Mask() + z;
    }
    NoneAcrossMask("", z, q);
  }

  lemma OneMatch(t: string, s: string, i: nat)
    requires s != "" && At(t, s, i) && (forall k: nat | k < i :: !At(t, s, k)) && !Contains(t[i + |s|..], s)
    ensures Replace(t, s, Mask()) == Splice(t[..i], Mask(), t[i + |s|..])
  {
    hide Replace, Splice;
    assert Find(t, s, 0) == Some(i);
    ReplaceFirst(t, s, i, Mask());
    AbsentIsUnchanged(t[i + |s|..], s, Mask());
  }

  lemma ShortHoldsNone(t: string, s: string)
    requires |t| < |s|
    ensures !Contains(t, s)
  {
  }

  lemma AtJoint(x: string, s: string, z: string)
    ensures At(x + s + z, s, |x|)
  {
  }

  /** For every other secret there is a text in which it survives. */
  lemma UnsafeSurvives(s: string) returns (v: string)
    requires !Safe(s)
    ensures Contains(Replace(v, s, Mask()), s)
  {
    hide Contains, Replace;
    if s == "" {
      v := "";
      EmptyIsEverywhere(Replace(v, s, Mask()));
    } else if s[0] == DOT {
      v := SurvivesAtStart(s);
    } else if s[|s| - 1] == DOT {
      v := SurvivesAtEnd(s);
    } else {
      v := SurvivesInside(s);
    }
  }

  lemma SurvivesAtStart(s: string) returns (v: string)
    requires s != "" && s[0] == DOT
    ensures Contains(Replace(v, s, Mask()), s)
  {
    hide Replace, Find, At, Contains;
    v := "" + s + s[1..];
    AtJoint("", s, s[1..]);
    assert v[|s|..] == s[1..];
    ShortHoldsNone(s[1..], s);
    OneMatch(v, s, 0);
    MaskThenTail(s);
    assert v[..0] + Mask() + s[1..] == Mask() + s[1..];
  }

  lemma MaskThenTail(s: string)
    requires s != "" && s[0] == DOT
    ensures Contains(Mask() + s[1..], s)
  {
    assert Mask() + s[1..] == [DOT, DOT, DOT] + s + "";
    AtJoint([DOT, DOT, DOT], s, "");
  }

  lemma EarlyCopy(s: string, n: nat, k: nat)
    requires |s| == n + 1 && k < n && At(s[..n] + s, s, k)
    ensures s[0] == s[n]
  {
  }

  lemma SurvivesAtEnd(s: string) returns (v: string)
    requires s != "" && s[0] != DOT && s[|s| - 1] == DOT
    ensures Contains(Replace(v, s, Mask()), s)
  {
    hide Replace, Find, At, Contains, Splice;
    var n := |s| - 1;
    v := s[..n] + s;
    assert v == s[..n] + s + "";
    AtJoint(s[..n], s, "");
    forall k: nat | k < n
      ensures !At(v, s, k)
    {
      if At(v, s, k) {
        EarlyCopy(s, n, k);
      }
    }
    assert v[n + |s|..] == "" && v[..n] == s[..n];
    ShortHoldsNone("", s);
    OneMatch(v, s, n);
    FrontThenMask(s);
  }

  lemma FrontThenMask(s: string)
    requires s != "" && s[|s| - 1] == DOT
    ensures Contains(Splice(s[..|s| - 1], Mask(), ""), s)
  {
    assert Splice(s[..|s| - 1], Mask(), "") == "" + s + [DOT, DOT, DOT];
    AtJoint("", s, [DOT, DOT, DOT]);
  }

  lemma EarlyMask(x: string, s: string, y: string, k: nat)
    requires At(s, Mask(), |x|) && k < |x| && At(x + s + y, s, k)
    ensures At(s, Mask(), k)
  {
  }

  lemma SurvivesInside(s: string) returns (v: string)
    requires s != "" && Contains(s, Mask())
    ensures Contains(Replace(v, s, Mask()), s)
  {
    hide Replace, Contains;
    var m := FirstMask(s);
    var x, y := s[..m], s[m + 4..];
    v := x + s + y;
    AtJoint(x, s, y);
    forall k: nat | k < m
      ensures !At(v, s, k)
    {
      if At(v, s, k) {
        EarlyMask(x, s, y, k);
      }
    }
    hide At;
    assert v[m + |s|..] == y;
    ShortHoldsNone(y, s);
    OneMatch(v, s, m);
    assert v[..m] == x;
    ItselfIn(s);
  }

  lemma FirstMask(s: string) returns (m: nat)
    requires Contains(s, Mask())
    ensures m + 4 <= |s| && At(s, Mask(), m) && s == s[..m] + Mask() + s[m + 4..]
    ensures forall k: nat | k < m :: !At(s, Mask(), k)
  {
    m := Find(s, Mask(), 0).value;
    forall j | 0 <= j < 4
      ensures s[m + j] == Mask()[j]
    {
    }
  }

  lemma ItselfIn(s: string)
    ensures Contains(s, s)
  {
    assert At(s, s, 0);
  }

  /** The secrets whose replacement leaves no copy behind, whatever the text, are exactly the safe ones. */
  lemma RemovedIffSafe(s: string)
    ensures Safe(s) <==> forall t :: !Contains(Replace(t, s, Mask()), s)
  {
    if Safe(s) {
      forall t
        ensures !Contains(Replace(t, s, Mask()), s)
      {
        PassKeepsOut(t, s, s);
      }
    } else {
      var t := UnsafeSurvives(s);
    }
  }

  // ---------- all secrets, one text ----------

  /** One pass per secret, in the order of the list. */
  function Passes(t: string, secrets: seq<string>): string {
    if secrets == [] then t
    else Replace(Passes(t, secrets[..|secrets| - 1]), secrets[|secrets| - 1], Mask())
  }

  /** In whatever order the passes run, no safe secret of the list is left. */
  lemma {:induction false} NoneLeft(t: string, secrets: seq<string>, q: string)
    requires Safe(q) && q in secrets
    ensures !Contains(Passes(t, secrets), q)
    decreases |secrets|
  {
    hide Contains, Safe, Replace;
    var last := secrets[|secrets| - 1];
    if q in secrets[..|secrets| - 1] {
      NoneLeft(t, secrets[..|secrets| - 1], q);
    }
    PassKeepsOut(Passes(t, secrets[..|secrets| - 1]), last, q);
  }

  lemma {:induction false} CleanIsUnchanged(t: string, secrets: seq<string>)
    requires forall s | s in secrets :: !Contains(t, s)
    ensures Passes(t, secrets) == t
    decreases |secrets|
  {
    if secrets != [] {
      CleanIsUnchanged(t, secrets[..|secrets| - 1]);
      AbsentIsUnchanged(t, secrets[|secrets| - 1], Mask());
    }
  }

  /** Nor is any text left that has a safe secret of the list inside it. */
  lemma NoneLeftAround(t: string, secrets: seq<string>, q: string, p: string)
    requires Safe(q) && q in secrets && Contains(p, q)
    ensures !Contains(Passes(t, secrets), p)
  {
    NoneLeft(t, secrets, q);
    var clean := Passes(t, secrets);
    forall k: nat
      ensures !At(clean, p, k)
    {
      if At(clean, p, k) {
        AtWithin(clean, p, q, k);
      }
    }
  }

  lemma AtWithin(t: string, p: string, q: string, k: nat)
    requires At(t, p, k) && Contains(p, q)
    ensures Contains(t, q)
  {
    var i: nat :| At(p, q, i);
    forall j | 0 <= j < |q|
      ensures t[k + i + j] == q[j]
    {
      assert p[i + j] == q[j];
      assert t[k + (i + j)] == p[i + j];
    }
    assert At(t, q, k + i);
  }

  /** So safety of each secret is not necessary for a whole list: an unsafe one may go with another. */
  lemma ListMayStillBeClean(t: string)
    ensures !Safe([DOT, 'a']) && !Contains(Passes(t, [[DOT, 'a'], "a"]), [DOT, 'a'])
  {
    NoDotIsSafe("a");
    assert At([DOT, 'a'], "a", 1);
    NoneLeftAround(t, [[DOT, 'a'], "a"], "a", [DOT, 'a']);
  }

  // ---------- longest first ----------

  /** `sorted(set(secrets), key=len, reverse=True)`. */
  ghost predicate LongestFirst(secrets: seq<string>) {
    && (forall i, j | 0 <= i < j < |secrets| :: |secrets[i]| >= |secrets[j]|)
    && (forall i, j | 0 <= i < j < |secrets| :: secrets[i] != secrets[j])
  }

  /** No occurrence of `s` overlaps the middle part of `x + m + z`, unless it is that part. */
  ghost predicate Clear(x: string, m: string, z: string, s: string) {
    forall k: nat | At(Splice(x, m, z), s, k) :: k + |s| <= |x| || k >= |x| + |m| || (k == |x| && s == m)
  }

  lemma FindIs(t: string, s: string, i: nat)
    requires At(t, s, i) && forall k: nat | k < i :: !At(t, s, k)
    ensures Find(t, s, 0) == Some(i)
  {
  }

  lemma SpliceAgain(a: string, m: string, b: string, m': string, c: string)
    ensures Splice(Splice(a, m, b), m', c) == Splice(a, m, Splice(b, m', c))
    ensures Splice(Splice(a, m, b), m', c) == Splice(a, m, b) + m' + c
  {
  }

  /** Occurrences in a text before `rest` are those in the text alone that end early enough. */
  lemma AtInFront(t: string, rest: string, s: string, k: nat)
    ensures At(t, s, k) <==> At(t + rest, s, k) && k + |s| <= |t|
  {
    if k + |s| <= |t| {
      forall j | 0 <= j < |s|
        ensures (t + rest)[k + j] == s[j] <==> t[k + j] == s[j]
      {
      }
    }
  }

  lemma AtBehind(front: string, t: string, s: string, k: nat)
    ensures At(t, s, k) <==> At(front + t, s, |front| + k)
  {
    if |front| + k + |s| <= |front + t| {
      forall j | 0 <= j < |s|
        ensures (front + t)[|front| + k + j] == s[j] <==> t[k + j] == s[j]
      {
      }
    }
  }

  lemma ClearSuffix(x: string, n: nat, m: string, z: string, s: string)
    requires n <= |x| && Clear(x, m, z, s)
    ensures Clear(x[n..], m, z, s)
  {
    hide At;
    assert Splice(x, m, z) == x[..n] + Splice(x[n..], m, z);
    forall k: nat | At(Splice(x[n..], m, z), s, k)
      ensures k + |s| <= |x[n..]| || k >= |x[n..]| + |m| || (k == |x[n..]| && s == m)
    {
      AtBehind(x[..n], Splice(x[n..], m, z), s, k);
      assert At(Splice(x, m, z), s, n + k);
    }
  }

  /** The first occurrence to the left of the middle part is the first of all. */
  lemma FirstOnTheLeft(x: string, m: string, z: string, s: string, i: nat)
    requires s != "" && Find(x, s, 0) == Some(i)
    ensures Find(Splice(x, m, z), s, 0) == Some(i)
  {
    hide At, Find;
    FindSome(x, s, i);
    assert At(x, s, i) by {
      FoundAt(x, s, i);
    }
    AtInFront(x, m + z, s, i);
    assert Splice(x, m, z) == x + (m + z);
    forall k: nat | k < i
      ensures !At(Splice(x, m, z), s, k)
    {
      AtInFront(x, m + z, s, k);
    }
    FindIs(Splice(x, m, z), s, i);
  }

  lemma FoundAt(t: string, s: string, i: nat)
    requires Find(t, s, 0) == Some(i)
    ensures At(t, s, i)
  {
  }

  /** Without one on the left there is none before the middle part. */
  lemma NoneOnTheLeft(x: string, m: string, z: string, s: string, k: nat)
    requires s != "" && Find(x, s, 0).None? && Clear(x, m, z, s) && At(Splice(x, m, z), s, k)
    ensures k >= |x| + |m| || (k == |x| && s == m)
  {
    hide At;
    assert !At(x, s, k);
    AtInFront(x, m + z, s, k);
    assert Splice(x, m, z) == x + (m + z);
  }

  lemma OnlyBehind(x: string, m: string, z: string, s: string, k: nat)
    requires s != "" && s != m && Find(x, s, 0).None? && Clear(x, m, z, s) && At(Splice(x, m, z), s, k)
    ensures k >= |x + m| && At(z, s, k - |x + m|)
  {
    hide At, Find, Clear;
    NoneOnTheLeft(x, m, z, s, k);
    AtBehind(x + m, z, s, k - |x + m|);
  }

  /** Then replacing goes on behind the middle part, as if it stood alone. */
  lemma ReplaceBehind(x: string, m: string, z: string, s: string, mask: string)
    requires s != "" && s != m && Find(x, s, 0).None? && Clear(x, m, z, s)
    ensures Replace(Splice(x, m, z), s, mask) == Splice(x, m, Replace(z, s, mask))
  {
    hide At, Find, Replace, Clear, Contains, Splice;
    forall k: nat
      ensures At(Splice(x, m, z), s, k) ==> k >= |x + m| && At(z, s, k - |x + m|)
    {
      if At(Splice(x, m, z), s, k) {
        OnlyBehind(x, m, z, s, k);
      }
    }
    if Find(z, s, 0).None? {
      NoneBehind(x, m, z, s, mask);
    } else {
      FirstBehind(x, m, z, s, mask, Find(z, s, 0).value);
    }
  }

  lemma NoneBehind(x: string, m: string, z: string, s: string, mask: string)
    requires s != "" && Find(z, s, 0).None?
    requires forall k: nat | At(Splice(x, m, z), s, k) :: k >= |x + m| && At(z, s, k - |x + m|)
    ensures Replace(Splice(x, m, z), s, mask) == Splice(x, m, Replace(z, s, mask))
  {
    hide At, Find, Replace, Contains, Splice;
    forall k: nat
      ensures !At(z, s, k)
    {
      NotAt(z, s, k);
    }
    FindNone(z, s, mask);
    NoneFound(Splice(x, m, z), s);
    FindNone(Splice(x, m, z), s, mask);
  }

  lemma FirstBehind(x: string, m: string, z: string, s: string, mask: string, j: nat)
    requires s != "" && Find(z, s, 0) == Some(j)
    requires forall k: nat | At(Splice(x, m, z), s, k) :: k >= |x + m| && At(z, s, k - |x + m|)
    ensures Replace(Splice(x, m, z), s, mask) == Splice(x, m, Replace(z, s, mask))
  {
    hide At, Find, Replace, Splice;
    var t, n := Splice(x, m, z), |x + m|;
    FindSome(z, s, j);
    FoundAt(z, s, j);
    CutBehind(x, m, z, j, |s|);
    AtBehind(x + m, z, s, j);
    FindIs(t, s, n + j);
    ReplaceFirst(z, s, j, mask);
    ReplaceFirst(t, s, n + j, mask);
    SpliceBehind(x, m, z[..j], mask, Replace(z[j + |s|..], s, mask));
  }

  lemma CutBehind(x: string, m: string, z: string, j: nat, n: nat)
    requires j + n <= |z|
    ensures var t := Splice(x, m, z);
            && |t| == |x + m| + |z| && t == (x + m) + z
            && t[..|x + m| + j] == x + m + z[..j] && t[|x + m| + j + n..] == z[j + n..]
  {
  }

  lemma SpliceBehind(x: string, m: string, a: string, mask: string, b: string)
    ensures Splice(x + m + a, mask, b) == Splice(x, m, Splice(a, mask, b))
  {
  }

  lemma NoneFound(t: string, s: string)
    requires forall k: nat :: !At(t, s, k)
    ensures Find(t, s, 0).None?
  {
  }

  lemma NotAt(t: string, s: string, k: nat)
    requires Find(t, s, 0).None?
    ensures !At(t, s, k)
  {
  }

  /** A pass works on the two sides of a part that no occurrence overlaps, and masks it if it is the secret. */
  lemma {:induction false} DivideReplace(x: string, m: string, z: string, s: string, mask: string)
    requires s != "" && Clear(x, m, z, s)
    ensures Replace(Splice(x, m, z), s, mask)
         == Splice(Replace(x, s, mask), if s == m then mask else m, Replace(z, s, mask))
    decreases |x|
  {
    hide At, Find, Replace, Clear, Contains;
    var t := Splice(x, m, z);
    if Find(x, s, 0).Some? {
      var i := Find(x, s, 0).value;
      FindSome(x, s, i);
      FirstOnTheLeft(x, m, z, s, i);
      ReplaceFirst(x, s, i, mask);
      ReplaceFirst(t, s, i, mask);
      ClearSuffix(x, i + |s|, m, z, s);
      assert t[..i] == x[..i] && t[i + |s|..] == Splice(x[i + |s|..], m, z);
      DivideReplace(x[i + |s|..], m, z, s, mask);
      SpliceAgain(x[..i], mask, Replace(x[i + |s|..], s, mask), if s == m then mask else m, Replace(z, s, mask));
    } else {
      FindNone(x, s, mask);
      if s == m {
        ItselfBetween(x, m, z);
        ReplaceFirst(t, s, |x|, mask);
        assert t[..|x|] == x && t[|x| + |s|..] == z;
      } else {
        ReplaceBehind(x, m, z, s, mask);
      }
    }
  }

  lemma ItselfBetween(x: string, m: string, z: string)
    requires m != "" && Find(x, m, 0).None? && Clear(x, m, z, m)
    ensures Find(Splice(x, m, z), m, 0) == Some(|x|)
  {
    hide At, Find, Clear;
    AtJoint(x, m, z);
    forall k: nat | k < |x|
      ensures !At(Splice(x, m, z), m, k)
    {
      if At(Splice(x, m, z), m, k) {
        NoneOnTheLeft(x, m, z, m, k);
      }
    }
    FindIs(Splice(x, m, z), m, |x|);
  }

  lemma ClearRight(x: string, m: string, z: string, s: string, q: string)
    requires s != "" && Safe(q) && Clear(x, m, z, q)
    ensures Clear(x, m, Replace(z, s, Mask()), q)
  {
    hide At, Find, Replace, Mask;
    if Find(z, s, 0).None? {
      FindNone(z, s, Mask());
    } else {
      var i := Find(z, s, 0).value;
      FindSome(z, s, i);
      ReplaceFirst(z, s, i, Mask());
      var f, r := x + m + z[..i], Replace(z[i + |s|..], s, Mask());
      var t := Splice(x, m, Replace(z, s, Mask()));
      assert t == f + Mask() + r;
      assert Splice(x, m, z) == f + z[i..];
      forall k: nat | At(t, q, k)
        ensures k + |q| <= |x| || k >= |x| + |m| || (k == |x| && q == m)
      {
        SafeAcrossMask(f, r, q, k);
        AtInFront(f, z[i..], q, k);
      }
    }
  }

  lemma SafeAcrossMask(x: string, z: string, q: string, k: nat)
    requires Safe(q) && At(x + Mask() + z, q, k)
    ensures At(x, q, k) || (k >= |x| + |Mask()| && At(z, q, k - |x| - |Mask()|))
  {
    hide At;
    AcrossMask(x, z, q, k);
  }

  lemma {:induction false} ClearLeft(x: string, m: string, z: string, s: string, q: string)
    requires s != "" && Safe(q) && Clear(x, m, z, q)
    ensures Clear(Replace(x, s, Mask()), m, z, q)
    decreases |x|
  {
    hide At, Find, Replace, Mask, Safe;
    if Find(x, s, 0).None? {
      FindNone(x, s, Mask());
    } else {
      var i := Find(x, s, 0).value;
      FindSome(x, s, i);
      ReplaceFirst(x, s, i, Mask());
      ClearSuffix(x, i + |s|, m, z, q);
      ClearLeft(x[i + |s|..], m, z, s, q);
      var r := Replace(x[i + |s|..], s, Mask());
      SpliceAgain(x[..i], Mask(), r, m, z);
      forall k: nat | At(Splice(Splice(x[..i], Mask(), r), m, z), q, k)
        ensures var left := |Splice(x[..i], Mask(), r)|;
                k + |q| <= left || k >= left + |m| || (k == left && q == m)
      {
        SafeAcrossMask(x[..i], Splice(r, m, z), q, k);
        AtInFront(x[..i], "", q, k);
      }
    }
  }

  lemma PassesAppend(t: string, a: seq<string>, b: seq<string>)
    ensures Passes(t, a + b) == Passes(Passes(t, a), b)
    decreases |b|
  {
    hide Replace;
    if b == [] {
      assert a + b == a;
    } else {
      PassesAppend(t, a, b[..|b| - 1]);
      assert (a + b)[..|a + b| - 1] == a + b[..|b| - 1];
    }
  }

  /** Passes of secrets that do not touch the middle part work on its two sides alone. */
  lemma {:induction false} PassesAround(x: string, m: string, z: string, secrets: seq<string>, q: string)
    requires forall s | s in secrets :: Safe(s) && s != m && Clear(x, m, z, s)
    requires Safe(q) && Clear(x, m, z, q)
    ensures Passes(Splice(x, m, z), secrets) == Splice(Passes(x, secrets), m, Passes(z, secrets))
    ensures Clear(Passes(x, secrets), m, Passes(z, secrets), q)
    decreases |secrets|
  {
    hide Safe, Clear, Replace, Splice;
    if secrets != [] {
      var last, rest := secrets[|secrets| - 1], secrets[..|secrets| - 1];
      var x', z' := Passes(x, rest), Passes(z, rest);
      assert last in secrets && forall s | s in rest :: s in secrets;
      PassesAround(x, m, z, rest, last);
      PassesAround(x, m, z, rest, q);
      SafeNotEmpty(last);
      DivideReplace(x', m, z', last, Mask());
      ClearRight(x', m, z', last, q);
      ClearLeft(x', m, Replace(z', last, Mask()), last, q);
    }
  }

  /** Nothing safe overlaps a mask. */
  lemma ClearOfMask(x: string, z: string, q: string)
    requires Safe(q)
    ensures Clear(x, Mask(), z, q) && q != Mask()
  {
    hide At;
    forall k: nat | At(Splice(x, Mask(), z), q, k)
      ensures k + |q| <= |x| || k >= |x| + |Mask()|
    {
      SafeAcrossMask(x, z, q, k);
      AtInFront(x, "", q, k);
    }
  }

  /**
    Longest first, an occurrence of a secret in any text is masked whole, whatever shorter secrets are
    inside it: the result is the mask between what becomes of the two sides. Only another occurrence
    of a secret at least as long that overlaps it can reveal a part.
   */
  lemma WholeSecretIsMasked(secrets: seq<string>, x: string, p: string, z: string)
    requires LongestFirst(secrets) && p in secrets && forall s | s in secrets :: Safe(s)
    requires forall s | s in secrets && |s| >= |p| :: Clear(x, p, z, s)
    ensures Passes(Splice(x, p, z), secrets) == Splice(Passes(x, secrets), Mask(), Passes(z, secrets))
  {
    hide Safe, Contains, Passes, Replace, At, Clear, Splice, Mask;
    var i :| 0 <= i < |secrets| && secrets[i] == p;
    var before, after := secrets[..i], secrets[i + 1..];
    assert secrets == before + ([p] + after);
    forall s | s in before
      ensures Safe(s) && s != p && Clear(x, p, z, s)
    {
      assert s in secrets;
    }
    forall s | s in after
      ensures Safe(s)
    {
      assert s in secrets;
    }
    MaskedInTurn(before, p, after, x, z);
  }

  lemma MaskedInTurn(before: seq<string>, p: string, after: seq<string>, x: string, z: string)
    requires forall s | s in before :: Safe(s) && s != p && Clear(x, p, z, s)
    requires Safe(p) && Clear(x, p, z, p) && forall s | s in after :: Safe(s)
    ensures var secrets := before + ([p] + after);
            Passes(Splice(x, p, z), secrets) == Splice(Passes(x, secrets), Mask(), Passes(z, secrets))
  {
    hide *;
    SafeNotEmpty(p);
    PassesAround(x, p, z, before, p);
    var x', z' := Passes(x, before), Passes(z, before);
    DivideReplace(x', p, z', p, Mask());
    var x'', z'' := Replace(x', p, Mask()), Replace(z', p, Mask());
    forall s | Safe(s)
      ensures Clear(x'', Mask(), z'', s) && s != Mask()
    {
      ClearOfMask(x'', z'', s);
    }
    PassesAround(x'', Mask(), z'', after, p);
    Staged(Splice(x, p, z), before, p, after);
    Staged(x, before, p, after);
    Staged(z, before, p, after);
  }

  lemma Staged(t: string, before: seq<string>, p: string, after: seq<string>)
    ensures Passes(t, before + ([p] + after)) == Passes(Replace(Passes(t, before), p, Mask()), after)
  {
    PassesAppend(t, before, [p] + after);
    PassesAppend(Passes(t, before), [p], after);
    assert [p][..0] == [];
  }

  /** So a text that is a secret becomes the bare mask. */
  lemma SecretAloneIsMasked(secrets: seq<string>, p: string)
    requires LongestFirst(secrets) && p in secrets && forall s | s in secrets :: Safe(s)
    ensures Passes(p, secrets) == Mask()
  {
    hide Safe, Passes, At, Mask;
    assert Splice("", p, "") == p && Splice("", Mask(), "") == Mask();
    forall s | s in secrets && |s| >= |p|
      ensures Clear("", p, "", s)
    {
      forall k: nat | At(Splice("", p, ""), s, k)
        ensures k == 0 && s == p
      {
        LongAt(p, s, k);
      }
    }
    forall s | s in secrets
      ensures !Contains("", s)
    {
      SafeNotEmpty(s);
      ShortHoldsNone("", s);
    }
    CleanIsUnchanged("", secrets);
    WholeSecretIsMasked(secrets, "", p, "");
  }

  lemma LongAt(p: string, s: string, k: nat)
    requires At(p, s, k) && |s| >= |p|
    ensures s == p && k == 0
  {
  }

  /** Overlap is the exception: of two secrets of one length that share `b`, the rest of the second stays. */
  lemma OverlapReveals(a: string, b: string, c: string)
    requires a != "" && b != "" && |a| == |c| && Safe(b + c)
    ensures Passes(a + b + c, [a + b, b + c]) == Mask() + c
  {
    hide At, Contains, Safe, Mask, Replace, Passes;
    var t := a + b + c;
    assert t == "" + (a + b) + c;
    AtJoint("", a + b, c);
    assert t[..0] == "" && t[0 + |a + b|..] == c;
    ShortHoldsNone(c, a + b);
    OneMatch(t, a + b, 0);
    ShortHoldsNone("", b + c);
    ShortHoldsNone(c, b + c);
    NoneAcrossMask("", c, b + c);
    assert Splice("", Mask(), c) == Mask() + c;
    AbsentIsUnchanged(Mask() + c, b + c, Mask());
    MorePasses(t, a + b, b + c);
  }

  lemma OnePass(t: string, s: string)
    ensures Passes(t, [s]) == Replace(t, s, Mask())
  {
    hide Replace;
    assert [s][..0] == [];
  }

  lemma MorePasses(t: string, first: string, second: string)
    ensures Passes(t, [first, second]) == Replace(Replace(t, first, Mask()), second, Mask())
  {
    hide Replace;
    OnePass(t, first);
    assert [first, second][..1] == [first];
  }

  /** Shortest first would leave everything of the longer secret but the shorter one inside it. */
  lemma ShortestFirstReveals(x: string, q: string, z: string)
    requires Safe(q) && !Contains(x, q) && !Contains(z, q) && Clear(x, q, z, q)
    ensures Passes(x + q + z, [q, x + q + z]) == x + Mask() + z
  {
    hide Contains, Safe, Clear, Mask, Replace;
    var t := x + q + z;
    SafeNotEmpty(q);
    assert Splice(x, q, z) == t && Splice(x, Mask(), z) == x + Mask() + z;
    DivideReplace(x, q, z, q, Mask());
    AbsentIsUnchanged(x, q, Mask());
    AbsentIsUnchanged(z, q, Mask());
    NoneAcrossMask(x, z, q);
    LongerIsAbsent(x + Mask() + z, t, q, |x|) by {
      AtJoint(x, q, z);
    }
    AbsentIsUnchanged(x + Mask() + z, t, Mask());
    MorePasses(t, q, t);
  }

  lemma LongerIsAbsent(clean: string, p: string, q: string, i: nat)
    requires At(p, q, i) && !Contains(clean, q)
    ensures !Contains(clean, p)
  {
    forall k: nat
      ensures !At(clean, p, k)
    {
      if At(clean, p, k) {
        AtWithin(clean, p, q, k);
      }
    }
  }

  // ---------- nested values ----------

  datatype Value = Str(text: string) | List(items: seq<Value>) | Dict(entries: seq<Entry>) | Other(raw: int)

  datatype Entry = Entry(key: string, value: Value)

  /** The string `s` occurs in a string value at some depth; keys do not count. */
  ghost predicate Occurs(v: Value, s: string) {
    match v
    case Str(t) => Contains(t, s)
    case List(items) => exists i | 0 <= i < |items| :: Occurs(items[i], s)
    case Dict(entries) => exists i | 0 <= i < |entries| :: Occurs(entries[i].value, s)
    case Other(_) => false
  }

  /** The value with every string at every depth passed through the replacements. */
  ghost predicate IsRedacted(v: Value, w: Value, secrets: seq<string>)
    decreases v
  {
    match v
    case Str(t) => w == Str(Passes(t, secrets))
    case List(items) =>
      w.List? && |w.items| == |items| && forall i | 0 <= i < |items| :: IsRedacted(items[i], w.items[i], secrets)
    case Dict(entries) =>
      && w.Dict? && |w.entries| == |entries|
      && forall i | 0 <= i < |entries| :: w.entries[i].key == entries[i].key
                                          && IsRedacted(entries[i].value, w.entries[i].value, secrets)
    case Other(_) => w == v
  }

  method Redact(value: Value, secrets: seq<string>) returns (r: Value)
    ensures IsRedacted(value, r, secrets)
    decreases value
  {
    match value {
      case Str(t) =>
        var text := t;
        for i := 0 to |secrets|
          invariant text == Passes(t, secrets[..i])
        {
          assert secrets[..i + 1][..i] == secrets[..i];
          text := Replace(text, secrets[i], Mask());
        }
        assert secrets[..|secrets|] == secrets;
        r := Str(text);
      case List(items) =>
        var done: seq<Value> := [];
        for i := 0 to |items|
          invariant |done| == i && forall k | 0 <= k < i :: IsRedacted(items[k], done[k], secrets)
        {
          var item := Redact(items[i], secrets);
          done := done + [item];
        }
        r := List(done);
      case Dict(entries) =>
        var done: seq<Entry> := [];
        for i := 0 to |entries|
          invariant |done| == i
          invariant forall k | 0 <= k < i :: done[k].key == entries[k].key
                                             && IsRedacted(entries[k].value, done[k].value, secrets)
        {
          var item := Redact(entries[i].value, secrets);
          done := done + [Entry(entries[i].key, item)];
        }
        r := Dict(done);
      case Other(_) => r := value;
    }
  }

  /** No safe secret is left in any string value at any depth. */
  lemma {:induction false} NoSecretLeft(v: Value, w: Value, secrets: seq<string>, q: string)
    requires IsRedacted(v, w, secrets) && Safe(q) && q in secrets
    ensures !Occurs(w, q)
    decreases v
  {
    hide Safe, Contains, Passes;
    match v
    case Str(t) => NoneLeft(t, secrets, q);
    case List(items) =>
      forall i | 0 <= i < |items|
        ensures !Occurs(w.items[i], q)
      {
        NoSecretLeft(items[i], w.items[i], secrets, q);
      }
    case Dict(entries) =>
      forall i | 0 <= i < |entries|
        ensures !Occurs(w.entries[i].value, q)
      {
        NoSecretLeft(entries[i].value, w.entries[i].value, secrets, q);
      }
    case Other(_) =>
  }

  /** A value free of secrets is returned as it is. */
  lemma {:induction false} CleanValueIsUnchanged(v: Value, w: Value, secrets: seq<string>)
    requires IsRedacted(v, w, secrets) && forall s | s in secrets :: !Occurs(v, s)
    ensures w == v
    decreases v
  {
    hide Contains, Passes;
    match v
    case Str(t) => CleanIsUnchanged(t, secrets);
    case List(items) =>
      forall i | 0 <= i < |items|
        ensures w.items[i] == items[i]
      {
        CleanValueIsUnchanged(items[i], w.items[i], secrets);
      }
    case Dict(entries) =>
      forall i | 0 <= i < |entries|
        ensures w.entries[i] == entries[i]
      {
        CleanValueIsUnchanged(entries[i].value, w.entries[i].value, secrets);
      }
    case Other(_) =>
  }
}
