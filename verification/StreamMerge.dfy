/** Merging the two submission streams: by index over lists, and with one row of look-ahead each. */
module StreamMerge {
  import opened Options

  datatype Form = Adoption | Facilitation

  datatype Submission = Submission(form: Form, id: nat, createdAt: int)

  /** The merge itself: an adoption goes first unless a facilitation is strictly older. */
  function Merged(a: seq<Submission>, f: seq<Submission>): seq<Submission>
    decreases |a| + |f|
  {
    if a == [] then f
    else if f == [] then a
    else if a[0].createdAt <= f[0].createdAt then [a[0]] + Merged(a[1..], f)
    else [f[0]] + Merged(a, f[1..])
  }

  // ---------------------------------------------------------------- the two loops

  /** A forward iterator over a stream. */
  class Cursor {
    const rows: seq<Submission>
    var at: nat

    constructor (rows: seq<Submission>)
      ensures Valid() && Rest() == rows
    {
      this.rows := rows;
      at := 0;
    }

    ghost predicate Valid()
      reads this
    {
      at <= |rows|
    }

    ghost function Rest(): seq<Submission>
      reads this
      requires Valid()
    {
      rows[at..]
    }

    /** next(it, None). */
    method Next() returns (row: Option<Submission>)
      requires Valid()
      modifies this`at
      ensures Valid()
      ensures row.None? <==> old(Rest()) == []
      ensures Left(row, Rest()) == old(Rest())
    {
      if at == |rows| {
        return None;
      }
      row := Some(rows[at]);
      at := at + 1;
    }
  }

  method MergeByCreatedAt(a: seq<Submission>, f: seq<Submission>) returns (merged: seq<Submission>)
    ensures merged == Merged(a, f)
  {
    merged := [];
    var i, j := 0, 0;
    while i < |a| || j < |f|
      invariant i <= |a| && j <= |f|
      invariant merged + Merged(a[i..], f[j..]) == Merged(a, f)
      decreases |a| - i + |f| - j
    {
      if j >= |f| || (i < |a| && a[i].createdAt <= f[j].createdAt) {
        TakeAdoption(a[i..], f[j..]);
        Regroup(merged, a[i], Merged(a[i..][1..], f[j..]));
        assert a[i..][1..] == a[i + 1..];
        merged := merged + [a[i]];
        i := i + 1;
      } else {
        TakeFacilitation(a[i..], f[j..]);
        Regroup(merged, f[j], Merged(a[i..], f[j..][1..]));
        assert f[j..][1..] == f[j + 1..];
        merged := merged + [f[j]];
        j := j + 1;
      }
    }
  }

  /** What a look-ahead variable and the rest of its stream still have to give. */
  ghost function Left(ahead: Option<Submission>, rest: seq<Submission>): seq<Submission> {
    if ahead.None? then rest else [ahead.value] + rest
  }

  method MergeStreams(adoptions: Cursor, facilitations: Cursor) returns (yielded: seq<Submission>)
    requires adoptions != facilitations && adoptions.Valid() && facilitations.Valid()
    modifies adoptions`at, facilitations`at
    ensures yielded == Merged(old(adoptions.Rest()), old(facilitations.Rest()))
    ensures adoptions.Valid() && facilitations.Valid() && adoptions.Rest() == facilitations.Rest() == []
  {
    ghost var a, f := adoptions.Rest(), facilitations.Rest();
    yielded := [];
    var nextA := adoptions.Next();
    var nextF := facilitations.Next();
    ghost var leftA, leftF := a, f;
    while nextA.Some? || nextF.Some?
      invariant adoptions.Valid() && facilitations.Valid()
      invariant leftA == Left(nextA, adoptions.Rest()) && (nextA.None? ==> leftA == [])
      invariant leftF == Left(nextF, facilitations.Rest()) && (nextF.None? ==> leftF == [])
      invariant MergingInto(yielded, leftA, leftF, a, f)
      decreases |leftA| + |leftF|
    {
      if nextF.None? || (nextA.Some? && nextA.value.createdAt <= nextF.value.createdAt) {
        AdoptionYields(yielded, nextA.value, adoptions.Rest(), leftF, a, f);
        yielded := yielded + [nextA.value];
        leftA := adoptions.Rest();
        nextA := adoptions.Next();
      } else {
        FacilitationYields(yielded, leftA, nextF.value, facilitations.Rest(), a, f);
        yielded := yielded + [nextF.value];
        leftF := facilitations.Rest();
        nextF := facilitations.Next();
      }
    }
    NothingLeft(yielded, a, f);
  }

  lemma {:induction false} Regroup(done: seq<Submission>, x: Submission, rest: seq<Submission>)
    ensures done + ([x] + rest) == done + [x] + rest
  {
  }

  lemma {:induction false} TakeAdoption(a: seq<Submission>, f: seq<Submission>)
    requires a != [] && (f == [] || a[0].createdAt <= f[0].createdAt)
    ensures Merged(a, f) == [a[0]] + Merged(a[1..], f)
  {
  }

  lemma {:induction false} TakeFacilitation(a: seq<Submission>, f: seq<Submission>)
    requires f != [] && (a == [] || a[0].createdAt > f[0].createdAt)
    ensures Merged(a, f) == [f[0]] + Merged(a, f[1..])
  {
  }

  /** What was yielded, followed by the merge of what is left, is the merge of the whole streams. */
  ghost predicate MergingInto(done: seq<Submission>, a: seq<Submission>, f: seq<Submission>, wholeA: seq<Submission>, wholeF: seq<Submission>) {
    done + Merged(a, f) == Merged(wholeA, wholeF)
  }

  lemma {:induction false} AdoptionYields(done: seq<Submission>, x: Submission, a: seq<Submission>, f: seq<Submission>,
                                          wholeA: seq<Submission>, wholeF: seq<Submission>)
    requires f == [] || x.createdAt <= f[0].createdAt
    requires MergingInto(done, [x] + a, f, wholeA, wholeF)
    ensures MergingInto(done + [x], a, f, wholeA, wholeF)
  {
    assert Merged([x] + a, f) == [x] + Merged(a, f);
  }

  lemma {:induction false} FacilitationYields(done: seq<Submission>, a: seq<Submission>, x: Submission, f: seq<Submission>,
                                              wholeA: seq<Submission>, wholeF: seq<Submission>)
    requires a == [] || x.createdAt < a[0].createdAt
    requires MergingInto(done, a, [x] + f, wholeA, wholeF)
    ensures MergingInto(done + [x], a, f, wholeA, wholeF)
  {
    assert Merged(a, [x] + f) == [x] + Merged(a, f);
  }

  lemma {:induction false} NothingLeft(done: seq<Submission>, wholeA: seq<Submission>, wholeF: seq<Submission>)
    requires MergingInto(done, [], [], wholeA, wholeF)
    ensures done == Merged(wholeA, wholeF)
  {
  }

  // ---------------------------------------------------------------- what the merge keeps

  predicate Sorted(s: seq<Submission>) {
    forall i, j :: 0 <= i < j < |s| ==> s[i].createdAt <= s[j].createdAt
  }

  predicate AllOf(s: seq<Submission>, form: Form) {
    forall i :: 0 <= i < |s| ==> s[i].form == form
  }

  /** The rows of one form, in the order they come. */
  function Only(s: seq<Submission>, form: Form): seq<Submission> {
    if s == [] then []
    else if s[0].form == form then [s[0]] + Only(s[1..], form)
    else Only(s[1..], form)
  }

  lemma {:induction false} OnlyAll(s: seq<Submission>, form: Form, other: Form)
    requires AllOf(s, form)
    ensures Only(s, other) == if form == other then s else []
  {
    if s != [] {
      OnlyAll(s[1..], form, other);
    }
  }

  /** Taking either form out of the merge gives its stream back: nothing is lost, nothing doubled, and each
      stream keeps its order, sorted or not. */
  lemma {:induction false} MergeKeepsBothStreams(a: seq<Submission>, f: seq<Submission>)
    requires AllOf(a, Adoption) && AllOf(f, Facilitation)
    ensures Only(Merged(a, f), Adoption) == a && Only(Merged(a, f), Facilitation) == f
    decreases |a| + |f|
  {
    if a == [] {
      OnlyAll(f, Facilitation, Adoption);
      OnlyAll(f, Facilitation, Facilitation);
    } else if f == [] {
      OnlyAll(a, Adoption, Adoption);
      OnlyAll(a, Adoption, Facilitation);
    } else if a[0].createdAt <= f[0].createdAt {
      MergeKeepsBothStreams(a[1..], f);
      assert Merged(a, f)[1..] == Merged(a[1..], f);
    } else {
      MergeKeepsBothStreams(a, f[1..]);
      assert Merged(a, f)[1..] == Merged(a, f[1..]);
    }
  }

  lemma {:induction false} HeadFirst(s: seq<Submission>, rest: seq<Submission>)
    requires s != []
    ensures multiset([s[0]] + rest) == multiset{s[0]} + multiset(rest) && multiset(s) == multiset{s[0]} + multiset(s[1..])
  {
    assert s == [s[0]] + s[1..];
  }

  lemma {:induction false} MergeIsAPermutation(a: seq<Submission>, f: seq<Submission>)
    ensures multiset(Merged(a, f)) == multiset(a) + multiset(f)
    decreases |a| + |f|
  {
    if a != [] && f != [] {
      if a[0].createdAt <= f[0].createdAt {
        MergeIsAPermutation(a[1..], f);
        HeadFirst(a, Merged(a[1..], f));
      } else {
        MergeIsAPermutation(a, f[1..]);
        HeadFirst(f, Merged(a, f[1..]));
      }
    }
  }

  lemma {:induction false} MergedComesFrom(a: seq<Submission>, f: seq<Submission>, x: Submission)
    requires x in Merged(a, f)
    ensures x in a || x in f
  {
    MergeIsAPermutation(a, f);
    assert x in multiset(Merged(a, f));
  }

  /** Older rows come first, and at the same instant adoptions come before facilitations. */
  predicate BeforeOrTied(x: Submission, y: Submission) {
    x.createdAt < y.createdAt || (x.createdAt == y.createdAt && (x.form.Adoption? || y.form.Facilitation?))
  }

  predicate Ordered(s: seq<Submission>) {
    forall i, j :: 0 <= i < j < |s| ==> BeforeOrTied(s[i], s[j])
  }

  lemma {:induction false} MergeIsOrdered(a: seq<Submission>, f: seq<Submission>)
    requires AllOf(a, Adoption) && AllOf(f, Facilitation) && Sorted(a) && Sorted(f)
    ensures Ordered(Merged(a, f))
    decreases |a| + |f|
  {
    if a != [] && f != [] {
      if a[0].createdAt <= f[0].createdAt {
        MergeIsOrdered(a[1..], f);
        forall y | y in Merged(a[1..], f) ensures BeforeOrTied(a[0], y) {
          MergedComesFrom(a[1..], f, y);
        }
      } else {
        MergeIsOrdered(a, f[1..]);
        forall y | y in Merged(a, f[1..]) ensures BeforeOrTied(f[0], y) {
          MergedComesFrom(a, f[1..], y);
        }
      }
    }
  }

  // ---------------------------------------------------------------- and nothing else has all that

  lemma {:induction false} OnlyTail(s: seq<Submission>, form: Form)
    requires s != []
    ensures Only(s[1..], form) == if s[0].form == form then Only(s, form)[1..] else Only(s, form)
  {
  }

  lemma {:induction false} HeadsDiffer(s: seq<Submission>, x: Submission)
    requires Ordered(s) && s != [] && x in Only(s, x.form) && x.form != s[0].form
    ensures BeforeOrTied(s[0], x)
  {
    OnlyContains(s, x.form);
    var i :| 0 <= i < |s| && s[i] == x;
    assert i != 0;
  }

  lemma {:induction false} HeadOfOrdered(s: seq<Submission>, t: seq<Submission>)
    requires Ordered(s) && Ordered(t) && s != [] && t != []
    requires Only(s, Adoption) == Only(t, Adoption) && Only(s, Facilitation) == Only(t, Facilitation)
    ensures s[0] == t[0]
  {
    assert Only(t, t[0].form)[0] == t[0] && Only(s, s[0].form)[0] == s[0];
    assert Only(s, s[0].form) == Only(t, s[0].form) && Only(s, t[0].form) == Only(t, t[0].form);
    if s[0].form != t[0].form {
      HeadsDiffer(s, t[0]);
      HeadsDiffer(t, s[0]);
    }
  }

  lemma {:induction false} OnlyContains(s: seq<Submission>, form: Form)
    ensures forall x :: x in Only(s, form) ==> x in s
  {
    if s != [] {
      OnlyContains(s[1..], form);
    }
  }

  lemma {:induction false} OnlyCounts(s: seq<Submission>)
    ensures |Only(s, Adoption)| + |Only(s, Facilitation)| == |s|
  {
    if s != [] {
      OnlyCounts(s[1..]);
    }
  }

  /** Two ordered interleavings of the same two streams are the same list. */
  lemma {:induction false} OrderedInterleavingIsUnique(s: seq<Submission>, t: seq<Submission>)
    requires Ordered(s) && Ordered(t)
    requires Only(s, Adoption) == Only(t, Adoption) && Only(s, Facilitation) == Only(t, Facilitation)
    ensures s == t
    decreases |s|
  {
    OnlyCounts(s);
    OnlyCounts(t);
    if s != [] {
      HeadOfOrdered(s, t);
      OnlyTail(s, Adoption);
      OnlyTail(t, Adoption);
      OnlyTail(s, Facilitation);
      OnlyTail(t, Facilitation);
      OrderedInterleavingIsUnique(s[1..], t[1..]);
      assert s == [s[0]] + s[1..] && t == [t[0]] + t[1..];
    }
  }

  /** So the merge of two sorted streams is the only list with these properties. */
  lemma {:induction false} MergeIsTheOrderedInterleaving(a: seq<Submission>, f: seq<Submission>, s: seq<Submission>)
    requires AllOf(a, Adoption) && AllOf(f, Facilitation) && Sorted(a) && Sorted(f)
    ensures s == Merged(a, f) <==> Ordered(s) && Only(s, Adoption) == a && Only(s, Facilitation) == f
  {
    MergeIsOrdered(a, f);
    MergeKeepsBothStreams(a, f);
    if Ordered(s) && Only(s, Adoption) == a && Only(s, Facilitation) == f {
      OrderedInterleavingIsUnique(s, Merged(a, f));
    }
  }
}
