/** Ordered lists of chunk ids, as the tracking stores and the graph's `source_id` fields keep them. */
module Sources {

  predicate Distinct<T(==)>(s: seq<T>) {
    forall i, j :: 0 <= i < j < |s| ==> s[i] != s[j]
  }

  function Elems<T>(s: seq<T>): set<T> {
    set x | x in s
  }

  /** The list without the given ids, order kept. */
  function Subtract<T(==)>(s: seq<T>, gone: set<T>): seq<T> {
    if s == [] then []
    else if s[0] in gone then Subtract(s[1..], gone)
    else [s[0]] + Subtract(s[1..], gone)
  }

  /** `acc` followed by the first occurrence of every element of `s` that `acc` does not hold. */
  function AppendNew<T(==)>(acc: seq<T>, s: seq<T>): seq<T>
    decreases |s|
  {
    if s == [] then acc
    else AppendNew(if s[0] in acc then acc else acc + [s[0]], s[1..])
  }

  /** The two lists one after the other, each id kept where it occurs first. */
  function MergeIds<T(==)>(existing: seq<T>, added: seq<T>): seq<T> {
    AppendNew(AppendNew([], existing), added)
  }

  /** At most `cap` ids: the newest under the FIFO method, the oldest under the KEEP method. */
  function Limited<T>(s: seq<T>, cap: nat, fifo: bool): seq<T> {
    if cap == 0 then []
    else if |s| <= cap then s
    else if fifo then s[|s| - cap..]
    else s[..cap]
  }

  lemma {:induction false} SubtractElems<T>(s: seq<T>, gone: set<T>)
    ensures Elems(Subtract(s, gone)) == Elems(s) - gone
  {
    if s != [] {
      SubtractElems(s[1..], gone);
      assert s == [s[0]] + s[1..];
      assert Elems(s) == {s[0]} + Elems(s[1..]);
      var rest := Subtract(s[1..], gone);
      assert Elems([s[0]] + rest) == {s[0]} + Elems(rest);
    }
  }

  lemma {:induction false} SubtractConcat<T>(a: seq<T>, b: seq<T>, gone: set<T>)
    ensures Subtract(a + b, gone) == Subtract(a, gone) + Subtract(b, gone)
  {
    if a == [] {
      assert a + b == b;
    } else {
      assert (a + b)[1..] == a[1..] + b;
      SubtractConcat(a[1..], b, gone);
    }
  }

  lemma {:induction false} SubtractNothing<T>(s: seq<T>, gone: set<T>)
    requires Elems(s) !! gone
    ensures Subtract(s, gone) == s
  {
    if s != [] {
      assert s[0] in Elems(s);
      assert Elems(s[1..]) <= Elems(s);
      SubtractNothing(s[1..], gone);
    }
  }

  lemma {:induction false} SubtractAll<T>(s: seq<T>, gone: set<T>)
    requires Elems(s) <= gone
    ensures Subtract(s, gone) == []
  {
    if s != [] {
      assert s[0] in Elems(s);
      assert Elems(s[1..]) <= Elems(s);
      SubtractAll(s[1..], gone);
    }
  }

  /** Ids removed in two rounds are removed as in one, in any order; so a restarted purge changes nothing more. */
  lemma {:induction false} SubtractTwice<T>(s: seq<T>, first: set<T>, second: set<T>)
    ensures Subtract(Subtract(s, first), second) == Subtract(s, first + second)
  {
    if s != [] {
      SubtractTwice(s[1..], first, second);
    }
  }

  lemma SubtractUnchanged<T>(s: seq<T>, gone: set<T>)
    ensures Subtract(s, gone) == s <==> Elems(s) !! gone
  {
    SubtractElems(s, gone);
    if Elems(s) !! gone {
      SubtractNothing(s, gone);
    }
  }

  lemma {:induction false} AppendNewElems<T>(acc: seq<T>, s: seq<T>)
    ensures Elems(AppendNew(acc, s)) == Elems(acc) + Elems(s)
    decreases |s|
  {
    if s != [] {
      var acc' := if s[0] in acc then acc else acc + [s[0]];
      AppendNewElems(acc', s[1..]);
      assert s == [s[0]] + s[1..];
      assert Elems(acc') == Elems(acc) + {s[0]};
      assert Elems(s) == {s[0]} + Elems(s[1..]);
    }
  }

  lemma MergeIdsElems<T>(existing: seq<T>, added: seq<T>)
    ensures Elems(MergeIds(existing, added)) == Elems(existing) + Elems(added)
  {
    AppendNewElems([], existing);
    AppendNewElems(AppendNew([], existing), added);
  }

  lemma {:induction false} AppendNewDistinct<T>(acc: seq<T>, s: seq<T>)
    requires Distinct(acc)
    ensures Distinct(AppendNew(acc, s))
    ensures acc <= AppendNew(acc, s)
    decreases |s|
  {
    if s != [] {
      AppendNewDistinct(if s[0] in acc then acc else acc + [s[0]], s[1..]);
    }
  }

  /** What a merge adds at the end: new ids from the second list. */
  lemma {:induction false} AppendNewTail<T>(acc: seq<T>, s: seq<T>)
    ensures acc <= AppendNew(acc, s)
    ensures forall x | x in AppendNew(acc, s)[|acc|..] :: x in s && x !in acc
    decreases |s|
  {
    if s != [] {
      var acc' := if s[0] in acc then acc else acc + [s[0]];
      AppendNewTail(acc', s[1..]);
      var r := AppendNew(acc', s[1..]);
      forall x | x in r[|acc|..]
        ensures x in s && x !in acc
      {
        var i :| |acc| <= i < |r| && r[i] == x;
        if i < |acc'| {
          assert r[i] == acc'[i] == s[0];
        } else {
          assert x == r[|acc'|..][i - |acc'|];
          assert x in s[1..];
        }
      }
    }
  }

  lemma {:induction false} AppendNewOfDistinct<T>(acc: seq<T>, s: seq<T>)
    requires Distinct(acc + s)
    ensures AppendNew(acc, s) == acc + s
    decreases |s|
  {
    if s != [] {
      assert (acc + s)[|acc|] == s[0];
      forall i | 0 <= i < |acc|
        ensures acc[i] != s[0]
      {
        assert (acc + s)[i] == acc[i];
      }
      assert acc + [s[0]] + s[1..] == acc + s;
      AppendNewOfDistinct(acc + [s[0]], s[1..]);
    } else {
      assert acc + s == acc;
    }
  }

  /** A duplicate-free list is only ever extended: its order is never disturbed. */
  lemma MergeIdsExtends<T>(existing: seq<T>, added: seq<T>)
    requires Distinct(existing)
    ensures MergeIds(existing, added) == AppendNew(existing, added)
    ensures Distinct(MergeIds(existing, added))
    ensures existing <= MergeIds(existing, added)
  {
    assert [] + existing == existing;
    AppendNewOfDistinct([], existing);
    AppendNewDistinct(existing, added);
  }

  /** A limited list has at most `cap` ids: FIFO keeps the last ones, KEEP the first ones, in their order. */
  lemma LimitedIs<T>(s: seq<T>, cap: nat, fifo: bool)
    ensures var l := Limited(s, cap, fifo);
            && |l| == (if |s| <= cap then |s| else cap)
            && (if fifo then exists older :: s == older + l else exists newer :: s == l + newer)
  {
    var l := Limited(s, cap, fifo);
    assert s == s[..|s| - |l|] + s[|s| - |l|..] && s == s[..|l|] + s[|l|..];
  }

  /** Under FIFO ids that come in push the oldest ones out, under KEEP they stay out of a full list. */
  lemma FullListTakesIn<T>(s: seq<T>, more: seq<T>, cap: nat)
    requires |s| >= cap && |more| <= cap
    ensures exists older :: s + more == older + Limited(s + more, cap, true) && |older| == |s| + |more| - cap
    ensures forall x | x in more :: x in Limited(s + more, cap, true)
    ensures Limited(s + more, cap, false) == Limited(s, cap, false)
  {
    var all := s + more;
    LimitedIs(all, cap, true);
    var older :| all == older + Limited(all, cap, true);
    forall x | x in more
      ensures x in Limited(all, cap, true)
    {
      var i :| 0 <= i < |more| && more[i] == x;
      assert all[|s| + i] == x;
    }
    assert all[..cap] == s[..cap];
  }

  lemma LimitedElems<T>(s: seq<T>, cap: nat, fifo: bool)
    ensures Elems(Limited(s, cap, fifo)) <= Elems(s)
    ensures cap > 0 && s != [] ==> Limited(s, cap, fifo) != []
  {
  }

  /** When the limited list holds none of the removed ids, limiting the rest gives the same list. */
  lemma LimitedAfterSubtract<T>(s: seq<T>, gone: set<T>, cap: nat, fifo: bool)
    requires Elems(Limited(s, cap, fifo)) !! gone
    ensures Limited(Subtract(s, gone), cap, fifo) == Limited(s, cap, fifo)
  {
    if cap == 0 {
    } else if |s| <= cap {
      SubtractNothing(s, gone);
    } else if fifo {
      var k := |s| - cap;
      assert s == s[..k] + s[k..];
      SubtractConcat(s[..k], s[k..], gone);
      SubtractNothing(s[k..], gone);
      assert Subtract(s, gone)[|Subtract(s[..k], gone)|..] == s[k..];
    } else {
      assert s == s[..cap] + s[cap..];
      SubtractConcat(s[..cap], s[cap..], gone);
      SubtractNothing(s[..cap], gone);
      assert Subtract(s, gone)[..cap] == s[..cap];
    }
  }

  /** Extending a list only ever brings extension ids into the limited list. */
  lemma LimitedExtension<T>(base: seq<T>, extra: seq<T>, cap: nat, fifo: bool)
    ensures Elems(Limited(base + extra, cap, fifo)) <= Elems(Limited(base, cap, fifo)) + Elems(extra)
  {
    var full := base + extra;
    var l := Limited(full, cap, fifo);
    forall x | x in l
      ensures x in Limited(base, cap, fifo) || x in extra
    {
      if cap > 0 && |full| > cap && |base| > cap && fifo {
        var k := |full| - cap;
        assert l == full[k..];
        var i :| 0 <= i < |l| && l[i] == x;
        assert full[k + i] == x;
        if k + i < |base| {
          assert base[|base| - cap..][k + i - (|base| - cap)] == x;
        } else {
          assert extra[k + i - |base|] == x;
        }
      } else if cap > 0 && |full| > cap {
        var i :| 0 <= i < |l| && l[i] == x;
        if !fifo {
          assert full[i] == x;
          if i < |base| {
            assert Limited(base, cap, fifo)[i] == x;
          } else {
            assert extra[i - |base|] == x;
          }
        } else {
          assert full[|full| - cap + i] == x;
        }
      }
    }
  }

  /** The loop of `subtract_source_ids`. */
  method SubtractSourceIds<T(==)>(ids: seq<T>, gone: set<T>) returns (rest: seq<T>)
    ensures rest == Subtract(ids, gone)
  {
    rest := [];
    for i := 0 to |ids|
      invariant rest == Subtract(ids[..i], gone)
    {
      assert ids[..i + 1] == ids[..i] + [ids[i]];
      SubtractConcat(ids[..i], [ids[i]], gone);
      assert [ids[i]][1..] == [];
      if ids[i] !in gone {
        rest := rest + [ids[i]];
      }
    }
    assert ids[..|ids|] == ids;
  }

  lemma {:induction false} AppendNewConcat<T>(acc: seq<T>, a: seq<T>, b: seq<T>)
    ensures AppendNew(acc, a + b) == AppendNew(AppendNew(acc, a), b)
    decreases |a|
  {
    if a == [] {
      assert a + b == b;
    } else {
      assert (a + b)[1..] == a[1..] + b;
      AppendNewConcat(if a[0] in acc then acc else acc + [a[0]], a[1..], b);
    }
  }

  /** The two nested loops of `merge_source_ids`: `merged` grows while `seen` tells repeats. */
  method MergeSourceIds<T(==)>(existing: seq<T>, added: seq<T>) returns (merged: seq<T>)
    ensures merged == MergeIds(existing, added)
    ensures Distinct(merged)
    ensures Elems(merged) == Elems(existing) + Elems(added)
  {
    merged := [];
    var seen: set<T> := {};
    var all := existing + added;
    for i := 0 to |all|
      invariant merged == AppendNew([], all[..i])
      invariant seen == Elems(merged)
    {
      assert all[..i + 1] == all[..i] + [all[i]];
      AppendNewConcat([], all[..i], [all[i]]);
      assert [all[i]][1..] == [];
      if all[i] !in seen {
        seen := seen + {all[i]};
        merged := merged + [all[i]];
      }
    }
    assert all[..|all|] == all;
    AppendNewConcat([], existing, added);
    AppendNewDistinct([], all);
    MergeIdsElems(existing, added);
  }

  /** Ordered deduplication: the ids not held yet are appended in their order. */
  method AppendUnseen<T(==)>(held: seq<T>, more: seq<T>) returns (all: seq<T>)
    ensures all == AppendNew(held, more)
  {
    all := held;
    var seen := Elems(held);
    for i := 0 to |more|
      invariant AppendNew(all, more[i..]) == AppendNew(held, more)
      invariant seen == Elems(all)
    {
      assert more[i..][0] == more[i] && more[i..][1..] == more[i + 1..];
      if more[i] !in seen {
        seen := seen + {more[i]};
        all := all + [more[i]];
      }
    }
  }
}
