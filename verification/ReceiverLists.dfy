/** The receiver lists of the broker as values, and the exact effect of removing
    a channel from one of them while ranging over it (internal/broker/broker.go:93-97, 136-151). */
module ReceiverLists {
  function Count<C(==)>(list: seq<C>, m: C): nat {
    if list == [] then 0 else (if list[0] == m then 1 else 0) + Count(list[1..], m)
  }

  /** The order-preserving filter that drops every occurrence of `m`. */
  function Without<C(==)>(list: seq<C>, m: C): seq<C> {
    if list == [] then []
    else if list[0] == m then Without(list[1..], m)
    else [list[0]] + Without(list[1..], m)
  }

  function Pad<C>(x: C, n: nat): seq<C> {
    if n == 0 then [] else [x] + Pad(x, n - 1)
  }

  /** One pass over a list that is shifted under the reader: the element that
      follows a removed one moves into the slot just read and is never examined. */
  function Scan<C(==)>(list: seq<C>, m: C): seq<C> {
    if list == [] then []
    else if list[0] != m then [list[0]] + Scan(list[1..], m)
    else if |list| == 1 then []
    else [list[1]] + Scan(list[2..], m)
  }

  lemma {:induction false} ScanLength<C>(list: seq<C>, m: C)
    ensures |Scan(list, m)| <= |list|
    ensures m in list <==> |Scan(list, m)| < |list|
    ensures |list| <= 2 * |Scan(list, m)| + 1
  {
    if list == [] {
    } else if list[0] != m {
      ScanLength(list[1..], m);
      assert list == [list[0]] + list[1..];
    } else if |list| > 1 {
      ScanLength(list[2..], m);
    }
  }

  function Last<C>(list: seq<C>): C
    requires list != []
  {
    list[|list| - 1]
  }

  /** How many copies of the last element the loop leaves behind. */
  function Extra<C(==)>(list: seq<C>, m: C): nat
    requires m in list
  {
    ScanLength(list, m);
    |list| - 1 - |Scan(list, m)|
  }

  /** What `b.receivers[key]` holds once the inner loop has finished. */
  function RemoveInPlace<C(==)>(list: seq<C>, m: C): seq<C> {
    if m !in list then list else Scan(list, m) + Pad(Last(list), Extra(list, m))
  }

  lemma {:induction false} PadLength<C>(x: C, n: nat)
    ensures |Pad(x, n)| == n
    ensures forall i :: 0 <= i < n ==> Pad(x, n)[i] == x
  {
    if n > 0 { PadLength(x, n - 1); }
  }

  /** The shifting loop on the cells it has still to read: a match pulls the
      rest one cell down (the last cell keeps its value) and the reader moves on. */
  function Ranged<C(==)>(cells: seq<C>, m: C): seq<C>
    decreases |cells|
  {
    if |cells| <= 1 then cells
    else if cells[0] == m then [cells[1]] + Ranged(cells[2..] + [cells[|cells| - 1]], m)
    else [cells[0]] + Ranged(cells[1..], m)
  }

  /** The unread cells after one comparison. */
  function Pulled<C(==)>(cells: seq<C>, m: C): seq<C>
    requires cells != []
  {
    if cells[0] == m then cells[1..] + [cells[|cells| - 1]] else cells
  }

  lemma {:induction false} PadSnoc<C>(x: C, n: nat)
    ensures Pad(x, n) + [x] == Pad(x, n + 1)
  {
    if n > 0 { PadSnoc(x, n - 1); }
  }

  lemma {:induction false} RangedPadding<C>(x: C, n: nat, m: C)
    ensures Ranged(Pad(x, n), m) == Pad(x, n)
  {
    PadLength(x, n);
    if n > 1 {
      var cells := Pad(x, n);
      assert cells[1..] == Pad(x, n - 1);
      PadLength(x, n - 1);
      assert cells[2..] + [cells[n - 1]] == Pad(x, n - 1) by {
        assert cells[2..] == Pad(x, n - 2);
        PadSnoc(x, n - 2);
      }
      RangedPadding(x, n - 1, m);
    }
  }

  lemma {:induction false} RangedKeep<C>(rest: seq<C>, x: C, k: nat, m: C)
    requires rest != [] && rest[|rest| - 1] == x && rest[0] != m
    ensures Ranged(rest + Pad(x, k), m) == [rest[0]] + Ranged(rest[1..] + Pad(x, k), m)
  {
    PadLength(x, k);
    assert (rest + Pad(x, k))[1..] == rest[1..] + Pad(x, k);
  }

  lemma {:induction false} RangedSkip<C>(rest: seq<C>, x: C, k: nat, m: C)
    requires |rest| > 1 && rest[|rest| - 1] == x && rest[0] == m
    ensures Ranged(rest + Pad(x, k), m) == [rest[1]] + Ranged(rest[2..] + Pad(x, k + 1), m)
  {
    PadLength(x, k);
    PadSnoc(x, k);
    var cells := rest + Pad(x, k);
    assert cells[2..] + [cells[|cells| - 1]] == rest[2..] + Pad(x, k + 1);
  }

  /** What Ranged computes, in terms of Scan. */
  ghost predicate Refilled<C>(rest: seq<C>, x: C, k: nat, m: C) {
    var n := |Scan(rest, m)|;
    n <= |rest| && Ranged(rest + Pad(x, k), m) == Scan(rest, m) + Pad(x, |rest| + k - n)
  }

  lemma {:induction false} RefilledKeep<C>(rest: seq<C>, x: C, k: nat, m: C)
    requires rest != [] && rest[|rest| - 1] == x && rest[0] != m && Refilled(rest[1..], x, k, m)
    ensures Refilled(rest, x, k, m)
  {
    var scan := Scan(rest[1..], m);
    var pad := Pad(x, |rest| - 1 + k - |scan|);
    RangedKeep(rest, x, k, m);
    assert Scan(rest, m) == [rest[0]] + scan;
    assert [rest[0]] + (scan + pad) == ([rest[0]] + scan) + pad;
  }

  lemma {:induction false} RefilledSkip<C>(rest: seq<C>, x: C, k: nat, m: C)
    requires |rest| > 1 && rest[|rest| - 1] == x && rest[0] == m && Refilled(rest[2..], x, k + 1, m)
    ensures Refilled(rest, x, k, m)
  {
    var scan := Scan(rest[2..], m);
    var pad := Pad(x, |rest| - 1 + k - |scan|);
    RangedSkip(rest, x, k, m);
    assert Scan(rest, m) == [rest[1]] + scan;
    assert [rest[1]] + (scan + pad) == ([rest[1]] + scan) + pad;
  }

  /** Shifting under the reader is Scan, refilled with copies of the last element. */
  lemma {:induction false} RangedIsScan<C>(rest: seq<C>, x: C, k: nat, m: C)
    requires rest != [] ==> rest[|rest| - 1] == x
    ensures Refilled(rest, x, k, m)
    decreases |rest|
  {
    if rest == [] {
      assert rest + Pad(x, k) == Pad(x, k);
      RangedPadding(x, k, m);
    } else if rest[0] != m {
      RangedIsScan(rest[1..], x, k, m);
      RefilledKeep(rest, x, k, m);
    } else if |rest| == 1 {
      assert rest + Pad(x, k) == Pad(x, k + 1);
      RangedPadding(x, k + 1, m);
    } else {
      RangedIsScan(rest[2..], x, k + 1, m);
      RefilledSkip(rest, x, k, m);
    }
  }

  lemma {:induction false} WithoutMembers<C>(list: seq<C>, m: C)
    ensures forall c :: c in Without(list, m) <==> c in list && c != m
    ensures |Without(list, m)| == |list| - Count(list, m)
    ensures m !in list ==> Without(list, m) == list
    ensures m in list <==> Count(list, m) > 0
  {
    if list != [] {
      assert list == [list[0]] + list[1..];
      WithoutMembers(list[1..], m);
    }
  }

  lemma {:induction false} ScanOfSingle<C>(list: seq<C>, m: C)
    requires Count(list, m) <= 1
    ensures Scan(list, m) == Without(list, m)
  {
    if list == [] {
    } else if list[0] != m {
      ScanOfSingle(list[1..], m);
    } else {
      WithoutMembers(list[1..], m);
      if |list| > 1 {
        assert list[1..] == [list[1]] + list[2..];
        WithoutMembers(list[2..], m);
        ScanOfSingle(list[2..], m);
      }
    }
  }

  /** Cutting the last cell off the shifted array leaves RemoveInPlace. */
  lemma {:induction false} RangedIsRemoval<C>(list: seq<C>, m: C)
    ensures |Ranged(list, m)| == |list|
    ensures RemoveInPlace(list, m) ==
            if m in list then Ranged(list, m)[..|list| - 1] else Ranged(list, m)
  {
    ScanLength(list, m);
    if list != [] {
      var last, k := list[|list| - 1], |list| - |Scan(list, m)|;
      assert list + Pad(last, 0) == list;
      RangedIsScan(list, last, 0, m);
      PadLength(last, k);
      if m in list {
        PadSnoc(last, k - 1);
      } else {
        WithoutMembers(list, m);
        ScanOfSingle(list, m);
      }
    }
  }

  /** The loop invariant of the removal: `done` has been read, `cells` has not,
      and `len` is the current length of b.receivers[key]. */
  ghost predicate Progress<C>(list: seq<C>, done: seq<C>, cells: seq<C>, len: nat, m: C) {
    && |done| + |cells| == |list|
    && done + Ranged(cells, m) == Ranged(list, m)
    && if len == |list| then m !in done && done + cells == list else m in list && len == |list| - 1
  }

  lemma {:induction false} ProgressStep<C>(list: seq<C>, done: seq<C>, cells: seq<C>, len: nat, m: C)
    requires Progress(list, done, cells, len, m) && cells != []
    ensures Progress(list, done + [Pulled(cells, m)[0]], Pulled(cells, m)[1..],
                     if cells[0] == m then |list| - 1 else len, m)
  {
    var next := Pulled(cells, m);
    if cells[0] == m && |cells| > 1 {
      assert next[1..] == cells[2..] + [cells[|cells| - 1]];
    }
    assert done + Ranged(cells, m) == (done + [next[0]]) + Ranged(next[1..], m);
    if cells[0] == m {
      if len == |list| { assert list[|done|] == m; }
    } else {
      assert (done + [next[0]]) + next[1..] == done + cells;
    }
  }

  lemma {:induction false} ProgressEnd<C>(list: seq<C>, done: seq<C>, len: nat, m: C)
    requires Progress(list, done, [], len, m)
    ensures len <= |done| && done[..len] == RemoveInPlace(list, m)
    ensures list == [m] <==> |list| == 1 && len == 0
  {
    RangedIsRemoval(list, m);
    assert done + [] == done;
  }

  lemma {:induction false} CountAppend<C>(a: seq<C>, b: seq<C>, m: C)
    ensures Count(a + b, m) == Count(a, m) + Count(b, m)
  {
    if a == [] {
      assert a + b == b;
    } else {
      assert (a + b)[1..] == a[1..] + b;
      CountAppend(a[1..], b, m);
    }
  }

  lemma {:induction false} WithoutAppend<C>(a: seq<C>, b: seq<C>, m: C)
    ensures Without(a + b, m) == Without(a, m) + Without(b, m)
  {
    if a == [] {
      assert a + b == b;
    } else {
      assert (a + b)[1..] == a[1..] + b;
      WithoutAppend(a[1..], b, m);
    }
  }

  lemma {:induction false} WithoutPad<C>(x: C, n: nat, m: C)
    ensures Without(Pad(x, n), m) == if x == m then [] else Pad(x, n)
  {
    if n > 0 {
      assert Pad(x, n)[1..] == Pad(x, n - 1);
      WithoutPad(x, n - 1, m);
    }
  }

  lemma {:induction false} RemoveLength<C>(list: seq<C>, m: C)
    ensures |RemoveInPlace(list, m)| == if m in list then |list| - 1 else |list|
  {
    if m in list {
      var pad := Pad(Last(list), Extra(list, m));
      PadLength(Last(list), Extra(list, m));
      assert RemoveInPlace(list, m) == Scan(list, m) + pad;
      assert |Scan(list, m) + pad| == |Scan(list, m)| + |pad|;
    }
  }

  lemma {:induction false} ScanKeepsOthers<C>(list: seq<C>, m: C)
    ensures Without(Scan(list, m), m) == Without(list, m)
  {
    if list == [] {
    } else if list[0] != m {
      assert Scan(list, m)[1..] == Scan(list[1..], m);
      ScanKeepsOthers(list[1..], m);
    } else if |list| > 1 {
      assert Scan(list, m)[1..] == Scan(list[2..], m);
      assert list[1..][1..] == list[2..];
      ScanKeepsOthers(list[2..], m);
    }
  }

  /** On every list the other channels keep their order and none is lost; the
      only distortion is that the last entry is repeated, once for every
      removal after the first. */
  lemma {:induction false} OthersKeepOrder<C>(list: seq<C>, m: C)
    requires m in list
    ensures Without(RemoveInPlace(list, m), m) ==
            Without(list, m) + (if Last(list) == m then [] else Pad(Last(list), Extra(list, m)))
  {
    var scan, pad := Scan(list, m), Pad(Last(list), Extra(list, m));
    WithoutAppend(scan, pad, m);
    ScanKeepsOthers(list, m);
    WithoutPad(Last(list), Extra(list, m), m);
  }

  /** The loop computes the filter exactly when the channel occurs at most once. */
  lemma {:induction false} RemoveIsFilterIff<C>(list: seq<C>, m: C)
    ensures RemoveInPlace(list, m) == Without(list, m) <==> Count(list, m) <= 1
  {
    WithoutMembers(list, m);
    RemoveLength(list, m);
    if Count(list, m) == 1 {
      ScanOfSingle(list, m);
      PadLength(list[|list| - 1], 0);
    }
  }

  ghost predicate Adjacent<C>(list: seq<C>, m: C) {
    exists i :: 0 <= i < |list| - 1 && list[i] == m && list[i + 1] == m
  }

  lemma {:induction false} AdjacentTail<C>(list: seq<C>, k: nat, m: C)
    requires k <= |list|
    requires Adjacent(list[k..], m)
    ensures Adjacent(list, m)
  {
    var i :| 0 <= i < |list[k..]| - 1 && list[k..][i] == m && list[k..][i + 1] == m;
    assert list[k + i] == m && list[k + i + 1] == m;
  }

  lemma {:induction false} AdjacentHead<C>(list: seq<C>, m: C)
    requires list != []
    ensures Adjacent(list, m) <==> (|list| > 1 && list[0] == m && list[1] == m) || Adjacent(list[1..], m)
  {
    if Adjacent(list, m) {
      var i :| 0 <= i < |list| - 1 && list[i] == m && list[i + 1] == m;
      if i > 0 {
        assert list[1..][i - 1] == m && list[1..][i] == m;
      }
    }
    if Adjacent(list[1..], m) { AdjacentTail(list, 1, m); }
  }

  lemma {:induction false} ScanSurvivor<C>(list: seq<C>, m: C)
    ensures m in Scan(list, m) <==> Adjacent(list, m)
  {
    if list == [] {
    } else if list[0] != m {
      AdjacentHead(list, m);
      ScanSurvivor(list[1..], m);
    } else if |list| > 1 {
      AdjacentHead(list, m);
      AdjacentHead(list[1..], m);
      assert list[1..][1..] == list[2..];
      ScanSurvivor(list[2..], m);
      if list[1] != m {
        assert m in Scan(list, m) <==> m in Scan(list[2..], m);
      }
    }
  }

  lemma {:induction false} MemberOfPadded<C>(a: seq<C>, x: C, n: nat, m: C)
    ensures m in a + Pad(x, n) <==> m in a || (n > 0 && x == m)
  {
    PadLength(x, n);
    if n > 0 { assert Pad(x, n)[0] == x; }
  }

  /** With no two entries side by side, every removal after the first leaves a copy. */
  lemma {:induction false} ExtraOfApart<C>(list: seq<C>, m: C)
    requires m in list && !Adjacent(list, m)
    ensures Extra(list, m) == Count(list, m) - 1
  {
    ScanSurvivor(list, m);
    ScanKeepsOthers(list, m);
    WithoutMembers(Scan(list, m), m);
    WithoutMembers(list, m);
  }

  /** Exactly when a channel is still registered after its own UnsubscribeAll. */
  lemma {:induction false} SurvivesIff<C>(list: seq<C>, m: C)
    ensures m in RemoveInPlace(list, m) <==>
            Adjacent(list, m) || (Count(list, m) >= 2 && list != [] && list[|list| - 1] == m)
  {
    WithoutMembers(list, m);
    if m in list {
      ScanSurvivor(list, m);
      MemberOfPadded(Scan(list, m), Last(list), Extra(list, m), m);
      if !Adjacent(list, m) { ExtraOfApart(list, m); }
    }
  }

  ghost predicate NoDup<C>(list: seq<C>) {
    forall i, j :: 0 <= i < j < |list| ==> list[i] != list[j]
  }

  lemma {:induction false} NoDupCount<C>(list: seq<C>, m: C)
    requires NoDup(list)
    ensures Count(list, m) <= 1
  {
    if list != [] {
      NoDupCount(list[1..], m);
      WithoutMembers(list[1..], m);
    }
  }

  lemma {:induction false} WithoutNoDup<C>(list: seq<C>, m: C)
    requires NoDup(list)
    ensures NoDup(Without(list, m))
  {
    if list != [] {
      var rest := Without(list[1..], m);
      WithoutNoDup(list[1..], m);
      WithoutMembers(list[1..], m);
      if list[0] != m {
        assert Without(list, m) == [list[0]] + rest;
        assert list[0] !in rest;
      }
    }
  }

  lemma {:induction false} RemoveNoDup<C>(list: seq<C>, m: C)
    requires NoDup(list)
    ensures RemoveInPlace(list, m) == Without(list, m)
    ensures NoDup(RemoveInPlace(list, m))
    ensures forall c :: c in RemoveInPlace(list, m) <==> c in list && c != m
  {
    NoDupCount(list, m);
    RemoveIsFilterIff(list, m);
    WithoutNoDup(list, m);
    WithoutMembers(list, m);
  }

  lemma {:induction false} ScanMember<C>(list: seq<C>, m: C, c: C)
    ensures c in Scan(list, m) ==> c in list
    ensures c in list && c != m ==> c in Scan(list, m)
  {
    if list == [] {
    } else if list[0] != m {
      ScanMember(list[1..], m, c);
      assert list == [list[0]] + list[1..];
    } else if |list| > 1 {
      ScanMember(list[2..], m, c);
      assert list == [list[0], list[1]] + list[2..];
    }
  }

  /** No other channel is lost, and none appears that was not in the list. */
  lemma {:induction false} RemoveMember<C>(list: seq<C>, m: C, c: C)
    ensures c in RemoveInPlace(list, m) ==> c in list
    ensures c in list && c != m ==> c in RemoveInPlace(list, m)
  {
    if m in list {
      ScanMember(list, m, c);
      PadLength(Last(list), Extra(list, m));
    }
  }

  // ----- the map of lists -----

  function ListOf<C>(r: map<string, seq<C>>, k: string): seq<C> {
    if k in r then r[k] else []
  }

  function AppendTo<C>(r: map<string, seq<C>>, k: string, m: C): map<string, seq<C>> {
    r[k := ListOf(r, k) + [m]]
  }

  function RemoveEverywhere<C(==)>(r: map<string, seq<C>>, m: C): map<string, seq<C>> {
    map k | k in r :: RemoveInPlace(r[k], m)
  }

  /** The keys that UnsubscribeAll marks for cleanup. */
  function CleanupKeys<C(==)>(r: map<string, seq<C>>, m: C): set<string> {
    set k | k in r && r[k] == [m]
  }

  ghost predicate NoDups<C>(r: map<string, seq<C>>) {
    forall k :: k in r ==> NoDup(r[k])
  }

  ghost function Pairs<C>(r: map<string, seq<C>>): set<(string, C)> {
    set k, i | k in r && 0 <= i < |r[k]| :: (k, r[k][i])
  }

  lemma {:induction false} PairsMember<C>(r: map<string, seq<C>>, k: string, c: C)
    ensures (k, c) in Pairs(r) <==> c in ListOf(r, k)
  {
  }

  /** Subscribe adds one pair to the relation the lists represent. */
  lemma {:induction false} SubscribeAddsPair<C>(r: map<string, seq<C>>, k: string, m: C)
    ensures Pairs(AppendTo(r, k, m)) == Pairs(r) + {(k, m)}
    ensures NoDups(AppendTo(r, k, m)) <== NoDups(r) && m !in ListOf(r, k)
  {
    var after, expected := Pairs(AppendTo(r, k, m)), Pairs(r) + {(k, m)};
    forall p | p in after || p in expected
      ensures p in after && p in expected
    {
      PairsMember(AppendTo(r, k, m), p.0, p.1);
      PairsMember(r, p.0, p.1);
    }
  }

  /** With duplicate-free lists UnsubscribeAll removes exactly the pairs of its
      channel, and every list is its own order-preserving filter. */
  lemma {:induction false} UnsubscribeRemovesPairs<C>(r: map<string, seq<C>>, m: C)
    requires NoDups(r)
    ensures Pairs(RemoveEverywhere(r, m)) == set p | p in Pairs(r) && p.1 != m
    ensures NoDups(RemoveEverywhere(r, m))
    ensures forall k :: k in r ==> RemoveEverywhere(r, m)[k] == Without(r[k], m)
  {
    forall k | k in r
      ensures RemoveEverywhere(r, m)[k] == Without(r[k], m) && NoDup(RemoveEverywhere(r, m)[k])
    {
      RemoveNoDup(r[k], m);
    }
    var left := set p | p in Pairs(r) && p.1 != m;
    var after := Pairs(RemoveEverywhere(r, m));
    forall p | p in after || p in left
      ensures p in after && p in left
    {
      PairsMember(RemoveEverywhere(r, m), p.0, p.1);
      PairsMember(r, p.0, p.1);
      if p.0 in r { WithoutMembers(r[p.0], m); }
    }
  }

  /** A list is emptied by UnsubscribeAll exactly when its key is marked for
      cleanup; lists that were already empty are not marked. */
  lemma {:induction false} CleanupExact<C>(r: map<string, seq<C>>, m: C, k: string)
    requires k in r
    ensures k in CleanupKeys(r, m) <==> r[k] != [] && RemoveEverywhere(r, m)[k] == []
  {
    RemoveLength(r[k], m);
    if |r[k]| == 1 {
      assert r[k] == [r[k][0]];
    }
  }

  // ----- the outer loop of UnsubscribeAll, with `todo` still to visit -----

  ghost function Partly<C>(r: map<string, seq<C>>, todo: set<string>, m: C): map<string, seq<C>> {
    map k | k in r :: if k in todo then r[k] else RemoveInPlace(r[k], m)
  }

  function Members(marks: seq<string>): set<string> {
    set k | k in marks
  }

  ghost predicate Marked<C>(marks: seq<string>, r: map<string, seq<C>>, todo: set<string>, m: C) {
    && NoDup(marks)
    && Members(marks) == CleanupKeys(r, m) - todo
  }

  lemma {:induction false} VisitKey<C>(r: map<string, seq<C>>, todo: set<string>, key: string, m: C, marks: seq<string>)
    requires key in todo && todo <= r.Keys && Marked(marks, r, todo, m)
    ensures Partly(r, todo - {key}, m) == Partly(r, todo, m)[key := RemoveInPlace(r[key], m)]
    ensures Marked(marks + (if r[key] == [m] then [key] else []), r, todo - {key}, m)
  {
    assert key !in Members(marks);
    var after := marks + (if r[key] == [m] then [key] else []);
    forall k
      ensures k in Members(after) <==> k in CleanupKeys(r, m) - (todo - {key})
    {
      assert k in marks <==> k in Members(marks);
    }
  }
}
