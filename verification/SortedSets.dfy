/** Redis sorted sets, as the trusted meaning of ZADD, ZREM, ZRANGEBYSCORE, ZCARD and ZCOUNT.

    A set is kept as the sequence Redis iterates over: by score, then by member. */
module SortedSets {
  datatype Entry = Entry(member: string, score: int)

  type ZSet = seq<Entry>

  predicate LexLess(a: string, b: string) {
    |b| > 0 && (|a| == 0 || a[0] < b[0] || (a[0] == b[0] && LexLess(a[1..], b[1..])))
  }

  predicate Before(a: Entry, b: Entry) {
    a.score < b.score || (a.score == b.score && LexLess(a.member, b.member))
  }

  ghost predicate Wellformed(z: ZSet) {
    && (forall i, j :: 0 <= i < j < |z| ==> Before(z[i], z[j]))
    && (forall i, j :: 0 <= i < j < |z| ==> z[i].member != z[j].member)
  }

  predicate Has(z: ZSet, member: string) {
    exists e :: e in z && e.member == member
  }

  function Insert(z: ZSet, e: Entry): (r: ZSet)
    ensures |r| == |z| + 1
    ensures forall x :: x in r <==> x == e || x in z
  {
    if z == [] then [e]
    else if Before(e, z[0]) then [e] + z
    else [z[0]] + Insert(z[1..], e)
  }

  function Without(z: ZSet, members: set<string>): (r: ZSet)
    ensures |r| <= |z|
    ensures forall x :: x in r <==> x in z && x.member !in members
  {
    if z == [] then []
    else (if z[0].member in members then [] else [z[0]]) + Without(z[1..], members)
  }

  // ZADD key NX score member
  function AddIfAbsent(z: ZSet, e: Entry): ZSet {
    if Has(z, e.member) then z else Insert(z, e)
  }

  // ZADD key XX score member
  function UpdateIfPresent(z: ZSet, e: Entry): ZSet {
    if Has(z, e.member) then Insert(Without(z, {e.member}), e) else z
  }

  // ZRANGEBYSCORE key 0 now
  function Due(z: ZSet, now: int): (r: ZSet)
    ensures |r| <= |z|
    ensures forall x :: x in r <==> x in z && 0 <= x.score <= now
  {
    if z == [] then []
    else (if 0 <= z[0].score <= now then [z[0]] else []) + Due(z[1..], now)
  }

  function Min(a: nat, b: nat): nat {
    if a <= b then a else b
  }

  // ... LIMIT 0 count
  function FirstDue(z: ZSet, now: int, count: nat): ZSet {
    Due(z, now)[..Min(count, |Due(z, now)|)]
  }

  function Members(z: ZSet): (ids: seq<string>)
    ensures |ids| == |z|
    ensures forall i :: 0 <= i < |z| ==> ids[i] == z[i].member
  {
    if z == [] then [] else [z[0].member] + Members(z[1..])
  }

  function AsSet(ids: seq<string>): set<string> {
    set id | id in ids
  }

  // What the order of a set says, without its definition

  // The place where a comes before b: it ends there, or has the smaller character.
  predicate BeforeAt(a: string, b: string, n: nat) {
    n <= |a| && n <= |b| && a[..n] == b[..n] && (if n < |a| then n < |b| && a[n] < b[n] else n < |b|)
  }

  lemma {:induction false} LexPlace(a: string, b: string) returns (n: nat)
    requires LexLess(a, b)
    ensures BeforeAt(a, b, n)
  {
    if |a| > 0 && a[0] == b[0] {
      var m := LexPlace(a[1..], b[1..]);
      n := m + 1;
      assert a[..n] == [a[0]] + a[1..][..m] && b[..n] == [b[0]] + b[1..][..m];
    } else {
      n := 0;
    }
  }

  /** Earlier scores come first; among equal scores, the smaller character at the first difference. */
  lemma OrderedByScore(z: ZSet, i: nat, j: nat) returns (n: nat)
    requires Wellformed(z) && i < j < |z|
    ensures z[i].score <= z[j].score
    ensures z[i].score == z[j].score ==> BeforeAt(z[i].member, z[j].member, n)
  {
    assert Before(z[i], z[j]);
    n := 0;
    if z[i].score == z[j].score {
      n := LexPlace(z[i].member, z[j].member);
    }
  }

  predicate AscendingScores(z: ZSet) {
    forall i, j :: 0 <= i < j < |z| ==> z[i].score <= z[j].score
  }

  // Everything that left the set is no later than everything due that stayed.
  ghost predicate EarliestLeft(before: ZSet, after: ZSet, now: int) {
    forall x, e :: x in before && x !in after && e in after && 0 <= e.score <= now ==> x.score <= e.score
  }

  lemma Ascending(z: ZSet)
    requires Wellformed(z)
    ensures AscendingScores(z)
  {
    forall i, j | 0 <= i < j < |z| ensures z[i].score <= z[j].score {
      var _ := OrderedByScore(z, i, j);
    }
  }

  /** A pop takes the earliest entries that are due, in the order of their scores. */
  lemma PopsEarliest(z: ZSet, now: int, count: nat)
    requires Wellformed(z)
    ensures AscendingScores(FirstDue(z, now, count))
    ensures EarliestLeft(z, Popped(z, now, count), now)
  {
    DueWellformed(z, now);
    Ascending(Due(z, now));
    forall x, e | x in z && x !in Popped(z, now, count) && e in Popped(z, now, count) && 0 <= e.score <= now
      ensures x.score <= e.score
    {
      var i := LeftPlace(z, now, count, x);
      var j := StayedPlace(z, now, count, e);
    }
  }

  lemma LeftPlace(z: ZSet, now: int, count: nat, x: Entry) returns (i: nat)
    requires Wellformed(z) && x in z && x !in Popped(z, now, count)
    ensures i < |FirstDue(z, now, count)| && Due(z, now)[i] == x
  {
    var taken := FirstDue(z, now, count);
    assert x.member in Members(taken);
    i :| 0 <= i < |taken| && Members(taken)[i] == x.member;
    assert taken[i] in Due(z, now);
    SameEntry(z, taken[i], x);
  }

  lemma StayedPlace(z: ZSet, now: int, count: nat, e: Entry) returns (j: nat)
    requires e in Popped(z, now, count) && 0 <= e.score <= now
    ensures |FirstDue(z, now, count)| <= j < |Due(z, now)| && Due(z, now)[j] == e
  {
    assert e in Due(z, now);
    j :| 0 <= j < |Due(z, now)| && Due(z, now)[j] == e;
    if j < |FirstDue(z, now, count)| {
      MemberOf(FirstDue(z, now, count), j);
      assert false;
    }
  }

  lemma MemberOf(z: ZSet, i: nat)
    requires i < |z|
    ensures z[i].member in Members(z)
  {
    assert Members(z)[i] == z[i].member;
  }

  lemma SameEntry(z: ZSet, x: Entry, y: Entry)
    requires Wellformed(z) && x in z && y in z && x.member == y.member
    ensures x == y
  {
    var i :| 0 <= i < |z| && z[i] == x;
    var j :| 0 <= j < |z| && z[j] == y;
  }

  // The members scored between lo and hi.
  function Between(z: ZSet, lo: int, hi: int): set<string> {
    set e | e in z && lo <= e.score <= hi :: e.member
  }

  function Names(z: ZSet): set<string> {
    set e | e in z :: e.member
  }

  lemma {:induction false} CountsMembers(z: ZSet)
    requires Wellformed(z)
    ensures |Names(z)| == |z|
  {
    if z != [] {
      HeadIsUnique(z);
      CountsMembers(z[1..]);
      assert Names(z) == {z[0].member} + Names(z[1..]) by {
        assert forall e :: e in z <==> e == z[0] || e in z[1..];
      }
    }
  }

  lemma {:induction false} DueWellformed(z: ZSet, now: int)
    requires Wellformed(z)
    ensures Wellformed(Due(z, now))
  {
    if z != [] {
      HeadIsUnique(z);
      DueWellformed(z[1..], now);
      var rest := Due(z[1..], now);
      forall j | 0 <= j < |rest| ensures Before(z[0], rest[j]) && z[0].member != rest[j].member {
        assert rest[j] in rest;
        AfterHead(z, rest[j]);
      }
    }
  }

  lemma AfterHead(z: ZSet, e: Entry)
    requires Wellformed(z) && z != [] && e in z[1..]
    ensures Before(z[0], e) && z[0].member != e.member
  {
    var i :| 0 <= i < |z[1..]| && z[1..][i] == e;
    assert z[i + 1] == e;
  }

  lemma DueNames(z: ZSet, now: int)
    ensures Names(Due(z, now)) == Between(z, 0, now)
  {
    assert forall e :: e in Due(z, now) <==> e in z && 0 <= e.score <= now;
  }

  // The two views of what one pop leaves behind.
  function Popped(z: ZSet, now: int, count: nat): ZSet {
    Without(z, AsSet(Members(FirstDue(z, now, count))))
  }

  lemma {:induction false} LexTotal(a: string, b: string)
    ensures a == b || LexLess(a, b) || LexLess(b, a)
  {
    if |a| > 0 && |b| > 0 && a[0] == b[0] {
      LexTotal(a[1..], b[1..]);
      assert a == [a[0]] + a[1..] && b == [b[0]] + b[1..];
    }
  }

  lemma {:induction false} LexTransitive(a: string, b: string, c: string)
    requires LexLess(a, b) && LexLess(b, c)
    ensures LexLess(a, c)
  {
    if |a| > 0 && a[0] == b[0] == c[0] {
      LexTransitive(a[1..], b[1..], c[1..]);
    }
  }

  lemma BeforeTransitive(a: Entry, b: Entry, c: Entry)
    requires Before(a, b) && Before(b, c)
    ensures Before(a, c)
  {
    if a.score == b.score == c.score {
      LexTransitive(a.member, b.member, c.member);
    }
  }

  lemma {:induction false} InsertWellformed(z: ZSet, e: Entry)
    requires Wellformed(z) && !Has(z, e.member)
    ensures Wellformed(Insert(z, e))
  {
    if z != [] {
      assert z[0] in z;
      if Before(e, z[0]) {
        forall j | 0 <= j < |z| ensures Before(e, z[j]) && e.member != z[j].member {
          assert z[j] in z;
          if j > 0 {
            BeforeTransitive(e, z[0], z[j]);
          }
        }
      } else {
        LexTotal(e.member, z[0].member);
        InsertWellformed(z[1..], e);
        var r := Insert(z[1..], e);
        forall j | 0 <= j < |r| ensures Before(z[0], r[j]) && z[0].member != r[j].member {
          assert r[j] in r;
          if r[j] != e {
            var i :| 0 <= i < |z[1..]| && z[1..][i] == r[j];
            assert z[i + 1] == r[j];
          }
        }
      }
    }
  }

  lemma {:induction false} WithoutWellformed(z: ZSet, members: set<string>)
    requires Wellformed(z)
    ensures Wellformed(Without(z, members))
  {
    if z != [] {
      HeadIsUnique(z);
      WithoutWellformed(z[1..], members);
      var r := Without(z[1..], members);
      forall j | 0 <= j < |r| ensures Before(z[0], r[j]) && z[0].member != r[j].member {
        assert r[j] in r;
        AfterHead(z, r[j]);
      }
    }
  }

  lemma {:induction false} WithoutAbsent(z: ZSet, members: set<string>, extra: string)
    requires !Has(z, extra)
    ensures Without(z, members + {extra}) == Without(z, members)
  {
    if z != [] {
      assert z[0] in z;
      assert !Has(z[1..], extra) by {
        assert forall x :: x in z[1..] ==> x in z;
      }
      WithoutAbsent(z[1..], members, extra);
    }
  }

  lemma HeadIsUnique(z: ZSet)
    requires Wellformed(z) && z != []
    ensures Wellformed(z[1..]) && !Has(z[1..], z[0].member)
  {
    forall i | 0 <= i < |z[1..]| ensures z[1..][i].member != z[0].member {
      assert z[i + 1] == z[1..][i];
    }
  }

  lemma PoppedDueHead(z: ZSet, now: int, count: nat)
    requires Wellformed(z) && z != [] && 0 <= z[0].score <= now && count > 0
    ensures Popped(z, now, count) == Popped(z[1..], now, count - 1)
  {
    HeadIsUnique(z);
    var ids := AsSet(Members(FirstDue(z[1..], now, count - 1)));
    assert FirstDue(z, now, count) == [z[0]] + FirstDue(z[1..], now, count - 1);
    assert AsSet(Members(FirstDue(z, now, count))) == ids + {z[0].member};
    WithoutAbsent(z[1..], ids, z[0].member);
  }

  lemma PoppedOtherHead(z: ZSet, now: int, count: nat)
    requires Wellformed(z) && z != [] && !(0 <= z[0].score <= now)
    ensures Popped(z, now, count) == [z[0]] + Popped(z[1..], now, count)
  {
    HeadIsUnique(z);
    var taken := FirstDue(z[1..], now, count);
    assert Due(z, now) == Due(z[1..], now);
    forall i | 0 <= i < |taken| ensures taken[i].member != z[0].member {
      assert taken[i] in Due(z[1..], now);
    }
  }

  /** One pop removes exactly the first `count` due entries: the due ones after it are the rest of
      the due ones before it, in the same order, and the size falls by what was taken. */
  lemma {:induction false} PopTakesTheFirst(z: ZSet, now: int, count: nat)
    requires Wellformed(z)
    ensures PopExact(z, now, count)
    decreases |z|
  {
    if count == 0 || z == [] {
      PopNothing(z, now, count);
    } else {
      HeadIsUnique(z);
      if 0 <= z[0].score <= now {
        PopTakesTheFirst(z[1..], now, count - 1);
        PopDueHead(z, now, count);
      } else {
        PopTakesTheFirst(z[1..], now, count);
        PopOtherHead(z, now, count);
      }
    }
  }

  ghost predicate PopExact(z: ZSet, now: int, count: nat) {
    && Due(Popped(z, now, count), now) == Due(z, now)[Min(count, |Due(z, now)|)..]
    && |Popped(z, now, count)| == |z| - Min(count, |Due(z, now)|)
  }

  lemma PopNothing(z: ZSet, now: int, count: nat)
    requires count == 0 || z == []
    ensures PopExact(z, now, count)
  {
    assert AsSet(Members(FirstDue(z, now, count))) == {};
    WithoutNone(z);
  }

  lemma PopDueHead(z: ZSet, now: int, count: nat)
    requires Wellformed(z) && z != [] && 0 <= z[0].score <= now && count > 0
    requires PopExact(z[1..], now, count - 1)
    ensures PopExact(z, now, count)
  {
    assert Popped(z, now, count) == Popped(z[1..], now, count - 1) by {
      PoppedDueHead(z, now, count);
    }
    assert Due(z, now) == [z[0]] + Due(z[1..], now);
    DropCons(z[0], Due(z[1..], now), count);
  }

  lemma DropCons(e: Entry, due: ZSet, count: nat)
    requires count > 0
    ensures ([e] + due)[Min(count, |due| + 1)..] == due[Min(count - 1, |due|)..]
  {
  }

  lemma PopOtherHead(z: ZSet, now: int, count: nat)
    requires Wellformed(z) && z != [] && !(0 <= z[0].score <= now)
    requires PopExact(z[1..], now, count)
    ensures PopExact(z, now, count)
  {
    var rest := Popped(z[1..], now, count);
    assert Popped(z, now, count) == [z[0]] + rest by {
      PoppedOtherHead(z, now, count);
    }
    assert Due([z[0]] + rest, now) == Due(rest, now) by {
      DueOtherHead(z[0], rest, now);
    }
    assert Due(z, now) == Due(z[1..], now);
  }

  lemma DueOtherHead(e: Entry, z: ZSet, now: int)
    requires !(0 <= e.score <= now)
    ensures Due([e] + z, now) == Due(z, now)
  {
    assert ([e] + z)[1..] == z;
  }

  lemma {:induction false} WithoutNone(z: ZSet)
    ensures Without(z, {}) == z
  {
    if z != [] {
      WithoutNone(z[1..]);
    }
  }

  lemma NothingPopped(z: ZSet, now: int, count: nat)
    requires Members(FirstDue(z, now, count)) == []
    ensures Popped(z, now, count) == z
  {
    assert AsSet([]) == {};
    WithoutNone(z);
  }
}
