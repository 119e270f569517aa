/**
 * The JSON document tree the harness edits. An object is an ORDERED list of
 * members: lookups find the first member with a name, `AddMember` appends
 * (without checking for an existing name) and `RemoveMember` moves the last
 * member into the removed one's place, as the document library does.
 */
module Json {
  import opened Strings

  datatype Value =
    | Null
    | Bool(b: bool)
    | Number(n: real)
    | Str(s: string)
    | Array(items: seq<Value>)
    | Object(members: seq<Member>)

  datatype Member = Member(name: string, value: Value)

  function Names(ms: seq<Member>): seq<string> {
    seq(|ms|, i requires 0 <= i < |ms| => ms[i].name)
  }

  /** Position of the member a lookup of `k` finds, or -1 (also for a non-object). */
  function IndexOf(v: Value, k: string): (r: int)
    ensures v.Object? ==> -1 <= r < |v.members|
    ensures !v.Object? ==> r == -1
  {
    if v.Object? then FirstIndex(Names(v.members), k) else -1
  }

  predicate HasMember(v: Value, k: string) {
    IndexOf(v, k) >= 0
  }

  /** The value of the first member named `k`; a missing member reads as null. */
  function Get(v: Value, k: string): Value {
    if HasMember(v, k) then v.members[IndexOf(v, k)].value else Null
  }

  /** Replaces the value of the member a lookup of `k` finds. */
  function SetMember(v: Value, k: string, x: Value): Value {
    if HasMember(v, k) then Object(v.members[IndexOf(v, k) := Member(k, x)]) else v
  }

  /** Appends a member, even when one with the same name exists. */
  function AddMember(v: Value, k: string, x: Value): Value {
    if v.Object? then Object(v.members + [Member(k, x)]) else v
  }

  /** Removes the member a lookup of `k` finds; the last member takes its place. */
  function RemoveMember(v: Value, k: string): Value {
    if !HasMember(v, k) then v
    else
      var i, n := IndexOf(v, k), |v.members|;
      if i == n - 1 then Object(v.members[..n - 1])
      else Object(v.members[i := v.members[n - 1]][..n - 1])
  }

  /** No two members of the object share a name (what a parsed style normally has). */
  predicate UniqueNames(v: Value) {
    v.Object? && forall i, j :: 0 <= i < j < |v.members| ==> v.members[i].name != v.members[j].name
  }

  /** Membership is the existence of a member with that name. */
  lemma HasMemberIff(v: Value, k: string)
    requires v.Object?
    ensures HasMember(v, k) <==> exists i :: 0 <= i < |v.members| && v.members[i].name == k
  {
    if exists i :: 0 <= i < |v.members| && v.members[i].name == k {
      var i :| 0 <= i < |v.members| && v.members[i].name == k;
      assert Names(v.members)[i] == k;
    }
  }

  /** In an object without repeated names, the member named `k` is the one a lookup finds. */
  lemma GetUnique(v: Value, i: int)
    requires UniqueNames(v) && 0 <= i < |v.members|
    ensures HasMember(v, v.members[i].name)
    ensures IndexOf(v, v.members[i].name) == i
    ensures Get(v, v.members[i].name) == v.members[i].value
  {
    var k := v.members[i].name;
    assert Names(v.members)[i] == k;
    var r := IndexOf(v, k);
    assert r >= 0 && Names(v.members)[r] == k;
  }

  /**
   * Setting a member changes what a lookup of that name finds and nothing
   * else: every other name reads as before and the set of names is unchanged.
   */
  lemma SetMemberLookup(v: Value, k: string, x: Value, k': string)
    ensures HasMember(SetMember(v, k, x), k') == HasMember(v, k')
    ensures Get(SetMember(v, k, x), k') == if k' == k && HasMember(v, k) then x else Get(v, k')
  {
    if HasMember(v, k) {
      var w := SetMember(v, k, x);
      assert Names(w.members) == Names(v.members);
    }
  }

  lemma SetMemberKeepsUnique(v: Value, k: string, x: Value)
    requires UniqueNames(v)
    ensures UniqueNames(SetMember(v, k, x))
  {
    if HasMember(v, k) {
      var w := SetMember(v, k, x);
      assert Names(w.members) == Names(v.members);
      forall i, j | 0 <= i < j < |w.members| ensures w.members[i].name != w.members[j].name {
        assert Names(w.members)[i] == Names(v.members)[i];
        assert Names(w.members)[j] == Names(v.members)[j];
      }
    }
  }

  /**
   * Adding member `k` to an object that has no member `k`, then removing the
   * unique member `r`: `r` is gone, `k` reads as the added value, and every
   * other name reads as before.
   */
  lemma {:induction false} AddThenRemove(v: Value, k: string, x: Value, r: string)
    requires UniqueNames(v) && HasMember(v, r) && !HasMember(v, k) && k != r
    ensures var w := RemoveMember(AddMember(v, k, x), r);
      && UniqueNames(w)
      && !HasMember(w, r)
      && HasMember(w, k) && Get(w, k) == x
      && forall k' :: k' != k && k' != r ==> HasMember(w, k') == HasMember(v, k') && Get(w, k') == Get(v, k')
  {
    var ms := v.members;
    var n := |ms|;
    var i := IndexOf(v, r);
    assert Names(ms)[i] == r;
    HasMemberIff(v, k);
    var a := AddMember(v, k, x);
    assert a.members == ms + [Member(k, x)];
    assert UniqueNames(a);
    GetUnique(a, i);
    var w := RemoveMember(a, r);
    assert w.members == ms[i := Member(k, x)];
    assert UniqueNames(w);
    GetUnique(w, i);
    HasMemberIff(v, r);
    HasMemberIff(w, r);
    forall k' | k' != k && k' != r
      ensures HasMember(w, k') == HasMember(v, k') && Get(w, k') == Get(v, k')
    {
      HasMemberIff(v, k');
      HasMemberIff(w, k');
      if HasMember(v, k') {
        var j := IndexOf(v, k');
        assert Names(ms)[j] == k';
        GetUnique(v, j);
        GetUnique(w, j);
      }
    }
  }

  /**
   * Overwriting one member whose old and new names both differ from `k'`
   * leaves what a lookup of `k'` finds unchanged, repeated names or not.
   */
  lemma ReplaceAtLookup(v: Value, i: int, m: Member, k': string)
    requires v.Object? && 0 <= i < |v.members|
    requires v.members[i].name != k' && m.name != k'
    ensures HasMember(Object(v.members[i := m]), k') == HasMember(v, k')
    ensures Get(Object(v.members[i := m]), k') == Get(v, k')
  {
    var w := Object(v.members[i := m]);
    var a, b := Names(v.members), Names(w.members);
    assert forall j :: 0 <= j < |a| ==> (a[j] == k' <==> b[j] == k');
    var r1, r2 := FirstIndex(a, k'), FirstIndex(b, k');
    if r1 >= 0 {
      assert b[r1] == k';
    }
    if r2 >= 0 {
      assert a[r2] == k';
    }
    assert r1 == r2;
  }

  /**
   * Appending `k` and then removing `r` puts the new member where the first
   * `r` was, since the appended member is the last one.
   */
  lemma AddThenRemoveShape(v: Value, k: string, x: Value, r: string)
    requires v.Object? && HasMember(v, r) && k != r
    ensures RemoveMember(AddMember(v, k, x), r) == Object(v.members[IndexOf(v, r) := Member(k, x)])
  {
    var a := AddMember(v, k, x);
    var i := IndexOf(v, r);
    assert Names(a.members) == Names(v.members) + [k];
    FirstIndexAppend(Names(v.members), k, r);
  }

  lemma {:induction false} FirstIndexAppend(xs: seq<string>, k: string, r: string)
    requires FirstIndex(xs, r) >= 0
    ensures FirstIndex(xs + [k], r) == FirstIndex(xs, r)
    decreases |xs|
  {
    if xs[0] != r {
      assert (xs + [k])[1..] == xs[1..] + [k];
      FirstIndexAppend(xs[1..], k, r);
    }
  }

  /** Appending `k` then removing `r` leaves every third name reading as before. */
  lemma AddThenRemoveOthers(v: Value, k: string, x: Value, r: string, k': string)
    requires v.Object? && HasMember(v, r) && k != r && k' != k && k' != r
    ensures HasMember(RemoveMember(AddMember(v, k, x), r), k') == HasMember(v, k')
    ensures Get(RemoveMember(AddMember(v, k, x), r), k') == Get(v, k')
  {
    AddThenRemoveShape(v, k, x, r);
    var i := IndexOf(v, r);
    assert Names(v.members)[i] == r;
    ReplaceAtLookup(v, i, Member(k, x), k');
  }

  /** Setting a member twice is setting it once, to the second value. */
  lemma SetMemberTwice(v: Value, k: string, x: Value, y: Value)
    ensures SetMember(SetMember(v, k, x), k, y) == SetMember(v, k, y)
  {
    if HasMember(v, k) {
      var w := SetMember(v, k, x);
      assert Names(w.members) == Names(v.members);
    }
  }
}
