/** Result and option types shared by every module. */
module Base {

  datatype Option<+T> = None | Some(value: T)

  /** A value, or the exception the source raises instead. */
  datatype Result<+T, +E> = Ok(value: T) | Err(error: E)

  type Id = int

  function Max(a: int, b: int): int { if a < b then b else a }

  function Min(a: int, b: int): int { if a < b then a else b }

  lemma Member<T>(s: set<T>) returns (e: T)
    requires s != {}
    ensures e in s
  {
    e :| e in s;
  }

  predicate IsLeast(m: Id, s: set<Id>) {
    m in s && forall x | x in s :: m <= x
  }

  lemma {:induction false} HasLeast(s: set<Id>)
    requires s != {}
    ensures exists m :: IsLeast(m, s)
    decreases |s|
  {
    var e := Member(s);
    var rest := s - {e};
    assert forall x | x in s :: x in rest || x == e;
    if rest == {} {
      assert IsLeast(e, s);
    } else {
      HasLeast(rest);
      var m :| IsLeast(m, rest);
      assert IsLeast(Min(e, m), s);
    }
  }

  function Least(s: set<Id>): (m: Id)
    requires s != {}
    ensures IsLeast(m, s)
  {
    HasLeast(s);
    var m :| m in s && IsLeast(m, s);
    m
  }

  /** `order_by("id")`. */
  function Ascending(s: set<Id>): (r: seq<Id>)
    ensures forall x :: x in r <==> x in s
    ensures forall i, j | 0 <= i < j < |r| :: r[i] < r[j]
    decreases |s|
  {
    if s == {} then [] else [Least(s)] + Ascending(s - {Least(s)})
  }

  lemma TailMembers(r: seq<Id>, x: Id)
    requires r != [] && forall i, j | 0 <= i < j < |r| :: r[i] < r[j]
    ensures x in r[1..] <==> (x in r && x != r[0])
  {
    if x in r && x != r[0] {
      var i :| 0 <= i < |r| && r[i] == x;
      assert r[1..][i - 1] == x;
    }
  }

  lemma HasMember<T>(r: seq<T>)
    ensures r != [] ==> exists x :: x in r
  {
    if r != [] { assert r[0] in r; }
  }

  /** A strictly ascending list is determined by its elements. */
  lemma {:induction false} AscendingIsUnique(r: seq<Id>, t: seq<Id>)
    requires forall i, j | 0 <= i < j < |r| :: r[i] < r[j]
    requires forall i, j | 0 <= i < j < |t| :: t[i] < t[j]
    requires forall x :: x in r <==> x in t
    ensures r == t
  {
    if r == [] {
      HasMember(t);
    } else {
      assert r[0] in r && r[0] in t && t[0] in t && t[0] in r;
      forall x
        ensures x in r[1..] <==> x in t[1..]
      {
        TailMembers(r, x);
        TailMembers(t, x);
      }
      AscendingIsUnique(r[1..], t[1..]);
    }
  }
}
