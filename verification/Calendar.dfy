/**
 Conversion between a branch's wall clock and UTC.

 Instants and wall-clock readings are integers counting microseconds; a wall-clock
 reading w falls on the calendar day w / DAY at time of day w % DAY. A zone is the
 finite list of its UTC transitions, as the IANA database publishes it.
 */
module Calendar {
  import opened Base

  type Instant = int
  type Wall = int

  const SECOND: int := 1_000_000
  const MINUTE: int := 60_000_000
  const HOUR: int := 3_600_000_000
  const DAY: int := 86_400_000_000

  datatype LocalTimeError = DoesNotExist | Ambiguous | BadFold | FoldMismatch | NotPositive

  datatype Transition = Transition(at: Instant, offset: int)

  datatype Zone = Zone(initial: int, transitions: seq<Transition>) {

    /** Offset in force after the first `segment` transitions. */
    function Offset(segment: nat): int
      requires segment <= |transitions|
    {
      if segment == 0 then initial else transitions[segment - 1].offset
    }

    /** The stretch after transition i is longer than the change from offset k to offset j. */
    ghost predicate Outlasts(i: nat, j: nat, k: nat)
      requires i + 1 < |transitions| && j <= |transitions| && k <= |transitions|
    {
      transitions[i + 1].at - transitions[i].at > Offset(j) - Offset(k)
    }

    /** Every stretch between two transitions is longer than any change of offset. */
    ghost predicate WellSeparated() {
      forall i: nat, j: nat, k: nat | i + 1 < |transitions| && j <= |transitions| && k <= |transitions| ::
        Outlasts(i, j, k)
    }

    /** Number of transitions, among the first `hi`, up to the last one not after u. */
    function Segment(u: Instant, hi: nat): (k: nat)
      requires hi <= |transitions|
      ensures k <= hi
    {
      if hi == 0 || transitions[hi - 1].at <= u then hi else Segment(u, hi - 1)
    }

    function OffsetAt(u: Instant): int {
      Offset(Segment(u, |transitions|))
    }

    /** What the wall clock shows at u: `u.astimezone(zone)` without its tzinfo. */
    function Show(u: Instant): Wall {
      u + OffsetAt(u)
    }

    /** Wall reading at which the given fold switches over transition i (PEP 495). */
    function WallSwitch(i: nat, fold: nat): Wall
      requires i < |transitions|
    {
      transitions[i].at +
      (if fold == 0 then Max(Offset(i), Offset(i + 1)) else Min(Offset(i), Offset(i + 1)))
    }

    function WallSegment(w: Wall, fold: nat, hi: nat): (k: nat)
      requires hi <= |transitions|
      ensures k <= hi
    {
      if hi == 0 || WallSwitch(hi - 1, fold) <= w then hi else WallSegment(w, fold, hi - 1)
    }

    /** `naive.replace(tzinfo=zone, fold=fold).astimezone(UTC)`. */
    function FromWall(w: Wall, fold: nat): Instant {
      w - Offset(WallSegment(w, fold, |transitions|))
    }

    ghost predicate Unambiguous(u: Instant) {
      forall v :: Show(v) == Show(u) ==> v == u
    }
  }

  /** The calendar day the reading falls on. */
  function DateOf(w: Wall): (date: int)
    ensures date * DAY <= w < date * DAY + DAY
  {
    w / DAY
  }

  // --------------------------------------------------------------- segments

  lemma {:induction false} SegmentBounds(z: Zone, u: Instant, hi: nat)
    requires hi <= |z.transitions|
    ensures var k := z.Segment(u, hi);
            && (k > 0 ==> z.transitions[k - 1].at <= u)
            && (forall i: nat | k <= i < hi :: u < z.transitions[i].at)
  {
    if hi == 0 || z.transitions[hi - 1].at <= u {
    } else {
      SegmentBounds(z, u, hi - 1);
    }
  }

  lemma {:induction false} WallSegmentBounds(z: Zone, w: Wall, fold: nat, hi: nat)
    requires hi <= |z.transitions|
    ensures var k := z.WallSegment(w, fold, hi);
            && (k > 0 ==> z.WallSwitch(k - 1, fold) <= w)
            && (forall i: nat | k <= i < hi :: w < z.WallSwitch(i, fold))
  {
    if hi == 0 || z.WallSwitch(hi - 1, fold) <= w {
    } else {
      WallSegmentBounds(z, w, fold, hi - 1);
    }
  }

  /** Transitions further apart are separated at least as well as neighbours. */
  lemma {:induction false} Separation(z: Zone, i: nat, l: nat, j: nat, k: nat)
    requires z.WellSeparated()
    requires i < l < |z.transitions| && j <= |z.transitions| && k <= |z.transitions|
    ensures z.transitions[l].at - z.transitions[i].at > z.Offset(j) - z.Offset(k)
    decreases l - i
  {
    if l == i + 1 {
      assert z.Outlasts(i, j, k);
    } else {
      Separation(z, i, l - 1, j, k);
      assert z.Outlasts(l - 1, j, j);
    }
  }

  /** An instant lies in segment k exactly when it lies between k's two transitions. */
  lemma InSegment(z: Zone, u: Instant, k: nat)
    requires z.WellSeparated() && k <= |z.transitions|
    requires k > 0 ==> z.transitions[k - 1].at <= u
    requires k < |z.transitions| ==> u < z.transitions[k].at
    ensures z.Segment(u, |z.transitions|) == k
  {
    SegmentBounds(z, u, |z.transitions|);
    forall i: nat | k <= i < |z.transitions|
      ensures u < z.transitions[i].at
    {
      if k < i { Separation(z, k, i, 0, 0); }
    }
  }

  /** The wall clock is UTC moved by the offset of the last transition that has taken place. */
  lemma OffsetInForce(z: Zone, u: Instant)
    requires z.WellSeparated()
    ensures (forall i | 0 <= i < |z.transitions| :: u < z.transitions[i].at) ==> z.Show(u) == u + z.initial
    ensures forall i: nat | i < |z.transitions| && z.transitions[i].at <= u
                            && (i + 1 < |z.transitions| ==> u < z.transitions[i + 1].at) ::
              z.Show(u) == u + z.transitions[i].offset
  {
    SegmentBounds(z, u, |z.transitions|);
    forall i: nat | i < |z.transitions| && z.transitions[i].at <= u
                    && (i + 1 < |z.transitions| ==> u < z.transitions[i + 1].at)
      ensures z.Show(u) == u + z.transitions[i].offset
    {
      InSegment(z, u, i + 1);
    }
  }

  // --------------------------------------------------- preimages of a reading

  /** Every instant showing w lies between the segments the two folds select. */
  lemma PreimageSegment(z: Zone, u: Instant)
    requires z.WellSeparated()
    ensures var n := |z.transitions|; var w := z.Show(u);
            z.WallSegment(w, 0, n) <= z.Segment(u, n) <= z.WallSegment(w, 1, n)
  {
    var n := |z.transitions|;
    var w := z.Show(u);
    var s := z.Segment(u, n);
    SegmentBounds(z, u, n);
    WallSegmentBounds(z, w, 0, n);
    WallSegmentBounds(z, w, 1, n);
    if s > 0 {
      assert z.WallSwitch(s - 1, 1) <= w;
    }
    forall i: nat | s <= i < n
      ensures w < z.WallSwitch(i, 0)
    {
      if s < i { Separation(z, s, i, s, i); }
    }
  }

  lemma SwitchOrder(z: Zone, i: nat, l: nat)
    requires z.WellSeparated() && i < l < |z.transitions|
    ensures z.WallSwitch(i, 0) < z.WallSwitch(l, 1)
  {
    Separation(z, i, l, i, l);
    Separation(z, i, l, i, l + 1);
    Separation(z, i, l, i + 1, l);
    Separation(z, i, l, i + 1, l + 1);
  }

  lemma FoldsAdjacent(z: Zone, w: Wall)
    requires z.WellSeparated()
    ensures var n := |z.transitions|; var k := z.WallSegment(w, 0, n);
            k <= z.WallSegment(w, 1, n) <= k + 1
  {
    var n := |z.transitions|;
    WallSegmentBounds(z, w, 0, n);
    WallSegmentBounds(z, w, 1, n);
    var k := z.WallSegment(w, 0, n);
    if k > 0 {
      assert z.WallSwitch(k - 1, 1) <= z.WallSwitch(k - 1, 0);
    }
    forall l: nat | k < l < n
      ensures w < z.WallSwitch(l, 1)
    {
      SwitchOrder(z, k, l);
    }
  }

  /** `local_to_utc`, as the case analysis on the two fold candidates. */
  function LocalToUtc(z: Zone, w: Wall, fold: Option<int>): Result<Instant, LocalTimeError> {
    var first, second := z.FromWall(w, 0), z.FromWall(w, 1);
    var showsFirst, showsSecond := z.Show(first) == w, z.Show(second) == w;
    if !showsFirst && !showsSecond then Err(DoesNotExist)
    else if showsFirst && showsSecond && first != second then
      match fold
      case None => Err(Ambiguous)
      case Some(f) => if f == 0 then Ok(first) else if f == 1 then Ok(second) else Err(BadFold)
    else if fold.Some? && fold.value != (if showsFirst then 0 else 1) then Err(FoldMismatch)
    else Ok(if showsFirst then first else second)
  }

  /**
   The instants showing w are exactly the fold candidates that show w; two different
   candidates come in time order; and the later fold never shows w alone.
   */
  lemma Preimages(z: Zone, w: Wall)
    requires z.WellSeparated()
    ensures forall u :: z.Show(u) == w ==> u == z.FromWall(w, 0) || u == z.FromWall(w, 1)
    ensures z.Show(z.FromWall(w, 1)) == w ==> z.Show(z.FromWall(w, 0)) == w
    ensures z.Show(z.FromWall(w, 0)) == w && z.Show(z.FromWall(w, 1)) == w
            ==> z.FromWall(w, 0) <= z.FromWall(w, 1)
    ensures z.Show(z.FromWall(w, 0)) == w ==> z.Show(z.FromWall(w, 1)) == w
  {
    var n := |z.transitions|;
    FoldsAdjacent(z, w);
    var k0, k1 := z.WallSegment(w, 0, n), z.WallSegment(w, 1, n);
    forall u | z.Show(u) == w
      ensures u == z.FromWall(w, 0) || u == z.FromWall(w, 1)
      ensures z.Segment(u, n) == k0 || z.Segment(u, n) == k1
    {
      PreimageSegment(z, u);
    }
    WallSegmentBounds(z, w, 0, n);
    WallSegmentBounds(z, w, 1, n);
    var first, second := z.FromWall(w, 0), z.FromWall(w, 1);
    if k0 == k1 {
      if k0 > 0 { assert z.WallSwitch(k0 - 1, 0) <= w; }
      if k0 < n { assert w < z.WallSwitch(k0, 1); }
    } else {
      assert z.WallSwitch(k0, 1) <= w < z.WallSwitch(k0, 0);
      SegmentBounds(z, first, n);
      SegmentBounds(z, second, n);
      if z.Offset(k0) > z.Offset(k1) {
        RepeatedHour(z, w);
      } else {
        assert z.transitions[k0].at <= first;
        assert second < z.transitions[k0].at;
      }
    }
  }

  /** Inside a repeated stretch both fold candidates show the reading. */
  lemma RepeatedHour(z: Zone, w: Wall)
    requires z.WellSeparated()
    requires var n := |z.transitions|; var k := z.WallSegment(w, 0, n);
             z.WallSegment(w, 1, n) == k + 1 && z.Offset(k) > z.Offset(k + 1)
    ensures z.Show(z.FromWall(w, 0)) == w && z.Show(z.FromWall(w, 1)) == w
    ensures z.FromWall(w, 0) < z.FromWall(w, 1)
  {
    var n := |z.transitions|;
    var k := z.WallSegment(w, 0, n);
    WallSegmentBounds(z, w, 0, n);
    WallSegmentBounds(z, w, 1, n);
    assert z.WallSwitch(k, 1) <= w < z.WallSwitch(k, 0);
    if k > 0 { Separation(z, k - 1, k, k, k + 1); }
    InSegment(z, z.FromWall(w, 0), k);
    if k + 1 < n { Separation(z, k, k + 1, k, k + 1); }
    InSegment(z, z.FromWall(w, 1), k + 1);
  }

  // ---------------------------------------------------------------- theorems

  /**
   `local_to_utc` without a fold inverts the wall clock exactly: it returns the only
   instant that shows w, and tells "no such time" from "shown twice".
   */
  lemma ExactInverse(z: Zone, w: Wall)
    requires z.WellSeparated()
    ensures var r := LocalToUtc(z, w, None);
            match r
            case Ok(u) => forall v :: z.Show(v) == w <==> v == u
            case Err(DoesNotExist) => forall v :: z.Show(v) != w
            case Err(Ambiguous) => exists u, v :: u < v && z.Show(u) == w && z.Show(v) == w
            case Err(_) => false
  {
    Preimages(z, w);
    if LocalToUtc(z, w, None) == Err(Ambiguous) {
      assert z.FromWall(w, 0) < z.FromWall(w, 1);
    }
  }

  /** With a fold: it picks the earlier or the later of two instants, and nothing else. */
  lemma FoldSelects(z: Zone, w: Wall, f: int)
    requires z.WellSeparated()
    ensures var r := LocalToUtc(z, w, Some(f));
            match LocalToUtc(z, w, None)
            case Err(DoesNotExist) => r == Err(DoesNotExist)
            case Ok(u) => r == if f == 0 then Ok(u) else Err(FoldMismatch)
            case Err(_) =>
              && (f == 0 ==> r.Ok? && z.Show(r.value) == w && forall v :: z.Show(v) == w ==> r.value <= v)
              && (f == 1 ==> r.Ok? && z.Show(r.value) == w && forall v :: z.Show(v) == w ==> v <= r.value)
              && (f != 0 && f != 1 ==> r == Err(BadFold))
  {
    Preimages(z, w);
  }

  /** Wall-clock order agrees with UTC order as soon as one reading is unambiguous. */
  lemma OrderAgrees(z: Zone, u: Instant, v: Instant)
    requires z.WellSeparated() && z.Unambiguous(u)
    ensures v < u <==> z.Show(v) < z.Show(u)
    ensures v == u <==> z.Show(v) == z.Show(u)
  {
    if v < u && z.Show(v) > z.Show(u) {
      FallBackShowsTwice(z, v, u);
    } else if u < v && z.Show(v) < z.Show(u) {
      FallBackShowsTwice'(z, u, v);
    }
  }

  /** If the clock shows less at u than at the earlier v, u's reading was shown before. */
  lemma FallBackShowsTwice(z: Zone, v: Instant, u: Instant)
    requires z.WellSeparated()
    requires v < u && z.Show(v) > z.Show(u)
    ensures exists x :: x != u && z.Show(x) == z.Show(u)
  {
    var k := AdjacentSegments(z, v, u);
    var x := u + z.Offset(k + 1) - z.Offset(k);
    if k > 0 { Separation(z, k - 1, k, k, k + 1); }
    InSegment(z, x, k);
    assert z.Show(x) == z.Show(u);
  }

  /** Dually, v's reading is shown again after u. */
  lemma FallBackShowsTwice'(z: Zone, v: Instant, u: Instant)
    requires z.WellSeparated()
    requires v < u && z.Show(v) > z.Show(u)
    ensures exists x :: x != v && z.Show(x) == z.Show(v)
  {
    var k := AdjacentSegments(z, v, u);
    var x := v + z.Offset(k) - z.Offset(k + 1);
    if k + 1 < |z.transitions| { Separation(z, k, k + 1, k, k + 1); }
    InSegment(z, x, k + 1);
    assert z.Show(x) == z.Show(v);
  }

  /** The clock can only fall back across a single transition. */
  lemma AdjacentSegments(z: Zone, v: Instant, u: Instant) returns (k: nat)
    requires z.WellSeparated()
    requires v < u && z.Show(v) > z.Show(u)
    ensures k < |z.transitions| && z.Segment(v, |z.transitions|) == k
    ensures z.Segment(u, |z.transitions|) == k + 1
    ensures v < z.transitions[k].at <= u
    ensures k > 0 ==> z.transitions[k - 1].at <= v
    ensures k + 1 < |z.transitions| ==> u < z.transitions[k + 1].at
  {
    var n := |z.transitions|;
    SegmentBounds(z, v, n);
    SegmentBounds(z, u, n);
    k := z.Segment(v, n);
    var l := z.Segment(u, n);
    if l > k + 1 {
      Separation(z, k, l - 1, k, l);
      assert false;
    }
  }

  // --------------------------------------------------------------- procedure

  /** The source's loop over the two folds, collecting the candidates that round-trip. */
  method LocalToUtcByFolds(z: Zone, w: Wall, fold: Option<int>) returns (r: Result<Instant, LocalTimeError>)
    ensures r == LocalToUtc(z, w, fold)
  {
    var candidates: seq<(int, Instant)> := [];
    for candidateFold := 0 to 2
      invariant candidates ==
        (if candidateFold > 0 && z.Show(z.FromWall(w, 0)) == w then [(0, z.FromWall(w, 0))] else []) +
        (if candidateFold > 1 && z.Show(z.FromWall(w, 1)) == w then [(1, z.FromWall(w, 1))] else [])
    {
      var utcValue := z.FromWall(w, candidateFold);
      if z.Show(utcValue) == w {
        candidates := candidates + [(candidateFold, utcValue)];
      }
    }
    if |candidates| == 2 && candidates[0].1 == candidates[1].1 {
      candidates := candidates[..1];
    }
    if |candidates| == 0 {
      return Err(DoesNotExist);
    }
    if |candidates| > 1 {
      if fold == None {
        return Err(Ambiguous);
      }
      for i := 0 to |candidates|
        invariant forall j | 0 <= j < i :: candidates[j].0 != fold.value
      {
        if candidates[i].0 == fold.value {
          return Ok(candidates[i].1);
        }
      }
      return Err(BadFold);
    }
    if fold.Some? && candidates[0].0 != fold.value {
      return Err(FoldMismatch);
    }
    return Ok(candidates[0].1);
  }
}
