/** ArUco board configuration: how `Camera::Read_ArUco_YAML` turns the parsed
    `objPoints` and `ids` keys of the board file into per-marker 3D corner
    groups and marker ids.

    The model starts after YAML parsing: a key is `None` when it is absent from
    the file and `Some(value)` with its converted value otherwise. Coordinates
    are of an opaque type `C`; the loader only moves them around. */
module ArucoBoard {

  datatype Option<T> = None | Some(value: T)

  /** A 3D board-space point (`cv::Point3f`). */
  datatype Point3<C> = Point3(x: C, y: C, z: C)

  /** The marker dictionary handle; the loader always selects `DICT_4X4_100`. */
  datatype Dictionary = NoDictionary | Dict4X4_100

  /** How a call of the loader ends: it returns `true`, or `std::vector::at`
      throws `std::out_of_range` while cutting a list into triples. */
  datatype Status = Returned(ok: bool) | OutOfRange

  /** Marker groups from this index on have their corners reordered. */
  const FIRST_SWAPPED: nat := 28

  // ---------------------------------------------------------------------------
  // Cutting flat coordinate lists into points

  /** The cut into triples never reads past the end of `v`. */
  predicate Whole<C>(v: seq<C>) {
    |v| % 3 == 0
  }

  predicate AllWhole<C>(lists: seq<seq<C>>) {
    forall i :: 0 <= i < |lists| ==> Whole(lists[i])
  }

  /** The points of one flat list, three consecutive values per point. */
  function Triples<C>(v: seq<C>): (points: seq<Point3<C>>)
    requires Whole(v)
    ensures |points| == |v| / 3
    ensures forall m :: 0 <= m < |points| ==>
              points[m] == Point3(v[3 * m], v[3 * m + 1], v[3 * m + 2])
    decreases |v|
  {
    if |v| == 0 then []
    else Triples(v[..|v| - 3]) + [Point3(v[|v| - 3], v[|v| - 2], v[|v| - 1])]
  }

  /** The flat coordinate list of a sequence of points: the inverse of `Triples`. */
  function Flatten<C>(points: seq<Point3<C>>): (v: seq<C>)
    ensures |v| == 3 * |points|
  {
    if points == [] then []
    else
      var p := points[|points| - 1];
      Flatten(points[..|points| - 1]) + [p.x, p.y, p.z]
  }

  lemma {:induction false} FlattenTriples<C>(v: seq<C>)
    requires Whole(v)
    ensures Flatten(Triples(v)) == v
    decreases |v|
  {
    if |v| > 0 {
      var u := v[..|v| - 3];
      var points := Triples(v);
      assert points[..|points| - 1] == Triples(u);
      FlattenTriples(u);
      assert v == u + [v[|v| - 3], v[|v| - 2], v[|v| - 1]];
    }
  }

  lemma {:induction false} TriplesFlatten<C>(points: seq<Point3<C>>)
    ensures Whole(Flatten(points)) && Triples(Flatten(points)) == points
  {
    if points != [] {
      var init := points[..|points| - 1];
      var v := Flatten(points);
      TriplesFlatten(init);
      assert v[..|v| - 3] == Flatten(init);
      assert points == init + [points[|points| - 1]];
    }
  }

  /** One point group per coordinate list, in input order. */
  function Grouped<C>(lists: seq<seq<C>>): (groups: seq<seq<Point3<C>>>)
    requires AllWhole(lists)
    ensures |groups| == |lists|
    ensures forall i :: 0 <= i < |lists| ==> groups[i] == Triples(lists[i])
  {
    if lists == [] then []
    else Grouped(lists[..|lists| - 1]) + [Triples(lists[|lists| - 1])]
  }

  // ---------------------------------------------------------------------------
  // The corner swap of markers at index FIRST_SWAPPED and above

  /** The corners of one marker with positions 0 and 1, and 2 and 3, exchanged. */
  function SwapCorners<T>(g: seq<T>): (s: seq<T>)
    requires |g| >= 4
    ensures |s| == |g|
    ensures s[0] == g[1] && s[1] == g[0] && s[2] == g[3] && s[3] == g[2]
    ensures forall k :: 4 <= k < |g| ==> s[k] == g[k]
  {
    [g[1], g[0], g[3], g[2]] + g[4..]
  }

  lemma SwapCornersInvolutive<T>(g: seq<T>)
    requires |g| >= 4
    ensures SwapCorners(SwapCorners(g)) == g
  {
  }

  lemma SwapCornersPermutes<T>(g: seq<T>)
    requires |g| >= 4
    ensures multiset(SwapCorners(g)) == multiset(g)
  {
    assert g == [g[0], g[1], g[2], g[3]] + g[4..];
  }

  /** Every group that the swap loop visits has the four corners it swaps. */
  predicate FarGroupsHaveCorners<T>(groups: seq<seq<T>>) {
    forall i :: FIRST_SWAPPED <= i < |groups| ==> |groups[i]| >= 4
  }

  function SwapAll<T>(groups: seq<seq<T>>): (swapped: seq<seq<T>>)
    requires forall i :: 0 <= i < |groups| ==> |groups[i]| >= 4
    ensures |swapped| == |groups|
    ensures forall i :: 0 <= i < |groups| ==> swapped[i] == SwapCorners(groups[i])
  {
    if groups == [] then []
    else [SwapCorners(groups[0])] + SwapAll(groups[1..])
  }

  /** The groups after the swap loop: the first FIRST_SWAPPED as they were,
      every later one with its corners swapped. */
  function Reordered<T>(groups: seq<seq<T>>): (r: seq<seq<T>>)
    requires FarGroupsHaveCorners(groups)
    ensures |r| == |groups|
    ensures forall i :: 0 <= i < |groups| && i < FIRST_SWAPPED ==> r[i] == groups[i]
    ensures forall i :: FIRST_SWAPPED <= i < |groups| ==> r[i] == SwapCorners(groups[i])
  {
    if |groups| <= FIRST_SWAPPED then groups
    else groups[..FIRST_SWAPPED] + SwapAll(groups[FIRST_SWAPPED..])
  }

  lemma ReorderedFewGroups<T>(groups: seq<seq<T>>)
    requires |groups| <= FIRST_SWAPPED
    ensures Reordered(groups) == groups
  {
  }

  lemma ReorderedInvolutive<T>(groups: seq<seq<T>>)
    requires FarGroupsHaveCorners(groups)
    ensures FarGroupsHaveCorners(Reordered(groups))
    ensures Reordered(Reordered(groups)) == groups
  {
    var r := Reordered(groups);
    var rr := Reordered(r);
    forall i | 0 <= i < |groups| ensures rr[i] == groups[i] {
      if i >= FIRST_SWAPPED {
        SwapCornersInvolutive(groups[i]);
      }
    }
  }

  lemma ReorderedPermutesEachGroup<T>(groups: seq<seq<T>>, i: nat)
    requires FarGroupsHaveCorners(groups) && i < |groups|
    ensures multiset(Reordered(groups)[i]) == multiset(groups[i])
  {
    if i >= FIRST_SWAPPED {
      SwapCornersPermutes(groups[i]);
    }
  }

  // ---------------------------------------------------------------------------
  // The whole objPoints transformation

  /** What the swap loop needs of the input: every list whose group it
      swaps holds at least four points (12 coordinates). */
  predicate FarListsLongEnough<C>(lists: seq<seq<C>>) {
    forall i :: FIRST_SWAPPED <= i < |lists| ==> |lists[i]| >= 12
  }

  /** Callers must not hand in an input that reaches the swap loop with a short
      group; an input that throws earlier is fine. */
  predicate SwapSafe<C>(lists: seq<seq<C>>) {
    AllWhole(lists) ==> FarListsLongEnough(lists)
  }

  /** The corner groups that a successful load stores in `objPoints`. */
  function LoadObjPoints<C>(lists: seq<seq<C>>): (groups: seq<seq<Point3<C>>>)
    requires AllWhole(lists) && FarListsLongEnough(lists)
    ensures |groups| == |lists|
  {
    Reordered(Grouped(lists))
  }

  /** Which input point ends up at corner `m` of group `i`. */
  function CornerSource(i: nat, m: nat): nat {
    if i < FIRST_SWAPPED || m >= 4 then m
    else if m % 2 == 0 then m + 1
    else m - 1
  }

  /** Point `m` of group `i` of a load is input triple `CornerSource(i, m)`
      of list `i`. */
  lemma LoadedPoint<C>(lists: seq<seq<C>>, i: nat, m: nat)
    requires AllWhole(lists) && FarListsLongEnough(lists)
    requires i < |lists| && m < |lists[i]| / 3
    ensures |LoadObjPoints(lists)| == |lists|
    ensures |LoadObjPoints(lists)[i]| == |lists[i]| / 3
    ensures CornerSource(i, m) < |lists[i]| / 3
    ensures var k := CornerSource(i, m);
            LoadObjPoints(lists)[i][m] == Point3(lists[i][3 * k], lists[i][3 * k + 1], lists[i][3 * k + 2])
  {
    var g := Grouped(lists)[i];
    assert g == Triples(lists[i]);
    CornerSourceAt(Grouped(lists), i, m);
  }

  /** Corner `m` of group `i` after the swap loop is corner `CornerSource(i, m)`
      before it. */
  lemma CornerSourceAt<T>(groups: seq<seq<T>>, i: nat, m: nat)
    requires FarGroupsHaveCorners(groups) && i < |groups| && m < |groups[i]|
    ensures CornerSource(i, m) < |groups[i]|
    ensures Reordered(groups)[i][m] == groups[i][CornerSource(i, m)]
  {
  }

  /** Groups below FIRST_SWAPPED keep the input order exactly. */
  lemma LoadedLowGroup<C>(lists: seq<seq<C>>, i: nat)
    requires AllWhole(lists) && FarListsLongEnough(lists)
    requires i < |lists| && i < FIRST_SWAPPED
    ensures LoadObjPoints(lists)[i] == Triples(lists[i])
  {
  }

  /** A load is undone by swapping the far groups back and flattening. */
  lemma LoadRoundTrip<C>(lists: seq<seq<C>>, i: nat)
    requires AllWhole(lists) && FarListsLongEnough(lists) && i < |lists|
    ensures FarGroupsHaveCorners(LoadObjPoints(lists))
    ensures Flatten(Reordered(LoadObjPoints(lists))[i]) == lists[i]
  {
    ReorderedInvolutive(Grouped(lists));
    FlattenTriples(lists[i]);
  }

  // ---------------------------------------------------------------------------
  // The imperative loader

  /** The nested loops of the loader that fill `markerConers`: one empty group
      per list, then one `push_back` per triple. `complete` is false when `at`
      would throw, that is when some list's length is not a multiple of 3. */
  method GroupCoordinates<C>(lists: seq<seq<C>>) returns (groups: seq<seq<Point3<C>>>, complete: bool)
    ensures complete == AllWhole(lists)
    ensures complete ==> groups == Grouped(lists)
  {
    groups := seq(|lists|, _ => []);
    var i := 0;
    while i < |lists|
      invariant 0 <= i <= |lists|
      invariant |groups| == |lists|
      invariant forall k :: 0 <= k < i ==> Whole(lists[k]) && groups[k] == Triples(lists[k])
      invariant forall k :: i <= k < |lists| ==> groups[k] == []
    {
      var v := lists[i];
      var j := 0;
      while j < |v|
        invariant 0 <= j <= |v| && j % 3 == 0
        invariant |groups| == |lists|
        invariant groups[i] == Triples(v[..j])
        invariant forall k :: 0 <= k < i ==> groups[k] == Triples(lists[k])
        invariant forall k :: i < k < |lists| ==> groups[k] == []
      {
        if j + 2 >= |v| {
          // at(j + 1) or at(j + 2) is past the end
          assert !Whole(lists[i]);
          return groups, false;
        }
        assert v[..j + 3][..j] == v[..j];
        groups := groups[i := groups[i] + [Point3(v[j], v[j + 1], v[j + 2])]];
        j := j + 3;
      }
      assert v[..j] == v;
      i := i + 1;
    }
    complete := true;
  }

  /** The board configuration fields that the loader writes through its
      reference parameters. */
  class BoardConfig<C> {
    var dictionary: Dictionary
    var ids: seq<int>
    var objPoints: seq<seq<Point3<C>>>

    constructor ()
      ensures dictionary == NoDictionary && ids == [] && objPoints == []
    {
      dictionary := NoDictionary;
      ids := [];
      objPoints := [];
    }

    /** The swap loop: `iter_swap` of corners 0 and 1, then of 2 and 3, in
        every group from FIRST_SWAPPED on. */
    method SwapFarMarkerCorners()
      requires FarGroupsHaveCorners(objPoints)
      modifies this`objPoints
      ensures objPoints == Reordered(old(objPoints))
    {
      ghost var before := objPoints;
      var i := FIRST_SWAPPED;
      while i < |objPoints|
        invariant FIRST_SWAPPED <= i
        invariant |objPoints| == |before|
        invariant forall k :: 0 <= k < |before| && k < FIRST_SWAPPED ==> objPoints[k] == before[k]
        invariant forall k :: FIRST_SWAPPED <= k < |before| && k < i ==> objPoints[k] == SwapCorners(before[k])
        invariant forall k :: i <= k < |before| ==> objPoints[k] == before[k]
      {
        var g := objPoints[i];
        g := g[0 := g[1]][1 := g[0]];
        g := g[2 := g[3]][3 := g[2]];
        assert g == SwapCorners(before[i]);
        objPoints := objPoints[i := g];
        i := i + 1;
      }
      assert objPoints == Reordered(before);
    }

    /** `Read_ArUco_YAML` after parsing. An absent key leaves its output as it
        was; the lengths of `ids` and `objPoints` are never compared. */
    method ReadArUcoYaml(objPointsNode: Option<seq<seq<C>>>, idsNode: Option<seq<int>>) returns (status: Status)
      requires objPointsNode.Some? ==> SwapSafe(objPointsNode.value)
      modifies this
      ensures dictionary == Dict4X4_100
      ensures status == if objPointsNode.Some? && !AllWhole(objPointsNode.value) then OutOfRange else Returned(true)
      ensures status == OutOfRange ==> objPoints == old(objPoints) && ids == old(ids)
      ensures status.Returned? ==>
                objPoints == if objPointsNode.Some? then LoadObjPoints(objPointsNode.value) else old(objPoints)
      ensures status.Returned? ==>
                ids == if idsNode.Some? then idsNode.value else old(ids)
    {
      dictionary := Dict4X4_100;
      if objPointsNode.Some? {
        var markerCorners, complete := GroupCoordinates(objPointsNode.value);
        if !complete {
          return OutOfRange;
        }
        objPoints := markerCorners;
        SwapFarMarkerCorners();
      }
      if idsNode.Some? {
        ids := idsNode.value;
      }
      return Returned(true);
    }
  }

  /** The loader accepts an `ids` list whose length differs from the number of
      corner groups: it returns true and stores both as given. */
  method IdsLengthUnchecked() returns (status: Status, ids: seq<int>, objPoints: seq<seq<Point3<int>>>)
    ensures status == Returned(true) && |ids| != |objPoints|
  {
    var config := new BoardConfig<int>();
    status := config.ReadArUcoYaml(Some([[0, 0, 0, 1, 0, 0, 1, 1, 0, 0, 1, 0]]), Some([7, 8]));
    ids, objPoints := config.ids, config.objPoints;
  }
}
