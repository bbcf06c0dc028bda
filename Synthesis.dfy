/** What buildConstraints() emits, as pure functions of its inputs: the axis,
    the alignment, the nesting depth and the child views (and, for the size
    list, the container's own priorities). Every record is created with
    constant 0; updateConstraintsConstant() fills the constants in later.

    The lists are given child by child, as prefixes: `InsetsUpTo(s, k)` is
    what the synthesis loop has appended after visiting the first k children.
    The lemmas give the closed forms: counts, where each child's records sit,
    priority bounds, the effect of nesting depth and of alignment. */
module Synthesis {
  import opened Layout

  /** The inputs of one rebuild. */
  datatype Setup = Setup(axis: Axis, align: Align, depth: nat, views: seq<View>)

  function CrossHugging(s: Setup, v: View): real {
    v.hugging.For(CrossAxis(s.axis))
  }

  function CrossCompression(s: Setup, v: View): real {
    v.compression.For(CrossAxis(s.axis))
  }

  /** The two cross-axis start pins of child i: child.start <= / >= container.start.
      The <= pin is Weak, or Medium when the child hugs less than BaseWeak; the
      >= pin is Strong, or Medium when the child resists compression more than BaseStrong. */
  function StartPins(s: Setup, i: nat): seq<Constraint>
    requires i < |s.views|
  {
    var t := TiersAt(s.depth);
    var v := s.views[i];
    var a := NonAxialStart(s.axis);
    [ Constraint(Child(i), a, LessThanOrEqual, Container, a, 0.0,
        if CrossHugging(s, v) < BaseWeak then t.medium else t.weak),
      Constraint(Child(i), a, GreaterThanOrEqual, Container, a, 0.0,
        if CrossCompression(s, v) > BaseStrong then t.medium else t.strong) ]
  }

  /** The two cross-axis end pins of child i: container.end <= / >= child.end.
      Both are decided by the child's cross-axis hugging priority (the >= pin
      is Medium when hugging is below BaseStrong), and both carry the
      alignment micro-adjustment. */
  function EndPins(s: Setup, i: nat): seq<Constraint>
    requires i < |s.views|
  {
    var t := TiersAt(s.depth);
    var v := s.views[i];
    var a := NonAxialEnd(s.axis);
    var delta := AlignDelta(s.align);
    [ Constraint(Container, a, LessThanOrEqual, Child(i), a, 0.0,
        (if CrossHugging(s, v) < BaseWeak then t.medium else t.weak) + delta),
      Constraint(Container, a, GreaterThanOrEqual, Child(i), a, 0.0,
        (if CrossHugging(s, v) < BaseStrong then t.medium else t.strong) + delta) ]
  }

  /** The first child's axial start equals the container's, at Strong. */
  function FirstPin(s: Setup, i: nat): Constraint {
    var a := AxialStart(s.axis);
    Constraint(Child(i), a, Equal, Container, a, 0.0, TiersAt(s.depth).strong)
  }

  /** The container's axial end equals the last child's, at Strong with the
      alignment micro-adjustment. */
  function LastPin(s: Setup, i: nat): Constraint {
    var a := AxialEnd(s.axis);
    Constraint(Container, a, Equal, Child(i), a, 0.0, TiersAt(s.depth).strong + AlignDelta(s.align))
  }

  /** The inset records of child i, in emission order. */
  function ChildInsets(s: Setup, i: nat): seq<Constraint>
    requires i < |s.views|
  {
    StartPins(s, i) + EndPins(s, i)
      + (if i == 0 then [FirstPin(s, i)] else [])
      + (if i == |s.views| - 1 then [LastPin(s, i)] else [])
  }

  function InsetsUpTo(s: Setup, k: nat): seq<Constraint>
    requires k <= |s.views|
  {
    if k == 0 then [] else InsetsUpTo(s, k - 1) + ChildInsets(s, k - 1)
  }

  /** The inset list of a rebuild. */
  function Insets(s: Setup): seq<Constraint> {
    InsetsUpTo(s, |s.views|)
  }

  /** The priority of every spacing record: above every alignment-adjusted Strong pin. */
  function SpacePriority(depth: nat): real {
    TiersAt(depth).strong + SpaceIncrease
  }

  /** Spacing between child i - 1 and child i: child(i).start >= child(i - 1).end
      (>= is buildConstraints' default relation). */
  function SpacePin(s: Setup, i: nat): Constraint
    requires 0 < i
  {
    Constraint(Child(i), AxialStart(s.axis), GreaterThanOrEqual, Child(i - 1), AxialEnd(s.axis), 0.0,
      SpacePriority(s.depth))
  }

  function SpacesUpTo(s: Setup, k: nat): seq<Constraint>
    requires k <= |s.views|
  {
    if k == 0 then []
    else SpacesUpTo(s, k - 1) + (if k - 1 > 0 then [SpacePin(s, k - 1)] else [])
  }

  /** The spacing list of a rebuild. */
  function Spaces(s: Setup): seq<Constraint> {
    SpacesUpTo(s, |s.views|)
  }

  /** Child i centred on the cross axis, at Medium. */
  function CenterPin(s: Setup, i: nat): Constraint {
    var a := CenterAttribute(s.axis);
    Constraint(Child(i), a, Equal, Container, a, 0.0, TiersAt(s.depth).medium)
  }

  function CentersUpTo(s: Setup, k: nat): seq<Constraint>
    requires k <= |s.views|
  {
    if k == 0 then []
    else CentersUpTo(s, k - 1) + (if s.align == AlignCenter then [CenterPin(s, k - 1)] else [])
  }

  /** The center list of a rebuild. */
  function Centers(s: Setup): seq<Constraint> {
    CentersUpTo(s, |s.views|)
  }

  /** A child without a valid intrinsic size that is not itself a stack layout
      view gets a width and a height cap. */
  predicate NeedsSizeCap(v: View) {
    !IsValidIntrinsicContentSize(v.intrinsicContentSize) && !v.isStackView
  }

  /** The size caps of child i: width <= 0 and height <= 0 (no second item), at
      the child's horizontal and vertical hugging priorities. */
  function SizeCaps(s: Setup, i: nat): seq<Constraint>
    requires i < |s.views|
  {
    var v := s.views[i];
    [ Constraint(Child(i), Width, LessThanOrEqual, NoItem, Width, 0.0, v.hugging.horizontal),
      Constraint(Child(i), Height, LessThanOrEqual, NoItem, Height, 0.0, v.hugging.vertical) ]
  }

  function CapsUpTo(s: Setup, k: nat): seq<Constraint>
    requires k <= |s.views|
  {
    if k == 0 then []
    else CapsUpTo(s, k - 1) + (if NeedsSizeCap(s.views[k - 1]) then SizeCaps(s, k - 1) else [])
  }

  /** The size-cap (subView) list of a rebuild. */
  function Caps(s: Setup): seq<Constraint> {
    CapsUpTo(s, |s.views|)
  }

  /** How many of the first k children need size caps. */
  function CapCount(views: seq<View>, k: nat): nat
    requires k <= |views|
  {
    if k == 0 then 0 else CapCount(views, k - 1) + (if NeedsSizeCap(views[k - 1]) then 1 else 0)
  }

  /** The container's size list: height >=, height <=, width >=, width <=, each
      with no second item, the >= ones at the container's compression
      resistance for that axis and the <= ones at its hugging priority. */
  function Sizes(hugging: AxisPriorities, compression: AxisPriorities): (r: seq<Constraint>)
    ensures |r| == 4
    ensures forall j :: 0 <= j < 4 ==>
      r[j].first == Container && r[j].second == NoItem && r[j].secondAttr == NotAnAttribute
      && r[j].firstAttr == (if j < 2 then Height else Width)
      && r[j].relation == (if j % 2 == 0 then GreaterThanOrEqual else LessThanOrEqual)
    ensures forall j :: 0 <= j < 4 ==>
      var axis := if r[j].firstAttr == Width then Horizontal else Vertical;
      r[j].priority == (if r[j].relation == GreaterThanOrEqual then compression else hugging).For(axis)
  {
    [ Constraint(Container, Height, GreaterThanOrEqual, NoItem, NotAnAttribute, 0.0, compression.vertical),
      Constraint(Container, Height, LessThanOrEqual, NoItem, NotAnAttribute, 0.0, hugging.vertical),
      Constraint(Container, Width, GreaterThanOrEqual, NoItem, NotAnAttribute, 0.0, compression.horizontal),
      Constraint(Container, Width, LessThanOrEqual, NoItem, NotAnAttribute, 0.0, hugging.horizontal) ]
  }

  // ---------------------------------------------------------------------------
  // Counts and order

  /** Where child i's inset records start: four per earlier child, plus the
      first child's axial pin once there is an earlier child. */
  function BlockStart(i: nat): nat {
    4 * i + (if i > 0 then 1 else 0)
  }

  lemma {:induction false} InsetsUpToLength(s: Setup, k: nat)
    requires k <= |s.views|
    ensures |InsetsUpTo(s, k)| == BlockStart(k) + (if k == |s.views| && k > 0 then 1 else 0)
  {
    if k > 0 {
      InsetsUpToLength(s, k - 1);
    }
  }

  /** The inset list has four cross-axis pins per child, plus the two axial
      pins (first and last child) when there is any child. */
  lemma InsetsCount(s: Setup)
    ensures |Insets(s)| == 4 * |s.views| + (if |s.views| > 0 then 2 else 0)
  {
    InsetsUpToLength(s, |s.views|);
  }

  lemma {:induction false} InsetsUpToPrefix(s: Setup, k: nat, m: nat)
    requires k <= m <= |s.views|
    ensures InsetsUpTo(s, k) <= InsetsUpTo(s, m)
  {
    if k < m {
      InsetsUpToPrefix(s, k, m - 1);
    }
  }

  /** Child i's records appear in the inset list as one contiguous block at
      BlockStart(i), in the order start <=, start >=, end <=, end >=; the
      first child's axial pin follows its block, and the last record of the
      list is the last child's axial pin (a single child gets both). */
  lemma InsetsOrder(s: Setup, i: nat)
    requires i < |s.views|
    ensures BlockStart(i) + 4 <= |Insets(s)|
    ensures Insets(s)[BlockStart(i)..BlockStart(i) + 2] == StartPins(s, i)
    ensures Insets(s)[BlockStart(i) + 2..BlockStart(i) + 4] == EndPins(s, i)
    ensures i == 0 ==> Insets(s)[4] == FirstPin(s, 0)
    ensures Insets(s)[|Insets(s)| - 1] == LastPin(s, |s.views| - 1)
  {
    InsetsUpToLength(s, i);
    InsetsUpToPrefix(s, i + 1, |s.views|);
    InsetsCount(s);
    var whole := Insets(s);
    var upto := InsetsUpTo(s, i + 1);
    assert upto == InsetsUpTo(s, i) + ChildInsets(s, i);
    assert whole[..|upto|] == upto;
    assert whole[BlockStart(i)..BlockStart(i) + 4] == ChildInsets(s, i)[..4];
    var n := |s.views|;
    assert whole == InsetsUpTo(s, n - 1) + ChildInsets(s, n - 1);
  }

  /** The priorities of child i's cross-axis pins, read off the inset list.
      With H and C the child's hugging and compression priorities on the
      cross axis: each <= pin is Medium when H is below BaseWeak and Weak
      otherwise; the start >= pin is Medium when C is above BaseStrong and
      Strong otherwise; the end >= pin is Medium when H is below BaseStrong and
      Strong otherwise; each end pin is its start counterpart's tier moved by
      the alignment delta. */
  lemma CrossAxisPriorities(s: Setup, i: nat)
    requires i < |s.views|
    ensures var r, b, t := Insets(s), BlockStart(i), TiersAt(s.depth);
      var h, c := CrossHugging(s, s.views[i]), CrossCompression(s, s.views[i]);
      && b + 4 <= |r|
      && r[b].relation == r[b + 2].relation == LessThanOrEqual
      && r[b + 1].relation == r[b + 3].relation == GreaterThanOrEqual
      && r[b].first == r[b + 1].first == r[b + 2].second == r[b + 3].second == Child(i)
      && r[b].firstAttr == r[b + 1].firstAttr == NonAxialStart(s.axis)
      && r[b + 2].firstAttr == r[b + 3].firstAttr == NonAxialEnd(s.axis)
      && r[b].priority == (if h < BaseWeak then t.medium else t.weak)
      && r[b + 1].priority == (if c > BaseStrong then t.medium else t.strong)
      && r[b + 2].priority == r[b].priority + AlignDelta(s.align)
      && r[b + 3].priority == (if h < BaseStrong then t.medium else t.strong) + AlignDelta(s.align)
  {
    InsetsOrder(s, i);
    var r, b := Insets(s), BlockStart(i);
    assert r[b] == StartPins(s, i)[0] && r[b + 1] == StartPins(s, i)[1];
    assert r[b + 2] == EndPins(s, i)[0] && r[b + 3] == EndPins(s, i)[1];
  }

  lemma {:induction false} SpacesUpToShape(s: Setup, k: nat)
    requires k <= |s.views|
    ensures |SpacesUpTo(s, k)| == if k > 0 then k - 1 else 0
    ensures forall j :: 0 <= j < |SpacesUpTo(s, k)| ==> SpacesUpTo(s, k)[j] == SpacePin(s, j + 1)
    ensures RefersToChildren(SpacesUpTo(s, k), k)
  {
    if k > 0 {
      SpacesUpToShape(s, k - 1);
    }
  }

  /** One spacing record per consecutive pair: record j makes child j + 1's
      axial start >= child j's axial end, at SpacePriority. */
  lemma SpacesShape(s: Setup)
    ensures |Spaces(s)| == if |s.views| > 0 then |s.views| - 1 else 0
    ensures forall j :: 0 <= j < |Spaces(s)| ==>
      var c := Spaces(s)[j];
      c.first == Child(j + 1) && c.firstAttr == AxialStart(s.axis) && c.relation == GreaterThanOrEqual
      && c.second == Child(j) && c.secondAttr == AxialEnd(s.axis) && c.priority == SpacePriority(s.depth)
    ensures RefersToChildren(Spaces(s), |s.views|)
  {
    SpacesUpToShape(s, |s.views|);
  }

  lemma {:induction false} CentersUpToShape(s: Setup, k: nat)
    requires k <= |s.views|
    ensures |CentersUpTo(s, k)| == if s.align == AlignCenter then k else 0
    ensures forall j :: 0 <= j < |CentersUpTo(s, k)| ==> CentersUpTo(s, k)[j] == CenterPin(s, j)
  {
    if k > 0 {
      CentersUpToShape(s, k - 1);
    }
  }

  /** The center list holds one Medium record per child, in child order, when
      the alignment is center, and nothing otherwise. */
  lemma CentersShape(s: Setup)
    ensures |Centers(s)| == if s.align == AlignCenter then |s.views| else 0
    ensures forall j :: 0 <= j < |Centers(s)| ==>
      var c := Centers(s)[j];
      c.first == Child(j) && c.second == Container && c.relation == Equal
      && c.firstAttr == c.secondAttr == (if s.axis == Horizontal then CenterY else CenterX)
      && c.priority == TiersAt(s.depth).medium
  {
    CentersUpToShape(s, |s.views|);
  }

  lemma {:induction false} CapsUpToShape(s: Setup, k: nat)
    requires k <= |s.views|
    ensures |CapsUpTo(s, k)| == 2 * CapCount(s.views, k)
    ensures forall j :: 0 <= j < |CapsUpTo(s, k)| ==>
      var c := CapsUpTo(s, k)[j];
      c.first.Child? && c.first.index < k && NeedsSizeCap(s.views[c.first.index]) && c.second == NoItem
    ensures forall i :: 0 <= i < k && NeedsSizeCap(s.views[i]) ==>
      CapCount(s.views, i) < CapCount(s.views, k)
      && CapsUpTo(s, k)[2 * CapCount(s.views, i)..2 * CapCount(s.views, i) + 2] == SizeCaps(s, i)
  {
    if k > 0 {
      CapsUpToShape(s, k - 1);
      var prev := CapsUpTo(s, k - 1);
      var cur := CapsUpTo(s, k);
      assert prev <= cur;
      forall i | 0 <= i < k && NeedsSizeCap(s.views[i])
        ensures CapCount(s.views, i) < CapCount(s.views, k)
        ensures cur[2 * CapCount(s.views, i)..2 * CapCount(s.views, i) + 2] == SizeCaps(s, i)
      {
        if i < k - 1 {
          assert cur[2 * CapCount(s.views, i)..2 * CapCount(s.views, i) + 2]
              == prev[2 * CapCount(s.views, i)..2 * CapCount(s.views, i) + 2];
        }
      }
    }
  }

  /** Size caps exactly for the children that need them: every cap record
      belongs to such a child, each such child has its width and height caps
      at a position given by the number of capped children before it, and
      there are two records per capped child. */
  lemma CapsShape(s: Setup)
    ensures |Caps(s)| == 2 * CapCount(s.views, |s.views|)
    ensures forall j :: 0 <= j < |Caps(s)| ==>
      Caps(s)[j].first.Child? && Caps(s)[j].first.index < |s.views|
      && NeedsSizeCap(s.views[Caps(s)[j].first.index]) && Caps(s)[j].second == NoItem
    ensures forall i :: 0 <= i < |s.views| && NeedsSizeCap(s.views[i]) ==>
      var at := 2 * CapCount(s.views, i);
      at + 2 <= |Caps(s)| && Caps(s)[at..at + 2] == SizeCaps(s, i)
  {
    CapsUpToShape(s, |s.views|);
  }

  /** An empty container emits only its four size records. */
  lemma EmptyContainer(s: Setup)
    requires s.views == []
    ensures Insets(s) == [] && Spaces(s) == [] && Centers(s) == [] && Caps(s) == []
  {
  }

  // ---------------------------------------------------------------------------
  // Well-formedness: what updateConstraintsConstant() relies on, and the
  // absence of references to children that are not in the list.

  /** Every record refers only to the container or to a child of the list. */
  predicate RefersToChildren(cs: seq<Constraint>, n: nat) {
    forall j :: 0 <= j < |cs| ==>
      (cs[j].first.Child? ==> cs[j].first.index < n) && (cs[j].second.Child? ==> cs[j].second.index < n)
  }

  /** Every inset record relates an edge of the container to the same edge of a
      child, in one direction or the other. */
  predicate InsetShaped(c: Constraint, n: nat) {
    && c.firstAttr.IsEdge() && c.secondAttr == c.firstAttr
    && ((c.first == Container && c.second.Child? && c.second.index < n)
        || (c.second == Container && c.first.Child? && c.first.index < n))
  }

  lemma {:induction false} InsetsUpToShaped(s: Setup, k: nat)
    requires k <= |s.views|
    ensures forall j :: 0 <= j < |InsetsUpTo(s, k)| ==> InsetShaped(InsetsUpTo(s, k)[j], |s.views|)
  {
    if k > 0 {
      InsetsUpToShaped(s, k - 1);
      var c := ChildInsets(s, k - 1);
      assert forall j :: 0 <= j < |c| ==> InsetShaped(c[j], |s.views|);
    }
  }

  /** Every inset record pins an edge of a child of the list to the same edge
      of the container; so constant resolution finds a padding edge for each. */
  lemma InsetsShaped(s: Setup)
    ensures forall j :: 0 <= j < |Insets(s)| ==> InsetShaped(Insets(s)[j], |s.views|)
  {
    InsetsUpToShaped(s, |s.views|);
  }

  /** After a rebuild no record mentions a child outside the current list. */
  lemma NoStaleReferences(s: Setup, hugging: AxisPriorities, compression: AxisPriorities)
    ensures RefersToChildren(Insets(s), |s.views|)
    ensures RefersToChildren(Spaces(s), |s.views|)
    ensures RefersToChildren(Centers(s), |s.views|)
    ensures RefersToChildren(Caps(s), |s.views|)
    ensures RefersToChildren(Sizes(hugging, compression), |s.views|)
  {
    InsetsShaped(s);
    SpacesShape(s);
    CentersShape(s);
    CapsShape(s);
  }

  // ---------------------------------------------------------------------------
  // Priorities

  lemma {:induction false} InsetsUpToPriorities(s: Setup, k: nat)
    requires k <= |s.views|
    ensures forall j :: 0 <= j < |InsetsUpTo(s, k)| ==>
      TiersAt(s.depth).weak - AlignIncrease <= InsetsUpTo(s, k)[j].priority <= TiersAt(s.depth).strong + AlignIncrease
  {
    if k > 0 {
      InsetsUpToPriorities(s, k - 1);
    }
  }

  /** Every inset priority lies within Weak - 0.001 .. Strong + 0.001, so every
      spacing record outranks every inset record of the same rebuild. */
  lemma SpacingOutranksInsets(s: Setup)
    ensures forall j :: 0 <= j < |Insets(s)| ==>
      TiersAt(s.depth).weak - AlignIncrease <= Insets(s)[j].priority < SpacePriority(s.depth)
  {
    InsetsUpToPriorities(s, |s.views|);
  }

  /** `a` is `b` with every priority lowered by `amount` and nothing else changed. */
  predicate LoweredBy(a: seq<Constraint>, b: seq<Constraint>, amount: real) {
    |a| == |b| && forall j :: 0 <= j < |a| ==> a[j] == b[j].(priority := b[j].priority - amount)
  }

  lemma LoweredByAppend(a: seq<Constraint>, b: seq<Constraint>, c: seq<Constraint>, d: seq<Constraint>, amount: real)
    requires LoweredBy(a, b, amount) && LoweredBy(c, d, amount)
    ensures LoweredBy(a + c, b + d, amount)
  {
  }

  lemma {:induction false} InsetsUpToDecay(s: Setup, k: nat, depth: nat)
    requires k <= |s.views| && s.depth == 0
    ensures LoweredBy(InsetsUpTo(s.(depth := depth), k), InsetsUpTo(s, k), NestDecrease * depth as real)
  {
    if k > 0 {
      InsetsUpToDecay(s, k - 1, depth);
      var sd := s.(depth := depth);
      var amount := NestDecrease * depth as real;
      assert LoweredBy(ChildInsets(sd, k - 1), ChildInsets(s, k - 1), amount);
      LoweredByAppend(InsetsUpTo(sd, k - 1), InsetsUpTo(s, k - 1), ChildInsets(sd, k - 1), ChildInsets(s, k - 1), amount);
    }
  }

  lemma {:induction false} SpacesUpToDecay(s: Setup, k: nat, depth: nat)
    requires k <= |s.views| && s.depth == 0
    ensures LoweredBy(SpacesUpTo(s.(depth := depth), k), SpacesUpTo(s, k), NestDecrease * depth as real)
  {
    if k > 0 {
      SpacesUpToDecay(s, k - 1, depth);
    }
  }

  lemma {:induction false} CentersUpToDecay(s: Setup, k: nat, depth: nat)
    requires k <= |s.views| && s.depth == 0
    ensures LoweredBy(CentersUpTo(s.(depth := depth), k), CentersUpTo(s, k), NestDecrease * depth as real)
  {
    if k > 0 {
      CentersUpToDecay(s, k - 1, depth);
    }
  }

  lemma {:induction false} CapsUpToDepthFree(s: Setup, k: nat, depth: nat)
    requires k <= |s.views|
    ensures CapsUpTo(s.(depth := depth), k) == CapsUpTo(s, k)
  {
    if k > 0 {
      CapsUpToDepthFree(s, k - 1, depth);
    }
  }

  /** A container nested `depth` levels deep emits the same records as an
      unnested one, with every inset, spacing and center priority exactly
      0.01 * depth lower; the size caps do not depend on depth. */
  lemma NestingDecay(s: Setup, depth: nat)
    requires s.depth == 0
    ensures LoweredBy(Insets(s.(depth := depth)), Insets(s), NestDecrease * depth as real)
    ensures LoweredBy(Spaces(s.(depth := depth)), Spaces(s), NestDecrease * depth as real)
    ensures LoweredBy(Centers(s.(depth := depth)), Centers(s), NestDecrease * depth as real)
    ensures Caps(s.(depth := depth)) == Caps(s)
  {
    InsetsUpToDecay(s, |s.views|, depth);
    SpacesUpToDecay(s, |s.views|, depth);
    CentersUpToDecay(s, |s.views|, depth);
    CapsUpToDepthFree(s, |s.views|, depth);
  }

  /** `a` is `b` with the records whose first item is the container raised by
      `amount`, and every other record unchanged. */
  predicate ContainerSideRaisedBy(a: seq<Constraint>, b: seq<Constraint>, amount: real) {
    |a| == |b| && forall j :: 0 <= j < |a| ==>
      a[j] == if b[j].first == Container then b[j].(priority := b[j].priority + amount) else b[j]
  }

  lemma {:induction false} InsetsUpToAlign(s: Setup, k: nat)
    requires k <= |s.views| && s.align == AlignLeading
    ensures ContainerSideRaisedBy(InsetsUpTo(s.(align := AlignTrailing), k), InsetsUpTo(s, k), 2.0 * AlignIncrease)
    ensures InsetsUpTo(s.(align := AlignCenter), k) == InsetsUpTo(s, k)
  {
    if k > 0 {
      InsetsUpToAlign(s, k - 1);
      var st := s.(align := AlignTrailing);
      assert ContainerSideRaisedBy(ChildInsets(st, k - 1), ChildInsets(s, k - 1), 2.0 * AlignIncrease);
      assert ChildInsets(s.(align := AlignCenter), k - 1) == ChildInsets(s, k - 1);
    }
  }

  /** Trailing alignment raises exactly the records whose first item is the
      container (the cross-axis end pins and the last child's axial pin) by
      0.002 over leading alignment, and changes nothing else; center alignment
      emits the same inset list as leading alignment. */
  lemma AlignmentShift(s: Setup)
    requires s.align == AlignLeading
    ensures ContainerSideRaisedBy(Insets(s.(align := AlignTrailing)), Insets(s), 2.0 * AlignIncrease)
    ensures Insets(s.(align := AlignCenter)) == Insets(s)
  {
    InsetsUpToAlign(s, |s.views|);
  }
}
