/** box.py: a panel holding child controls, filled and emptied by `insert` and `remove`. */
module Box {
  import opened Toolkit
  import opened Wrappers
  import opened Colors

  /** A child control, by identity. */
  type ControlId = nat

  /** An element of a list handed to `insert`/`remove`: a Forms.Control, or
      any other Python object. */
  datatype Item = Control(id: ControlId) | NotControl

  /** The argument of `insert`/`remove`: one control, a list, or anything else. */
  datatype Arg = One(id: ControlId) | List(items: seq<Item>) | Other

  /** The state a call leaves: how it ended and the children it left. */
  datatype Applied = Applied(outcome: Outcome, controls: seq<ControlId>)

  /** No control appears twice. */
  predicate Distinct(cs: seq<ControlId>) {
    forall i, j :: 0 <= i < j < |cs| ==> cs[i] != cs[j]
  }

  /** The position of the first element that is not a control, or the length
      of the list when every element is one. */
  function FirstNonControl(items: seq<Item>): (k: nat)
    ensures k <= |items|
    ensures forall i :: 0 <= i < k ==> items[i].Control?
    ensures k < |items| ==> items[k] == NotControl
    decreases |items|
  {
    if items == [] || items[0] == NotControl then 0 else 1 + FirstNonControl(items[1..])
  }

  /** The identities of a run of controls, in order. */
  function Ids(items: seq<Item>): (ids: seq<ControlId>)
    requires forall i :: 0 <= i < |items| ==> items[i].Control?
    ensures |ids| == |items|
    ensures forall i :: 0 <= i < |items| ==> ids[i] == items[i].id
    decreases |items|
  {
    if items == [] then [] else [items[0].id] + Ids(items[1..])
  }

  /** Controls.Add: a new child goes last; one already present stays where it is. */
  function AddChild(cs: seq<ControlId>, c: ControlId): (r: seq<ControlId>)
    ensures forall x :: x in r <==> x in cs || x == c
    ensures |cs| <= |r| && r[..|cs|] == cs
    ensures Distinct(cs) ==> Distinct(r)
  {
    if c in cs then cs else cs + [c]
  }

  /** Controls.Remove: the first occurrence of the child leaves and the
      others keep their order; an absent control changes nothing. */
  function RemoveChild(cs: seq<ControlId>, c: ControlId): (r: seq<ControlId>)
    ensures |r| <= |cs|
    decreases |cs|
  {
    if cs == [] then []
    else if cs[0] == c then cs[1..]
    else [cs[0]] + RemoveChild(cs[1..], c)
  }

  /** The child leaves, every other child stays, nothing is added, an absent
      control changes nothing, and a duplicate-free list stays duplicate-free. */
  lemma {:induction false} RemoveChildMembers(cs: seq<ControlId>, c: ControlId)
    ensures c !in cs ==> RemoveChild(cs, c) == cs
    ensures forall x :: x in RemoveChild(cs, c) ==> x in cs
    ensures forall x :: x in cs && x != c ==> x in RemoveChild(cs, c)
    ensures Distinct(cs) ==> Distinct(RemoveChild(cs, c)) && c !in RemoveChild(cs, c)
    decreases |cs|
  {
    if cs != [] {
      DistinctTail(cs);
      if cs[0] != c {
        var rest := RemoveChild(cs[1..], c);
        RemoveChildMembers(cs[1..], c);
        DistinctCons(cs[0], rest);
        assert RemoveChild(cs, c) == [cs[0]] + rest;
        assert forall x :: x in cs ==> x == cs[0] || x in cs[1..];
      }
    }
  }

  /** The tail of a distinct sequence is distinct and lacks the head. */
  lemma DistinctTail(cs: seq<ControlId>)
    requires cs != []
    ensures Distinct(cs) ==> Distinct(cs[1..]) && cs[0] !in cs[1..]
  {
    if Distinct(cs) {
      forall i | 0 <= i < |cs[1..]| ensures cs[1..][i] != cs[0] {
        assert cs[1..][i] == cs[i + 1];
      }
    }
  }

  /** Putting a new element in front keeps a sequence distinct. */
  lemma DistinctCons(x: ControlId, rest: seq<ControlId>)
    ensures x !in rest && Distinct(rest) ==> Distinct([x] + rest)
  {
    if x !in rest && Distinct(rest) {
      forall i, j | 0 <= i < j < |[x] + rest| ensures ([x] + rest)[i] != ([x] + rest)[j] {
        assert ([x] + rest)[j] == rest[j - 1];
        if i > 0 {
          assert ([x] + rest)[i] == rest[i - 1];
        }
      }
    }
  }

  /** Controls.Add applied to each id in turn. */
  function AddChildren(cs: seq<ControlId>, ids: seq<ControlId>): seq<ControlId>
    decreases |ids|
  {
    if ids == [] then cs else AddChildren(AddChild(cs, ids[0]), ids[1..])
  }

  /** Controls.Remove applied to each id in turn. */
  function RemoveChildren(cs: seq<ControlId>, ids: seq<ControlId>): seq<ControlId>
    decreases |ids|
  {
    if ids == [] then cs else RemoveChildren(RemoveChild(cs, ids[0]), ids[1..])
  }

  /** `insert(arg)` on children `cs`: a single control is added; a list is
      added element by element until the first non-control, which raises
      TypeError with the earlier elements left in; anything else raises
      TypeError and adds nothing. */
  function InsertResult(cs: seq<ControlId>, arg: Arg): (a: Applied)
    ensures a.outcome == Pass <==>
      arg.One? || (arg.List? && forall i :: 0 <= i < |arg.items| ==> arg.items[i].Control?)
    ensures a.outcome.Fail? ==> a.outcome.error == TypeError
    ensures arg.Other? ==> a.controls == cs
  {
    match arg
    case One(c) => Applied(Pass, AddChild(cs, c))
    case List(items) =>
      var k := FirstNonControl(items);
      Applied(if k == |items| then Pass else Fail(TypeError), AddChildren(cs, Ids(items[..k])))
    case Other => Applied(Fail(TypeError), cs)
  }

  /** `remove(arg)`: the mirror image of `insert`. */
  function RemoveResult(cs: seq<ControlId>, arg: Arg): (a: Applied)
    ensures a.outcome == Pass <==>
      arg.One? || (arg.List? && forall i :: 0 <= i < |arg.items| ==> arg.items[i].Control?)
    ensures a.outcome.Fail? ==> a.outcome.error == TypeError
    ensures arg.Other? ==> a.controls == cs
  {
    match arg
    case One(c) => Applied(Pass, RemoveChild(cs, c))
    case List(items) =>
      var k := FirstNonControl(items);
      Applied(if k == |items| then Pass else Fail(TypeError), RemoveChildren(cs, Ids(items[..k])))
    case Other => Applied(Fail(TypeError), cs)
  }

  /** Adding one more id after a run of adds. */
  lemma {:induction false} AddChildrenSnoc(cs: seq<ControlId>, ids: seq<ControlId>, c: ControlId)
    ensures AddChildren(cs, ids + [c]) == AddChild(AddChildren(cs, ids), c)
    decreases |ids|
  {
    if ids == [] {
      assert ids + [c] == [c];
    } else {
      assert (ids + [c])[1..] == ids[1..] + [c];
      AddChildrenSnoc(AddChild(cs, ids[0]), ids[1..], c);
    }
  }

  /** Removing one more id after a run of removes. */
  lemma {:induction false} RemoveChildrenSnoc(cs: seq<ControlId>, ids: seq<ControlId>, c: ControlId)
    ensures RemoveChildren(cs, ids + [c]) == RemoveChild(RemoveChildren(cs, ids), c)
    decreases |ids|
  {
    if ids == [] {
      assert ids + [c] == [c];
    } else {
      assert (ids + [c])[1..] == ids[1..] + [c];
      RemoveChildrenSnoc(RemoveChild(cs, ids[0]), ids[1..], c);
    }
  }

  /** Fresh, distinct controls are appended in list order. */
  lemma {:induction false} AddChildrenAppends(cs: seq<ControlId>, ids: seq<ControlId>)
    requires Distinct(cs + ids)
    ensures AddChildren(cs, ids) == cs + ids
    decreases |ids|
  {
    if ids != [] {
      assert ids[0] == (cs + ids)[|cs|];
      assert ids[0] !in cs by {
        forall i | 0 <= i < |cs| ensures cs[i] != ids[0] {
          assert cs[i] == (cs + ids)[i];
        }
      }
      assert cs + ids == (cs + [ids[0]]) + ids[1..];
      AddChildrenAppends(cs + [ids[0]], ids[1..]);
    }
  }

  /** Removing a control other than the first child leaves the first child in front. */
  lemma RemoveChildCons(x: ControlId, rest: seq<ControlId>, c: ControlId)
    requires x != c
    ensures RemoveChild([x] + rest, c) == [x] + RemoveChild(rest, c)
  {
    assert ([x] + rest)[1..] == rest;
  }

  /** Removing a control that is not among the first children leaves those untouched. */
  lemma {:induction false} RemoveChildSkipsPrefix(front: seq<ControlId>, back: seq<ControlId>, c: ControlId)
    requires c !in front
    ensures RemoveChild(front + back, c) == front + RemoveChild(back, c)
    decreases |front|
  {
    if front == [] {
      assert front + back == back;
    } else {
      var x, rest := front[0], front[1..];
      assert front == [x] + rest;
      assert x != c && c !in rest;
      assert front + back == [x] + (rest + back);
      RemoveChildCons(x, rest + back, c);
      RemoveChildSkipsPrefix(rest, back, c);
    }
  }

  /** Removing, in order, the controls appended last gives back the children before them. */
  lemma {:induction false} RemoveChildrenUndoesAppend(cs: seq<ControlId>, ids: seq<ControlId>)
    requires Distinct(cs + ids)
    ensures RemoveChildren(cs + ids, ids) == cs
    decreases |ids|
  {
    if ids != [] {
      assert ids[0] !in cs by {
        forall i | 0 <= i < |cs| ensures cs[i] != ids[0] {
          assert cs[i] == (cs + ids)[i] && ids[0] == (cs + ids)[|cs|];
        }
      }
      RemoveChildSkipsPrefix(cs, ids, ids[0]);
      assert RemoveChild(ids, ids[0]) == ids[1..];
      assert Distinct(cs + ids[1..]) by {
        forall i, j | 0 <= i < j < |cs + ids[1..]| ensures (cs + ids[1..])[i] != (cs + ids[1..])[j] {
          var i', j' := if i < |cs| then i else i + 1, if j < |cs| then j else j + 1;
          assert (cs + ids[1..])[i] == (cs + ids)[i'] && (cs + ids[1..])[j] == (cs + ids)[j'];
        }
      }
      RemoveChildrenUndoesAppend(cs, ids[1..]);
    }
  }

  /** One more control at the end of a run of controls adds one more id. */
  lemma IdsSnoc(items: seq<Item>, i: nat)
    requires i < |items|
    requires forall j :: 0 <= j <= i ==> items[j].Control?
    ensures Ids(items[..i + 1]) == Ids(items[..i]) + [items[i].id]
  {
    var a, b := Ids(items[..i + 1]), Ids(items[..i]) + [items[i].id];
    assert |a| == |b|;
    forall j | 0 <= j < |a| ensures a[j] == b[j] {
      assert items[..i + 1][j] == items[j];
      if j < i {
        assert items[..i][j] == items[j];
      }
    }
  }

  /** One iteration of `insert`'s loop: adding the next control of the list. */
  lemma InsertStep(cs: seq<ControlId>, items: seq<Item>, i: nat)
    requires i < |items|
    requires forall j :: 0 <= j <= i ==> items[j].Control?
    ensures AddChildren(cs, Ids(items[..i + 1])) == AddChild(AddChildren(cs, Ids(items[..i])), items[i].id)
  {
    IdsSnoc(items, i);
    AddChildrenSnoc(cs, Ids(items[..i]), items[i].id);
  }

  /** One iteration of `remove`'s loop: removing the next control of the list. */
  lemma RemoveStep(cs: seq<ControlId>, items: seq<Item>, i: nat)
    requires i < |items|
    requires forall j :: 0 <= j <= i ==> items[j].Control?
    ensures RemoveChildren(cs, Ids(items[..i + 1])) == RemoveChild(RemoveChildren(cs, Ids(items[..i])), items[i].id)
  {
    IdsSnoc(items, i);
    RemoveChildrenSnoc(cs, Ids(items[..i]), items[i].id);
  }

  /** A list insert stops at the first non-control: with the children and
      the controls before it all distinct, exactly those controls are
      appended in order, and the call raises TypeError unless the whole list
      was controls. */
  lemma InsertAppendsPrefix(cs: seq<ControlId>, items: seq<Item>, k: nat)
    requires k == FirstNonControl(items)
    requires Distinct(cs + Ids(items[..k]))
    ensures InsertResult(cs, List(items)) ==
      Applied(if k == |items| then Pass else Fail(TypeError), cs + Ids(items[..k]))
  {
    var ids := Ids(items[..k]);
    assert InsertResult(cs, List(items)).controls == AddChildren(cs, ids);
    AddChildrenAppends(cs, ids);
  }

  /** Adding a run of controls: the children become the old ones together
      with the run, and children free of duplicates stay so. */
  lemma {:induction false} AddChildrenMembers(cs: seq<ControlId>, ids: seq<ControlId>)
    ensures forall x :: x in AddChildren(cs, ids) <==> x in cs || x in ids
    ensures Distinct(cs) ==> Distinct(AddChildren(cs, ids))
    decreases |ids|
  {
    if ids != [] {
      AddChildrenMembers(AddChild(cs, ids[0]), ids[1..]);
      assert forall x :: x in ids <==> x == ids[0] || x in ids[1..];
    }
  }

  /** Removing a run of controls from children free of duplicates: exactly
      the children not in the run stay, still free of duplicates. */
  lemma {:induction false} RemoveChildrenMembers(cs: seq<ControlId>, ids: seq<ControlId>)
    requires Distinct(cs)
    ensures forall x :: x in RemoveChildren(cs, ids) <==> x in cs && x !in ids
    ensures Distinct(RemoveChildren(cs, ids))
    decreases |ids|
  {
    if ids != [] {
      RemoveChildMembers(cs, ids[0]);
      RemoveChildrenMembers(RemoveChild(cs, ids[0]), ids[1..]);
      assert forall x :: x in ids <==> x == ids[0] || x in ids[1..];
    }
  }

  /** A list remove stops at the first non-control: from children free of
      duplicates, exactly the controls before it leave, every other child
      stays, and the call raises TypeError unless the whole list was
      controls. */
  lemma RemoveDropsPrefix(cs: seq<ControlId>, items: seq<Item>, k: nat)
    requires k == FirstNonControl(items)
    requires Distinct(cs)
    ensures RemoveResult(cs, List(items)).outcome == if k == |items| then Pass else Fail(TypeError)
    ensures Distinct(RemoveResult(cs, List(items)).controls)
    ensures forall x :: x in RemoveResult(cs, List(items)).controls <==> x in cs && x !in Ids(items[..k])
  {
    RemoveChildrenMembers(cs, Ids(items[..k]));
  }

  /** `insert` never puts a control among the children twice. */
  lemma InsertKeepsDistinct(cs: seq<ControlId>, arg: Arg)
    requires Distinct(cs)
    ensures Distinct(InsertResult(cs, arg).controls)
  {
    if arg.List? {
      AddChildrenMembers(cs, Ids(arg.items[..FirstNonControl(arg.items)]));
    }
  }

  /** `remove` keeps the children free of duplicates, and a single control
      it removes is no longer a child. */
  lemma RemoveKeepsDistinct(cs: seq<ControlId>, arg: Arg)
    requires Distinct(cs)
    ensures Distinct(RemoveResult(cs, arg).controls)
    ensures arg.One? ==> arg.id !in RemoveResult(cs, arg).controls
  {
    match arg
    case One(c) => RemoveChildMembers(cs, c);
    case List(items) => RemoveChildrenMembers(cs, Ids(items[..FirstNonControl(items)]));
    case Other =>
  }

  /** The first non-control is found where the run of controls ends. */
  lemma FirstNonControlAt(items: seq<Item>, i: nat)
    requires i <= |items|
    requires forall j :: 0 <= j < i ==> items[j].Control?
    requires i < |items| ==> items[i] == NotControl
    ensures FirstNonControl(items) == i
  {
  }

  /** `remove` undoes `insert`: removing what was just inserted (one control,
      or a list of distinct controls none of which was a child) restores the
      children exactly and raises nothing. */
  lemma RemoveUndoesInsert(cs: seq<ControlId>, arg: Arg)
    requires arg.One? ==> arg.id !in cs
    requires arg.List? ==> FirstNonControl(arg.items) == |arg.items| && Distinct(cs + Ids(arg.items))
    requires !arg.Other?
    ensures RemoveResult(InsertResult(cs, arg).controls, arg) == Applied(Pass, cs)
  {
    match arg
    case One(c) =>
      assert RemoveChild(cs + [c], c) == cs by {
        RemoveChildSkipsPrefix(cs, [c], c);
      }
    case List(items) =>
      assert items[..|items|] == items;
      AddChildrenAppends(cs, Ids(items));
      RemoveChildrenUndoesAppend(cs, Ids(items));
  }

  class Box {
    /** `_size`, `_location`, `_background_color`: what the getters return. */
    var size: Size
    var location: Point
    var background: Option<Color>
    /** The panel's Size, Location and BackColor (None: never written). */
    var formSize: Size
    var formLocation: Point
    var backColor: Option<Color>
    /** The panel's Controls, in order. */
    var controls: seq<ControlId>

    /** No control is a child twice. */
    ghost predicate Valid()
      reads this
    {
      Distinct(controls)
    }

    /** `Box(size, location, background_color)`: an empty panel. */
    constructor (size: Size, location: Point, background: Option<Color>)
      ensures this.size == size && this.location == location && this.background == background
      ensures formSize == size && formLocation == location && backColor == background
      ensures Valid() && controls == []
    {
      this.size, this.location, this.background := size, location, background;
      formSize, formLocation, backColor := size, location, background;
      controls := [];
    }

    /** The `size` setter. */
    method SetSize(value: Size)
      modifies this`size, this`formSize
      ensures size == value && formSize == value
    {
      size := value;
      formSize := value;
    }

    /** The `location` setter. */
    method SetLocation(value: Point)
      modifies this`location, this`formLocation
      ensures location == value && formLocation == value
    {
      location := value;
      formLocation := value;
    }

    /** The `background_color` setter: always stored, written to the panel only
        when it is a colour rather than None. */
    method SetBackgroundColor(value: Option<Color>)
      modifies this`background, this`backColor
      ensures background == value
      ensures backColor == if value.Some? then value else old(backColor)
    {
      background := value;
      if value.Some? {
        backColor := value;
      }
    }

    /** `insert`: adds in place, element by element, raising at the first
        non-control with the earlier ones left in. */
    method Insert(arg: Arg) returns (r: Outcome)
      requires Valid()
      modifies this`controls
      ensures Valid()
      ensures Applied(r, controls) == InsertResult(old(controls), arg)
    {
      InsertKeepsDistinct(controls, arg);
      match arg {
        case One(c) =>
          controls := AddChild(controls, c);
          r := Pass;
        case List(items) =>
          for i := 0 to |items|
            invariant forall j :: 0 <= j < i ==> items[j].Control?
            invariant controls == AddChildren(old(controls), Ids(items[..i]))
          {
            if items[i] == NotControl {
              FirstNonControlAt(items, i);
              return Fail(TypeError);
            }
            InsertStep(old(controls), items, i);
            controls := AddChild(controls, items[i].id);
          }
          FirstNonControlAt(items, |items|);
          r := Pass;
        case Other =>
          r := Fail(TypeError);
      }
    }

    /** `remove`: removes in place, element by element, raising at the first
        non-control with the earlier removals kept. */
    method Remove(arg: Arg) returns (r: Outcome)
      requires Valid()
      modifies this`controls
      ensures Valid()
      ensures Applied(r, controls) == RemoveResult(old(controls), arg)
    {
      RemoveKeepsDistinct(controls, arg);
      match arg {
        case One(c) =>
          controls := RemoveChild(controls, c);
          r := Pass;
        case List(items) =>
          for i := 0 to |items|
            invariant forall j :: 0 <= j < i ==> items[j].Control?
            invariant controls == RemoveChildren(old(controls), Ids(items[..i]))
          {
            if items[i] == NotControl {
              FirstNonControlAt(items, i);
              return Fail(TypeError);
            }
            RemoveStep(old(controls), items, i);
            controls := RemoveChild(controls, items[i].id);
          }
          FirstNonControlAt(items, |items|);
          r := Pass;
        case Other =>
          r := Fail(TypeError);
      }
    }
  }
}
