/** Detail panels: the cloned template elements the manager shows, fades,
    hides and positions, keyed by the id of the annotation they belong to.
    The functions here are the specifications the manager's loops meet. */
module Panels {
  import opened Optional
  import opened Projection

  /** The CSS `display` values the manager writes: 'block' and 'none'. */
  datatype Display = Block | Hidden

  /** The inline style of one panel. An unset property is `None`. */
  datatype Panel = Panel(display: Display, opacity: Option<real>, top: Option<int>, left: Option<int>)

  /** A freshly cloned panel: shown, everything else left to the stylesheet. */
  const NewPanel := Panel(Block, None, None, None)

  /** The index of the first id in `ids` without a panel, or `|ids|` when
      every id has one: how far a pass over the ids gets before a lookup
      finds nothing. */
  function FirstMissing(ids: seq<nat>, panels: map<nat, Panel>): (k: nat)
    ensures k <= |ids|
    ensures forall j :: 0 <= j < k ==> ids[j] in panels
    ensures k < |ids| ==> ids[k] !in panels
  {
    if ids == [] || ids[0] !in panels then 0
    else 1 + FirstMissing(ids[1..], panels)
  }

  /** A pass reaches the end exactly when every id has a panel. */
  lemma FirstMissingAll(ids: seq<nat>, panels: map<nat, Panel>)
    ensures FirstMissing(ids, panels) == |ids| <==> forall i :: 0 <= i < |ids| ==> ids[i] in panels
  {
  }

  /** The contract of FirstMissing determines it: it is the one index before
      which every id has a panel and at which one does not. */
  lemma FirstMissingUnique(ids: seq<nat>, panels: map<nat, Panel>, k: nat)
    requires k <= |ids|
    requires forall j :: 0 <= j < k ==> ids[j] in panels
    requires k < |ids| ==> ids[k] !in panels
    ensures FirstMissing(ids, panels) == k
  {
  }

  /** The panels after writing `pixels[i]` as the offset of the panel of
      `ids[i]`, in order. */
  function Positioned(panels: map<nat, Panel>, ids: seq<nat>, pixels: seq<Pixel>): (r: map<nat, Panel>)
    requires |ids| == |pixels|
    requires forall i :: 0 <= i < |ids| ==> ids[i] in panels
    ensures r.Keys == panels.Keys
    decreases |ids|
  {
    if ids == [] then panels
    else
      var n := |ids| - 1;
      var before := Positioned(panels, ids[..n], pixels[..n]);
      before[ids[n] := before[ids[n]].(top := Some(pixels[n].top), left := Some(pixels[n].left))]
  }

  /** Writes the offsets `pixels` to the panels of `ids` one by one, in
      order, and stops at the first id without a panel. `reached` is how many
      panels were written. */
  method PlaceInOrder(panels: map<nat, Panel>, ids: seq<nat>, pixels: seq<Pixel>)
    returns (placed: map<nat, Panel>, reached: nat)
    requires |ids| == |pixels|
    ensures reached == FirstMissing(ids, panels)
    ensures placed == Positioned(panels, ids[..reached], pixels[..reached])
  {
    placed, reached := panels, 0;
    while reached < |ids|
      invariant reached <= FirstMissing(ids, panels)
      invariant placed == Positioned(panels, ids[..reached], pixels[..reached])
    {
      var id := ids[reached];
      if id !in placed {
        FirstMissingUnique(ids, panels, reached);
        return;
      }
      assert ids[..reached + 1][..reached] == ids[..reached];
      assert pixels[..reached + 1][..reached] == pixels[..reached];
      placed := placed[id := placed[id].(top := Some(pixels[reached].top), left := Some(pixels[reached].left))];
      reached := reached + 1;
    }
  }

  /** Ids that occur at most once. */
  ghost predicate Distinct(ids: seq<nat>)
  {
    forall i, j :: 0 <= i < j < |ids| ==> ids[i] != ids[j]
  }

  /** Positioning gives each listed panel its own offset and keeps its
      display and opacity; every other panel is left as it was. */
  lemma {:induction false} PositionedAt(panels: map<nat, Panel>, ids: seq<nat>, pixels: seq<Pixel>, id: nat)
    requires |ids| == |pixels|
    requires forall i :: 0 <= i < |ids| ==> ids[i] in panels
    requires Distinct(ids)
    requires id in panels
    ensures forall i :: 0 <= i < |ids| && ids[i] == id ==>
      Positioned(panels, ids, pixels)[id] == panels[id].(top := Some(pixels[i].top), left := Some(pixels[i].left))
    ensures id !in ids ==> Positioned(panels, ids, pixels)[id] == panels[id]
    decreases |ids|
  {
    if ids != [] {
      var n := |ids| - 1;
      PositionedAt(panels, ids[..n], pixels[..n], id);
      forall i | 0 <= i < |ids| && ids[i] == id
        ensures Positioned(panels, ids, pixels)[id]
             == panels[id].(top := Some(pixels[i].top), left := Some(pixels[i].left))
      {
        if i < n {
          assert ids[..n][i] == id;
        } else {
          assert id !in ids[..n];
        }
      }
      if id !in ids {
        assert id !in ids[..n];
      }
    }
  }

  /** Positioning the first `k` of a list of distinct ids: each of those
      panels gets the offset at its own index, every other panel is kept. */
  lemma PositionedPrefix(panels: map<nat, Panel>, ids: seq<nat>, pixels: seq<Pixel>, k: nat)
    requires |ids| == |pixels| && k <= |ids|
    requires forall i :: 0 <= i < k ==> ids[i] in panels
    requires Distinct(ids)
    ensures forall j :: 0 <= j < k ==>
      Positioned(panels, ids[..k], pixels[..k])[ids[j]]
        == panels[ids[j]].(top := Some(pixels[j].top), left := Some(pixels[j].left))
    ensures forall id :: id in panels && id !in ids[..k] ==>
      Positioned(panels, ids[..k], pixels[..k])[id] == panels[id]
  {
    forall id | id in panels {
      PositionedAt(panels, ids[..k], pixels[..k], id);
    }
    forall j | 0 <= j < k
      ensures Positioned(panels, ids[..k], pixels[..k])[ids[j]]
        == panels[ids[j]].(top := Some(pixels[j].top), left := Some(pixels[j].left))
    {
      assert ids[..k][j] == ids[j] && pixels[..k][j] == pixels[j];
    }
  }

  /** The panels after the immediate half of hiding: every one faded to
      opacity 0, nothing else about them changed. */
  function Faded(panels: map<nat, Panel>): (r: map<nat, Panel>)
    ensures r.Keys == panels.Keys
    ensures forall id :: id in r ==> r[id].opacity == Some(0.0)
  {
    map id | id in panels :: panels[id].(opacity := Some(0.0))
  }

  /** Fades the panels of `order` one by one; when `order` lists every
      panel, that is all of them. */
  method FadeInOrder(panels: map<nat, Panel>, order: seq<nat>) returns (faded: map<nat, Panel>)
    requires forall i :: 0 <= i < |order| ==> order[i] in panels
    requires forall id :: id in panels ==> id in order
    ensures faded == Faded(panels)
  {
    faded := panels;
    var i := 0;
    while i < |order|
      invariant 0 <= i <= |order|
      invariant faded.Keys == panels.Keys
      invariant forall id :: id in faded ==>
        faded[id] == if id in order[..i] then panels[id].(opacity := Some(0.0)) else panels[id]
    {
      var id := order[i];
      faded := faded[id := faded[id].(opacity := Some(0.0))];
      assert order[..i + 1] == order[..i] + [id];
      i := i + 1;
    }
    assert order[..i] == order;
  }

  /** Fading touches the opacity alone, and fading twice is fading once. */
  lemma FadedKeepsLayout(panels: map<nat, Panel>)
    ensures forall id :: id in panels ==>
      Faded(panels)[id].display == panels[id].display &&
      Faded(panels)[id].top == panels[id].top &&
      Faded(panels)[id].left == panels[id].left
    ensures Faded(Faded(panels)) == Faded(panels)
  {
  }

  /** The panels once every panel in `hidden` has been taken out of the layout
      (display 'none') and every other panel left alone. */
  function Undisplayed(panels: map<nat, Panel>, hidden: set<nat>): (r: map<nat, Panel>)
    ensures r.Keys == panels.Keys
    ensures forall id :: id in r ==> r[id].display == (if id in hidden then Hidden else panels[id].display)
    ensures forall id :: id in r ==> r[id].opacity == panels[id].opacity
    ensures forall id :: id in r ==> r[id].top == panels[id].top && r[id].left == panels[id].left
  {
    map id | id in panels :: if id in hidden then panels[id].(display := Hidden) else panels[id]
  }

  /** Taking two sets of panels out of the layout one after the other is
      taking their union out at once. */
  lemma UndisplayedCompose(panels: map<nat, Panel>, a: set<nat>, b: set<nat>)
    ensures Undisplayed(Undisplayed(panels, a), b) == Undisplayed(panels, a + b)
  {
  }

  /** The panels after the deferred display-none steps for `ids` have run one
      at a time, oldest first: the last step is the last one applied. */
  function HideSteps(panels: map<nat, Panel>, ids: seq<nat>): (r: map<nat, Panel>)
    ensures r.Keys == panels.Keys
    decreases |ids|
  {
    if ids == [] then panels
    else
      var n := |ids| - 1;
      Undisplayed(HideSteps(panels, ids[..n]), {ids[n]})
  }

  /** Running the display-none steps one at a time takes exactly the panels
      they name out of the layout, so the order they run in does not matter. */
  lemma {:induction false} HideStepsUndisplayed(panels: map<nat, Panel>, ids: seq<nat>)
    ensures HideSteps(panels, ids) == Undisplayed(panels, set id | id in ids)
    decreases |ids|
  {
    if ids != [] {
      var n := |ids| - 1;
      HideStepsUndisplayed(panels, ids[..n]);
      UndisplayedCompose(panels, set id | id in ids[..n], {ids[n]});
      assert ids == ids[..n] + [ids[n]];
      assert (set id | id in ids) == (set id | id in ids[..n]) + {ids[n]};
    }
  }

  /** The steps for the first `k + 1` ids are those for the first `k`, then
      the step for `ids[k]`. */
  lemma HideStepsNext(panels: map<nat, Panel>, ids: seq<nat>, k: nat)
    requires k < |ids|
    ensures HideSteps(panels, ids[..k + 1]) == Undisplayed(HideSteps(panels, ids[..k]), {ids[k]})
  {
    assert ids[..k + 1][..k] == ids[..k];
  }

  /** Two runs of the display-none steps naming the same panels, in any
      order and with any repeats, end in the same panels. */
  lemma HideStepsOrderFree(panels: map<nat, Panel>, xs: seq<nat>, ys: seq<nat>)
    requires forall id :: id in xs <==> id in ys
    ensures HideSteps(panels, xs) == HideSteps(panels, ys)
  {
    HideStepsUndisplayed(panels, xs);
    HideStepsUndisplayed(panels, ys);
    assert (set id | id in xs) == set id | id in ys;
  }

  /** Running the deferred hiding steps of a fade after it, one at a time in
      any order that names every panel, leaves every panel faded and out of
      the layout. */
  lemma UndisplayedAfterFade(panels: map<nat, Panel>, order: seq<nat>)
    requires forall id :: id in panels ==> id in order
    ensures forall id :: id in panels ==>
      HideSteps(Faded(panels), order)[id] == panels[id].(display := Hidden, opacity := Some(0.0))
  {
    HideStepsUndisplayed(Faded(panels), order);
  }
}
