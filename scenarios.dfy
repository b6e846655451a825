/** Client sessions of the annotation manager, each proved from the
    manager's contracts alone. */
module Scenarios {
  import opened Optional
  import opened Projection
  import opened Panels
  import opened Manager

  const Origin := Vec3(0.0, 0.0, 0.0)

  /** A double click that hits nothing creates no annotation and no panel. */
  method MissLeavesNothing()
  {
    var m := new AnnotationManager(Some(".annotation"), true, true, Origin);
    var added1 := m.Add(Vec2(10.0, 20.0), 800.0, 600.0, Miss, true);
    assert m.entries == [] && m.panels == map[] && !m.TemplateOpen();
  }

  /** A double click whose nearest hit is an existing marker throws before
      storing anything: the annotation list, panels and gate are unchanged. */
  method MarkerHitAddsNothing()
  {
    var m := new AnnotationManager(Some(".annotation"), true, true, Origin);
    var first := m.Add(Vec2(10.0, 20.0), 800.0, 600.0, Surface, true);
    var entries, panels := m.entries, m.panels;
    var second := m.Add(Vec2(10.0, 20.0), 800.0, 600.0, Marker, true);
    assert first && !second;
    assert m.entries == entries && m.panels == panels && |m.entries| == 1;
  }

  /** A hit without a findable template still creates the annotation, but no
      panel; once another annotation opens the gate, the next frame's refresh
      meets the panel-less annotation and fails. */
  method MissingTemplateBreaksRefresh(cam: Vec3)
  {
    var m := new AnnotationManager(Some(".annotation"), true, true, cam);
    var added2 := m.Add(Vec2(0.0, 0.0), 800.0, 600.0, Surface, false);
    assert |m.entries| == 1 && m.entries[0].cameraPosition == cam;
    assert m.panels == map[] && !m.TemplateOpen();
    var added3 := m.Add(Vec2(400.0, 300.0), 800.0, 600.0, Surface, true);
    assert |m.entries| == 2 && m.TemplateOpen();
    var ok := m.Update(1600, 1200, 2.0, [Vec2(0.0, 0.0), Vec2(0.5, 0.5)]);
    assert m.entries[0].id !in m.panels;
    assert !ok;
  }

  /** A template that is not a `div` is cloned and opens the gate, but its
      clone is never found as a panel, so the next refresh fails. */
  method NonDivTemplateBreaksRefresh()
  {
    var m := new AnnotationManager(Some("span.note"), true, false, Origin);
    var added11 := m.Add(Vec2(10.0, 20.0), 800.0, 600.0, Surface, true);
    assert |m.entries| == 1 && m.panels == map[] && m.TemplateOpen();
    var ok := m.Update(1600, 1200, 2.0, [Vec2(0.0, 0.0)]);
    assert !ok;
  }

  /** Selecting a marker flies the camera, wherever it is, back to where it
      was when the annotation was made, and schedules that annotation's
      reveal. */
  method SelectFliesBack(m: AnnotationManager)
    requires m.Valid() && m.selector.Some? && m.tweening
    requires m.flights == [] && m.pendingReveals == [] && |m.entries| > 0
    modifies m
  {
    var id, back, here := m.entries[0].id, m.entries[0].cameraPosition, m.camera;
    m.Select(Vec2(5.0, 5.0), 800.0, 600.0, Some(0));
    assert m.flights == [Flight(id, here, back)];
    m.CompleteFlight();
    assert m.pendingReveals == [id] && m.camera == back;
  }

  /** With the gate closed (after a hide) and nothing in flight, selecting
      an annotation with a panel and letting the flight and the reveal finish
      opens the gate again and shows that panel at full opacity. */
  method RevealAfterHide(m: AnnotationManager)
    requires m.Valid() && m.selector.Some? && m.tweening && !m.TemplateOpen()
    requires m.flights == [] && m.pendingReveals == []
    requires |m.entries| > 0 && m.entries[0].id in m.panels
    modifies m
  {
    var id := m.entries[0].id;
    m.Select(Vec2(5.0, 5.0), 800.0, 600.0, Some(0));
    m.CompleteFlight();
    assert m.pendingReveals == [id];
    var ok := m.RevealDue();
    assert ok && m.TemplateOpen();
    assert m.panels[id].display == Block && m.panels[id].opacity == Some(1.0);
  }

  /** Two selections in flight: the later one finishes last, so the camera
      ends at the viewpoint of the annotation selected last. */
  method LastFlightWins(m: AnnotationManager)
    requires m.Valid() && m.tweening && m.flights == [] && |m.entries| >= 2
    modifies m
  {
    m.Select(Vec2(1.0, 1.0), 800.0, 600.0, Some(0));
    m.Select(Vec2(2.0, 2.0), 800.0, 600.0, Some(1));
    ghost var last := m.entries[1].cameraPosition;
    assert |m.flights| == 2 && m.flights[1].target == last;
    m.CompleteFlight();
    m.CompleteFlight();
    assert m.camera == last && m.flights == [];
  }

  /** Hiding closes the gate; a second hide right after changes nothing. */
  method HideTwice()
  {
    var m := new AnnotationManager(Some(".annotation"), true, true, Origin);
    var added7 := m.Add(Vec2(1.0, 1.0), 800.0, 600.0, Surface, true);
    assert m.TemplateOpen();
    m.HideTemplates();
    var faded, timers := m.panels, m.pendingHides;
    assert !m.TemplateOpen();
    m.HideTemplates();
    assert m.panels == faded && m.pendingHides == timers;
  }

  /** Lets every pending display-none timer fire, oldest first: the panels
      end as the steps run one at a time over the queue. */
  method SettleHides(m: AnnotationManager)
    requires m.Valid()
    modifies m`panels, m`pendingHides
    ensures m.Valid() && m.pendingHides == []
    ensures m.panels == HideSteps(old(m.panels), old(m.pendingHides))
  {
    var queue, start, k := m.pendingHides, m.panels, 0;
    while k < |queue|
      invariant m.Valid()
      invariant k <= |queue| && m.pendingHides == queue[k..]
      invariant m.panels == HideSteps(start, queue[..k])
      decreases |queue| - k
    {
      HideStepsNext(start, queue, k);
      assert queue[k..][1..] == queue[k + 1..];
      m.HideDue();
      k := k + 1;
    }
    assert queue[..k] == queue;
  }

  /** From an open gate with no timers pending, a hide followed by all its
      timers leaves every panel faded and out of the layout. */
  method FadeAndSettle(m: AnnotationManager)
    requires m.Valid() && m.TemplateOpen() && m.pendingHides == []
    modifies m`panels, m`templateOpen, m`pendingHides
    ensures forall id :: id in old(m.panels) ==>
      id in m.panels && m.panels[id] == old(m.panels[id]).(display := Hidden, opacity := Some(0.0))
  {
    var before := m.panels;
    m.HideTemplates();
    assert m.pendingHides == m.panelOrder;
    SettleHides(m);
    UndisplayedAfterFade(before, m.panelOrder);
  }
}
