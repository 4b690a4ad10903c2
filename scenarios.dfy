/**
 * Short runs of the content-script controller, stepping it through the events
 * a page delivers and checking what each step leaves behind.
 */
module Scenarios {
  import opened Media
  import opened Geometry
  import opened Settings
  import opened ContentScript

  /**
   * A 120 x 120 video on an Instagram page (a host name naming Instagram and not
   * Threads) is hovered, its play button is
   * clicked, the pointer leaves, and the pending hide fires.
   */
  method HoverClickLeaveScenario(hostname: string)
    requires ProfileOf(hostname) == Profile(true, false)
  {
    var c := new Controller(hostname);
    assert c.isInstagram && !c.isThreads;
    var v := new Video(true, Rect(10.0, 10.0, 120.0, 120.0), 30.0);
    assert Qualifies(v, 70.0, 70.0);
    SingleVideoSelection(v, 70.0, 70.0);
    c.MouseMove([v], 70.0, 70.0);
    assert c.shown && c.activeVideo == v && v.watched && v.paused;
    var effect := c.PlayClick("BUTTON");
    assert !v.paused && c.playIcon == ShowsPause;
    assert !Qualifies(v, 500.0, 500.0);
    SingleVideoSelection(v, 500.0, 500.0);
    c.MouseMove([v], 500.0, 500.0);
    assert c.hidePending && c.shown && c.activeVideo == v;
    c.FireHideTimer();
    assert !c.shown && !c.blockerShown && c.activeVideo == v;
  }

  /**
   * A hide requested before a drag starts still runs during the drag: only
   * requesting a hide checks `isDragging`.
   */
  method PendingHideRunsDuringDrag(hostname: string)
    requires ProfileOf(hostname) == Profile(true, false)
  {
    var c := new Controller(hostname);
    assert c.isInstagram && !c.isThreads;
    var v := new Video(true, Rect(0.0, 0.0, 200.0, 200.0), 30.0);
    assert Qualifies(v, 100.0, 100.0);
    SingleVideoSelection(v, 100.0, 100.0);
    c.MouseMove([v], 100.0, 100.0);
    assert c.shown && c.activeVideo == v;
    assert !Qualifies(v, 900.0, 900.0);
    SingleVideoSelection(v, 900.0, 900.0);
    c.MouseMove([v], 900.0, 900.0);
    c.SeekInput(50.0);
    assert c.isDragging && c.hidePending && c.shown;
    assert v.currentTime == 15.0;
    c.FireHideTimer();
    assert c.isDragging && !c.shown;
  }

  /** Once disabled, pointer moves over a qualifying video show nothing until re-enabled. */
  method DisabledPageStaysHidden(hostname: string)
    requires ProfileOf(hostname) == Profile(true, false)
  {
    var c := new Controller(hostname);
    assert c.isInstagram && !c.isThreads;
    var v := new Video(true, Rect(0.0, 0.0, 200.0, 200.0), 30.0);
    assert Qualifies(v, 100.0, 100.0);
    SingleVideoSelection(v, 100.0, 100.0);
    c.MouseMove([v], 100.0, 100.0);
    assert c.shown;
    c.CheckConfig(SiteSettings(Missing, Bool(false)));
    assert !c.isEnabled && !c.shown && !c.blockerShown && !c.hostShown;
    c.MouseMove([v], 100.0, 100.0);
    assert !c.shown;
    c.CheckConfig(SiteSettings(Missing, Missing));
    assert c.isEnabled && !c.shown;
    c.MouseMove([v], 100.0, 100.0);
    assert c.shown;
  }
}
