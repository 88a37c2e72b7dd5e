/**
 * Concrete runs of the controller, stated as what a caller can prove from the contracts
 * alone: presets, saturating adjustments, index checks and best-effort listing.
 */
module Scenarios {
  import opened Wrappers
  import opened Controller

  /** Applying "reading" when both writes succeed leaves brightness 40 and contrast 60. */
  method ReadingPreset() returns (ok: bool, m: Monitor)
    ensures ok && m == Monitor(40, 60)
  {
    var c := new MonitorController([Monitor(75, 75)], k => false);
    Presets.LookupExamples();
    ok := c.SetPreset(0, "reading");
    m := c.monitors[0];
  }

  /** When the brightness write of a preset fails, the contrast write is still attempted. */
  method PresetFirstWriteFails() returns (ok: bool, m: Monitor, log: seq<Io>)
    ensures !ok && m == Monitor(75, 60)
    ensures log == [Write(0, Brightness, 40), Write(0, Contrast, 60)]
  {
    var c := new MonitorController([Monitor(75, 75)], k => k == 0);
    Presets.LookupExamples();
    ok := c.SetPreset(0, "reading");
    m, log := c.monitors[0], c.log;
  }

  /** An unknown preset name such as "ultra" fails without touching the transport. */
  method UnknownPreset() returns (ok: bool, log: seq<Io>)
    ensures !ok && log == []
  {
    var c := new MonitorController([Monitor(75, 75)], k => false);
    Presets.LookupUnknown();
    ok := c.SetPreset(0, "ultra");
    log := c.log;
  }

  /** Adjustments saturate: 95 + 20 writes 100 (not 115), 75 - 10 writes 65. */
  method AdjustSaturates() returns (up: int, down: int, log: seq<Io>)
    ensures up == 100 && down == 65
    ensures log == [Read(0, Brightness), Write(0, Brightness, 100), Read(1, Brightness), Write(1, Brightness, 65)]
  {
    var c := new MonitorController([Monitor(95, 50), Monitor(75, 50)], k => false);
    var ok0 := c.AdjustBrightness(0, 20);
    var ok1 := c.AdjustBrightness(1, -10);
    up, down, log := c.monitors[0].brightness, c.monitors[1].brightness, c.log;
  }

  /** A failed read aborts an adjustment before any write. */
  method AdjustReadFails() returns (ok: bool, log: seq<Io>)
    ensures !ok && log == [Read(0, Contrast)]
  {
    var c := new MonitorController([Monitor(50, 50)], k => true);
    ok := c.AdjustContrast(0, 5);
    log := c.log;
  }

  /** With two monitors, indices 0 and 1 are accepted and 2 and -1 rejected; no monitors is its own case. */
  method IndexChecks() returns (checks: seq<IndexCheck>, none: IndexCheck)
    ensures checks == [Accepted, Accepted, InvalidIndex(2, 1), InvalidIndex(-1, 1)]
    ensures none == NoMonitors
  {
    var c := new MonitorController([Monitor(50, 50), Monitor(60, 40)], k => false);
    checks := [c.ValidateMonitorIndex(0), c.ValidateMonitorIndex(1),
               c.ValidateMonitorIndex(2), c.ValidateMonitorIndex(-1)];
    var e := new MonitorController([], k => false);
    none := e.ValidateMonitorIndex(0);
  }

  /** An out-of-range index makes a set fail with no write at all. */
  method SetInvalidIndex() returns (ok: bool, log: seq<Io>, ms: seq<Monitor>)
    ensures !ok && log == [] && ms == [Monitor(50, 50)]
  {
    var c := new MonitorController([Monitor(50, 50)], k => false);
    ok := c.SetContrast(1, 40);
    log, ms := c.log, c.monitors;
  }

  /** When monitor 1's read fails, monitor 0 is still listed with its real settings. */
  method ListWithUnreadable() returns (reports: seq<Report>)
    ensures reports == [Readable(0, 70, 50), Unreadable(1)]
  {
    var c := new MonitorController([Monitor(70, 50), Monitor(30, 40)], k => k == 2);
    assert !c.fault(0) && !c.fault(1) && c.fault(2);
    var ms := c.monitors;
    assert Survey(ms, c.fault, 0, 0) == ([], []);
    assert Probe(ms, 0, c.fault, 0) == (Readable(0, 70, 50), [Read(0, Brightness), Read(0, Contrast)]);
    assert [] + [Readable(0, 70, 50)] == [Readable(0, 70, 50)];
    assert [] + [Read(0, Brightness), Read(0, Contrast)] == [Read(0, Brightness), Read(0, Contrast)];
    assert Survey(ms, c.fault, 0, 1) == ([Readable(0, 70, 50)], [Read(0, Brightness), Read(0, Contrast)]);
    assert Survey(ms, c.fault, 0, 2).0 == [Readable(0, 70, 50), Unreadable(1)];
    reports := c.ListMonitors();
  }
}
