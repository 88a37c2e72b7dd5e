/**
 * `MonitorController` of monitor_control.py over an abstract transport.
 *
 * Each detected monitor is modelled by the two settings it holds. The DDC/CI library is
 * replaced by two primitives, one read and one write of a single setting. Whether each call
 * to the transport succeeds is decided by an injected oracle: the k-th transport call made
 * through the controller fails exactly when `fault(k)` holds. Every attempted call is
 * appended to `log`, so the contracts can say which reads and writes were attempted, in
 * which order, and that none was attempted on an error path.
 */
module Controller {
  import opened Wrappers
  import opened Normalize
  import Presets

  datatype Setting = Brightness | Contrast

  /** The state of one display: its luminance and contrast percentages. */
  datatype Monitor = Monitor(brightness: int, contrast: int)

  function Level(m: Monitor, s: Setting): int
  {
    match s
    case Brightness => m.brightness
    case Contrast => m.contrast
  }

  /** `m` with setting `s` replaced by `v`; the other setting is kept. */
  function WithLevel(m: Monitor, s: Setting, v: int): (m': Monitor)
    ensures Level(m', s) == v
    ensures forall o: Setting :: o != s ==> Level(m', o) == Level(m, o)
  {
    match s
    case Brightness => m.(brightness := v)
    case Contrast => m.(contrast := v)
  }

  /** One attempted call to the transport. */
  datatype Io = Read(index: int, setting: Setting) | Write(index: int, setting: Setting, value: int)

  /** The outcome of `_validate_monitor_index`, with the path it took. */
  datatype IndexCheck = Accepted | NoMonitors | InvalidIndex(index: int, last: int)

  /** One line of the `list` report: the settings read, or the "error reading settings" line. */
  datatype Report = Readable(index: nat, brightness: int, contrast: int) | Unreadable(index: nat)

  /**
   * What `list_monitors` does for monitor `i` when its first read is transport call `k`:
   * read the luminance, and only if that worked the contrast; either failure makes the
   * monitor unreadable. Returns the report line and the calls attempted.
   */
  function Probe(ms: seq<Monitor>, i: nat, fault: nat -> bool, k: nat): (p: (Report, seq<Io>))
    requires i < |ms|
    ensures p.0.index == i
    ensures p.0.Readable? <==> !fault(k) && !fault(k + 1)
    ensures p.0.Readable? ==> p.0.brightness == ms[i].brightness && p.0.contrast == ms[i].contrast
    ensures p.1 == if fault(k) then [Read(i, Brightness)] else [Read(i, Brightness), Read(i, Contrast)]
  {
    if fault(k) then (Unreadable(i), [Read(i, Brightness)])
    else if fault(k + 1) then (Unreadable(i), [Read(i, Brightness), Read(i, Contrast)])
    else (Readable(i, ms[i].brightness, ms[i].contrast), [Read(i, Brightness), Read(i, Contrast)])
  }

  /**
   * The report of the first `n` monitors and the transport calls made for them, when the
   * listing starts at transport call `k`: one or two reads per monitor.
   */
  function Survey(ms: seq<Monitor>, fault: nat -> bool, k: nat, n: nat): (s: (seq<Report>, seq<Io>))
    requires n <= |ms|
    ensures |s.0| == n
    ensures n <= |s.1| <= 2 * n
  {
    if n == 0 then ([], [])
    else
      var prev := Survey(ms, fault, k, n - 1);
      var p := Probe(ms, n - 1, fault, k + |prev.1|);
      (prev.0 + [p.0], prev.1 + p.1)
  }

  /** Line j of the report is about monitor j, and a readable line shows its real settings. */
  lemma {:induction false} SurveyReports(ms: seq<Monitor>, fault: nat -> bool, k: nat, n: nat)
    requires n <= |ms|
    ensures forall j :: 0 <= j < n ==> Survey(ms, fault, k, n).0[j].index == j
    ensures forall j :: 0 <= j < n && Survey(ms, fault, k, n).0[j].Readable? ==>
              Survey(ms, fault, k, n).0[j].brightness == ms[j].brightness &&
              Survey(ms, fault, k, n).0[j].contrast == ms[j].contrast
  {
    if n > 0 {
      SurveyReports(ms, fault, k, n - 1);
      var prev := Survey(ms, fault, k, n - 1);
      assert Survey(ms, fault, k, n).0 == prev.0 + [Probe(ms, n - 1, fault, k + |prev.1|).0];
    }
  }

  /**
   * Listing only reads: it never writes, it visits the monitors in index order, and it
   * reads the luminance of every monitor.
   */
  lemma {:induction false} SurveyCalls(ms: seq<Monitor>, fault: nat -> bool, k: nat, n: nat)
    requires n <= |ms|
    ensures forall o :: o in Survey(ms, fault, k, n).1 ==> o.Read? && 0 <= o.index < n
    ensures forall a, b :: 0 <= a < b < |Survey(ms, fault, k, n).1| ==>
              Survey(ms, fault, k, n).1[a].index <= Survey(ms, fault, k, n).1[b].index
    ensures forall j :: 0 <= j < n ==> Read(j, Brightness) in Survey(ms, fault, k, n).1
  {
    if n > 0 {
      SurveyCalls(ms, fault, k, n - 1);
      var prev := Survey(ms, fault, k, n - 1);
      var p := Probe(ms, n - 1, fault, k + |prev.1|);
      var ops := prev.1 + p.1;
      assert Survey(ms, fault, k, n).1 == ops;
      assert forall o :: o in p.1 ==> o.index == n - 1;
      assert forall a :: 0 <= a < |p.1| ==> ops[|prev.1| + a] == p.1[a];
      assert ops[|prev.1|] == Read(n - 1, Brightness);
      forall j | 0 <= j < n - 1 ensures Read(j, Brightness) in ops {
        assert Read(j, Brightness) in prev.1;
      }
    }
  }

  /** Listing more monitors only extends the report and the calls of listing fewer. */
  lemma {:induction false} SurveyPrefix(ms: seq<Monitor>, fault: nat -> bool, k: nat, m: nat, n: nat)
    requires m <= n <= |ms|
    ensures |Survey(ms, fault, k, m).1| <= |Survey(ms, fault, k, n).1|
    ensures Survey(ms, fault, k, n).0[..m] == Survey(ms, fault, k, m).0
    ensures Survey(ms, fault, k, n).1[..|Survey(ms, fault, k, m).1|] == Survey(ms, fault, k, m).1
    decreases n - m
  {
    if m < n {
      SurveyPrefix(ms, fault, k, m, n - 1);
      var s, t, u := Survey(ms, fault, k, n), Survey(ms, fault, k, n - 1), Survey(ms, fault, k, m);
      var p := Probe(ms, n - 1, fault, k + |t.1|);
      assert s == (t.0 + [p.0], t.1 + p.1);
      assert s.0[..m] == t.0[..m];
      assert s.1[..|u.1|] == t.1[..|u.1|];
    } else {
      assert Survey(ms, fault, k, n).0[..m] == Survey(ms, fault, k, n).0;
      assert Survey(ms, fault, k, n).1[..|Survey(ms, fault, k, m).1|] == Survey(ms, fault, k, n).1;
    }
  }

  /**
   * Best effort, monitor by monitor: the report line of monitor `j` depends only on the
   * outcome of its own reads, which begin right after the calls made for monitors 0 .. j-1.
   */
  lemma SurveyIsolation(ms: seq<Monitor>, fault: nat -> bool, k: nat, n: nat, j: nat)
    requires j < n <= |ms|
    ensures Survey(ms, fault, k, n).0[j] == Probe(ms, j, fault, k + |Survey(ms, fault, k, j).1|).0
  {
    SurveyPrefix(ms, fault, k, j + 1, n);
    var s := Survey(ms, fault, k, n).0;
    assert s[j] == s[..j + 1][j];
    assert Survey(ms, fault, k, j + 1).0[j] == Probe(ms, j, fault, k + |Survey(ms, fault, k, j).1|).0;
  }

  /** When no transport call fails, every monitor is listed with its real settings. */
  lemma {:induction false} SurveyHealthy(ms: seq<Monitor>, fault: nat -> bool, k: nat, n: nat)
    requires n <= |ms|
    requires forall c: nat :: k <= c ==> !fault(c)
    ensures forall j :: 0 <= j < n ==>
              Survey(ms, fault, k, n).0[j] == Readable(j, ms[j].brightness, ms[j].contrast)
    ensures |Survey(ms, fault, k, n).1| == 2 * n
  {
    if n > 0 {
      SurveyHealthy(ms, fault, k, n - 1);
      var prev := Survey(ms, fault, k, n - 1);
      assert !fault(k + |prev.1|) && !fault(k + |prev.1| + 1);
      assert Survey(ms, fault, k, n).0 == prev.0 + [Readable(n - 1, ms[n - 1].brightness, ms[n - 1].contrast)];
    }
  }

  class MonitorController {
    /** The monitors detected at start-up, in the order the library listed them. */
    var monitors: seq<Monitor>
    /** Every transport call attempted so far. */
    var log: seq<Io>
    /** The injected transport outcomes: call number k fails iff `fault(k)`. */
    const fault: nat -> bool

    /** `__init__` followed by a `load_monitors` that detected `snapshot`. */
    constructor (snapshot: seq<Monitor>, fault: nat -> bool)
      ensures monitors == snapshot && log == [] && this.fault == fault
    {
      monitors := snapshot;
      log := [];
      this.fault := fault;
    }

    /** `_validate_monitor_index`: an empty list is reported before the range is checked. */
    function ValidateMonitorIndex(index: int): (v: IndexCheck)
      reads this
      ensures v.Accepted? <==> |monitors| > 0 && 0 <= index < |monitors|
      ensures v == NoMonitors <==> |monitors| == 0
      ensures v.InvalidIndex? ==> v.index == index && v.last == |monitors| - 1 &&
                                  (index < 0 || index >= |monitors|)
    {
      if |monitors| == 0 then NoMonitors
      else if index < 0 || index >= |monitors| then InvalidIndex(index, |monitors| - 1)
      else Accepted
    }

    /** Transport read of one setting of one monitor (inside `with monitor:`). */
    method ReadLevel(index: int, s: Setting) returns (r: Option<int>)
      requires 0 <= index < |monitors|
      modifies this
      ensures monitors == old(monitors)
      ensures log == old(log) + [Read(index, s)]
      ensures r == if fault(|old(log)|) then None else Some(Level(monitors[index], s))
    {
      if fault(|log|) {
        r := None;
      } else {
        r := Some(Level(monitors[index], s));
      }
      log := log + [Read(index, s)];
    }

    /** Transport write of one setting of one monitor; a failed write changes nothing. */
    method WriteLevel(index: int, s: Setting, v: int) returns (ok: bool)
      requires 0 <= index < |monitors|
      modifies this
      ensures log == old(log) + [Write(index, s, v)]
      ensures ok == !fault(|old(log)|)
      ensures monitors == if ok then old(monitors)[index := WithLevel(old(monitors)[index], s, v)]
                          else old(monitors)
    {
      ok := !fault(|log|);
      if ok {
        monitors := monitors[index := WithLevel(monitors[index], s, v)];
      }
      log := log + [Write(index, s, v)];
    }

    /** `list_monitors`: every monitor in index order, a read failure reported for that one only. */
    method ListMonitors() returns (reports: seq<Report>)
      modifies this
      ensures monitors == old(monitors)
      ensures reports == Survey(old(monitors), fault, |old(log)|, |old(monitors)|).0
      ensures log == old(log) + Survey(old(monitors), fault, |old(log)|, |old(monitors)|).1
    {
      reports := [];
      var i := 0;
      while i < |monitors|
        invariant 0 <= i <= |monitors|
        invariant monitors == old(monitors)
        invariant reports == Survey(monitors, fault, |old(log)|, i).0
        invariant log == old(log) + Survey(monitors, fault, |old(log)|, i).1
      {
        ghost var done := Survey(monitors, fault, |old(log)|, i);
        ghost var probe := Probe(monitors, i, fault, |old(log)| + |done.1|);
        assert Survey(monitors, fault, |old(log)|, i + 1) == (done.0 + [probe.0], done.1 + probe.1);
        var brightness := ReadLevel(i, Brightness);
        if brightness.None? {
          reports := reports + [Unreadable(i)];
        } else {
          var contrast := ReadLevel(i, Contrast);
          if contrast.None? {
            reports := reports + [Unreadable(i)];
          } else {
            reports := reports + [Readable(i, brightness.value, contrast.value)];
          }
        }
        assert reports == done.0 + [probe.0];
        assert log == old(log) + (done.1 + probe.1);
        i := i + 1;
      }
    }

    /** `set_brightness`: clamp, then write the luminance of the selected monitor. */
    method SetBrightness(index: int, brightness: int) returns (ok: bool)
      modifies this
      ensures ok <==> 0 <= index < |old(monitors)| && !fault(|old(log)|)
      ensures log == old(log) + if 0 <= index < |old(monitors)|
                                then [Write(index, Brightness, ClampLevel(brightness))] else []
      ensures monitors == if ok then old(monitors)[index := old(monitors)[index].(brightness := ClampLevel(brightness))]
                          else old(monitors)
    {
      if !ValidateMonitorIndex(index).Accepted? {
        return false;
      }
      var value := Clamp(brightness, MinLevel, MaxLevel);
      ok := WriteLevel(index, Brightness, value);
    }

    /** `set_contrast`: clamp, then write the contrast of the selected monitor. */
    method SetContrast(index: int, contrast: int) returns (ok: bool)
      modifies this
      ensures ok <==> 0 <= index < |old(monitors)| && !fault(|old(log)|)
      ensures log == old(log) + if 0 <= index < |old(monitors)|
                                then [Write(index, Contrast, ClampLevel(contrast))] else []
      ensures monitors == if ok then old(monitors)[index := old(monitors)[index].(contrast := ClampLevel(contrast))]
                          else old(monitors)
    {
      if !ValidateMonitorIndex(index).Accepted? {
        return false;
      }
      var value := Clamp(contrast, MinLevel, MaxLevel);
      ok := WriteLevel(index, Contrast, value);
    }

    /** `get_brightness`: the luminance of the selected monitor, `None` on any failure. */
    method GetBrightness(index: int) returns (r: Option<int>)
      modifies this
      ensures monitors == old(monitors)
      ensures r.Some? <==> 0 <= index < |monitors| && !fault(|old(log)|)
      ensures r.Some? ==> r.value == monitors[index].brightness
      ensures log == old(log) + if 0 <= index < |monitors| then [Read(index, Brightness)] else []
    {
      if !ValidateMonitorIndex(index).Accepted? {
        return None;
      }
      r := ReadLevel(index, Brightness);
    }

    /** `get_contrast`: the contrast of the selected monitor, `None` on any failure. */
    method GetContrast(index: int) returns (r: Option<int>)
      modifies this
      ensures monitors == old(monitors)
      ensures r.Some? <==> 0 <= index < |monitors| && !fault(|old(log)|)
      ensures r.Some? ==> r.value == monitors[index].contrast
      ensures log == old(log) + if 0 <= index < |monitors| then [Read(index, Contrast)] else []
    {
      if !ValidateMonitorIndex(index).Accepted? {
        return None;
      }
      r := ReadLevel(index, Contrast);
    }

    /**
     * `adjust_brightness`: read the luminance, then write `clamp(current + delta)`. No write
     * is attempted when the index is invalid or the read fails.
     */
    method AdjustBrightness(index: int, delta: int) returns (ok: bool)
      modifies this
      ensures !(0 <= index < |old(monitors)|) ==> !ok && log == old(log) && monitors == old(monitors)
      ensures 0 <= index < |old(monitors)| && fault(|old(log)|) ==>
                !ok && log == old(log) + [Read(index, Brightness)] && monitors == old(monitors)
      ensures 0 <= index < |old(monitors)| && !fault(|old(log)|) ==>
                var target := ClampLevel(old(monitors)[index].brightness + delta);
                && log == old(log) + [Read(index, Brightness), Write(index, Brightness, target)]
                && ok == !fault(|old(log)| + 1)
                && monitors == if ok then old(monitors)[index := old(monitors)[index].(brightness := target)]
                               else old(monitors)
    {
      var current := GetBrightness(index);
      if current.None? {
        return false;
      }
      ok := SetBrightness(index, current.value + delta);
    }

    /**
     * `adjust_contrast`: read the contrast, then write `clamp(current + delta)`. No write
     * is attempted when the index is invalid or the read fails.
     */
    method AdjustContrast(index: int, delta: int) returns (ok: bool)
      modifies this
      ensures !(0 <= index < |old(monitors)|) ==> !ok && log == old(log) && monitors == old(monitors)
      ensures 0 <= index < |old(monitors)| && fault(|old(log)|) ==>
                !ok && log == old(log) + [Read(index, Contrast)] && monitors == old(monitors)
      ensures 0 <= index < |old(monitors)| && !fault(|old(log)|) ==>
                var target := ClampLevel(old(monitors)[index].contrast + delta);
                && log == old(log) + [Read(index, Contrast), Write(index, Contrast, target)]
                && ok == !fault(|old(log)| + 1)
                && monitors == if ok then old(monitors)[index := old(monitors)[index].(contrast := target)]
                               else old(monitors)
    {
      var current := GetContrast(index);
      if current.None? {
        return false;
      }
      ok := SetContrast(index, current.value + delta);
    }

    /**
     * `set_preset`: an unknown name writes nothing. A known name attempts the brightness
     * write and then the contrast write whatever the first one's outcome, and succeeds only
     * if both do; a failed write leaves that setting as it was.
     */
    method SetPreset(index: int, name: string) returns (ok: bool)
      modifies this
      ensures Presets.Lookup(name).None? ==> !ok && log == old(log) && monitors == old(monitors)
      ensures Presets.Lookup(name).Some? && !(0 <= index < |old(monitors)|) ==>
                !ok && log == old(log) && monitors == old(monitors)
      ensures Presets.Lookup(name).Some? && 0 <= index < |old(monitors)| ==>
                log == old(log) + [Write(index, Brightness, Presets.Lookup(name).value.brightness),
                                   Write(index, Contrast, Presets.Lookup(name).value.contrast)]
      ensures Presets.Lookup(name).Some? && 0 <= index < |old(monitors)| ==>
                ok == (!fault(|old(log)|) && !fault(|old(log)| + 1))
      ensures Presets.Lookup(name).Some? && 0 <= index < |old(monitors)| ==>
                monitors == old(monitors)[index := Monitor(
                  if fault(|old(log)|) then old(monitors)[index].brightness else Presets.Lookup(name).value.brightness,
                  if fault(|old(log)| + 1) then old(monitors)[index].contrast else Presets.Lookup(name).value.contrast)]
    {
      var preset := Presets.Lookup(name);
      if preset.None? {
        return false;
      }
      ghost var before, k := monitors, |log|;
      var ok1 := SetBrightness(index, preset.value.brightness);
      assert ClampLevel(preset.value.brightness) == preset.value.brightness;
      ghost var between := monitors;
      var ok2 := SetContrast(index, preset.value.contrast);
      assert ClampLevel(preset.value.contrast) == preset.value.contrast;
      ok := ok1 && ok2;
      if 0 <= index < |before| {
        assert ok1 == !fault(k) && ok2 == !fault(k + 1);
        assert |between| == |before| && between[index].contrast == before[index].contrast;
        assert monitors[index] == Monitor(
          if ok1 then preset.value.brightness else before[index].brightness,
          if ok2 then preset.value.contrast else before[index].contrast);
      }
    }
  }
}
