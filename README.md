# WinScreenControl monitor controller, modelled in Dafny

`monitor_control.py` is a command-line tool that lists displays and sets their brightness
and contrast over DDC/CI, through the external `monitorcontrol` library. This project models
the part of it that makes decisions:

- the value normalisation: `clamp`, and the argparse type `int_0_100` together with the
  Python `int(str)` it relies on;
- the preset table of `set_preset`, and the parser's `choices` for the preset name;
- `MonitorController` as a class. It holds the snapshot of monitors taken at start-up. Its
  methods validate an index, set and get one setting, adjust one setting (a read followed by
  a saturating write), apply a preset (two best-effort writes) and list every monitor
  (best-effort reads).

Files:

- `wrappers.dfy`: `Option` and `Result`.
- `normalize.dfy`: `Clamp`, `ClampLevel`, `ParseInt` (Python's `int` for base-10 text),
  `FormatInt` (Python's `str`), `Int0To100`, and their lemmas.
- `presets.dfy`: the preset `Table`, the parser's `ParserChoices`, `Lookup` and the lemmas
  that tie the two lists together.
- `controller.dfy`: the `MonitorController` class. Also `Probe` and `Survey`, the pure
  specification of the listing loop, and the lemmas about them.
- `scenarios.dfy`: concrete runs, written as callers that prove their results from the
  contracts alone.

How the transport is modelled. A monitor is the record `Monitor(brightness, contrast)`. The
library calls `get_luminance`/`get_contrast` and `set_luminance`/`set_contrast` become two
primitives, `ReadLevel` and `WriteLevel`. The controller receives a fault oracle
`fault: nat -> bool` when it is built: the k-th transport call (counting from 0) raises
exactly when `fault(k)` holds. A read that works returns the monitor's stored value. A
write that works stores its value. A failed write leaves the monitor as it was. Every
attempted call is appended to the field `log`. This lets the contracts say which reads and
writes were attempted, and in what order.

Modelling choices:

- `list_monitors` prints its lines and returns nothing. The model returns the printed lines
  as a `seq<Report>`.
- Set, get and adjust catch every transport exception and return `False` or `None`. The
  model does the same; no error escapes a controller method.
- `clamp` is total. With `lo > hi` it returns `lo`, and `Clamp` does the same.

## Model

| member | source | states |
|---|---|---|
| Normalize.Clamp | monitor_control.py:24-25 | the result is never below `lo`; when `lo <= hi` it lies in `[lo, hi]`; it equals the value when that is already in range, `hi` above the range and `lo` below it |
| Normalize.ClampLevel | monitor_control.py:84 | `clamp(v, 0, 100)` lies in [0, 100], keeps in-range values and saturates at 100 and at 0 |
| Normalize.ClampIdempotent | monitor_control.py:24-25 | clamping a clamped value changes nothing, for any bounds |
| Normalize.ClampExamples | monitor_control.py:24-25 | 150 becomes 100, -20 becomes 0, 57 stays 57; 95 + 20 becomes 100 and 75 - 10 becomes 65 |
| Normalize.StripLeftSpec | monitor_control.py:30 | stripping on the left removes only the whitespace `int` skips (ASCII space, tab, line feed, vertical tab, form feed, carriage return, and non-ASCII whitespace; not U+001C to U+001F) and stops at the first other character |
| Normalize.StripRightSpec | monitor_control.py:30 | stripping on the right removes only the whitespace `int` skips, the same set, and stops at the last other character |
| Normalize.ParseInt | monitor_control.py:30 | `int(s)` succeeds only on text that is not blank once stripped |
| Normalize.ParseSigned | monitor_control.py:30 | a stripped literal is read only if it is non-empty and has at most 4300 digits (the default `sys.get_int_max_str_digits()`), and a negative result needs a leading minus sign |
| Normalize.ParseFormat | monitor_control.py:30 | `int(str(v)) == v` for every integer `v` that `str` converts, i.e. of at most 4300 digits |
| Normalize.StripExamples | monitor_control.py:30 | `int` strips surrounding whitespace, e.g. " 42\n" becomes "42", and leaves other words alone, including "\x1c5", whose information separator `int` does not strip |
| Normalize.ParseSignedExamples | monitor_control.py:30 | a sign and single underscores between digits are accepted; "1__0", "4.5", "- 5" and "\x1c5" are rejected |
| Normalize.Int0To100 | monitor_control.py:28-35 | accepts a word exactly when it parses to an integer in [0, 100], and then returns that integer unchanged; "must be an integer" exactly when it does not parse; "must be between 0 and 100" otherwise |
| Normalize.Int0To100OfFormat | monitor_control.py:28-35 | the decimal text of any integer `v` of at most 4300 digits gives `v` when 0 <= v <= 100 and the range error otherwise |
| Normalize.Int0To100Examples | monitor_control.py:28-35 | "75", " 42\n" and "+1_0" are accepted as 75, 42 and 10; "101" and "-1" are out of range; "4.5", "1__0", "- 5", "" and "\x1c5" are not integers |
| Normalize.Int0To100DigitLimit | monitor_control.py:30-32 | 4301 zeros are rejected as "must be an integer", because `int` refuses more than 4300 digits |
| Normalize.AcceptedNeedsNoClamp | monitor_control.py:33-35 | a value that `int_0_100` accepts is left unchanged by the later clamp |
| Presets.FindSpec | monitor_control.py:167-171 | a lookup finds a preset exactly when the name is a key, and then returns the preset stored under that key |
| Presets.FindEntry | monitor_control.py:171 | when the keys are distinct, looking up any entry's key returns that entry's preset |
| Presets.Lookup | monitor_control.py:155-171 | every preset found has brightness and contrast in [0, 100] |
| Presets.LookupKnown | monitor_control.py:203 | `set_preset` knows a name exactly when the parser's `choices` list it |
| Presets.ChoicesDistinct | monitor_control.py:203 | no preset name is offered twice by the parser |
| Presets.TableShape | monitor_control.py:155-165 | the table has nine distinct keys, the same as the parser's choices and in the same order, and every value is left unchanged by `clamp` |
| Presets.LookupExamples | monitor_control.py:161 | "reading" is brightness 40 and contrast 60; "bright" is brightness 90 and contrast 75 |
| Presets.LookupUnknown | monitor_control.py:167-169 | "ultra" is not a preset |
| Controller.WithLevel | monitor_control.py:88 | a write replaces the setting written and keeps the other one |
| Controller.Probe | monitor_control.py:71-77 | one monitor's listing: the luminance is read, and the contrast only if that read worked; the line is readable exactly when both reads work, and then shows the monitor's settings |
| Controller.Survey | monitor_control.py:69-77 | listing n monitors gives n lines, at the cost of between n and 2n transport calls |
| Controller.SurveyReports | monitor_control.py:69-75 | line j is about monitor j, and a readable line shows monitor j's real settings |
| Controller.SurveyCalls | monitor_control.py:69-74 | listing never writes; it reads the monitors in index order and reads every monitor's luminance |
| Controller.SurveyPrefix | monitor_control.py:69 | listing more monitors only extends the lines and the calls made for fewer |
| Controller.SurveyIsolation | monitor_control.py:71-77 | monitor j's line depends only on its own reads, so a failure elsewhere neither stops the loop nor changes this line |
| Controller.SurveyHealthy | monitor_control.py:71-75 | when no transport call fails, every monitor is listed with its settings, two reads each |
| Controller.MonitorController.constructor | monitor_control.py:39-46 | the controller holds the detected snapshot and has made no transport call yet |
| Controller.MonitorController.ValidateMonitorIndex | monitor_control.py:54-64 | accepted exactly when the list is non-empty and 0 <= i < len; an empty list is the distinct "no monitors" outcome; otherwise it reports the index and the last valid index |
| Controller.MonitorController.ReadLevel | monitor_control.py:116-120 | one transport read: it fails when the oracle says so, and otherwise returns the monitor's setting; monitors are unchanged |
| Controller.MonitorController.WriteLevel | monitor_control.py:86-90 | one transport write: when it works only that setting of that monitor changes; when it fails nothing changes |
| Controller.MonitorController.ListMonitors | monitor_control.py:66-77 | the lines and the calls of the loop are those of `Survey` over all monitors; the monitors are unchanged |
| Controller.MonitorController.SetBrightness | monitor_control.py:79-93 | an invalid index makes no write and returns False. Otherwise it writes `clamp(value)` once to the luminance of that monitor only, and returns True exactly when the write worked |
| Controller.MonitorController.SetContrast | monitor_control.py:95-109 | the same as SetBrightness, for the contrast |
| Controller.MonitorController.GetBrightness | monitor_control.py:111-123 | returns the monitor's luminance exactly when the index is valid and the read works, and `None` otherwise; it reads only when the index is valid and changes nothing |
| Controller.MonitorController.GetContrast | monitor_control.py:125-137 | the same as GetBrightness, for the contrast |
| Controller.MonitorController.AdjustBrightness | monitor_control.py:139-144 | an invalid index calls nothing; a failed read stops before any write. Otherwise the single write is `clamp(current + delta)`, and the result is that write's outcome |
| Controller.MonitorController.AdjustContrast | monitor_control.py:146-151 | the same as AdjustBrightness, for the contrast |
| Controller.MonitorController.SetPreset | monitor_control.py:153-177 | an unknown name or an invalid index writes nothing and returns False. A known name writes the preset's brightness and then its contrast whatever the first outcome. Each setting changes only if its write worked, and the result is True exactly when both did |
| Scenarios.ReadingPreset | monitor_control.py:171-177 | "reading" with both writes working leaves brightness 40 and contrast 60 and returns True |
| Scenarios.PresetFirstWriteFails | monitor_control.py:172-177 | a failed brightness write still leads to the contrast write; the result is False with the contrast set |
| Scenarios.UnknownPreset | monitor_control.py:167-169 | "ultra" returns False with no transport call |
| Scenarios.AdjustSaturates | monitor_control.py:139-144 | 95 + 20 writes 100 and 75 - 10 writes 65 |
| Scenarios.AdjustReadFails | monitor_control.py:146-150 | a failed read ends the adjustment with no write |
| Scenarios.IndexChecks | monitor_control.py:54-64 | with two monitors, 0 and 1 are accepted and 2 and -1 rejected; with none, any index gets the "no monitors" outcome |
| Scenarios.SetInvalidIndex | monitor_control.py:95-98 | an out-of-range index returns False with no write |
| Scenarios.ListWithUnreadable | monitor_control.py:66-77 | when monitor 1's read fails, monitor 0 is listed with its real settings and monitor 1 as unreadable |

## Left out

- Device detection (`get_monitors` in `load_monitors`), its exception path and `sys.exit(1)`. The constructor takes the detected snapshot as a parameter.
- The DDC/CI transport, which is foreign code. Each transport call becomes one read or one write of one setting, and the injected `fault` oracle decides whether it raises. The `with monitor:` acquire and release is not a separate step: a failure while opening the handle counts as a failure of the first call in that block. Values the hardware returns outside [0, 100] are passed through unchanged, with no range invariant.
- A write that raises after the device has already taken the value. A failed write never changes the model's state.
- All `print` output and message text. The monitor descriptor (`str(monitor)`) in listing lines. The names listed by the "Unknown preset" message.
- `build_parser` and the `main` dispatch (argparse plumbing). This includes the `get` command, which calls `get_brightness` and `get_contrast` one after the other. It also includes the default monitor index 0 and argparse's handling of a type error. Only the preset `choices` are modelled (`ParserChoices`).
- Normalize.ParseInt: Python's `int` also accepts non-ASCII Unicode decimal digits (for example Arabic-Indic digits). The model reads only ASCII `0`-`9`. The whitespace `int` strips is modelled in full.
- Normalize.ParseSigned: the digit limit is fixed at its default, 4300. Python lets it be changed (`sys.set_int_max_str_digits`, the `PYTHONINTMAXSTRDIGITS` environment variable, 0 for no limit). Interpreters older than the 3.11 line and its security releases have no limit.
- Normalize.ParseFormat and Normalize.Int0To100OfFormat: `FormatInt` does not raise as `str` does for integers of more than 4300 digits. The two lemmas therefore require at most 4300 digits.
- Default arguments of the controller methods (`monitor_index=0`, `brightness=50`, `contrast=50`, `delta=10`, `preset_name="normal"`): every model method takes all its arguments explicitly. Every caller in the program passes them all.
- A handle release (leaving `with monitor:`) that raises after the read or write inside it worked. Python then reports the failure (`None` or `False`), whereas the model returns the value read, or `True` with the value stored.
- Process exit codes, concurrency and timeouts: the tool is single-threaded and runs one command per process.
