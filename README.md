# DASHCISOs signal registry and dashboard, in Dafny

This project models the core of the DASHCISOs CISO security dashboard:

- the **signal registry** (`dashboard/signals.py`): the closed `RiskLevel`
  enumeration (Low, Medium, High, Informational), the frozen `Signal` record
  (icon, colour, meaning, back-reference to its level), its text rendering
  `icon [colour] meaning`, and the `SIGNALS` table holding one signal per level;
- the **dashboard** (`dashboard/__init__.py`): `_env_flag`, which reads an
  environment variable (default `"false"`), lower-cases it and compares it
  with `"true"`; the `Dashboard` object, which captures the `ACTIVE`,
  `SIGANIOS_ENABLED` and `ALERTS_ENABLED` flags once when it is built; and its
  queries `get_signal`, `render_signal` (bracketed meaning when siganios are
  off, full rendering when on) and `status`.

Files:

- `text.dfy` (module `Text`): Python's substring test `sub in s` (`Contains`)
  and `str.lower()` on ASCII letters (`Lower`).
- `signals.dfy` (module `SignalRegistry`): `RiskLevel`, `Signal`, `SignalStr`,
  the table `Signals` and its properties.
- `dashboard.dfy` (module `CisoDashboard`): the environment as a map,
  `EnvFlag`, the immutable `Dashboard` datatype with `GetSignal`,
  `RenderSignal` and `Status`, the constructor `FromEnv`, and their properties.

The core is pure: the enumeration, the record and the table are values, and
the dashboard's three attributes are assigned once in `__init__` and never
again, so the dashboard is a datatype and its methods are functions. That
`get_signal` and `render_signal` leave the flags unchanged follows from that:
they are functions of an immutable value.

`_env_flag` (dashboard/__init__.py:10) accepts only the case variants of
`"true"`; `"1"`, `"yes"` and `"on"` are false (`EnvFlagExamples`).

## Model

| member | source | states |
|---|---|---|
| `SignalRegistry.LevelsClosed` | dashboard/signals.py:11-15 | the enumeration has exactly four members, listed once each in declaration order, and every `RiskLevel` is among them |
| `SignalRegistry.Value` | dashboard/signals.py:12-15 | each of the four value strings `"Low Risk"`, `"Medium Risk"`, `"High Risk"`, `"Informational"` belongs to exactly one member |
| `SignalRegistry.ValuesDistinct` | dashboard/signals.py:11-15 | two members carry the same enumeration value iff they are the same member, so no member is an alias |
| `SignalRegistry.SignalStr` | dashboard/signals.py:27-28 | the rendering has length icon + colour + meaning + 4 and holds the icon at 0, `" ["` after it, the colour, `"] "`, then the meaning at the end |
| `SignalRegistry.SignalStrContainsParts` | dashboard/signals.py:27-28 | `str(signal)` contains the signal's icon, colour and meaning |
| `SignalRegistry.Signals` | dashboard/signals.py:32-37 | the table is total; each entry's risk level is its own key; every icon starts with a non-ASCII code point and every meaning is ASCII |
| `SignalRegistry.EveryLevelHasItsSignal` | dashboard/signals.py:32-37 | iterating over the enumeration, every level has an entry whose back-reference is that level |
| `SignalRegistry.OneSignalPerLevel` | dashboard/signals.py:32-37 | distinct levels have distinct signals, and the table holds exactly four signals |
| `SignalRegistry.IconsDistinct` | dashboard/signals.py:33-36 | two levels share an icon iff they are the same level |
| `SignalRegistry.ColorsDistinct` | dashboard/signals.py:33-36 | two levels share a colour iff they are the same level |
| `SignalRegistry.RenderingsDistinct` | dashboard/signals.py:27-37 | two levels' signals render to the same string iff they are the same level |
| `SignalRegistry.LowRendering` | dashboard/signals.py:27-33 | the Low signal renders as check mark, `[Green]`, `Compliant / Low Risk` |
| `Text.Lower` | dashboard/__init__.py:10 | lower-casing keeps the length and maps each character by the ASCII rule, position by position |
| `CisoDashboard.LowerIsTrueIff` | dashboard/__init__.py:10 | a string lower-cases to `"true"` iff it is one of the sixteen case variants of `"true"` |
| `CisoDashboard.GetEnv` | dashboard/__init__.py:10 | `os.getenv(name, default)`: the variable's value when it is set, the default when it is not |
| `CisoDashboard.EnvFlag` | dashboard/__init__.py:8-10 | the flag is true iff the variable is set and its value is a case variant of `"true"`; an unset variable gives false |
| `CisoDashboard.EnvFlagReadsOwnVariable` | dashboard/__init__.py:8-10 | setting any other variable leaves a flag unchanged |
| `CisoDashboard.EnvFlagExamples` | dashboard/__init__.py:10 | unset gives false; `"true"`, `"TRUE"`, `"True"` give true; `"1"`, `""`, `"yes"`, `"on"`, `"false"` give false |
| `CisoDashboard.FromEnv` | dashboard/__init__.py:22-25 | each of `active`, `siganios_enabled`, `alerts_enabled` is true iff its own variable (`ACTIVE`, `SIGANIOS_ENABLED`, `ALERTS_ENABLED`) is set to a case variant of `"true"` |
| `CisoDashboard.Dashboard.GetSignal` | dashboard/__init__.py:31-33 | the lookup cannot fail, returns the table's entry, and its risk level is the level asked for |
| `CisoDashboard.Dashboard.RenderSignal` | dashboard/__init__.py:35-45 | the rendering contains the meaning; with siganios off it does not contain the icon; with siganios on it contains icon and colour |
| `CisoDashboard.RenderSignalModes` | dashboard/__init__.py:42-45 | with siganios off the rendering is `"[" + meaning + "]"`; with siganios on it is `str(signal)` |
| `CisoDashboard.RenderSignalIgnoresOtherFlags` | dashboard/__init__.py:42-45 | the rendering depends on the siganios flag only, not on `active` or `alerts_enabled` |
| `CisoDashboard.DisabledRenderingHasNoIcon` | dashboard/__init__.py:42-44 | with siganios off, no level's rendering contains the icon of any level |
| `CisoDashboard.Dashboard.Status` | dashboard/__init__.py:47-53 | the status has exactly the keys `active`, `siganios_enabled`, `alerts_enabled`, each bound to the captured flag |
| `CisoDashboard.StatusFromEnv` | dashboard/__init__.py:22-53 | a fresh dashboard's status reports the three flags parsed from the environment |
| `CisoDashboard.AllUnsetAllOff` | dashboard/__init__.py:22-25 | in any environment where none of the three variables is set, all three flags are off and the status says so |
| `CisoDashboard.AllTrueAllOn` | dashboard/__init__.py:22-25 | in any environment where all three variables are `"true"`, the status reports all three on |
| `CisoDashboard.RenderHighDisabled` | dashboard/__init__.py:42-44 | in any environment where the siganios variable is unset, High renders as `[Critical / High Risk]` |
| `CisoDashboard.RenderLowEnabled` | dashboard/__init__.py:45 | in any environment with `SIGANIOS_ENABLED=true`, Low renders as check mark, `[Green]`, `Compliant / Low Risk` |

## Left out

- Reading the process environment (`os.getenv`, dashboard/__init__.py:10) is I/O: the environment is a `map<string, string>` parameter.
- Text.Lower: lower-cases ASCII letters only, not Python's full Unicode case mapping. The only non-ASCII characters whose Python lower-case contains an ASCII letter are U+0130 (to `i` plus a combining dot) and U+212A KELVIN SIGN (to `k`); neither gives `t`, `r`, `u` or `e`, so the set of values accepted as true is the same.
- Python object identity (`is`) is modelled as value equality; `dataclass(frozen=True)` enforcement and `dict` hashing are runtime mechanics that the Dafny datatypes make unnecessary.
- The `SIGNALS` dict literal is modelled as a total function with one case per level; the dict object itself (its hashing and iteration order) is not modelled.
- `get_signal` and `render_signal` (dashboard/__init__.py:31, 35) do not check the type of their argument at run time, so a call with a hashable value that is not a `RiskLevel` (such as `"Low Risk"`) raises `KeyError` from the `SIGNALS` lookup, and one with an unhashable value (such as a list) raises `TypeError`; the model's parameter type `RiskLevel` rules such calls out, and that error path is not modelled.
- `alerts_enabled` is captured and reported by `status()` but drives no behaviour; no alert dispatch exists to model.
- A Python attribute could be reassigned from outside the object; the code never does so, and the model's dashboard is immutable.
