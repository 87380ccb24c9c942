# plugaway: keyboard-layout switching on USB hot-plug

plugaway watches USB devices on macOS and switches the active keyboard input
source: to the "external" layout when a USB keyboard is attached and to the
"internal" layout when one is detached. This project models, in Dafny, the
decision logic of `plugaway.swift`:

- **Classifier** (`classifier.dfy`): `KeyboardName` turns a device handle into
  "a keyboard with this name" or nothing. It is an exact-match switch followed
  by a case-sensitive "ends with `Keyboard`" test. Two names are special:
  `"Apple Internal Keyboard / Trackpad"` is rejected and `"IOUSBHostDevice"`
  is accepted. A failed registry-name lookup, including the one on the null
  object an empty iterator yields, is never a keyboard.
- **Notifications** (`notifications.dfy`): the notification iterator is a
  class. It holds the per-handle name lookups of one burst and a cursor.
  `Drain` empties it with a `while` loop; emptying re-arms the subscription.
  `DeviceAdded` and `DeviceRemoved` take the first handle only, classify it,
  emit at most one event, and then always drain the rest of the burst.
  `StartMonitoring` drains the two iterators that registration returns without
  classifying them, so no layout is chosen at startup.
- **Arbitration** (`arbitration.dfy`): `GetLayouts` picks input sources 0 and 1
  or fails with exit status 1. `OnChange` selects exactly one layout per event:
  internal for `InternalKeyboard`, external for `ExternalKeyboard`. The input
  source service is an `Actuator` object whose `log` records every selection.
- **Startup** (`startup.dfy`): the top-level argument loop (`-d` sets debug,
  anything else is exit status 2), then the layout choice.

Behaviour worth noting:

- The built-in keyboard's name yields "not a keyboard".
- `"IOUSBHostDevice"` is a keyboard.
- Only the first handle of a burst is classified; later keyboards in the same burst are ignored.
- A detached keyboard produces the name-less `InternalKeyboard` event.
- There is no startup reconciliation of already-present keyboards.

The lemma `ExceptionNamesAgainstSuffix` shows that the built-in name does not
end with "Keyboard" (it ends with "Trackpad"). The suffix test alone would therefore already reject it, and the
explicit switch case for it changes nothing. Only `"IOUSBHostDevice"` is a real
exception to the suffix rule (`KeyboardNameIff`).

## Model

| member | source | states |
|---|---|---|
| Classifier.KeyboardName | plugaway.swift:63-90 | a failed lookup is not a keyboard; a keyboard is reported under its looked-up name; the built-in name is rejected; the generic host device name is accepted |
| Classifier.HasSuffixMeansEndsWith | plugaway.swift:85 | the character-by-character suffix test holds exactly when the last characters of the name are the suffix |
| Classifier.ConcatenationEndsWithSuffix | plugaway.swift:85 | any prefix followed by the suffix passes the suffix test |
| Classifier.ExceptionNamesAgainstSuffix | plugaway.swift:74-79 | neither special name ends with "Keyboard"; the built-in name is rejected and "IOUSBHostDevice" is accepted under its own name |
| Classifier.KeyboardNameIff | plugaway.swift:74-89 | a looked-up name is a keyboard if and only if it is "IOUSBHostDevice" or ends with "Keyboard", and the returned string equals the name |
| Classifier.SuffixedNameIsKeyboard | plugaway.swift:85-86 | every name of the form prefix + "Keyboard" classifies as a keyboard under that same name |
| Classifier.UnsuffixedNameIsNotKeyboard | plugaway.swift:81-89 | a name other than "IOUSBHostDevice" that does not end with "Keyboard" is not a keyboard |
| Classifier.ClassifierExamples | plugaway.swift:63-90 | "Logitech USB Keyboard" is a keyboard; "Trackpad", a failed lookup and the null object are not |
| Arbitration.GetLayouts | plugaway.swift:110-118 | fewer than two sources fails with exit status 1; otherwise internal is source 0 and external is source 1 |
| Arbitration.GetLayoutsIgnoresLaterSources | plugaway.swift:115-116 | sources after the first two never change the layouts chosen |
| Arbitration.LayoutFor | plugaway.swift:121-130 | an internal-keyboard event selects the internal layout and an external-keyboard event the external one |
| Arbitration.LayoutForDistinguishesEvents | plugaway.swift:121-130 | with two distinct layouts, the selected layout is external exactly for external-keyboard events, and the device name plays no part |
| Arbitration.Actuator.Select | plugaway.swift:125 | each selection of an input source is appended to the log |
| Arbitration.OnChange | plugaway.swift:121-130 | appends exactly one selection, the layout the event maps to, and keeps earlier selections |
| Notifications.DeviceIterator.Next | plugaway.swift:44 | yields the next handle and advances the cursor, or yields the null object once the burst is exhausted |
| Notifications.BurstEvent | plugaway.swift:47-61 | an event is emitted if and only if the burst's first handle classifies as a keyboard; a match carries that name, a termination is the internal-keyboard event |
| Notifications.OnlyFirstHandleClassified | plugaway.swift:48-52 | handles after the first never change the emitted event; a non-keyboard first handle emits nothing |
| Notifications.SuffixedFirstDeviceEmits | plugaway.swift:47-61 | a burst whose first device ends with "Keyboard" emits an external event on a match and the internal event on a termination |
| Notifications.Drain | plugaway.swift:43-45 | the iterator ends exhausted, whatever its handles are |
| Notifications.DeviceAdded | plugaway.swift:47-53 | emits the burst's event, selects the external layout once if and only if an event is emitted, and leaves the iterator exhausted |
| Notifications.DeviceRemoved | plugaway.swift:55-61 | emits the burst's event, selects the internal layout once if and only if an event is emitted, and leaves the iterator exhausted |
| Notifications.StartMonitoring | plugaway.swift:29-40 | both initial iterators end exhausted; nothing is classified and no layout is selected |
| Startup.ParseArguments | plugaway.swift:139-146 | fails with exit status 2 if and only if some argument after the program name is not "-d"; otherwise debug is on exactly when there is at least one argument |
| Startup.Configure | plugaway.swift:139-148 | a bad argument gives exit status 2 before the sources are looked at; otherwise the layouts come from sources 0 and 1 or the result is exit status 1 |

## Left out

- IOKit notification port, run-loop source, matching dictionary and registration (plugaway.swift:10-27, 32-39) and the run loop (line 151): operating-system plumbing. Callbacks are modelled as method calls on iterators built from a burst's handles.
- The 1024-byte name buffer and the C-string conversion behind the registry-name lookup (lines 64-70): a foreign call. A lookup is modelled as an `Option<string>` carried by each handle, and the lookup on the null object is assumed to fail (`RegistryName`).
- Classifier.KeyboardName: names are compared character by character as sequences of Unicode scalars, not as Swift `Character`s (grapheme clusters) under canonical equivalence, which is how the `switch` at line 74 and `hasSuffix` at line 85 compare them. The model agrees with the source on ASCII names and may differ on non-ASCII ones, e.g. a name ending in KELVIN SIGN + "eyboard", or one where a prepending mark joins the "K" into one grapheme.
- The enumeration of input sources (`TISCreateInputSourceList`, line 97): a foreign call. The sources are an ordered sequence of opaque references given to `GetLayouts`.
- Printing of layouts, device names, events and the usage text (lines 71-73, 99-108, 111, 124, 128, 133-135): logging only. The debug flag is parsed but only ever gates logging.
- Process termination by `exit`: modelled as a `Failure` carrying exit status 1 or 2.
- Release of IOKit object references: not handled by the source and not decision logic.
- `CommandLine.arguments` always holds the program name, so `ParseArguments` and `Configure` require at least one argument.
