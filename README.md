# Loco Positioning tab state and SDL2 game-controller reader

This project models two pieces of sequential logic from the Crazyflie
desktop client and proves properties of them. Both pieces sit inside UI
and SDL glue code.

- **Loco Positioning tab** (`LocoPositioning`, `locopositioning.dfy`).
  The tab keeps the anchors of the Loco Positioning System it has heard
  of: a dictionary of `Anchor` objects, each with a position and a
  measured distance. It also keeps the estimated position of the
  Crazyflie as a 3-element list. Log and parameter callbacks feed this
  state. The callbacks identify their variables by name:
  `ranging.distanceN`, `kalman.stateX|Y|Z` and `anchorpos.anchorNa`.
  The model has:
  - the three name parsers and the names they accept;
  - `Anchor` as a class with `set_position`;
  - the tab as a class holding the anchor dictionary and the position
    array;
  - the three update callbacks, each proved against a function on values:
    the range callback against `RangeUpdates`, a fold over the log entries
    on the anchor values; the position callback against `PositionUpdates`,
    a fold over the log entries on the position list; and the anchor
    position parameter callback against `AnchorPositionUpdate`, a single
    update of the anchor values;
  - `PlotWrapper._find_missing_axis`.
- **SDL2 game-controller reader** (`SdlGameController`,
  `sdl_gamecontroller.dfy`). A dispatcher routes SDL events to one
  device's queue. `_JS.read` drains that queue into the device's
  `axes` and `buttons` arrays, applying the 2000-unit deadzone and the
  two synthetic trigger buttons. `devices()` lists the connected
  controllers while its list is empty. A name that is already listed
  gets a ` #k` suffix.
  - `_JS` is a class with arrays, and its `read` loop is proved against
    `Drain`, a fold over the queue.
  - `SDL2GameController` is a class holding the `_JS` dictionary, the
    device list and the dispatcher's enable flag. Its invariant says there
    is a `_JS` exactly for each listed index, each with its own arrays.
  - SDL is abstracted. The events, the handle that
    `SDL_GameControllerOpen` returns and the names that
    `SDL_GameControllerNameForIndex` returns arrive as parameters.

`Outcomes` (`outcomes.dfy`) holds the types that model Python exceptions:
- `Result` is a value or a raised exception.
- `Run` is a loop that completed or was aborted by an exception. An
  aborted loop keeps the updates it made before the exception.

`Text` (`text.dfy`) holds the Python string built-ins the code uses:
`str.startswith`, `int()` of one digit, `list.count` and `str()` of a
natural number.

Two consequences of the code are worth knowing:
- A stored axis value is not always in [-1, 1]: the raw value -32768 is
  stored as -32768/32767 (`ScaledRange`).
- `devices()` enumerates again on every call while its list is empty,
  that is, while no controller has been found yet
  (`GameController.Devices`).

## Model

| member | source | states |
|---|---|---|
| LocoPositioning.ParseRangeParamName | src/cfclient/ui/tabs/locopositioning_tab.py:445-453 | A name matches exactly when it starts with `ranging.distance`. It then raises ValueError exactly when its last character is not a digit. Otherwise the anchor number is that digit (0..9), and the name is the prefix, anything, then that digit. |
| LocoPositioning.ParsePositionParamName | src/cfclient/ui/tabs/locopositioning_tab.py:455-464 | A name matches exactly when it starts with `kalman.state`. It then raises KeyError exactly when its last character is not `X`, `Y` or `Z`. Otherwise the axis is in 0..2 and is the position of that character in `XYZ`. |
| LocoPositioning.ParseAnchorParameterName | src/cfclient/ui/tabs/locopositioning_tab.py:466-476 | A name matches exactly when it starts with `anchorpos.anchor`. IndexError is raised exactly when the name ends at index 16, or at index 17 after a digit. ValueError is raised exactly when index 16 is not a digit. No other exception is raised. The name is parsed exactly when it has the prefix, a digit at index 16 and at least 18 characters; the anchor number is then that digit and the axis is the character at index 17. |
| LocoPositioning.ParseRoundTrips | src/cfclient/ui/tabs/locopositioning_tab.py:445-476 | Each parser gives back the anchor number or axis that a well-formed name was built from. |
| LocoPositioning.RangeNameReadsLastDigitOnly | src/cfclient/ui/tabs/locopositioning_tab.py:445-453 | `ranging.distance12` is read as anchor 2. The bare prefix raises ValueError. |
| LocoPositioning.FindMissingAxis | src/cfclient/ui/tabs/locopositioning_tab.py:148-153 | The result is defined exactly for two distinct axes from {x, y, z}, and it is the third one. Any other input raises KeyError. |
| LocoPositioning.WithPosition | src/cfclient/ui/tabs/locopositioning_tab.py:78-84 | Only `x`, `y` and `z` are accepted; any other axis raises ValueError. The named coordinate is set, and the other two coordinates and the distance are kept. |
| LocoPositioning.Anchor.constructor | src/cfclient/ui/tabs/locopositioning_tab.py:72-76 | A new anchor is at (0, 0, 0) with distance 0. |
| LocoPositioning.Anchor.SetPosition | src/cfclient/ui/tabs/locopositioning_tab.py:78-84 | Sets the coordinate as `WithPosition` says. On ValueError the anchor is unchanged. |
| LocoPositioning.WithAnchor | src/cfclient/ui/tabs/locopositioning_tab.py:478-481 | The key is present afterwards. A new anchor has default values, and only when the key was absent. Other entries are kept, and a second call changes nothing. |
| LocoPositioning.RangeEntry | src/cfclient/ui/tabs/locopositioning_tab.py:407-409 | One log entry: it raises ValueError exactly when the parser does. A matching name sets the distance of its anchor, created at the origin if absent, and every other anchor is kept. Properties of the whole loop are in the `RangeUpdates*` lemmas. |
| LocoPositioning.RangeUpdates | src/cfclient/ui/tabs/locopositioning_tab.py:404-409 | The entries applied in order, stopping at the first one that raises. No anchor is ever removed, and the only exception is ValueError. Further properties are in `RangeUpdatesKeepPositions`, `RangeUpdatesUntouched`, `RangeUpdatesLastWins` and `RangeUpdatesAbort`. |
| LocoPositioning.PositionEntry | src/cfclient/ui/tabs/locopositioning_tab.py:414-416 | One log entry: it raises KeyError exactly when the parser does. A matching name sets its coordinate, and the other two are kept. |
| LocoPositioning.AnchorPositionUpdate | src/cfclient/ui/tabs/locopositioning_tab.py:438-443 | A name the parser rejects aborts with the parser's exception and changes nothing. After the name is parsed, the only exception is ValueError from `set_position`. Further properties are in `AnchorPositionUpdateFrame`. |
| LocoPositioning.PositionUpdatesAbort | src/cfclient/ui/tabs/locopositioning_tab.py:411-416 | The callback stops with an exception exactly when some entry's name makes the lookup raise. |
| LocoPositioning.PositionUpdates | src/cfclient/ui/tabs/locopositioning_tab.py:411-416 | The entries applied in order, stopping at the first one that raises. The position keeps its three coordinates, and the only exception is KeyError. Further properties are in `PositionUpdatesUntouched`, `PositionUpdatesLastWins` and `PositionUpdatesAbort`. |
| LocoPositioning.RangeUpdatesKeepPositions | src/cfclient/ui/tabs/locopositioning_tab.py:404-409 | Range updates never move an anchor. Existing anchors keep their coordinates, anchors they create sit at the origin, and no anchor is removed. |
| LocoPositioning.RangeUpdatesUntouched | src/cfclient/ui/tabs/locopositioning_tab.py:404-409 | An anchor that no entry names is neither created nor changed. |
| LocoPositioning.RangeUpdatesLastWins | src/cfclient/ui/tabs/locopositioning_tab.py:404-409 | When no entry raises, an anchor's distance is the value of the last entry naming it. |
| LocoPositioning.RangeUpdatesAbort | src/cfclient/ui/tabs/locopositioning_tab.py:404-409 | The callback stops with an exception exactly when some entry's name makes the parser raise. |
| LocoPositioning.PositionUpdatesUntouched | src/cfclient/ui/tabs/locopositioning_tab.py:411-416 | A coordinate that no entry names keeps its value. |
| LocoPositioning.PositionUpdatesLastWins | src/cfclient/ui/tabs/locopositioning_tab.py:411-416 | When no entry raises, a coordinate is the value of the last entry naming it. |
| LocoPositioning.AnchorPositionUpdateFrame | src/cfclient/ui/tabs/locopositioning_tab.py:438-443 | An anchor parameter changes at most the one coordinate it names, of the one anchor it names, and never a distance. It completes exactly when the axis is x, y or z, and the named anchor then keeps its other two coordinates. On an invalid axis it raises with the anchor created at its defaults if it was absent and unchanged if it existed. A name that does not match changes nothing. |
| LocoPositioning.LocoPositioningTab.constructor | src/cfclient/ui/tabs/locopositioning_tab.py:252-254 | The tab starts with no anchors and the position at the origin. |
| LocoPositioning.LocoPositioningTab.ClearState | src/cfclient/ui/tabs/locopositioning_tab.py:330-332 | No anchors remain, and a new 3-element position list is at the origin. |
| LocoPositioning.LocoPositioningTab.GetAnchor | src/cfclient/ui/tabs/locopositioning_tab.py:478-481 | Returns the Anchor object under the key. A new object is made only when the key was absent. The anchor values change as `WithAnchor` says, and no object is shared between two keys. |
| LocoPositioning.LocoPositioningTab.SetDistance | src/cfclient/ui/tabs/locopositioning_tab.py:409 | Gets or creates the anchor, then sets only its distance. |
| LocoPositioning.LocoPositioningTab.AnchorRangeReceived | src/cfclient/ui/tabs/locopositioning_tab.py:404-409 | The anchor values afterwards are those of `RangeUpdates`. The callback raises exactly when the fold aborts, with the same exception. The position is kept. |
| LocoPositioning.LocoPositioningTab.PositionReceived | src/cfclient/ui/tabs/locopositioning_tab.py:411-416 | The position array afterwards is that of `PositionUpdates`. The callback raises exactly when the fold aborts. |
| LocoPositioning.LocoPositioningTab.SetAnchorPosition | src/cfclient/ui/tabs/locopositioning_tab.py:438-443 | The anchor values afterwards are those of `AnchorPositionUpdate`, and the callback raises exactly when it aborts. |
| LocoPositioning.LocoPositioningTab.SetCoordinate | src/cfclient/ui/tabs/locopositioning_tab.py:443 | Gets or creates the anchor, then sets one coordinate. On an invalid axis it raises ValueError and keeps the created anchor. |
| SdlGameController.Filtered | src/cfclient/utils/input/inputreaders/sdl_gamecontroller.py:149-150 | A raw value with absolute value below 2000 reads as 0. Any other raw value is kept. |
| SdlGameController.Scaled | src/cfclient/utils/input/inputreaders/sdl_gamecontroller.py:152-155 | The stored value times 32767 gives back the filtered raw value. Its range is in `ScaledRange`. |
| SdlGameController.Pressed | src/cfclient/utils/input/inputreaders/sdl_gamecontroller.py:157-161 | A trigger button is 1 exactly when the raw value is at least 2000, and 0 otherwise. |
| SdlGameController.ScaledRange | src/cfclient/utils/input/inputreaders/sdl_gamecontroller.py:147-155 | The stored value is 0 exactly inside the deadzone. It lies in [-1, 1] for every 16-bit raw value except -32768, which is stored below -1. |
| SdlGameController.AxisWrite | src/cfclient/utils/input/inputreaders/sdl_gamecontroller.py:152-155 | Only an axis-motion event for the axis writes it, and what it writes is 0 exactly inside the deadzone. |
| SdlGameController.ButtonWrite | src/cfclient/utils/input/inputreaders/sdl_gamecontroller.py:157-167 | Every button write is 0 or 1. Axis motion writes only the last slot (left trigger) or the one before it (right trigger). A button-down event writes 1 and a button-up event writes 0, only in the slot of its button. |
| SdlGameController.IndicesExist | src/cfclient/utils/input/inputreaders/sdl_gamecontroller.py:155-167 | On arrays sized by `open`, the indices exist exactly when an axis event names an axis below AXIS_MAX and a button event names a slot below BUTTON_MAX + 2. |
| SdlGameController.ApplyEvent | src/cfclient/utils/input/inputreaders/sdl_gamecontroller.py:147-167 | An event raises IndexError exactly when an index it uses is missing. Otherwise every axis and button slot holds what the event writes there and keeps its value where it writes nothing. Array lengths never change. |
| SdlGameController.Drain | src/cfclient/utils/input/inputreaders/sdl_gamecontroller.py:144-169 | Array lengths are kept. A read that raises nothing empties the queue. A read that raises does so with IndexError, and the events still queued are a proper suffix of the queue, in order. |
| SdlGameController.DrainOpenedNeverRaises | src/cfclient/utils/input/inputreaders/sdl_gamecontroller.py:144-169 | On arrays sized by `open`, a queue whose events use existing indices drains without an exception. |
| SdlGameController.DrainAxisUntouched | src/cfclient/utils/input/inputreaders/sdl_gamecontroller.py:144-169 | An axis that no queued event writes keeps its value. |
| SdlGameController.DrainAxisLastWins | src/cfclient/utils/input/inputreaders/sdl_gamecontroller.py:144-169 | After a read that raises nothing, an axis holds the value of the last event for it. |
| SdlGameController.DrainButtonUntouched | src/cfclient/utils/input/inputreaders/sdl_gamecontroller.py:144-169 | A button slot that no queued event writes keeps its value. |
| SdlGameController.DrainButtonLastWins | src/cfclient/utils/input/inputreaders/sdl_gamecontroller.py:144-169 | After a read that raises nothing, a button slot holds the value of the last event for it. |
| SdlGameController.TriggerSlotsApart | src/cfclient/utils/input/inputreaders/sdl_gamecontroller.py:157-161 | On opened arrays the left trigger drives slot BUTTON_MAX+1 and the right trigger drives slot BUTTON_MAX. Axis motion never writes a real button, and real button events never write a trigger slot. |
| SdlGameController.Joystick.constructor | src/cfclient/utils/input/inputreaders/sdl_gamecontroller.py:120-127 | A new device has empty arrays, no handle and an empty queue. |
| SdlGameController.Joystick.Open | src/cfclient/utils/input/inputreaders/sdl_gamecontroller.py:129-133 | Keeps the handle. Sets `axes` to AXIS_MAX zeros and `buttons` to BUTTON_MAX + 2 zeros, in new arrays. The queue is kept. |
| SdlGameController.Joystick.Close | src/cfclient/utils/input/inputreaders/sdl_gamecontroller.py:136-139 | Releases the handle if there is one and leaves none, so a second close releases nothing. |
| SdlGameController.Joystick.AddEvent | src/cfclient/utils/input/inputreaders/sdl_gamecontroller.py:141-142 | Appends the event at the end of the queue. |
| SdlGameController.Joystick.HandleEvent | src/cfclient/utils/input/inputreaders/sdl_gamecontroller.py:147-167 | The arrays afterwards are those of `ApplyEvent`, and it raises exactly when `ApplyEvent` aborts. |
| SdlGameController.Joystick.Read | src/cfclient/utils/input/inputreaders/sdl_gamecontroller.py:144-169 | The arrays and the queue afterwards are those of `Drain`. It raises exactly when `Drain` does. Otherwise it returns the two arrays themselves. |
| SdlGameController.Deduplicated | src/cfclient/utils/input/inputreaders/sdl_gamecontroller.py:221-223 | The listed name starts with the controller's name, and it is that name exactly when the name has not been listed before. |
| SdlGameController.DeduplicatedReadsBack | src/cfclient/utils/input/inputreaders/sdl_gamecontroller.py:221-223 | A name listed before is followed by ` #` and decimal digits that read back as one more than the number of times it was listed. |
| SdlGameController.DeduplicatedCountsDiffer | src/cfclient/utils/input/inputreaders/sdl_gamecontroller.py:221-223 | The same name, counted a different number of times, is listed under different names. |
| SdlGameController.Enumerate | src/cfclient/utils/input/inputreaders/sdl_gamecontroller.py:215-225 | Lists the joysticks in index order. It completes exactly when every joystick has a name. Otherwise it stops at the first joystick without a name, with AttributeError. |
| SdlGameController.EnumerateEntry | src/cfclient/utils/input/inputreaders/sdl_gamecontroller.py:215-225 | Entry j is joystick j, which has a name. A name already listed k times is listed as `name #(k+1)`, and any other name as itself. |
| SdlGameController.EnumerateExtends | src/cfclient/utils/input/inputreaders/sdl_gamecontroller.py:215-225 | One more pass of the loop keeps the devices listed so far and adds at most one: the next index, under its deduplicated name. |
| SdlGameController.EnumerateStep | src/cfclient/utils/input/inputreaders/sdl_gamecontroller.py:215-225 | A named joystick extends a completed listing by one device. |
| SdlGameController.EnumerateStopsAtFirstNull | src/cfclient/utils/input/inputreaders/sdl_gamecontroller.py:215-220 | Once the listing has raised, later joysticks are not looked at. |
| SdlGameController.EnumerateNull | src/cfclient/utils/input/inputreaders/sdl_gamecontroller.py:219-220 | A joystick without a name ends the listing with AttributeError. The devices listed before it stay listed. |
| SdlGameController.DistinctNamesKept | src/cfclient/utils/input/inputreaders/sdl_gamecontroller.py:219-223 | Controllers whose names all differ are listed under their own names. |
| SdlGameController.ThirdDuplicateRepeatsSecond | src/cfclient/utils/input/inputreaders/sdl_gamecontroller.py:221-223 | Three controllers named `pad` are listed as `pad`, `pad #2`, `pad #2`, because the count is taken over names that already carry their suffix. |
| SdlGameController.GameController.constructor | src/cfclient/utils/input/inputreaders/sdl_gamecontroller.py:176-186 | No devices, no `_JS` objects, and the dispatcher disabled. The invariant holds. |
| SdlGameController.GameController.Open | src/cfclient/utils/input/inputreaders/sdl_gamecontroller.py:188-192 | Enables the dispatcher in every case. An id that is not a listed index then raises KeyError. A listed one opens its device as `Joystick.Open` says. Every other device keeps its handle, queue and array contents, and the invariant is kept. |
| SdlGameController.GameController.Close | src/cfclient/utils/input/inputreaders/sdl_gamecontroller.py:194-197 | Disables the dispatcher in every case. An id that is not a listed index then raises KeyError. A listed one releases its handle and keeps its arrays and queue. Every other device is unchanged. |
| SdlGameController.GameController.Read | src/cfclient/utils/input/inputreaders/sdl_gamecontroller.py:199-201 | An id that is not a listed index raises KeyError. A listed one is read as `Joystick.Read` says. Its handle and its array objects are kept, and every other device is unchanged. |
| SdlGameController.GameController.DispatchEvent | src/cfclient/utils/input/inputreaders/sdl_gamecontroller.py:203-204 | An id that is not a listed index raises KeyError. A listed one gets the event appended to its queue, and its handle and array objects are kept. Every other device is unchanged. |
| SdlGameController.GameController.Devices | src/cfclient/utils/input/inputreaders/sdl_gamecontroller.py:206-229 | A non-empty list is returned unchanged, with nothing else changed. An empty list is replaced by `Enumerate`'s listing. It raises exactly when `Enumerate` aborts. Each listed device gets a newly allocated `_JS` with its index and name, empty `axes` and `buttons` lists, an empty queue and no handle. The invariant is kept: there is a `_JS` exactly for each listed index, and no two indices share a `_JS` or its arrays. |
| SdlGameController.GameController.ListDevices | src/cfclient/utils/input/inputreaders/sdl_gamecontroller.py:209-227 | The loop builds the listing of `Enumerate` and adds a newly allocated `_JS` for each listed index, with its index and name, empty lists, an empty queue and no handle. The invariant is kept. |
| SdlGameController.GameController.AddDevice | src/cfclient/utils/input/inputreaders/sdl_gamecontroller.py:223-227 | Appends the device and adds a newly allocated `_JS` under its index, with empty lists, an empty queue and no handle. Every other `_JS` is kept, and no two indices share a `_JS` or its arrays. |
| Text.StartsWith | src/cfclient/ui/tabs/locopositioning_tab.py:450 | `s.startswith(prefix)` holds exactly when `s` is `prefix` followed by the rest of `s`. |
| Text.DigitChar | src/cfclient/utils/input/inputreaders/sdl_gamecontroller.py:222 | The character written for a value below 10 is a decimal digit whose value is that number. |
| Text.DigitValue | src/cfclient/ui/tabs/locopositioning_tab.py:451 | `int()` of one ASCII digit is below 10. `DigitCharOfValue` shows that it inverts writing the digit. |
| Text.DigitCharOfValue | src/cfclient/ui/tabs/locopositioning_tab.py:473 | Writing the value of a digit character gives back that character. |
| Text.Count | src/cfclient/utils/input/inputreaders/sdl_gamecontroller.py:221 | `names.count(name)` is at most the list length, and it is 0 exactly when the name is absent. |
| Text.NatToString | src/cfclient/utils/input/inputreaders/sdl_gamecontroller.py:222 | The suffix number is written as a non-empty string of decimal digits, one digit exactly when the number is below 10. |
| Text.NatToStringRoundTrip | src/cfclient/utils/input/inputreaders/sdl_gamecontroller.py:222 | Reading back the digits of the suffix gives the number. |

## Left out

- Plotting and UI. This covers the rest of `PlotWrapper`, `_mix_brushes`, the Qt timers, signals and message boxes, and `_update_graphics`. It is rendering and floating-point colour blending with no discrete behaviour to state.
- Crazyflie log and parameter registration. This covers `_connected`, `_disconnected`, `_register_logblock`, `_is_in_toc` and `_subscribe_to_parameters`. They call into the external Crazyflie library. Their callbacks are modelled by the three update methods.
- The `timestamp` and `logconf` arguments of the log callbacks. They are not used by the modelled code.
- `float(value)` in the callbacks. Values arrive as reals already, so a conversion error from a non-numeric value is not modelled.
- Unicode digits. Python's `int()` also accepts non-ASCII decimal digits, but the parsers are modelled for ASCII digits only.
- Iteration order of the log data. The log data is a dictionary, and the model takes its entries as a sequence in iteration order. Sequences with repeated names are allowed, which is more general than a dictionary.
- `LocoPositioning.LocoPositioningTab.GetAnchor`: object identity is proved only for the new entry, by freshness. Aliasing is ruled out through the tab's invariant rather than stated as a contract of each method.
- The event dispatcher thread (`_SDLEventDispatcher`). It is an endless polling loop with a sleep, and background concurrency is not modelled. Only the routing it performs (`_dispatch_events`) and the enable flag that `open` and `close` set are modelled. How `ev.jdevice.which` relates to a device index is SDL's affair. The AttributeError the thread swallows for events without `jdevice` is not modelled.
- SDL native calls (`SDL_Init`, `SDL_SetHint`, `SDL_GameControllerOpen`/`Close`, `SDL_NumJoysticks`, `SDL_GameControllerNameForIndex`) and the module's platform and import checks. These are parameters of the model: the handle SDL returns, and one optional name per joystick index. UTF-8 decoding of the name is not modelled; names arrive decoded.
- SDL constants. `SDL_CONTROLLER_AXIS_MAX` is 6 and `SDL_CONTROLLER_BUTTON_MAX` is 15, the values of the SDL headers from 2.0.0 to 2.0.12. SDL 2.0.14 and later define more buttons; `TriggerSlotsApart` holds for the value used.
- Event fields. Events carry SDL's fields as unbounded integers. The unsigned 8-bit axis and button numbers and the signed 16-bit axis value are not enforced by the type; `ScaledRange` assumes the 16-bit range.
- Logging calls in both files.
- Floating-point rounding. Python floats are modelled as `real`, so `v / 32767.0` is exact division; no property proved here depends on rounding.
