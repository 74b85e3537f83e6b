# Render options window flags and save-header records of The Powder Toy

This project models two self-contained pieces of The Powder Toy and proves
properties of them in Dafny.

**The render options window** (`src/gui/render/RenderView.cpp`). The window
shows three rows of checkboxes. Each checkbox carries a 32-bit mode mask.
- The render row selects a render mode: the bitwise OR of the masks of the
  checked boxes.
- A click on a display box turns its bits on or off in the display mode. The
  "air" display modes are mutually exclusive: a click on a box whose mask
  meets `DISPLAY_AIR` first clears every air bit.
- The colour row is an index, not a bit set: checking a colour box selects
  exactly its mask, and unchecking it selects 0.
- When the render model reports a new mode, every box is re-derived from it.
  Render and display boxes use a subset test (`(mode & m) == m`). Colour boxes
  use an equality test.
- Number keys load render presets. A mouse press outside the toolbar closes
  the window.

Module `Render` holds the checkbox record `ModeCheckbox(mode, checked)`, the
pure rules as functions, and a class `RenderView` whose three sequence fields
are the three rows. Its `Notify*Changed` methods re-derive the rows in place,
in loops, as the source does.

A 32-bit mask is modelled as the set of positions of its one bits
(`Mask = set<Bit>`, with `Bit` in 0..31). This is an exact image of a
`uint32_t`:
- `a | b` is `a + b`;
- `a & b` is `a * b`;
- `a & ~b` is `a - b`;
- `0` is `{}`;
- `(a & m) == m` is `m <= a`.

The values of `RENDER_*`, `DISPLAY_*`, `DISPLAY_AIR`, `COLOUR_*`, `XRES` and
`YRES` are not in the modelled files. They are the fields of a
`ModeConstants` value. The window keeps its constants, and its invariant
`RenderView.Valid` says that each row holds the constants' masks in order.
The assumption that every air display mode lies within
`DISPLAY_AIR` is the predicate `ModeConstants.AirModesWithinAir`, and it is
required only where it is used.

**Save-header records** (`src/client/GameSave.h`). Module `GameSaveHeader`
holds:
- the six parse-result kinds and their enumerator values;
- the parse exception, which keeps its kind and message;
- the stick-man equipment record `StkmData` with its defaults and its
  `hasData` test.

## Model

| member | source | states |
|---|---|---|
| `Render.RenderView.CalculateRenderMode` | src/gui/render/RenderView.cpp:128-138 | The result is the OR of the checked render masks. Every checked mask is contained in it, and it is 0 when no box is checked. |
| `Render.CheckedUnionCovers` | src/gui/render/RenderView.cpp:131-135 | Every checked box's mask is contained in the computed render mode. |
| `Render.CheckedUnionLeast` | src/gui/render/RenderView.cpp:130-137 | The computed render mode is contained in any mask that contains every checked mask, so no bit comes from an unchecked box. |
| `Render.ResyncKeepsCheckedUnion` | src/gui/render/RenderView.cpp:162-170 | Re-deriving the render row from the mode the row produced keeps every checked box checked and gives back the same render mode. It may also check extra boxes whose masks are covered, as the comment at line 166 warns. |
| `Render.Resync` | src/gui/render/RenderView.cpp:162-188 | Re-derivation keeps the row's length and every mask. A box is checked iff its mask is within the current mode (render and display rows), or iff its mask equals the current mode (colour row). |
| `Render.ResyncKeepsMasks` | src/gui/render/RenderView.cpp:162-188 | Re-derivation changes only checked states: the row's sequence of masks is the same before and after. |
| `Render.RenderView.NotifyRenderChanged` | src/gui/render/RenderView.cpp:162-170 | The render row becomes its subset-test re-derivation from the reported render mode. No other field changes, and `Valid` is kept. |
| `Render.RenderView.NotifyDisplayChanged` | src/gui/render/RenderView.cpp:172-179 | The display row becomes its subset-test re-derivation from the reported display mode. No other field changes, and `Valid` is kept. |
| `Render.RenderView.NotifyColourChanged` | src/gui/render/RenderView.cpp:181-188 | The colour row becomes its equality-test re-derivation from the reported colour mode. No other field changes, and `Valid` is kept. |
| `Render.ToggleDisplayMode` | src/gui/render/RenderView.cpp:70-86 | A checked box's bits are all set and an unchecked box's bits are all clear. For an air box, the air bits become the box's own air bits (checked) or none (unchecked), and bits outside the box's mask and `DISPLAY_AIR` are kept. For any other box, every bit outside its mask is kept. |
| `Render.ToggleDisplayModeIdempotent` | src/gui/render/RenderView.cpp:71-85 | Applying the same click twice gives the same display mode as applying it once. |
| `Render.ToggleThenResyncShowsClick` | src/gui/render/RenderView.cpp:77-84 | After a display click and the display row's re-derivation, the clicked box (non-empty mask) shows the checked state it was clicked to. |
| `Render.AirModesExclusive` | src/gui/render/RenderView.cpp:72-76 | After an air box is checked and the row is re-derived, any box whose mask lies within `DISPLAY_AIR` but is not covered by the clicked mask is unchecked. |
| `Render.WindowAirModesExclusive` | src/gui/render/RenderView.cpp:89-94 | The window's own air boxes are the first five display boxes. Assuming every air mode lies within `DISPLAY_AIR`, and given a row whose masks are the display constants (as `RenderView.Valid` guarantees), checking one of them (non-empty mask) shows unchecked every other air box whose mask it does not cover. |
| `Render.ToggleColourMode` | src/gui/render/RenderView.cpp:106-118 | Checking a colour box sets the colour mode to exactly that box's mask, and unchecking sets it to 0, whatever the previous colour mode was. |
| `Render.ColourResyncAtMostOne` | src/gui/render/RenderView.cpp:181-188 | When the colour masks are pairwise distinct, re-derivation leaves at most one colour box checked. |
| `Render.ColourToggleThenResync` | src/gui/render/RenderView.cpp:107-117 | Checking colour box `i` and re-deriving the row leaves exactly box `i` checked, given distinct colour masks. |
| `Render.PresetButtons` | src/gui/render/RenderView.cpp:34-44 | There are eleven preset buttons. Their presets are pairwise distinct and lie in 0..10, so each preset 0..10 has exactly one button. Every button lies left of `XRES` and at row offset 6 or 24 below `YRES`. |
| `Render.KeyPreset` | src/gui/render/RenderView.cpp:229-239 | A repeated key selects no preset. Shift+'1' selects 10. Otherwise '0'..'9' select `key - '0'`, and any other key selects nothing. A selected preset is always in 0..10. |
| `Render.KeyPresetHasButton` | src/gui/render/RenderView.cpp:34-44 | Every preset a key selects is the preset of one of the eleven preset buttons. |
| `Render.ButtonPresetHasKey` | src/gui/render/RenderView.cpp:34-44 | Every preset button's preset can also be selected by a key press. |
| `Render.MouseExits` | src/gui/render/RenderView.cpp:140-144 | A press keeps the window open exactly when it is in the toolbar band: at or left of column `XRES` and at or below row `YRES`. Every other press closes it. |
| `Render.PreviewPressExits` | src/gui/render/RenderView.cpp:140-144 | A press on the simulation preview (`0 <= x < XRES`, `0 <= y < YRES`) closes the window. |
| `Render.PresetButtonPressKeepsWindow` | src/gui/render/RenderView.cpp:28-44 | A press inside any preset button (30 by 13, placed at `(XRES, YRES)` plus its offset) never closes the window, whatever XRES and YRES are. |
| `Render.FreshRowSelectsNothing` | src/gui/render/RenderView.cpp:46-49 | A freshly built row keeps the masks it was given, in order, and selects nothing: the OR of its checked masks is 0. |
| `Render.RenderView.constructor` | src/gui/render/RenderView.cpp:57-124 | The three rows hold the render, display and colour masks in the order the window adds them, all unchecked, so the window satisfies `Valid`: each row's masks are its constants' masks. |
| `GameSaveHeader.Ordinal` | src/client/GameSave.h:20 | Each kind's enumerator value is its position in the declaration, and the value is 0 exactly for `OK`. |
| `GameSaveHeader.FromOrdinal` | src/client/GameSave.h:20 | Exactly the values 0..5 name a kind, and the kind named by `n` has enumerator value `n`. |
| `GameSaveHeader.SixDistinctKinds` | src/client/GameSave.h:20 | There are exactly six kinds. Every kind is listed once, and distinct kinds have distinct values. |
| `GameSaveHeader.OrdinalRoundTrip` | src/client/GameSave.h:20 | The enumerator value determines the kind, and every value 0..5 belongs to a kind. |
| `GameSaveHeader.ParseExceptionKeepsArguments` | src/client/GameSave.h:24-28 | A parse exception reports the result kind and the message it was constructed with. |
| `GameSaveHeader.StkmData.HasData` | src/client/GameSave.h:53-57 | A record has no data exactly when all four flags are false and both fighter lists are empty. |
| `GameSaveHeader.DefaultStkmData` | src/client/GameSave.h:46-51 | A default record has all four flags false, both fighter lists empty, and no data. |
| `GameSaveHeader.FlagMeansData` | src/client/GameSave.h:55 | If any of `rocketBoots1`, `rocketBoots2`, `fan1`, `fan2` is set, the record has data. |
| `GameSaveHeader.FighterMeansData` | src/client/GameSave.h:56 | If either fighter list is non-empty, the record has data. |
| `GameSaveHeader.NoDataIsDefault` | src/client/GameSave.h:53-57 | A record has no data exactly when it equals the default record. The test depends only on the four flags and on whether each list is empty. |

## Left out

- Save decoding, encoding, palette mapping, transform, expansion and resizing (`readOPS`, `readPSv`, `serialiseOPS`, `MapPalette`, `Transform`, `Expand`, `setSize`, the constructors and stream operators of `GameSave`): only their declarations are in the modelled files, so their behaviour is not part of this model.
- The other `GameSave` fields (sizes, version, feature flags, grids, simulation options, signs, palette, authors, `pmapbits`): they are data declarations without logic. The floats, the grids and the JSON and RNG values come from code that is not part of this model.
- `BuildException` carries only a message and is raised by save-building code that is not part of this model, so it is not modelled. `ParseException` keeps the message as a string; the conversion to UTF-8 bytes and `what()` returning a C string are not modelled.
- Drawing (`OnDraw`), the tooltip fade (`OnTick`, `ToolTip`) and widget geometry other than the preset buttons' rectangles: these are graphics and UI animation.
- Controller effects (`c->SetRenderMode`, `c->SetDisplayMode`, `c->SetColorMode`, `c->LoadRenderPreset`, `c->Exit`): each is modelled only as the value it receives. This is the result of `CalculateRenderMode`, `ToggleDisplayMode`, `ToggleColourMode` or `KeyPreset`, or the truth of `MouseExits`. The current display and colour modes the callbacks read from the controller are parameters.
- `OnTryExit` (src/gui/render/RenderView.cpp:146-149) calls `c->Exit()` whatever the exit method is. It has no logic of its own to model, and the controller is not part of this model.
- `NotifyRendererChanged` and `NotifySimulationChanged` only store pointers to the renderer and simulation. They are not modelled.
- The checkbox widget is not part of this model. The checked state a callback reads is the box's `checked` field, and a newly built box is taken to be unchecked.
- `src/common/clipboard/Clipboard.h` holds only declarations for the OS clipboard, with no logic.
