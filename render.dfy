/**
  The mode-flag rules of the render options window (src/gui/render/RenderView.cpp).

  The window shows three rows of checkboxes. Each checkbox carries a 32-bit
  mode mask. Render and display modes are bit sets: the render mode is the
  union of the checked render masks, and a display checkbox switches its own
  bits on or off (the "air" display modes replace one another). The colour
  mode is an index: checking a colour checkbox selects exactly its mode.
  When the model reports a new mode, every checkbox is re-derived from it.

  A 32-bit mask is represented by the set of positions of its one bits, so
  `a | b` is `a + b`, `a & b` is `a * b`, `a & ~b` is `a - b`, the value 0 is
  `{}`, and `(a & m) == m` is `m <= a`.

  The numeric values of the RENDER_*, DISPLAY_*, COLOUR_*, XRES and YRES
  constants are not part of this model; they are carried as a ModeConstants
  value.
*/
module Render {
  import opened Options

  /** A bit position of a 32-bit word. */
  newtype Bit = b: int | 0 <= b < 32

  /** A 32-bit mask, as the set of its one bits. */
  type Mask = set<Bit>

  /** A checkbox of the window, reduced to its mode mask and its checked state. */
  datatype ModeCheckbox = ModeCheckbox(mode: Mask, checked: bool)

  /** The constants the window is built from, whose values are not fixed here. */
  datatype ModeConstants = ModeConstants(
    renderEffe: Mask, renderFire: Mask, renderGlow: Mask, renderBlur: Mask,
    renderBlob: Mask, renderBasc: Mask, renderSprk: Mask,
    displayAirc: Mask, displayAirp: Mask, displayAirv: Mask, displayAirh: Mask,
    displayAirw: Mask, displayWarp: Mask, displayEffe: Mask, displayPers: Mask,
    displayAir: Mask,
    colourHeat: Mask, colourLife: Mask, colourGrad: Mask, colourBasc: Mask,
    xres: int, yres: int)
  {
    /** The render checkboxes' masks, in the order the window adds them. */
    function RenderFlags(): seq<Mask> {
      [renderEffe, renderFire, renderGlow, renderBlur, renderBlob, renderBasc, renderSprk]
    }

    /** The five air display masks; they are the first five display checkboxes. */
    function AirFlags(): seq<Mask> {
      [displayAirc, displayAirp, displayAirv, displayAirh, displayAirw]
    }

    function DisplayFlags(): seq<Mask> {
      AirFlags() + [displayWarp, displayEffe, displayPers]
    }

    function ColourFlags(): seq<Mask> {
      [colourHeat, colourLife, colourGrad, colourBasc]
    }

    /** Assumption about the constants: every air display mode lies within DISPLAY_AIR. */
    predicate AirModesWithinAir() {
      forall i :: 0 <= i < |AirFlags()| ==> AirFlags()[i] <= displayAir
    }
  }

  /** What one checkbox adds to the union of the checked masks. */
  function Contribution(box: ModeCheckbox): Mask {
    if box.checked then box.mode else {}
  }

  /** The union of the masks of the checked checkboxes, accumulated left to right. */
  function CheckedUnion(boxes: seq<ModeCheckbox>): Mask {
    if boxes == [] then {}
    else CheckedUnion(boxes[..|boxes| - 1]) + Contribution(boxes[|boxes| - 1])
  }

  /** Every checked mask is part of the union. */
  lemma {:induction false} CheckedUnionCovers(boxes: seq<ModeCheckbox>, i: nat)
    requires i < |boxes| && boxes[i].checked
    ensures boxes[i].mode <= CheckedUnion(boxes)
  {
    if i < |boxes| - 1 {
      CheckedUnionCovers(boxes[..|boxes| - 1], i);
    }
  }

  /** The union is the least mask that contains every checked mask: no bit comes from an unchecked box. */
  lemma {:induction false} CheckedUnionLeast(boxes: seq<ModeCheckbox>, bound: Mask)
    requires forall i :: 0 <= i < |boxes| && boxes[i].checked ==> boxes[i].mode <= bound
    ensures CheckedUnion(boxes) <= bound
  {
    if boxes != [] {
      var front := boxes[..|boxes| - 1];
      forall i | 0 <= i < |front| && front[i].checked
        ensures front[i].mode <= bound
      {
        assert front[i] == boxes[i];
      }
      CheckedUnionLeast(front, bound);
    }
  }

  /** How a reported mode decides a checkbox's state. */
  datatype SyncRule =
    | AllBitsSet  // render and display rows: every bit of the box's mask is set
    | EqualsMode  // colour row: the box's mask is the mode

  predicate Selected(rule: SyncRule, current: Mask, mode: Mask) {
    match rule
    case AllBitsSet => mode <= current
    case EqualsMode => mode == current
  }

  /** The checkboxes as re-derived from `current`, one box after the other. */
  function Resync(boxes: seq<ModeCheckbox>, current: Mask, rule: SyncRule): (r: seq<ModeCheckbox>)
    ensures |r| == |boxes|
    ensures forall i :: 0 <= i < |boxes| ==>
      r[i].mode == boxes[i].mode && (r[i].checked <==> Selected(rule, current, boxes[i].mode))
  {
    if boxes == [] then []
    else
      var last := boxes[|boxes| - 1];
      Resync(boxes[..|boxes| - 1], current, rule) + [ModeCheckbox(last.mode, Selected(rule, current, last.mode))]
  }

  /** The masks of a row of checkboxes, in order. */
  function Masks(boxes: seq<ModeCheckbox>): seq<Mask> {
    seq(|boxes|, i requires 0 <= i < |boxes| => boxes[i].mode)
  }

  /** Re-derivation changes no checkbox's mask. */
  lemma ResyncKeepsMasks(boxes: seq<ModeCheckbox>, current: Mask, rule: SyncRule)
    ensures Masks(Resync(boxes, current, rule)) == Masks(boxes)
  {
  }

  /**
    Re-deriving the render row from the render mode the row itself produced
    gives back that render mode, and leaves every checked box checked.
  */
  lemma {:induction false} ResyncKeepsCheckedUnion(boxes: seq<ModeCheckbox>)
    ensures forall i :: 0 <= i < |boxes| && boxes[i].checked ==>
      Resync(boxes, CheckedUnion(boxes), AllBitsSet)[i].checked
    ensures CheckedUnion(Resync(boxes, CheckedUnion(boxes), AllBitsSet)) == CheckedUnion(boxes)
  {
    var m := CheckedUnion(boxes);
    var r := Resync(boxes, m, AllBitsSet);
    forall i | 0 <= i < |boxes| && boxes[i].checked
      ensures r[i].checked
    {
      CheckedUnionCovers(boxes, i);
    }
    CheckedUnionLeast(r, m);
    forall i | 0 <= i < |boxes| && boxes[i].checked
      ensures boxes[i].mode <= CheckedUnion(r)
    {
      CheckedUnionCovers(r, i);
    }
    CheckedUnionLeast(boxes, CheckedUnion(r));
  }

  /**
    The display checkbox callback: the new display mode computed from the
    current one and the box that was clicked.
  */
  function ToggleDisplayMode(displayMode: Mask, box: ModeCheckbox, displayAir: Mask): (r: Mask)
    // the box's own bits follow its checked state
    ensures box.checked ==> box.mode <= r
    ensures !box.checked ==> r * box.mode == {}
    // an air box replaces the whole air selection: its own air bits, or none
    ensures box.mode * displayAir != {} ==>
      r * displayAir == if box.checked then box.mode * displayAir else {}
    ensures box.mode * displayAir != {} ==>
      r - (box.mode + displayAir) == displayMode - (box.mode + displayAir)
    // any other box keeps every bit outside its own mask
    ensures box.mode * displayAir == {} ==> r - box.mode == displayMode - box.mode
  {
    var cleared := if box.mode * displayAir != {} then displayMode - displayAir else displayMode;
    if box.checked then cleared + box.mode else cleared - box.mode
  }

  /** Delivering the same click twice has the effect of delivering it once. */
  lemma ToggleDisplayModeIdempotent(displayMode: Mask, box: ModeCheckbox, displayAir: Mask)
    ensures ToggleDisplayMode(ToggleDisplayMode(displayMode, box, displayAir), box, displayAir)
         == ToggleDisplayMode(displayMode, box, displayAir)
  {
  }

  /**
    After a click and the display row's re-derivation, the clicked box shows
    the state the user gave it (a box with an empty mask is always shown checked).
  */
  lemma ToggleThenResyncShowsClick(boxes: seq<ModeCheckbox>, i: nat, displayMode: Mask, displayAir: Mask)
    requires i < |boxes| && boxes[i].mode != {}
    ensures Resync(boxes, ToggleDisplayMode(displayMode, boxes[i], displayAir), AllBitsSet)[i].checked
         == boxes[i].checked
  {
  }

  /**
    Air display modes are mutually exclusive: once an air box is checked, no
    other air box whose mask is not part of the clicked one is shown checked.
  */
  lemma AirModesExclusive(boxes: seq<ModeCheckbox>, i: nat, j: nat, displayMode: Mask, displayAir: Mask)
    requires i < |boxes| && j < |boxes|
    requires boxes[i].checked && boxes[i].mode * displayAir != {}
    requires boxes[j].mode <= displayAir && !(boxes[j].mode <= boxes[i].mode)
    ensures !Resync(boxes, ToggleDisplayMode(displayMode, boxes[i], displayAir), AllBitsSet)[j].checked
  {
  }

  /**
    The same exclusivity for the window's own display row: checking one of the
    five air checkboxes unchecks, after re-derivation, every other air checkbox
    whose mask is not part of the clicked one.
  */
  lemma WindowAirModesExclusive(k: ModeConstants, boxes: seq<ModeCheckbox>, i: nat, j: nat, displayMode: Mask)
    requires k.AirModesWithinAir()
    requires Masks(boxes) == k.DisplayFlags()
    requires i < 5 && j < 5 && boxes[i].checked && boxes[i].mode != {}
    requires !(boxes[j].mode <= boxes[i].mode)
    ensures !Resync(boxes, ToggleDisplayMode(displayMode, boxes[i], k.displayAir), AllBitsSet)[j].checked
  {
    assert boxes[i].mode == Masks(boxes)[i] == k.AirFlags()[i];
    assert boxes[j].mode == Masks(boxes)[j] == k.AirFlags()[j];
    assert boxes[i].mode <= k.displayAir && boxes[j].mode <= k.displayAir;
    AirModesExclusive(boxes, i, j, displayMode, k.displayAir);
  }

  /**
    The colour checkbox callback. The colour mode behaves as an index: the
    previous colour mode plays no part in the result.
  */
  function ToggleColourMode(colourMode: Mask, box: ModeCheckbox): (r: Mask)
    ensures box.checked ==> r == box.mode
    ensures !box.checked ==> r == {}
  {
    if box.checked then box.mode else {}
  }

  /** With pairwise distinct colour masks, re-derivation checks at most one colour box. */
  lemma ColourResyncAtMostOne(boxes: seq<ModeCheckbox>, current: Mask)
    requires forall i, j :: 0 <= i < j < |boxes| ==> boxes[i].mode != boxes[j].mode
    ensures forall i, j ::
      (0 <= i < |boxes| && 0 <= j < |boxes| &&
       Resync(boxes, current, EqualsMode)[i].checked && Resync(boxes, current, EqualsMode)[j].checked)
      ==> i == j
  {
  }

  /** Checking colour box `i` and re-deriving the row leaves exactly box `i` checked. */
  lemma ColourToggleThenResync(boxes: seq<ModeCheckbox>, i: nat, colourMode: Mask)
    requires forall a, b :: 0 <= a < b < |boxes| ==> boxes[a].mode != boxes[b].mode
    requires i < |boxes| && boxes[i].checked
    ensures forall j :: 0 <= j < |boxes| ==>
      (Resync(boxes, ToggleColourMode(colourMode, boxes[i]), EqualsMode)[j].checked <==> j == i)
  {
  }

  /** A preset button: the preset it loads and its offset from (XRES, YRES). */
  datatype PresetButton = PresetButton(preset: int, offsetX: int, offsetY: int)

  /** The eleven preset buttons in the order the window adds them; each is 30 by 13. */
  function PresetButtons(): (r: seq<PresetButton>)
    ensures |r| == 11
    ensures forall i :: 0 <= i < |r| ==> 0 <= r[i].preset <= 10
    ensures forall i, j :: 0 <= i < j < |r| ==> r[i].preset != r[j].preset
    ensures forall i :: 0 <= i < |r| ==> r[i].offsetX <= -37 && (r[i].offsetY == 6 || r[i].offsetY == 24)
  {
    [ PresetButton(1, -37, 6), PresetButton(2, -37, 24), PresetButton(3, -76, 6), PresetButton(4, -76, 24),
      PresetButton(5, -115, 6), PresetButton(6, -115, 24), PresetButton(7, -154, 6), PresetButton(8, -154, 24),
      PresetButton(9, -193, 6), PresetButton(0, -193, 24), PresetButton(10, -232, 6) ]
  }

  const PresetButtonWidth: int := 30
  const PresetButtonHeight: int := 13

  /** The preset a key press loads, if any. */
  function KeyPreset(key: int, scan: int, repeat: bool, shift: bool, ctrl: bool, alt: bool): (preset: Option<int>)
    ensures repeat ==> preset == None
    ensures !repeat && shift && key == '1' as int ==> preset == Some(10)
    ensures !repeat && !(shift && key == '1' as int) && '0' as int <= key <= '9' as int ==>
      preset == Some(key - '0' as int)
    ensures !repeat && !('0' as int <= key <= '9' as int) ==> preset == None
    ensures preset.Some? ==> 0 <= preset.value <= 10
  {
    if repeat then None
    else if shift && key == '1' as int then Some(10)
    else if '0' as int <= key && key <= '9' as int then Some(key - '0' as int)
    else None
  }

  /** Every preset a key selects is one a preset button loads. */
  lemma KeyPresetHasButton(key: int, scan: int, repeat: bool, shift: bool, ctrl: bool, alt: bool)
    requires KeyPreset(key, scan, repeat, shift, ctrl, alt).Some?
    ensures exists i ::
      0 <= i < |PresetButtons()| && PresetButtons()[i].preset == KeyPreset(key, scan, repeat, shift, ctrl, alt).value
  {
    var p := KeyPreset(key, scan, repeat, shift, ctrl, alt).value;
    var i := if p == 0 then 9 else if p == 10 then 10 else p - 1;
    assert PresetButtons()[i].preset == p;
  }

  /** Every preset button's preset can also be selected from the keyboard. */
  lemma ButtonPresetHasKey(i: nat)
    requires i < |PresetButtons()|
    ensures exists key, shift :: KeyPreset(key, 0, false, shift, false, false) == Some(PresetButtons()[i].preset)
  {
    var p := PresetButtons()[i].preset;
    if p == 10 {
      assert KeyPreset('1' as int, 0, false, true, false, false) == Some(p);
    } else {
      assert KeyPreset('0' as int + p, 0, false, false, false, false) == Some(p);
    }
  }

  /**
    Whether a mouse press closes the window: the window stays open exactly for
    presses in the toolbar band, at or below row YRES and not right of column XRES.
  */
  function MouseExits(k: ModeConstants, x: int, y: int, button: int): (exits: bool)
    ensures !exits <==> x <= k.xres && k.yres <= y
  {
    x > k.xres || y < k.yres
  }

  /** A press anywhere on the simulation preview above the toolbar closes the window. */
  lemma PreviewPressExits(k: ModeConstants, x: int, y: int, button: int)
    requires 0 <= x < k.xres && 0 <= y < k.yres
    ensures MouseExits(k, x, y, button)
  {
  }

  /** A press on a preset button never closes the window, whatever XRES and YRES are. */
  lemma PresetButtonPressKeepsWindow(k: ModeConstants, i: nat, x: int, y: int, button: int)
    requires i < |PresetButtons()|
    requires k.xres + PresetButtons()[i].offsetX <= x < k.xres + PresetButtons()[i].offsetX + PresetButtonWidth
    requires k.yres + PresetButtons()[i].offsetY <= y < k.yres + PresetButtons()[i].offsetY + PresetButtonHeight
    ensures !MouseExits(k, x, y, button)
  {
    var b := PresetButtons()[i];
    assert b.offsetX <= -37 && b.offsetY >= 6;
  }

  /** All checkboxes of one row unchecked, with the given masks. */
  function Unchecked(modes: seq<Mask>): seq<ModeCheckbox> {
    seq(|modes|, i requires 0 <= i < |modes| => ModeCheckbox(modes[i], false))
  }

  /** A freshly built row keeps its masks and selects nothing: its union is 0. */
  lemma FreshRowSelectsNothing(modes: seq<Mask>)
    ensures Masks(Unchecked(modes)) == modes
    ensures CheckedUnion(Unchecked(modes)) == {}
  {
    CheckedUnionLeast(Unchecked(modes), {});
  }

  /** The checkbox state of the render options window. */
  class RenderView {
    const constants: ModeConstants
    var renderModes: seq<ModeCheckbox>
    var displayModes: seq<ModeCheckbox>
    var colourModes: seq<ModeCheckbox>

    /** Each row holds the masks of its constants, in the order the window adds them. */
    ghost predicate Valid()
      reads this
    {
      Masks(renderModes) == constants.RenderFlags() &&
      Masks(displayModes) == constants.DisplayFlags() &&
      Masks(colourModes) == constants.ColourFlags()
    }

    /** Builds the three rows of checkboxes, in order, all unchecked. */
    constructor (k: ModeConstants)
      ensures constants == k
      ensures renderModes == Unchecked(k.RenderFlags())
      ensures displayModes == Unchecked(k.DisplayFlags())
      ensures colourModes == Unchecked(k.ColourFlags())
      ensures Valid()
    {
      constants := k;
      renderModes := Unchecked(k.RenderFlags());
      displayModes := Unchecked(k.DisplayFlags());
      colourModes := Unchecked(k.ColourFlags());
      FreshRowSelectsNothing(k.RenderFlags());
      FreshRowSelectsNothing(k.DisplayFlags());
      FreshRowSelectsNothing(k.ColourFlags());
    }

    /** The render mode the render row selects: the union of exactly the checked masks. */
    method CalculateRenderMode() returns (renderMode: Mask)
      ensures renderMode == CheckedUnion(renderModes)
      ensures forall i :: 0 <= i < |renderModes| && renderModes[i].checked ==> renderModes[i].mode <= renderMode
      ensures (forall i :: 0 <= i < |renderModes| ==> !renderModes[i].checked) ==> renderMode == {}
    {
      renderMode := {};
      var i := 0;
      while i < |renderModes|
        invariant 0 <= i <= |renderModes|
        invariant renderMode == CheckedUnion(renderModes[..i])
      {
        assert renderModes[..i + 1][..i] == renderModes[..i];
        if renderModes[i].checked {
          renderMode := renderMode + renderModes[i].mode;
        }
        i := i + 1;
      }
      assert renderModes[..i] == renderModes;
      forall i | 0 <= i < |renderModes| && renderModes[i].checked
        ensures renderModes[i].mode <= renderMode
      {
        CheckedUnionCovers(renderModes, i);
      }
      if forall i :: 0 <= i < |renderModes| ==> !renderModes[i].checked {
        CheckedUnionLeast(renderModes, {});
      }
    }

    /** Re-derives the render row from the reported render mode. */
    method NotifyRenderChanged(renderMode: Mask)
      requires Valid()
      modifies this`renderModes
      ensures renderModes == Resync(old(renderModes), renderMode, AllBitsSet)
      ensures Valid()
    {
      var i := 0;
      while i < |renderModes|
        invariant 0 <= i <= |renderModes| == |old(renderModes)|
        invariant renderModes[..i] == Resync(old(renderModes)[..i], renderMode, AllBitsSet)
        invariant forall n :: i <= n < |renderModes| ==> renderModes[n] == old(renderModes)[n]
      {
        var mode := renderModes[i].mode;
        assert old(renderModes)[..i + 1][..i] == old(renderModes)[..i];
        renderModes := renderModes[i := ModeCheckbox(mode, mode == renderMode * mode)];
        i := i + 1;
      }
      assert old(renderModes)[..i] == old(renderModes);
      ResyncKeepsMasks(old(renderModes), renderMode, AllBitsSet);
      assert Masks(renderModes) == Masks(old(renderModes));
    }

    /** Re-derives the display row from the reported display mode. */
    method NotifyDisplayChanged(displayMode: Mask)
      requires Valid()
      modifies this`displayModes
      ensures displayModes == Resync(old(displayModes), displayMode, AllBitsSet)
      ensures Valid()
    {
      var i := 0;
      while i < |displayModes|
        invariant 0 <= i <= |displayModes| == |old(displayModes)|
        invariant displayModes[..i] == Resync(old(displayModes)[..i], displayMode, AllBitsSet)
        invariant forall n :: i <= n < |displayModes| ==> displayModes[n] == old(displayModes)[n]
      {
        var mode := displayModes[i].mode;
        assert old(displayModes)[..i + 1][..i] == old(displayModes)[..i];
        displayModes := displayModes[i := ModeCheckbox(mode, mode == displayMode * mode)];
        i := i + 1;
      }
      assert old(displayModes)[..i] == old(displayModes);
      ResyncKeepsMasks(old(displayModes), displayMode, AllBitsSet);
      assert Masks(displayModes) == Masks(old(displayModes));
    }

    /** Re-derives the colour row from the reported colour mode. */
    method NotifyColourChanged(colourMode: Mask)
      requires Valid()
      modifies this`colourModes
      ensures colourModes == Resync(old(colourModes), colourMode, EqualsMode)
      ensures Valid()
    {
      var i := 0;
      while i < |colourModes|
        invariant 0 <= i <= |colourModes| == |old(colourModes)|
        invariant colourModes[..i] == Resync(old(colourModes)[..i], colourMode, EqualsMode)
        invariant forall n :: i <= n < |colourModes| ==> colourModes[n] == old(colourModes)[n]
      {
        var mode := colourModes[i].mode;
        assert old(colourModes)[..i + 1][..i] == old(colourModes)[..i];
        colourModes := colourModes[i := ModeCheckbox(mode, mode == colourMode)];
        i := i + 1;
      }
      assert old(colourModes)[..i] == old(colourModes);
      ResyncKeepsMasks(old(colourModes), colourMode, EqualsMode);
      assert Masks(colourModes) == Masks(old(colourModes));
    }
  }
}
