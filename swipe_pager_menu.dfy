/**
 * One tab of the menu strip (Source/SwipePagerMenu.swift): six configuration
 * properties set by the client, and what the item currently displays. The
 * item is drawn in one of two shades, Normal or Highlighted; which one is
 * shown is decided by the last of `stateNormal` / `stateHighlight` called.
 */
module PagerMenu {

  import opened Wrappers

  /** UIKit colours and fonts are opaque: only their identity matters here. */
  datatype Color = Color(id: nat)
  datatype Font = Font(id: nat)

  /** The two visual states of a menu item. */
  datatype Shade = Normal | Highlighted

  /** What an item displays: its background and its label's text colour. */
  datatype Style = Style(background: Option<Color>, textColor: Option<Color>)

  /** The six configuration properties of an item. */
  datatype Settings = Settings(
    title: Option<string>,
    font: Option<Font>,
    normalColor: Option<Color>,
    normalFontColor: Option<Color>,
    highlightColor: Option<Color>,
    highlightFontColor: Option<Color>)

  /** The colour pair an item configured with `s` shows in `shade`. */
  function StyleFor(s: Settings, shade: Shade): Style
  {
    match shade
    case Normal => Style(s.normalColor, s.normalFontColor)
    case Highlighted => Style(s.highlightColor, s.highlightFontColor)
  }

  /**
   * The style shown after calling stateNormal / stateHighlight in the order
   * `calls`. Each step is what one call does: `StateNormal` and
   * `StateHighlight` below ensure `Shows(shade)`, that is
   * `Shown() == StyleFor(Configuration(), shade)`, and keep the configuration.
   */
  function Restyled(shown: Style, s: Settings, calls: seq<Shade>): Style
    decreases |calls|
  {
    if calls == [] then shown else Restyled(StyleFor(s, calls[0]), s, calls[1..])
  }

  /** Whatever was shown before, the last call of a non-empty sequence decides the style. */
  lemma {:induction false} LastCallWins(shown: Style, s: Settings, calls: seq<Shade>)
    requires calls != []
    ensures Restyled(shown, s, calls) == StyleFor(s, calls[|calls| - 1])
    decreases |calls|
  {
    if |calls| > 1 {
      LastCallWins(StyleFor(s, calls[0]), s, calls[1..]);
    }
  }

  /** Calling the same state method twice in a row is the same as calling it once. */
  lemma {:induction false} StateCallIdempotent(shown: Style, s: Settings, calls: seq<Shade>, shade: Shade)
    ensures Restyled(shown, s, calls + [shade, shade]) == Restyled(shown, s, calls + [shade])
  {
    LastCallWins(shown, s, calls + [shade, shade]);
    LastCallWins(shown, s, calls + [shade]);
  }

  class SwipePagerMenu {
    var title: Option<string>
    var font: Option<Font>
    var stateNormalColor: Option<Color>
    var stateNormalFontColor: Option<Color>
    var stateHighlightColor: Option<Color>
    var stateHighlightFontColor: Option<Color>

    /** UIView.tag: the pager stores the item's position in the strip here. */
    var tag: int
    /** UIView.backgroundColor, as displayed. */
    var backgroundColor: Option<Color>
    /** The private title label: its text, font and text colour (None: UIKit's default). */
    var labelText: Option<string>
    var labelFont: Option<Font>
    var labelTextColor: Option<Color>

    function Configuration(): Settings
      reads this
    {
      Settings(title, font, stateNormalColor, stateNormalFontColor,
               stateHighlightColor, stateHighlightFontColor)
    }

    function Shown(): Style
      reads this
    {
      Style(backgroundColor, labelTextColor)
    }

    /** The item displays the colour pair configured for `shade`. */
    predicate Shows(shade: Shade)
      reads this
    {
      Shown() == StyleFor(Configuration(), shade)
    }

    /** The label shows the configured title in the configured font. */
    predicate LabelConfigured()
      reads this
    {
      labelText == title && labelFont == font
    }

    constructor ()
      ensures Configuration() == Settings(None, None, None, None, None, None)
      ensures tag == 0 && Shown() == Style(None, None)
      ensures labelText == None && labelFont == None
    {
      title, font := None, None;
      stateNormalColor, stateNormalFontColor := None, None;
      stateHighlightColor, stateHighlightFontColor := None, None;
      tag := 0;
      backgroundColor := None;
      labelText, labelFont, labelTextColor := None, None, None;
    }

    /** Copies title and font into the label and forces the Normal state. */
    method Config()
      modifies this`labelText, this`labelFont, this`backgroundColor, this`labelTextColor
      ensures LabelConfigured() && Shows(Normal)
      ensures Configuration() == old(Configuration()) && tag == old(tag)
    {
      labelText := title;
      labelFont := font;
      StateNormal();
    }

    method StateNormal()
      modifies this`backgroundColor, this`labelTextColor
      ensures Shows(Normal)
      ensures Configuration() == old(Configuration()) && tag == old(tag)
      ensures labelText == old(labelText) && labelFont == old(labelFont)
    {
      backgroundColor := stateNormalColor;
      labelTextColor := stateNormalFontColor;
    }

    method StateHighlight()
      modifies this`backgroundColor, this`labelTextColor
      ensures Shows(Highlighted)
      ensures Configuration() == old(Configuration()) && tag == old(tag)
      ensures labelText == old(labelText) && labelFont == old(labelFont)
    {
      backgroundColor := stateHighlightColor;
      labelTextColor := stateHighlightFontColor;
    }
  }
}
