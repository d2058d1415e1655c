/**
 * `LabelComponent` (packages/engine/src/components/label.component.ts): the text of a label
 * and its font, with a `needsUpdate` flag that every setter raises and `textureUpdated`
 * clears, so the label's texture is redrawn only after a change.
 */
module Labels {

  /** The four stored properties of a label. */
  datatype Style = Style(text: string, fontFamily: string, fontSize: real, fontColor: string)

  class Label {
    var text: string
    var fontFamily: string
    var fontSize: real
    var fontColor: string
    var needsUpdate: bool

    function Properties(): Style
      reads this
    {
      Style(text, fontFamily, fontSize, fontColor)
    }

    /** A new label stores its arguments and needs a texture update. */
    constructor (text0: string, fontFamily0: string, fontSize0: real, fontColor0: string)
      ensures Properties() == Style(text0, fontFamily0, fontSize0, fontColor0) && needsUpdate
    {
      text, fontFamily, fontSize, fontColor := text0, fontFamily0, fontSize0, fontColor0;
      needsUpdate := true;
    }

    method SetText(value: string)
      modifies this
      ensures Properties() == Apply(old(Properties()), Text(value)) && needsUpdate
    {
      text := value;
      needsUpdate := true;
    }

    method SetFontFamily(value: string)
      modifies this
      ensures Properties() == Apply(old(Properties()), FontFamily(value)) && needsUpdate
    {
      fontFamily := value;
      needsUpdate := true;
    }

    method SetFontSize(value: real)
      modifies this
      ensures Properties() == Apply(old(Properties()), FontSize(value)) && needsUpdate
    {
      fontSize := value;
      needsUpdate := true;
    }

    method SetFontColor(value: string)
      modifies this
      ensures Properties() == Apply(old(Properties()), FontColor(value)) && needsUpdate
    {
      fontColor := value;
      needsUpdate := true;
    }

    /** `textureUpdated`: clears the flag and changes nothing else. */
    method TextureUpdated()
      modifies this
      ensures Properties() == old(Properties()) && !needsUpdate
    {
      needsUpdate := false;
    }
  }

  /** A change of label properties, as one of the four setters makes it. */
  datatype Change = Text(s: string) | FontFamily(s: string) | FontSize(size: real) | FontColor(s: string)

  function Apply(style: Style, c: Change): Style {
    match c
    case Text(s) => style.(text := s)
    case FontFamily(s) => style.(fontFamily := s)
    case FontSize(size) => style.(fontSize := size)
    case FontColor(s) => style.(fontColor := s)
  }

  function ApplyAll(style: Style, cs: seq<Change>): Style
    decreases |cs|
  {
    if cs == [] then style else ApplyAll(Apply(style, cs[0]), cs[1..])
  }

  /** The text after a run of setter calls is the last text set, or the original if none was. */
  function LastText(original: string, cs: seq<Change>): string
    decreases |cs|
  {
    if cs == [] then original
    else if cs[|cs| - 1].Text? then cs[|cs| - 1].s
    else LastText(original, cs[..|cs| - 1])
  }

  lemma {:induction false} ApplyAllSnoc(style: Style, cs: seq<Change>, c: Change)
    ensures ApplyAll(style, cs + [c]) == Apply(ApplyAll(style, cs), c)
    decreases |cs|
  {
    if cs != [] {
      assert (cs + [c])[1..] == cs[1..] + [c];
      ApplyAllSnoc(Apply(style, cs[0]), cs[1..], c);
    }
  }

  /** Each getter returns the last value set for its own field: setting the others never changes it. */
  lemma {:induction false} TextIsLastSet(style: Style, cs: seq<Change>)
    ensures ApplyAll(style, cs).text == LastText(style.text, cs)
    decreases |cs|
  {
    if cs != [] {
      var init, last := cs[..|cs| - 1], cs[|cs| - 1];
      assert cs == init + [last];
      ApplyAllSnoc(style, init, last);
      TextIsLastSet(style, init);
    }
  }
}
