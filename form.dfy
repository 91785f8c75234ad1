/** The properties panel as an ordered list of field descriptors
    (src/main.js:97-198). Values the code reads back through the browser,
    the element's measured width and height and the computed style of its
    text `div`, come in as a Layout; attribute reads come from the element
    record itself. */
module Form {
  import opened Js
  import opened Elements

  /** What the browser reports for the selected element: jQuery's
      `.width()` and `.height()`, and the computed style of the text `div`
      (a missing key reads as the empty string). */
  datatype Layout = Layout(width: int, height: int, textCss: map<string, string>)

  /** The kind of input control a field is rendered with. */
  datatype Control =
    | NumberBox
    | Slider(min: int, max: int)
    | Choice(options: seq<string>)
    | Tick
    | UrlBox
    | TextBox
    | ColorBox

  /** The value a control is pre-populated with. */
  datatype Shown = Str(s: string) | Num(n: int) | Flag(b: bool)

  datatype Field = Field(prop: Prop, control: Control, value: Shown)

  const FontOptions: seq<string> := ["Arial", "Times New Roman", "Verdana", "Courier New"]
  /** The substring that marks each option as selected. */
  const FontKeys: seq<string> := ["Arial", "Times", "Verdana", "Courier"]

  const DefaultPathData := "M50 0 L100 50 L50 100 L0 50 Z"
  const DefaultFill := "#dddddd"
  const DefaultStroke := "#000000"

  function Css(m: map<string, string>, key: string): string
  {
    if key in m then m[key] else ""
  }

  /** `n || d` for a number read from the browser: 0 gives the default. */
  function NumberOr(n: int, d: int): (r: int)
    ensures r == n || (n == 0 && r == d)
    ensures r != 0 || d == 0
  {
    if n == 0 then d else n
  }

  /** `parseInt(css) || 16`: NaN and 0 give 16. */
  function FontSizeShown(css: string): (r: int)
    ensures ParseInt(css).Some? && ParseInt(css).value != 0 ==> r == ParseInt(css).value
    ensures ParseInt(css).None? || ParseInt(css) == Some(0) ==> r == 16
  {
    match ParseInt(css)
    case None => 16
    case Some(n) => NumberOr(n, 16)
  }

  /** The option the browser shows selected: every option whose key occurs
      in the current font carries `selected` and the last of them wins; with
      none of them marked the first option shows. */
  function SelectedFont(current: string): (k: nat)
    ensures k < |FontOptions|
    ensures 0 < k ==> Contains(current, FontKeys[k])
    ensures forall j :: k < j < |FontKeys| ==> !Contains(current, FontKeys[j])
  {
    if Contains(current, FontKeys[3]) then 3
    else if Contains(current, FontKeys[2]) then 2
    else if Contains(current, FontKeys[1]) then 1
    else 0
  }

  /** The width and height fields, src/main.js:109-122: number boxes that
      show the measured dimension, and never 0. */
  function CommonProperties(l: Layout): (r: seq<Field>)
    ensures |r| == 2 && r[0].prop == Width && r[1].prop == Height
    ensures forall i :: 0 <= i < 2 ==> r[i].control == NumberBox && r[i].value.Num? && r[i].value.n != 0
    ensures l.width != 0 ==> r[0].value == Num(l.width)
    ensures l.height != 0 ==> r[1].value == Num(l.height)
  {
    [ Field(Width, NumberBox, Num(NumberOr(l.width, 100))),
      Field(Height, NumberBox, Num(NumberOr(l.height, 100))) ]
  }

  /** The font family Arial stands in for when none is reported. */
  function CurrentFont(l: Layout): string
  {
    var family := Css(l.textCss, "font-family");
    if family == "" then "Arial" else family
  }

  /** The text fields, src/main.js:124-162: the font select shows the
      option the reported family selects, the slider the parsed size, never
      0, and the three style boxes are ticks. */
  function TextProperties(l: Layout): (r: seq<Field>)
    ensures |r| == 5
    ensures r[0].prop == FontFamily && r[1].prop == FontSize && r[2].prop == Bold &&
            r[3].prop == Italic && r[4].prop == Underline
    ensures r[0].control == Choice(FontOptions) && r[0].value.Str? && r[0].value.s in FontOptions
    ensures r[0].value == Str(FontOptions[SelectedFont(CurrentFont(l))])
    ensures r[1].control == Slider(8, 72) && r[1].value.Num? && r[1].value.n != 0
    ensures r[1].value == Num(FontSizeShown(Css(l.textCss, "font-size")))
    ensures forall i :: 2 <= i < 5 ==> r[i].control == Tick && r[i].value.Flag?
  {
    var k := SelectedFont(CurrentFont(l));
    var size := FontSizeShown(Css(l.textCss, "font-size"));
    assert FontOptions[k] in FontOptions && size != 0;
    [ Field(FontFamily, Choice(FontOptions), Str(FontOptions[k])),
      Field(FontSize, Slider(8, 72), Num(size)),
      Field(Bold, Tick, Flag(Css(l.textCss, "font-weight") == "700")),
      Field(Italic, Tick, Flag(Css(l.textCss, "font-style") == "italic")),
      Field(Underline, Tick, Flag(Contains(Css(l.textCss, "text-decoration"), "underline"))) ]
  }

  /** The image field, src/main.js:164-172; a missing `img` interpolates as
      "undefined". */
  function ImageProperties(e: Element): (r: seq<Field>)
    ensures |r| == 1 && r[0].prop == Src && r[0].control == UrlBox
    ensures r[0].value == Str(if Get(e, ImgSrc).Some? then Get(e, ImgSrc).value else "undefined")
  {
    [ Field(Src, UrlBox, Str(if e.imgSrc.Some? then e.imgSrc.value else "undefined")) ]
  }

  /** `path.attr(name) || d`: an absent path, an absent attribute and an
      empty one all give the default. */
  function PathAttrOr(e: Element, name: string, d: string): (r: string)
    ensures r != "" || d == ""
    ensures Get(e, PathAttr(name)) == Some("") ==> r == d
    ensures Get(e, PathAttr(name)).Some? && Get(e, PathAttr(name)).value != "" ==>
              r == Get(e, PathAttr(name)).value
    ensures Get(e, PathAttr(name)).None? ==> r == d
  {
    match Get(e, PathAttr(name))
    case Some(s) => if s == "" then d else s
    case None => d
  }

  /** The shape fields, src/main.js:174-198; all four read the `path`, so
      without one they show the defaults, and no field shows an empty value. */
  function ShapeProperties(e: Element): (r: seq<Field>)
    ensures |r| == 4
    ensures r[0].prop == PathData && r[1].prop == Fill && r[2].prop == Stroke &&
            r[3].prop == StrokeWidth
    ensures forall i :: 0 <= i < 4 ==> r[i].value != Str("")
    ensures r[0].value == Str(PathAttrOr(e, "d", DefaultPathData))
    ensures r[1].value == Str(PathAttrOr(e, "fill", DefaultFill))
    ensures r[2].value == Str(PathAttrOr(e, "stroke", DefaultStroke))
    ensures var w := Get(e, PathAttr("stroke-width"));
            r[3].value == if w.Some? && w.value != "" then Str(w.value) else Num(1)
    ensures e.path.None? ==>
              r[0].value == Str(DefaultPathData) && r[1].value == Str(DefaultFill) &&
              r[2].value == Str(DefaultStroke) && r[3].value == Num(1)
  {
    var w := Get(e, PathAttr("stroke-width"));
    [ Field(PathData, TextBox, Str(PathAttrOr(e, "d", DefaultPathData))),
      Field(Fill, ColorBox, Str(PathAttrOr(e, "fill", DefaultFill))),
      Field(Stroke, ColorBox, Str(PathAttrOr(e, "stroke", DefaultStroke))),
      Field(StrokeWidth, NumberBox, if w.Some? && w.value != "" then Str(w.value) else Num(1)) ]
  }

  /** The element kind whose section carries a property; the dimensions
      belong to every kind. */
  function HomeKind(p: Prop): Option<Kind>
  {
    match p
    case Width => None
    case Height => None
    case FontFamily => Some(Text)
    case FontSize => Some(Text)
    case Bold => Some(Text)
    case Italic => Some(Text)
    case Underline => Some(Text)
    case Src => Some(Image)
    case PathData => Some(Shape)
    case Fill => Some(Shape)
    case Stroke => Some(Shape)
    case StrokeWidth => Some(Shape)
  }

  /** The fields the panel shows for an element of each kind, in order: the
      two dimensions, then the kind's own section. */
  function Schema(k: Kind): (ps: seq<Prop>)
    ensures |ps| >= 2 && ps[0] == Width && ps[1] == Height
    ensures forall p :: p in ps <==> p == Width || p == Height || HomeKind(p) == Some(k)
    ensures k.Other? ==> |ps| == 2
    ensures forall i, j :: 0 <= i < j < |ps| ==> ps[i] != ps[j]
  {
    [Width, Height] +
    match k
    case Text => [FontFamily, FontSize, Bold, Italic, Underline]
    case Image => [Src]
    case Shape => [PathData, Fill, Stroke, StrokeWidth]
    case Other(_) => []
  }

  /** The panel for an element, src/main.js:97-107: its fields are the
      schema of the element's kind, in order, led by the dimensions. */
  function GeneratePropertiesForm(e: Element, l: Layout): (r: seq<Field>)
    ensures |r| == |Schema(e.kind)|
    ensures forall i :: 0 <= i < |r| ==> r[i].prop == Schema(e.kind)[i]
    ensures r[0].value == Num(if l.width == 0 then 100 else l.width)
    ensures r[1].value == Num(if l.height == 0 then 100 else l.height)
  {
    CommonProperties(l) + Section(e, l)
  }

  /** The section after the dimensions: `type === 'text'`, `'image'` and
      `'shape'` are exclusive, so at most one of the three is non-empty. */
  function Section(e: Element, l: Layout): (r: seq<Field>)
    ensures |r| == |Schema(e.kind)| - 2
    ensures forall i :: 0 <= i < |r| ==> r[i].prop == Schema(e.kind)[i + 2]
  {
    match e.kind
    case Text =>
      SectionProps(TextProperties(l), Text);
      TextProperties(l)
    case Image =>
      SectionProps(ImageProperties(e), Image);
      ImageProperties(e)
    case Shape =>
      SectionProps(ShapeProperties(e), Shape);
      ShapeProperties(e)
    case Other(_) => []
  }

  /** A section whose fields carry the schema's properties after the
      dimensions, position by position. */
  lemma SectionProps(fs: seq<Field>, k: Kind)
    requires |fs| == |Schema(k)| - 2
    requires k == Text ==> fs[0].prop == FontFamily && fs[1].prop == FontSize && fs[2].prop == Bold && fs[3].prop == Italic && fs[4].prop == Underline
    requires k == Image ==> fs[0].prop == Src
    requires k == Shape ==> fs[0].prop == PathData && fs[1].prop == Fill && fs[2].prop == Stroke && fs[3].prop == StrokeWidth
    ensures forall i :: 0 <= i < |fs| ==> fs[i].prop == Schema(k)[i + 2]
  {
  }

  /** The value of the first field for p, None when the panel has none. */
  function ValueOf(fs: seq<Field>, p: Prop): Option<Shown>
  {
    if |fs| == 0 then None
    else if fs[0].prop == p then Some(fs[0].value)
    else ValueOf(fs[1..], p)
  }

  /** ValueOf finds the first field that carries p. */
  lemma {:induction false} ValueOfAt(fs: seq<Field>, p: Prop, i: nat)
    requires i < |fs| && fs[i].prop == p
    requires forall j :: 0 <= j < i ==> fs[j].prop != p
    ensures ValueOf(fs, p) == Some(fs[i].value)
    decreases i
  {
    if i > 0 {
      ValueOfAt(fs[1..], p, i - 1);
    }
  }

  /** In a panel whose properties are distinct, the field at i gives the
      value for its property. */
  lemma FormValueAt(e: Element, l: Layout, i: nat)
    requires i < |Schema(e.kind)|
    ensures ValueOf(GeneratePropertiesForm(e, l), Schema(e.kind)[i]) ==
            Some(GeneratePropertiesForm(e, l)[i].value)
  {
    var r := GeneratePropertiesForm(e, l);
    var s := Schema(e.kind);
    assert forall j :: 0 <= j < i ==> r[j].prop == s[j] != s[i];
    ValueOfAt(r, s[i], i);
  }

  /** A panel without a field for p gives no value for it. */
  lemma {:induction false} ValueOfMissing(fs: seq<Field>, p: Prop)
    requires forall j :: 0 <= j < |fs| ==> fs[j].prop != p
    ensures ValueOf(fs, p) == None
    decreases |fs|
  {
    if |fs| > 0 {
      ValueOfMissing(fs[1..], p);
    }
  }

  /** A panel whose fields carry the properties ps, in order, has a value
      for p exactly when p is among them. */
  lemma {:induction false} ValueOfPresent(fs: seq<Field>, ps: seq<Prop>, p: Prop)
    requires |fs| == |ps| && forall j :: 0 <= j < |fs| ==> fs[j].prop == ps[j]
    ensures ValueOf(fs, p).Some? <==> p in ps
    decreases |fs|
  {
    if |fs| > 0 && fs[0].prop != p {
      ValueOfPresent(fs[1..], ps[1..], p);
      assert ps == [ps[0]] + ps[1..];
    }
  }

  /** The panel has a field for p exactly when p is in the schema of the
      element's kind; so the text, image and shape sections appear exactly
      for their own kind. */
  lemma FormShowsSchema(e: Element, l: Layout, p: Prop)
    ensures ValueOf(GeneratePropertiesForm(e, l), p).Some? <==> p in Schema(e.kind)
  {
    ValueOfPresent(GeneratePropertiesForm(e, l), Schema(e.kind), p);
  }

  /** The text panel is the dimensions followed by the text section. */
  lemma TextForm(e: Element, l: Layout)
    requires e.kind == Text
    ensures GeneratePropertiesForm(e, l)[2..] == TextProperties(l)
  {
  }

  /** The text section's defaults: Arial when no font family is reported,
      16 when the font size does not parse or is 0. */
  lemma TextDefaults(e: Element, l: Layout)
    requires e.kind == Text
    ensures Css(l.textCss, "font-family") == "" ==>
              ValueOf(GeneratePropertiesForm(e, l), FontFamily) == Some(Str("Arial"))
    ensures var fs := ParseInt(Css(l.textCss, "font-size"));
            fs.None? || fs == Some(0) ==>
              ValueOf(GeneratePropertiesForm(e, l), FontSize) == Some(Num(16))
  {
    var r := GeneratePropertiesForm(e, l);
    TextForm(e, l);
    FontOptionShown(0);
    FormValueAt(e, l, 2);
    FormValueAt(e, l, 3);
  }

  /** The bold, italic and underline checkboxes reflect the reported weight
      "700", style "italic" and a decoration that includes "underline". */
  lemma TextFlags(e: Element, l: Layout)
    requires e.kind == Text
    ensures ValueOf(GeneratePropertiesForm(e, l), Bold) ==
              Some(Flag(Css(l.textCss, "font-weight") == "700"))
    ensures ValueOf(GeneratePropertiesForm(e, l), Italic) ==
              Some(Flag(Css(l.textCss, "font-style") == "italic"))
    ensures ValueOf(GeneratePropertiesForm(e, l), Underline) ==
              Some(Flag(Contains(Css(l.textCss, "text-decoration"), "underline")))
  {
    var r := GeneratePropertiesForm(e, l);
    TextForm(e, l);
    FormValueAt(e, l, 4);
    FormValueAt(e, l, 5);
    FormValueAt(e, l, 6);
  }

  /** The font select shows the option the reported family selects, and
      the size slider shows `parseInt(size) || 16`. */
  lemma TextValues(e: Element, l: Layout)
    requires e.kind == Text
    ensures ValueOf(GeneratePropertiesForm(e, l), FontFamily) ==
              Some(Str(FontOptions[SelectedFont(CurrentFont(l))]))
    ensures ValueOf(GeneratePropertiesForm(e, l), FontSize) ==
              Some(Num(FontSizeShown(Css(l.textCss, "font-size"))))
  {
    TextForm(e, l);
    FormValueAt(e, l, 2);
    FormValueAt(e, l, 3);
  }

  /** Any reported font that contains option k's key and no later key shows
      as option k, whatever quoting or fallback list surrounds it. */
  lemma FontShownByLastKey(current: string, k: nat)
    requires k < |FontKeys| && Contains(current, FontKeys[k])
    requires forall j :: k < j < |FontKeys| ==> !Contains(current, FontKeys[j])
    ensures SelectedFont(current) == k
  {
  }

  /** Option k's own text selects option k. */
  lemma FontOptionShown(k: nat)
    requires k < |FontOptions|
    ensures SelectedFont(FontOptions[k]) == k
  {
    var o := FontOptions[k];
    assert o[..|FontKeys[k]|] == FontKeys[k];
    assert Contains(o, FontKeys[k]);
    forall j | k < j < |FontKeys|
      ensures !Contains(o, FontKeys[j])
    {
      ContainsNeedsHead(o, FontKeys[j]);
    }
  }

  /** A family list that names "Times New Roman" anywhere, quoted or
      followed by fallbacks as browsers report it, shows that option,
      provided the rest of the list has no capital V or C. */
  lemma QuotedFontShown(pre: string, post: string)
    requires 'V' !in pre + post && 'C' !in pre + post
    ensures SelectedFont(pre + FontOptions[1] + post) == 1
  {
    var s := pre + FontOptions[1] + post;
    assert FontKeys[1] <= FontOptions[1] + post;
    assert s == pre + (FontOptions[1] + post);
    ContainsInside(pre, FontOptions[1] + post, FontKeys[1]);
    ContainsNeedsHead(s, FontKeys[2]);
    ContainsNeedsHead(s, FontKeys[3]);
    FontShownByLastKey(s, 1);
  }

  /** A reported font size of n pixels shows as n, or as 16 when n is 0. */
  lemma FontSizeShownOfPixels(n: nat)
    ensures FontSizeShown(NatToString(n) + "px") == if n == 0 then 16 else n
  {
    ParseIntOfNumeral(n, "px");
  }

  /** The string the fontSize case writes for a numeral n parses to n. */
  lemma FontSizeWriteParses(n: nat)
    ensures ParseInt(Written(FontSize, Typed(NatToString(n)))) == Some(n)
  {
    ParseIntOfNumeral(n, "px");
  }

  /** The shape panel is the dimensions followed by the shape section. */
  lemma ShapeForm(e: Element, l: Layout)
    requires e.kind == Shape
    ensures GeneratePropertiesForm(e, l)[2..] == ShapeProperties(e)
  {
  }

  /** With no `path`, the shape section shows its four defaults, whatever
      the element's other attributes. */
  lemma ShapeDefaults(e: Element, l: Layout)
    requires e.kind == Shape && e.path.None?
    ensures ValueOf(GeneratePropertiesForm(e, l), PathData) == Some(Str(DefaultPathData))
    ensures ValueOf(GeneratePropertiesForm(e, l), Fill) == Some(Str(DefaultFill))
    ensures ValueOf(GeneratePropertiesForm(e, l), Stroke) == Some(Str(DefaultStroke))
    ensures ValueOf(GeneratePropertiesForm(e, l), StrokeWidth) == Some(Num(1))
  {
    ShapeForm(e, l);
    FormValueAt(e, l, 2);
    FormValueAt(e, l, 3);
    FormValueAt(e, l, 4);
    FormValueAt(e, l, 5);
  }

  /** A fill edit on a created shape recolours its circle, yet the panel,
      which reads the fill of a path, still shows the default. */
  lemma FillEditNotShown(e: Element, v: Input, l: Layout)
    requires WellFormed(e) && e.kind == Shape
    ensures Get(ApplyProperty(e, Fill, v), CircleFillLoc) == Some(Stringify(v))
    ensures ValueOf(GeneratePropertiesForm(ApplyProperty(e, Fill, v), l), Fill) == Some(Str(DefaultFill))
  {
    ApplyKeepsWellFormed(e, Fill, v);
    ShapeDefaults(ApplyProperty(e, Fill, v), l);
  }

  /** Whatever edits a created shape receives, its panel keeps showing the
      four shape defaults. */
  lemma ShapePanelFixed(e: Element, edits: seq<(Prop, Input)>, l: Layout)
    requires WellFormed(e) && e.kind == Shape
    ensures var r := GeneratePropertiesForm(ApplyAll(e, edits), l);
            ValueOf(r, PathData) == Some(Str(DefaultPathData)) &&
            ValueOf(r, Fill) == Some(Str(DefaultFill)) &&
            ValueOf(r, Stroke) == Some(Str(DefaultStroke)) &&
            ValueOf(r, StrokeWidth) == Some(Num(1))
  {
    ApplyAllKeepsWellFormed(e, edits);
    ShapeDefaults(ApplyAll(e, edits), l);
  }

  /** An image's panel shows the URL last written to its `img`. */
  lemma SrcEditShown(e: Element, v: Input, l: Layout)
    requires WellFormed(e) && e.kind == Image
    ensures ValueOf(GeneratePropertiesForm(ApplyProperty(e, Src, v), l), Src) == Some(Str(Stringify(v)))
  {
    var r := GeneratePropertiesForm(ApplyProperty(e, Src, v), l);
    assert r == CommonProperties(l) + ImageProperties(ApplyProperty(e, Src, v)) by {
      assert Section(ApplyProperty(e, Src, v), l) == ImageProperties(ApplyProperty(e, Src, v));
    }
    ValueOfAt(r, Src, 2);
  }

  /** A created image shows the placeholder URL. */
  lemma CreatedImageShowsPlaceholder(x: int, y: int, id: int, l: Layout)
    ensures ValueOf(GeneratePropertiesForm(Created("image", x, y, id), l), Src) == Some(Str(PlaceholderSrc))
  {
    var e := Created("image", x, y, id);
    var r := GeneratePropertiesForm(e, l);
    assert r == CommonProperties(l) + ImageProperties(e) by {
      assert Section(e, l) == ImageProperties(e);
    }
    ValueOfAt(r, Src, 2);
  }

  /** A field that is not on an element's panel changes nothing when applied
      to it, except the text-style fields on an image, whose wrapper `div`s
      take the style. */
  lemma OffPanelEdits(e: Element, p: Prop, v: Input)
    requires WellFormed(e) && p !in Schema(e.kind)
    ensures !(e.kind == Image && Target(p).DivStyle?) ==> ApplyProperty(e, p, v) == e
    ensures e.kind == Image && Target(p).DivStyle? ==>
              Get(ApplyProperty(e, p, v), Target(p)) == Some(Written(p, v))
  {
  }
}
