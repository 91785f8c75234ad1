/** A placed element of the canvas as an abstract record, the twelve property
    names the change handler understands, and the table that routes each of
    them to exactly one attribute or style of the element
    (src/main.js:45-74, src/main.js:200-251). */
module Elements {
  import opened Js

  /** The element's `data-type` tag. createElement builds content for three
      tags; any other tag gets an element with no content. */
  datatype Kind = Text | Image | Shape | Other(tag: string)

  function KindOf(tag: string): (k: Kind)
    ensures k.Other? <==> tag !in {"text", "image", "shape"}
  {
    if tag == "text" then Text
    else if tag == "image" then Image
    else if tag == "shape" then Shape
    else Other(tag)
  }

  /** The tag an element of that kind carries in its `data-type` attribute. */
  function TagOf(k: Kind): string
  {
    match k
    case Text => "text"
    case Image => "image"
    case Shape => "shape"
    case Other(tag) => tag
  }

  /** The kind loses nothing of the tag: the tag can be recovered from it. */
  lemma TagRoundTrip(tag: string)
    ensures TagOf(KindOf(tag)) == tag
  {
  }

  /** One placed element. The outer `div` gives id, kind, position, the
      dimensions last written to it and the highlight class; the inner parts
      that createElement may build are each present or absent:
      - divStyle: the inline style of the inner `div` elements (the text
        `div`, or the two wrapper `div`s of an image, which receive the same
        writes);
      - imgSrc: the `src` attribute of the `img`;
      - circleFill: the `fill` attribute of the `circle`;
      - path: the attributes of a `path`, which no created element has. */
  datatype Element = Element(
    id: int,
    kind: Kind,
    left: int,
    top: int,
    width: Option<string>,
    height: Option<string>,
    highlighted: bool,
    divStyle: Option<map<string, string>>,
    imgSrc: Option<string>,
    circleFill: Option<string>,
    path: Option<map<string, string>>)

  const PlaceholderSrc := "https://placehold.co/600x400"
  const CircleFill := "#ddd"

  /** The parts an element has are the ones createElement builds for its kind. */
  predicate WellFormed(e: Element)
  {
    e.path.None? &&
    match e.kind
    case Text => e.divStyle.Some? && e.imgSrc.None? && e.circleFill.None?
    case Image => e.divStyle.Some? && e.imgSrc.Some? && e.circleFill.None?
    case Shape => e.divStyle.None? && e.imgSrc.None? && e.circleFill.Some?
    case Other(_) => e.divStyle.None? && e.imgSrc.None? && e.circleFill.None?
  }

  /** The element createElement(tag, x, y) builds, with `id` the clock
      reading it stores in `data-id`. */
  function Created(tag: string, x: int, y: int, id: int): (e: Element)
    ensures WellFormed(e)
    ensures e.kind == KindOf(tag) && TagOf(e.kind) == tag
    ensures e.left == x && e.top == y && e.id == id && !e.highlighted
    ensures e.width.None? && e.height.None?
    ensures e.kind == Text ==> e.divStyle == Some(map[])
    ensures e.kind == Image ==> e.divStyle == Some(map[]) && e.imgSrc == Some(PlaceholderSrc)
    ensures e.kind == Shape ==> e.circleFill == Some(CircleFill)
  {
    var k := KindOf(tag);
    Element(id, k, x, y, None, None, false,
            if k == Text || k == Image then Some(map[]) else None,
            if k == Image then Some(PlaceholderSrc) else None,
            if k == Shape then Some(CircleFill) else None,
            None)
  }

  /** The property names of the change handler's twelve cases. */
  datatype Prop =
    | Width | Height | FontSize | Src | Fill | FontFamily
    | Bold | Italic | Underline | PathData | Stroke | StrokeWidth

  /** The `data-prop` name of a property. */
  function PropName(p: Prop): (name: string)
  {
    match p
    case Width => "width"
    case Height => "height"
    case FontSize => "fontSize"
    case Src => "src"
    case Fill => "fill"
    case FontFamily => "fontFamily"
    case Bold => "bold"
    case Italic => "italic"
    case Underline => "underline"
    case PathData => "pathData"
    case Stroke => "stroke"
    case StrokeWidth => "strokeWidth"
  }

  /** The case of the handler's switch that a name selects; None when the
      name matches no case, and the switch falls through. */
  function PropOf(name: string): (r: Option<Prop>)
    ensures r.Some? ==> PropName(r.value) == name
  {
    if name == "width" then Some(Width)
    else if name == "height" then Some(Height)
    else if name == "fontSize" then Some(FontSize)
    else if name == "src" then Some(Src)
    else if name == "fill" then Some(Fill)
    else if name == "fontFamily" then Some(FontFamily)
    else if name == "bold" then Some(Bold)
    else if name == "italic" then Some(Italic)
    else if name == "underline" then Some(Underline)
    else if name == "pathData" then Some(PathData)
    else if name == "stroke" then Some(Stroke)
    else if name == "strokeWidth" then Some(StrokeWidth)
    else None
  }

  /** Every property's name selects that property's case. */
  lemma PropNameSelects(p: Prop)
    ensures PropOf(PropName(p)) == Some(p)
  {
  }

  /** A place in an element that the handler writes. */
  datatype Loc =
    | WidthLoc | HeightLoc
    | DivStyle(name: string)
    | ImgSrc
    | CircleFillLoc
    | PathAttr(name: string)

  /** Where each case of the switch writes: the dimensions on the outer
      element, the five text styles on the inner `div`s, src on the `img`,
      fill on the `circle` and the last three on a `path`. */
  function Target(p: Prop): (l: Loc)
    ensures l.DivStyle? <==> p in {FontSize, FontFamily, Bold, Italic, Underline}
    ensures l.PathAttr? <==> p in {PathData, Stroke, StrokeWidth}
    ensures l == ImgSrc <==> p == Src
    ensures l == CircleFillLoc <==> p == Fill
    ensures l == WidthLoc <==> p == Width
    ensures l == HeightLoc <==> p == Height
  {
    match p
    case Width => WidthLoc
    case Height => HeightLoc
    case FontSize => DivStyle("font-size")
    case Src => ImgSrc
    case Fill => CircleFillLoc
    case FontFamily => DivStyle("font-family")
    case Bold => DivStyle("font-weight")
    case Italic => DivStyle("font-style")
    case Underline => DivStyle("text-decoration")
    case PathData => PathAttr("d")
    case Stroke => PathAttr("stroke")
    case StrokeWidth => PathAttr("stroke-width")
  }

  /** No two cases write the same place. */
  lemma TargetInjective(p: Prop, q: Prop)
    ensures Target(p) == Target(q) ==> p == q
  {
  }

  /** What each case of the switch writes, for the delivered value v:
      the value itself, the value with "px" appended for fontSize (with no
      clamping to the control's 8-72 range), and one of two fixed keywords,
      chosen by the value's truthiness, for the three checkboxes. */
  function Written(p: Prop, v: Input): (r: string)
    ensures p == FontSize ==> r == Stringify(v) + "px"
    ensures p == Bold ==> r in {"bold", "normal"} && (Truthy(v) <==> r == "bold")
    ensures p == Italic ==> r in {"italic", "normal"} && (Truthy(v) <==> r == "italic")
    ensures p == Underline ==> r in {"underline", "none"} && (Truthy(v) <==> r == "underline")
    ensures p !in {FontSize, Bold, Italic, Underline} ==> r == Stringify(v)
  {
    match p
    case FontSize => Stringify(v) + "px"
    case Bold => if Truthy(v) then "bold" else "normal"
    case Italic => if Truthy(v) then "italic" else "normal"
    case Underline => if Truthy(v) then "underline" else "none"
    case _ => Stringify(v)
  }

  /** The part holding a place exists; width and height sit on the outer
      element, which always exists. */
  predicate Present(e: Element, l: Loc)
  {
    match l
    case WidthLoc => true
    case HeightLoc => true
    case DivStyle(_) => e.divStyle.Some?
    case ImgSrc => e.imgSrc.Some?
    case CircleFillLoc => e.circleFill.Some?
    case PathAttr(_) => e.path.Some?
  }

  /** The value at a place, None when it is not set or its part is absent. */
  function Get(e: Element, l: Loc): Option<string>
  {
    match l
    case WidthLoc => e.width
    case HeightLoc => e.height
    case DivStyle(k) =>
      if e.divStyle.Some? && k in e.divStyle.value then Some(e.divStyle.value[k]) else None
    case ImgSrc => e.imgSrc
    case CircleFillLoc => e.circleFill
    case PathAttr(k) =>
      if e.path.Some? && k in e.path.value then Some(e.path.value[k]) else None
  }

  /** Writes s at l. jQuery writes through an empty match set without
      effect, so an absent part leaves the element as it is. */
  function Put(e: Element, l: Loc, s: string): (r: Element)
    ensures r.id == e.id && r.kind == e.kind && r.left == e.left && r.top == e.top
    ensures r.highlighted == e.highlighted
    ensures forall l' :: Present(r, l') == Present(e, l')
    ensures forall l' :: Get(r, l') == if l' == l && Present(e, l) then Some(s) else Get(e, l')
    ensures !Present(e, l) ==> r == e
  {
    match l
    case WidthLoc => e.(width := Some(s))
    case HeightLoc => e.(height := Some(s))
    case DivStyle(k) =>
      if e.divStyle.Some? then e.(divStyle := Some(e.divStyle.value[k := s])) else e
    case ImgSrc => if e.imgSrc.Some? then e.(imgSrc := Some(s)) else e
    case CircleFillLoc => if e.circleFill.Some? then e.(circleFill := Some(s)) else e
    case PathAttr(k) =>
      if e.path.Some? then e.(path := Some(e.path.value[k := s])) else e
  }

  /** The effect of the change handler's case p on the selected element:
      the case's value lands at its target when the part holding it exists,
      and every other place keeps its value. */
  function ApplyProperty(e: Element, p: Prop, v: Input): (r: Element)
    ensures Present(e, Target(p)) ==> Get(r, Target(p)) == Some(Written(p, v))
    ensures !Present(e, Target(p)) ==> r == e
    ensures forall l :: l != Target(p) ==> Get(r, l) == Get(e, l)
  {
    Put(e, Target(p), Written(p, v))
  }

  /** Each case changes exactly one attribute or style, and only if the part
      holding it exists; id, kind, position, highlight and the set of parts
      stay as they were. */
  lemma ApplyChangesOnePlace(e: Element, p: Prop, v: Input, l: Loc)
    ensures Get(ApplyProperty(e, p, v), l) ==
            if l == Target(p) && Present(e, l) then Some(Written(p, v)) else Get(e, l)
    ensures Present(ApplyProperty(e, p, v), l) == Present(e, l)
    ensures var r := ApplyProperty(e, p, v);
            r.id == e.id && r.kind == e.kind && r.left == e.left && r.top == e.top &&
            r.highlighted == e.highlighted
  {
  }

  /** Applying the same property and value twice is the same as once. */
  lemma ApplyIdempotent(e: Element, p: Prop, v: Input)
    ensures ApplyProperty(ApplyProperty(e, p, v), p, v) == ApplyProperty(e, p, v)
  {
    var r := ApplyProperty(e, p, v);
    match Target(p)
    case DivStyle(k) =>
      if e.divStyle.Some? {
        assert r.divStyle.value[k := Written(p, v)] == r.divStyle.value;
      }
    case PathAttr(k) =>
      if e.path.Some? {
        assert r.path.value[k := Written(p, v)] == r.path.value;
      }
    case _ =>
  }

  /** The handler keeps an element's parts as createElement built them. */
  lemma ApplyKeepsWellFormed(e: Element, p: Prop, v: Input)
    requires WellFormed(e)
    ensures WellFormed(ApplyProperty(e, p, v))
  {
  }

  /** The path cases write to a part that created elements lack, so they
      change nothing. */
  lemma PathEditsIgnored(e: Element, p: Prop, v: Input)
    requires WellFormed(e) && p in {PathData, Stroke, StrokeWidth}
    ensures ApplyProperty(e, p, v) == e
  {
  }

  /** fontSize is written as given: "999" becomes "999px" on a text element. */
  lemma FontSizeNotClamped(e: Element, s: string)
    requires e.kind == Text && WellFormed(e)
    ensures Get(ApplyProperty(e, FontSize, Typed(s)), DivStyle("font-size")) == Some(s + "px")
  {
  }

  /** The three checkboxes write their keyword to font-weight, font-style
      and text-decoration of an element with inner `div`s. */
  lemma CheckboxWrites(e: Element, b: bool)
    requires e.divStyle.Some?
    ensures Get(ApplyProperty(e, Bold, Checked(b)), DivStyle("font-weight")) ==
              Some(if b then "bold" else "normal")
    ensures Get(ApplyProperty(e, Italic, Checked(b)), DivStyle("font-style")) ==
              Some(if b then "italic" else "normal")
    ensures Get(ApplyProperty(e, Underline, Checked(b)), DivStyle("text-decoration")) ==
              Some(if b then "underline" else "none")
  {
  }

  /** fontFamily and fontSize write the font-family and font-size styles of
      an element with inner `div`s. */
  lemma TextStyleWrites(e: Element, s: string)
    requires e.divStyle.Some?
    ensures Get(ApplyProperty(e, FontFamily, Typed(s)), DivStyle("font-family")) == Some(s)
    ensures Get(ApplyProperty(e, FontSize, Typed(s)), DivStyle("font-size")) == Some(s + "px")
  {
  }

  /** pathData, stroke and strokeWidth write the d, stroke and stroke-width
      attributes of a `path`, where one exists. */
  lemma PathWrites(e: Element, s: string)
    requires e.path.Some?
    ensures Get(ApplyProperty(e, PathData, Typed(s)), PathAttr("d")) == Some(s)
    ensures Get(ApplyProperty(e, Stroke, Typed(s)), PathAttr("stroke")) == Some(s)
    ensures Get(ApplyProperty(e, StrokeWidth, Typed(s)), PathAttr("stroke-width")) == Some(s)
  {
  }

  /** width, height, src and fill write the outer element's dimensions, the
      `img`'s src and the `circle`'s fill, where those parts exist. */
  lemma AttributeWrites(e: Element, s: string)
    ensures Get(ApplyProperty(e, Width, Typed(s)), WidthLoc) == Some(s)
    ensures Get(ApplyProperty(e, Height, Typed(s)), HeightLoc) == Some(s)
    ensures e.imgSrc.Some? ==> Get(ApplyProperty(e, Src, Typed(s)), ImgSrc) == Some(s)
    ensures e.circleFill.Some? ==> Get(ApplyProperty(e, Fill, Typed(s)), CircleFillLoc) == Some(s)
  {
  }

  /** A sequence of panel edits applied in order. */
  function ApplyAll(e: Element, edits: seq<(Prop, Input)>): Element
    decreases |edits|
  {
    if |edits| == 0 then e
    else ApplyAll(ApplyProperty(e, edits[0].0, edits[0].1), edits[1..])
  }

  /** Any sequence of edits keeps the kind, the position and the parts. */
  lemma {:induction false} ApplyAllKeepsWellFormed(e: Element, edits: seq<(Prop, Input)>)
    requires WellFormed(e)
    ensures WellFormed(ApplyAll(e, edits))
    ensures ApplyAll(e, edits).kind == e.kind
    ensures ApplyAll(e, edits).left == e.left && ApplyAll(e, edits).top == e.top
    decreases |edits|
  {
    if |edits| > 0 {
      ApplyKeepsWellFormed(e, edits[0].0, edits[0].1);
      ApplyAllKeepsWellFormed(ApplyProperty(e, edits[0].0, edits[0].1), edits[1..]);
    }
  }
}
