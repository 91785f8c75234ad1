# Drag-and-drop playground: element, selection and property model

This project models the core of a browser canvas editor. Its class
`PlaygroundManager` places text, image and shape elements in a drop zone.
It keeps one selected element and shows a properties panel for it. It applies
edits from that panel back onto the selected element. Outside the jQuery and
DOM glue, the logic comes down to four things:

- a set of placed elements;
- a single selection;
- a table that routes each `(property, value)` pair to one attribute or style;
- a form generator that picks the fields for each element type and the value
  each field shows.

The DOM is replaced by an abstract record per element (`Elements.Element`).
It holds the `data-type` kind, left/top, the width/height last written, the
highlight class, and each inner part createElement may build. Those parts are
the inline style of the inner `div`s, the `src` of the `img`, the `fill` of
the `circle` and the attributes of a `path`. Each part is present or absent.

The panel is an ordered list of field descriptors (`Form.Field`): a property,
a control kind and the value the control is pre-populated with. It is not
HTML text. The mutating operations are methods of the class
`Playground.PlaygroundManager`. Their contracts give the whole new state, and
the object invariant `Valid()` says three things:

- every element has the parts its kind was created with;
- the selection names a placed element;
- exactly the selected element carries the highlight.

Files:

- `js.dfy` (module `Js`): the JavaScript semantics the code relies on.
  These are truthiness, string conversion in template literals and DOM
  writes, `String.prototype.includes`, and `parseInt` with its default
  radix.
- `elements.dfy` (module `Elements`): the element record and what
  createElement builds. It also holds the twelve property names, the dispatch
  table of handlePropertyChange and the lemmas about it.
- `form.dfy` (module `Form`): generatePropertiesForm and its four section
  helpers, the per-kind field list (`Schema`), and the lemmas about defaults
  and about what the panel shows after edits.
- `playground.dfy` (module `Playground`): the `PlaygroundManager` class with
  handleDrop, createElement, selectElement (with showPropertiesPanel),
  handlePropertyChange and updateElementPosition.

Reads that go through the browser are opaque. These are `.width()`,
`.height()`, and `.css(...)` on the text `div`, which report computed style
(for example `'bold'` reads back as `'700'`). They reach the form generator
as a `Form.Layout` parameter. No property is claimed to round-trip through
them. Attribute reads (`.attr(...)`) read the record directly.

What the code does, stated where it may surprise a reader:

- `fontSize` is written as `value + "px"` without clamping. The 8–72 range
  exists only on the slider control (src/main.js:143, 214).
- There is no `UnknownProperty` or `InvalidValue` outcome. A name outside the
  twelve cases falls through the switch and changes nothing. Every value of a
  handled case is written as given.
- A property whose part is absent changes nothing, because jQuery writes
  through an empty match set. Examples: `fontSize` on a shape, or any of
  `pathData`, `stroke` and `strokeWidth` on any created element, since none
  has a `path`.
- The shape panel reads `fill` from the `path`, but the `fill` case writes
  to the `circle`. So after a fill edit a created shape's panel still shows
  `#dddddd`. This is proved in `Form.FillEditNotShown` and, for any sequence
  of edits, in `Form.ShapePanelFixed`.
- An image element contains two `div`s, so the text-style cases do write to
  an image, into those wrappers (src/main.js:56-58, 214-232;
  `Form.OffPanelEdits`).
- Element ids are the clock value passed in. No uniqueness is claimed.

## Model

| member | source | states |
|---|---|---|
| `Js.Truthy` | src/main.js:226-232 | the only falsy values a control delivers are the empty string and an unticked box |
| `Js.Contains` | src/main.js:127-138 | `includes`: a match needs a needle no longer than the string; a prefix and the empty string always match |
| `Js.ContainsInside` | src/main.js:134-138 | a needle found at the start of a later part of the string is found in the whole string |
| `Js.ContainsNeedsHead` | src/main.js:129-138 | `includes` cannot find a string whose first character does not occur |
| `Js.TrimStart` | src/main.js:145 | parseInt's skip of leading white space drops only white space and leaves a suffix that starts with no white space |
| `Js.DigitRun` | src/main.js:145 | the digit run parseInt reads is all digits and stops at the first non-digit |
| `Js.NumeralDenotes` | src/main.js:145 | a decimal numeral is a non-empty digit string denoting its number |
| `Js.DigitRunOfPrefix` | src/main.js:145 | a numeral followed by a non-digit gives a digit run of exactly the numeral |
| `Js.ParseInt` | src/main.js:145 | a negative result needs a minus sign in the string; a string that starts with a digit parses to a number of at least 0 (its other properties are the three ParseInt lemmas below) |
| `Js.ParseIntOfDigits` | src/main.js:145 | parseInt of a string starting with a digit is the value of its digit run |
| `Js.ParseIntOfNumeral` | src/main.js:145 | parseInt of a numeral followed by a unit such as "px" is that number |
| `Js.ParseIntWithoutDigits` | src/main.js:145 | parseInt of a string without digits is NaN |
| `Elements.KindOf` | src/main.js:50-69 | the three known tags get their own kind; every other tag is a kind with no content |
| `Elements.TagRoundTrip` | src/main.js:46 | the kind keeps the whole `data-type` tag: the tag can be recovered from it |
| `Elements.Created` | src/main.js:45-69 | a created element has the given kind, position and id, no highlight, no dimensions written, and the parts its kind gets: an empty-style div for text, a placeholder img and wrapper divs for an image, a circle with fill #ddd for a shape, never a path |
| `Elements.PropOf` | src/main.js:206-243 | a name selects a case only if it is exactly that case's name |
| `Elements.PropNameSelects` | src/main.js:206-243 | each of the twelve case names selects its own case |
| `Elements.Target` | src/main.js:206-243 | the dimensions go to the outer element, the five text styles to the inner divs, src to the img, fill to the circle, and pathData, stroke and strokeWidth to a path; the style and attribute name of each case is fixed by the four Writes lemmas below |
| `Elements.Written` | src/main.js:213-241 | fontSize is written with "px" appended; bold writes "bold" or "normal", italic "italic" or "normal", underline "underline" or "none", the first exactly when the value is truthy; every other case writes the value as given |
| `Elements.TargetInjective` | src/main.js:206-243 | no two cases write the same attribute or style |
| `Elements.Put` | src/main.js:208-241 | a write changes only the one place written, and only if its part exists; everything else, including which parts exist, is unchanged |
| `Elements.ApplyProperty` | src/main.js:206-243 | a case's value lands at its target when the part holding it exists, the element is unchanged when it does not, and every other place keeps its value |
| `Elements.ApplyChangesOnePlace` | src/main.js:206-243 | each handled case changes exactly its one attribute or style, to the value the case writes, and nothing else of the element |
| `Elements.ApplyIdempotent` | src/main.js:206-243 | applying the same property and value twice equals applying it once |
| `Elements.ApplyKeepsWellFormed` | src/main.js:206-243 | an edit keeps the parts the element was created with |
| `Elements.PathEditsIgnored` | src/main.js:234-242 | pathData, stroke and strokeWidth change nothing on a created element |
| `Elements.FontSizeNotClamped` | src/main.js:213-214 | fontSize v writes "v" + "px" on a text element with no clamping |
| `Elements.CheckboxWrites` | src/main.js:225-233 | a bold, italic or underline tick writes font-weight "bold"/"normal", font-style "italic"/"normal" and text-decoration "underline"/"none" on an element with inner divs |
| `Elements.TextStyleWrites` | src/main.js:213-224 | fontFamily writes the font-family style as given; fontSize writes the font-size style as the value followed by "px" |
| `Elements.PathWrites` | src/main.js:234-242 | pathData, stroke and strokeWidth write the path's d, stroke and stroke-width attributes as given, where a path exists |
| `Elements.AttributeWrites` | src/main.js:207-221 | width and height write the outer element's dimensions; src writes the img's src and fill the circle's fill, where those parts exist |
| `Elements.ApplyAllKeepsWellFormed` | src/main.js:206-243 | any sequence of edits keeps kind, position and parts |
| `Form.NumberOr` | src/main.js:114-119 | JavaScript's `n or d` on a number gives n, or d when n is 0 |
| `Form.FontSizeShown` | src/main.js:145 | the font-size field shows the parsed size, or 16 when it is NaN or 0 |
| `Form.SelectedFont` | src/main.js:126-139 | the font select shows the last option whose key occurs in the current font, otherwise the first |
| `Form.CommonProperties` | src/main.js:109-122 | two number boxes for width and height that show the measured dimension when it is not 0, and never 0 |
| `Form.TextProperties` | src/main.js:124-162 | font family, font size, bold, italic and underline, in that order; the select shows the option the reported family (or Arial) selects, the 8–72 slider shows the parsed size or 16, never 0, and the styles are ticks |
| `Form.ImageProperties` | src/main.js:164-172 | one URL box for src showing the img's src, or "undefined" when there is no img |
| `Form.PathAttrOr` | src/main.js:180-195 | `path.attr(name) or d`: never empty when d is not; a non-empty attribute shows as itself; an empty or absent attribute, or an absent path, gives d |
| `Form.ShapeProperties` | src/main.js:174-198 | pathData, fill, stroke and strokeWidth, in that order, showing the path's d, fill, stroke and stroke-width attributes, each with its default when empty or absent; no field shows an empty value; without a path all four show their defaults |
| `Form.Schema` | src/main.js:97-198 | the panel's fields start with width and height, and a property is listed exactly when it is a dimension or belongs to the element's kind; other kinds get the dimensions only, and no field appears twice |
| `Form.Section` | src/main.js:100-103 | the fields after the dimensions are the kind's schema after width and height, position by position |
| `Form.GeneratePropertiesForm` | src/main.js:97-122 | the panel's fields are the kind's schema in order; width and height show the measured dimension, or 100 when it is 0 |
| `Form.ValueOfAt` | src/main.js:97-107 | the value of a field is found at its first position in the panel |
| `Form.ValueOfMissing` | src/main.js:97-107 | a panel without a field for a property shows no value for it |
| `Form.FormShowsSchema` | src/main.js:97-107 | the panel has a field for a property exactly when it is in the element kind's schema |
| `Form.ValueOfPresent` | src/main.js:97-107 | a panel has a value for a property exactly when the property is among its fields |
| `Form.FormValueAt` | src/main.js:97-107 | the field at each schema position gives the panel's value for that property |
| `Form.TextForm` | src/main.js:100-101 | a text element's panel is the dimensions followed by the text section |
| `Form.ShapeForm` | src/main.js:100-103 | a shape element's panel is the dimensions followed by the shape section |
| `Form.TextDefaults` | src/main.js:124-146 | font family shows Arial when unset; font size shows 16 when it does not parse or is 0 |
| `Form.TextFlags` | src/main.js:127-129 | bold, italic and underline reflect the reported weight "700", style "italic" and a decoration containing "underline" |
| `Form.TextValues` | src/main.js:124-145 | a text panel's font select shows the option the reported family (or Arial) selects, and its size slider shows `parseInt(size) or 16` |
| `Form.FontShownByLastKey` | src/main.js:134-139 | a current font that contains option k's key and no later key shows as option k, Arial included |
| `Form.FontOptionShown` | src/main.js:134-139 | option k's own text selects option k |
| `Form.QuotedFontShown` | src/main.js:126-139 | a family list with "Times New Roman" anywhere in it, such as a quoted name followed by fallbacks, shows that option when the rest of the list has no capital V or C |
| `Form.FontSizeWriteParses` | src/main.js:213-214 | the string the fontSize case writes for a numeral n parses to n (the panel parses the browser's computed style, not this string) |
| `Form.FontSizeShownOfPixels` | src/main.js:145 | a reported size of n px shows as n, or 16 when n is 0 |
| `Form.ShapeDefaults` | src/main.js:174-196 | with no path the shape fields show "M50 0 L100 50 L50 100 L0 50 Z", "#dddddd", "#000000" and 1 |
| `Form.FillEditNotShown` | src/main.js:185 | a fill edit on a created shape recolours the circle, yet its panel still shows "#dddddd" |
| `Form.ShapePanelFixed` | src/main.js:174-243 | after any sequence of edits a created shape's panel still shows the four shape defaults |
| `Form.SrcEditShown` | src/main.js:169 | after a src edit an image's panel shows the URL written |
| `Form.CreatedImageShowsPlaceholder` | src/main.js:57 | a created image's panel shows the placeholder URL |
| `Form.OffPanelEdits` | src/main.js:206-243 | a field absent from an element's panel changes nothing on it, except the text-style cases on an image, which write its wrapper divs |
| `Playground.DropPoint` | src/main.js:39-41 | the drop point plus the zone offset plus 20 is the mouse's page position |
| `Playground.PlaygroundManager.constructor` | src/main.js:2-4 | no elements, no selection |
| `Playground.PlaygroundManager.SelectElement` | src/main.js:84-95 | the selection becomes the element; the panel is that element's form; it alone carries the highlight; no other attribute of any element changes |
| `Playground.PlaygroundManager.CreateElement` | src/main.js:45-74 | one created element is appended with the given kind and position and becomes the selection; the panel is its form; earlier elements lose only the highlight |
| `Playground.PlaygroundManager.HandleDrop` | src/main.js:37-43 | the element is created at (pageX − offset.left − 20, pageY − offset.top − 20) with the dragged item's type, becomes the selection, and the panel is its form; earlier elements lose only the highlight |
| `Playground.PlaygroundManager.HandlePropertyChange` | src/main.js:200-244 | with no selection or an unhandled name nothing changes; otherwise only the selected element changes, as the selected case writes; the selection and the panel stay |
| `Playground.PlaygroundManager.UpdateElementPosition` | src/main.js:246-251 | the element's left/top become exactly the given position; nothing else changes |
| `Playground.RepeatedEditSettles` | src/main.js:200-244 | two identical change events leave the state the first one left |

## Left out

- Drag-and-drop setup and event wiring (src/main.js:9-35, makeElementDraggable at 76-82) are left out. They belong to a foreign library and to host events. The model's methods stand for the callbacks they deliver.
- Reading the changed control (src/main.js:201-202) is left out. `data('prop')` and `is(':checkbox') ? checked : val()` become the `name` and `Input` parameters.
- The clock read `Date.now()` (src/main.js:48) is the `now` parameter. No uniqueness of ids is claimed.
- HTML markup, CSS class lists other than the highlight, labels and rendering are left out. The panel is a list of descriptors.
- The panel values are interpolated into `value="..."` attributes without escaping (src/main.js:114-195). A value containing `"` or `&` therefore shows differently in the page. The lemmas about what the panel shows, such as `Form.SrcEditShown`, speak of the field descriptor, not of the rendered control.
- Browser computed style and layout are the opaque `Form.Layout` parameter, with no link to the record assumed. This covers `.width()`, `.height()` and `.css()` getters.
- Browser validation of CSS values is not modelled. Neither is jQuery's unit handling in `.width(v)`/`.height(v)`, where a bare number gets "px" and a negative one becomes 0. The record keeps the value written.
- Positions and dimensions are integers. Fractional page coordinates and offsets are not modelled.
- jQuery's `.data('type')` (src/main.js:92) converts numeric, boolean and JSON-looking tags to other types. This is not modelled: the kind stores the tag string, and only the three known tags matter.
- The link from a fontFamily write to the family the browser reports is not modelled. `Form.QuotedFontShown` covers the usual reported form.
- Js.ParseInt: the "0x" hexadecimal prefix that parseInt accepts without a radix is not modelled. Computed font sizes never carry it.
- Js.ParseInt: the result is an exact unbounded integer. JavaScript's parseInt returns a double, so the two agree only up to 2^53: a longer digit run is rounded, and a run of a few hundred digits gives Infinity. The same bound applies to what Js.ParseIntOfDigits, Js.ParseIntOfNumeral, Form.FontSizeShownOfPixels and Form.FontSizeWriteParses state; the slider delivers only 8–72.
- A selected element removed from the page is not modelled. Nothing in the code removes elements.
- The unused `this.elements` Map (src/main.js:3) is left out, and so is the
  `$(document).ready` bootstrap (src/main.js:255-257).
