/** The playground manager: the elements placed in the drop zone, the single
    selected element and the properties panel, and the operations that
    change them (src/main.js:1-7, src/main.js:37-95, src/main.js:200-251). */
module Playground {
  import opened Js
  import opened Elements
  import Form

  /** Where handleDrop places a dropped item: the mouse's page position
      made relative to the drop zone, less 20 pixels. */
  function DropPoint(pageX: int, pageY: int, offsetLeft: int, offsetTop: int): (p: (int, int))
    ensures p.0 + offsetLeft + 20 == pageX && p.1 + offsetTop + 20 == pageY
  {
    (pageX - offsetLeft - 20, pageY - offsetTop - 20)
  }

  class PlaygroundManager {
    /** The children of the drop zone, in the order they were appended. */
    var elements: seq<Element>
    /** The index of `selectedElement`, None until something is selected. */
    var selected: Option<nat>
    /** The field descriptors currently in the properties panel. */
    var panel: seq<Form.Field>

    /** Every element has the parts createElement built it with, the
        selection names a placed element, and the highlight class is on the
        selected element and on no other. */
    ghost predicate Valid()
      reads this
    {
      (selected.Some? ==> selected.value < |elements|) &&
      (forall j :: 0 <= j < |elements| ==> WellFormed(elements[j])) &&
      (forall j :: 0 <= j < |elements| ==> (elements[j].highlighted <==> selected == Some(j)))
    }

    constructor ()
      ensures Valid()
      ensures elements == [] && selected == None && panel == []
    {
      elements := [];
      selected := None;
      panel := [];
    }

    /** selectElement then showPropertiesPanel: overwrite the selection,
        regenerate the panel from the browser's view `layout` of the element,
        and move the highlight class to it (src/main.js:84-95). */
    method SelectElement(i: nat, layout: Form.Layout)
      requires Valid() && i < |elements|
      modifies this
      ensures Valid()
      ensures selected == Some(i)
      ensures |elements| == |old(elements)|
      ensures forall k :: 0 <= k < |elements| ==>
                elements[k] == old(elements)[k].(highlighted := k == i)
      ensures panel == Form.GeneratePropertiesForm(elements[i], layout)
    {
      selected := Some(i);
      // $('.element').removeClass(...) sweeps every placed element.
      var swept := elements;
      var j := 0;
      while j < |swept|
        invariant 0 <= j <= |swept| == |elements|
        invariant forall k :: 0 <= k < j ==> swept[k] == elements[k].(highlighted := false)
        invariant forall k :: j <= k < |swept| ==> swept[k] == elements[k]
      {
        swept := swept[j := swept[j].(highlighted := false)];
        j := j + 1;
      }
      assert forall k :: 0 <= k < |swept| ==> WellFormed(swept[k]) && !swept[k].highlighted;
      elements := swept[i := swept[i].(highlighted := true)];
      assert forall k :: 0 <= k < |elements| ==> WellFormed(elements[k]);
      // The panel does not depend on the highlight class, so building it
      // after the sweep shows the same fields.
      panel := Form.GeneratePropertiesForm(elements[i], layout);
    }

    /** createElement: append a freshly built element at (x, y) and select
        it; the earlier elements lose the highlight and nothing else
        (src/main.js:45-74). `now` is the clock reading stored as its id. */
    method CreateElement(tag: string, x: int, y: int, now: int, layout: Form.Layout)
      requires Valid()
      modifies this
      ensures Valid()
      ensures |elements| == |old(elements)| + 1
      ensures elements[|old(elements)|] == Created(tag, x, y, now).(highlighted := true)
      ensures forall k :: 0 <= k < |old(elements)| ==>
                elements[k] == old(elements)[k].(highlighted := false)
      ensures selected == Some(|old(elements)|)
      ensures panel == Form.GeneratePropertiesForm(elements[|old(elements)|], layout)
    {
      var e := Created(tag, x, y, now);
      elements := elements + [e];
      SelectElement(|elements| - 1, layout);
    }

    /** handleDrop: create an element of the dragged item's type at the drop
        point (src/main.js:37-43). */
    method HandleDrop(tag: string, pageX: int, pageY: int, offsetLeft: int, offsetTop: int,
                      now: int, layout: Form.Layout)
      requires Valid()
      modifies this
      ensures Valid()
      ensures |elements| == |old(elements)| + 1
      ensures var e := elements[|old(elements)|];
              e.kind == KindOf(tag) &&
              e.left == pageX - offsetLeft - 20 && e.top == pageY - offsetTop - 20 &&
              e == Created(tag, e.left, e.top, now).(highlighted := true)
      ensures forall k :: 0 <= k < |old(elements)| ==>
                elements[k] == old(elements)[k].(highlighted := false)
      ensures selected == Some(|old(elements)|)
      ensures panel == Form.GeneratePropertiesForm(elements[|old(elements)|], layout)
    {
      var p := DropPoint(pageX, pageY, offsetLeft, offsetTop);
      CreateElement(tag, p.0, p.1, now, layout);
    }

    /** handlePropertyChange: with an element selected and a name that one
        of the twelve cases matches, apply that case to the selected element;
        otherwise change nothing. The panel is not regenerated
        (src/main.js:200-244). */
    method HandlePropertyChange(name: string, v: Input)
      requires Valid()
      modifies this
      ensures Valid()
      ensures selected == old(selected) && panel == old(panel)
      ensures old(selected).None? || PropOf(name).None? ==> elements == old(elements)
      ensures old(selected).Some? && PropOf(name).Some? ==>
                elements == old(elements)[old(selected).value :=
                  ApplyProperty(old(elements)[old(selected).value], PropOf(name).value, v)]
    {
      if selected.None? {
        return;
      }
      var p := PropOf(name);
      if p.None? {
        return;
      }
      var i := selected.value;
      ApplyKeepsWellFormed(elements[i], p.value, v);
      elements := elements[i := ApplyProperty(elements[i], p.value, v)];
    }

    /** updateElementPosition: the drag callback moves element i to
        (left, top) and changes nothing else (src/main.js:246-251). */
    method UpdateElementPosition(i: nat, left: int, top: int)
      requires Valid() && i < |elements|
      modifies this
      ensures Valid()
      ensures elements == old(elements)[i := old(elements)[i].(left := left, top := top)]
      ensures selected == old(selected) && panel == old(panel)
    {
      elements := elements[i := elements[i].(left := left, top := top)];
    }
  }

  /** A client: two change events in a row with the same name and value
      leave the playground as the first one left it. */
  method RepeatedEditSettles(m: PlaygroundManager, name: string, v: Input)
    requires m.Valid()
    modifies m
    ensures m.Valid() && m.selected == old(m.selected) && m.panel == old(m.panel)
    ensures old(m.selected).None? || PropOf(name).None? ==> m.elements == old(m.elements)
    ensures old(m.selected).Some? && PropOf(name).Some? ==>
              m.elements == old(m.elements)[old(m.selected).value :=
                ApplyProperty(old(m.elements)[old(m.selected).value], PropOf(name).value, v)]
  {
    m.HandlePropertyChange(name, v);
    m.HandlePropertyChange(name, v);
    if m.selected.Some? && PropOf(name).Some? {
      ApplyIdempotent(old(m.elements)[m.selected.value], PropOf(name).value, v);
    }
  }
}
