/** The builder's documented uses, traced through the model: the chains and
    the nested combine from the usage notes in src/06-objects-tasks.js, and
    the failures its rules call for. Each chain is first built on arbitrary
    arguments; the documented arguments are then substituted, and a small
    lemma beside each spells the resulting text out as one literal. */
module SelectorExamples {
  import opened SelectorParts
  import opened SelectorBuilder
  import B = CssSelectorBuilder

  /** `id(a).class(b).class(c)` renders its three tokens in call order. */
  method IdAndClasses(id: string, first: string, second: string) returns (s: Selector, text: string)
    ensures s.Stringify() == text
    ensures text == Token(Kind.Id, id) + Token(Kind.Class, first) + Token(Kind.Class, second)
  {
    s := B.Id(id);
    ghost var p := s.Snapshot();
    ChecksPass(p, Kind.Class, first);
    var r := s.Class(first);
    p := Store(p, Kind.Class, Token(Kind.Class, first));
    assert s.Snapshot() == p;
    ChecksPass(p, Kind.Class, second);
    r := s.Class(second);
    text := s.Stringify();
  }

  /** `element(a).attr(b).pseudoClass(c)` */
  method ElementAttrPseudoClass(element: string, attr: string, pseudoClass: string) returns (s: Selector, text: string)
    ensures s.Stringify() == text
    ensures text == element + Token(Kind.Attr, attr) + Token(Kind.PseudoClass, pseudoClass)
  {
    s := B.Element(element);
    ghost var p := s.Snapshot();
    ChecksPass(p, Kind.Attr, attr);
    var r := s.Attr(attr);
    p := Store(p, Kind.Attr, Token(Kind.Attr, attr));
    assert s.Snapshot() == p;
    ChecksPass(p, Kind.PseudoClass, pseudoClass);
    r := s.PseudoClass(pseudoClass);
    text := s.Stringify();
  }

  /** `element(a).id(b).class(c).class(d)` */
  method ElementIdClasses(element: string, id: string, first: string, second: string) returns (s: Selector, text: string)
    ensures s.Stringify() == text
    ensures text == element + Token(Kind.Id, id) + Token(Kind.Class, first) + Token(Kind.Class, second)
  {
    s := B.Element(element);
    ghost var p := s.Snapshot();
    ChecksPass(p, Kind.Id, id);
    var r := s.Id(id);
    p := Store(p, Kind.Id, Token(Kind.Id, id));
    assert s.Snapshot() == p;
    ChecksPass(p, Kind.Class, first);
    r := s.Class(first);
    p := Store(p, Kind.Class, Token(Kind.Class, first));
    assert s.Snapshot() == p;
    ChecksPass(p, Kind.Class, second);
    r := s.Class(second);
    text := s.Stringify();
  }

  /** `element(a).id(b)` */
  method ElementId(element: string, id: string) returns (s: Selector, text: string)
    ensures s.Stringify() == text
    ensures text == element + Token(Kind.Id, id)
  {
    s := B.Element(element);
    ChecksPass(s.Snapshot(), Kind.Id, id);
    var r := s.Id(id);
    text := s.Stringify();
  }

  /** `element(a).pseudoClass(b)` */
  method ElementPseudoClass(element: string, pseudoClass: string) returns (s: Selector, text: string)
    ensures s.Stringify() == text
    ensures text == element + Token(Kind.PseudoClass, pseudoClass)
  {
    s := B.Element(element);
    ChecksPass(s.Snapshot(), Kind.PseudoClass, pseudoClass);
    var r := s.PseudoClass(pseudoClass);
    text := s.Stringify();
  }

  /** The documented result of `id('main').class('container').class('editable')`. */
  method MainContainerEditable() returns (text: string)
    ensures text == "#main.container.editable"
  {
    var s;
    s, text := IdAndClasses("main", "container", "editable");
    MainContainerEditableSpelled();
  }

  lemma MainContainerEditableSpelled()
    ensures Token(Kind.Id, "main") + Token(Kind.Class, "container") + Token(Kind.Class, "editable")
      == "#main.container.editable"
  {
  }

  /** The documented result of `element('a').attr('href$=".png"').pseudoClass('focus')`. */
  method PngLinkFocus() returns (text: string)
    ensures text == "a[href$=\".png\"]:focus"
  {
    var s;
    s, text := ElementAttrPseudoClass("a", "href$=\".png\"", "focus");
    PngLinkFocusSpelled();
  }

  lemma PngLinkFocusSpelled()
    ensures "a" + Token(Kind.Attr, "href$=\".png\"") + Token(Kind.PseudoClass, "focus") == "a[href$=\".png\"]:focus"
  {
  }

  /** The documented nested combine: each combine renders its operands and
      pads its combinator with one space on each side, so the descendant
      combinator ' ' leaves three spaces between tr and td. */
  method NestedCombine() returns (text: string)
    ensures text == "div#main.container.draggable" + " + " + ("table#data" + " ~ " + ("tr:nth-of-type(even)" + "   " + "td:nth-of-type(even)"))
  {
    var div, divText := ElementIdClasses("div", "main", "container", "draggable");
    DivSpelled();
    var table, tableText := ElementId("table", "data");
    TableSpelled();
    var tr, trText := ElementPseudoClass("tr", "nth-of-type(even)");
    var td, tdText := ElementPseudoClass("td", "nth-of-type(even)");
    RowSpelled();
    CellSpelled();
    assert B.Sel(tr.Snapshot()).Stringify() == trText && B.Sel(td.Snapshot()).Stringify() == tdText;
    assert B.Sel(table.Snapshot()).Stringify() == tableText && B.Sel(div.Snapshot()).Stringify() == divText;
    var inner := B.Combine(B.Sel(tr.Snapshot()), " ", B.Sel(td.Snapshot()));
    assert inner.Stringify() == trText + " " + " " + " " + tdText;
    var middle := B.Combine(B.Sel(table.Snapshot()), "~", inner);
    assert middle.Stringify() == tableText + " " + "~" + " " + inner.Stringify();
    var outer := B.Combine(B.Sel(div.Snapshot()), "+", middle);
    text := outer.Stringify();
    assert text == divText + " " + "+" + " " + middle.Stringify();
    PaddingSpelled(divText, tableText, trText, tdText);
  }

  lemma DivSpelled()
    ensures "div" + Token(Kind.Id, "main") + Token(Kind.Class, "container") + Token(Kind.Class, "draggable")
      == "div#main.container.draggable"
  {
  }

  lemma TableSpelled()
    ensures "table" + Token(Kind.Id, "data") == "table#data"
  {
  }

  lemma RowSpelled()
    ensures "tr" + Token(Kind.PseudoClass, "nth-of-type(even)") == "tr:nth-of-type(even)"
  {
  }

  lemma CellSpelled()
    ensures "td" + Token(Kind.PseudoClass, "nth-of-type(even)") == "td:nth-of-type(even)"
  {
  }

  lemma PaddingSpelled(a: string, b: string, c: string, d: string)
    ensures a + " " + "+" + " " + (b + " " + "~" + " " + (c + " " + " " + " " + d))
      == a + " + " + (b + " ~ " + (c + "   " + d))
  {
  }

  // ---------------------------------------------------------------------
  // Failures

  /** A second element on a selector whose element is set is a duplicate;
      the selector keeps its first element. */
  method ElementTwice(first: string, second: string) returns (r: Result<Selector>, text: string)
    requires first != ""
    ensures r == Err(DuplicateError)
    ensures text == first
  {
    var s := B.Element(first);
    r := s.Element(second);
    text := s.Stringify();
  }

  /** An empty element leaves the slot falsy, so a second element is
      accepted and replaces it. */
  method EmptyElementThenElement(second: string) returns (r: Result<Selector>, text: string)
    ensures r.Ok?
    ensures text == second
  {
    var s := B.Element("");
    ChecksPass(s.Snapshot(), Kind.Element, second);
    r := s.Element(second);
    text := s.Stringify();
  }

  /** A class after an attribute breaks the order; the selector keeps only
      the attribute. */
  method ClassAfterAttr(attr: string, className: string) returns (r: Result<Selector>, text: string)
    ensures r == Err(OrderError)
    ensures text == Token(Kind.Attr, attr)
  {
    var s := B.Attr(attr);
    StepOutcome(s.Snapshot(), Kind.Class, className);
    assert Rank(Kind.Class) < Rank(Kind.Attr) && Filled(SlotOf(s.Snapshot(), Kind.Attr));
    r := s.Class(className);
    text := s.Stringify();
  }

  /** An attribute after a class is in order. */
  method AttrAfterClass(className: string, attr: string) returns (r: Result<Selector>, text: string)
    ensures r.Ok?
    ensures text == Token(Kind.Class, className) + Token(Kind.Attr, attr)
  {
    var s := B.Class(className);
    ghost var p := s.Snapshot();
    ChecksPass(p, Kind.Attr, attr);
    r := s.Attr(attr);
    text := s.Stringify();
  }

  /** An id after a class breaks the order. */
  method IdAfterClass(className: string, id: string) returns (r: Result<Selector>, text: string)
    ensures r == Err(OrderError)
    ensures text == Token(Kind.Class, className)
  {
    var s := B.Class(className);
    StepOutcome(s.Snapshot(), Kind.Id, id);
    assert Rank(Kind.Id) < Rank(Kind.Class) && Filled(SlotOf(s.Snapshot(), Kind.Class));
    r := s.Id(id);
    text := s.Stringify();
  }

  /** A second pseudo-element is a duplicate, even an empty one: the first
      one's token is never empty. */
  method PseudoElementTwice(first: string, second: string) returns (r: Result<Selector>, text: string)
    ensures r == Err(DuplicateError)
    ensures text == Token(Kind.PseudoElement, first)
  {
    var s := B.PseudoElement(first);
    r := s.PseudoElement(second);
    text := s.Stringify();
  }

  /** Nothing but the pseudo-element's own duplicate check follows a
      pseudo-element: a pseudo-class after it breaks the order. */
  method PseudoClassAfterPseudoElement(pseudoElement: string, pseudoClass: string) returns (r: Result<Selector>, text: string)
    ensures r == Err(OrderError)
    ensures text == Token(Kind.PseudoElement, pseudoElement)
  {
    var s := B.PseudoElement(pseudoElement);
    StepOutcome(s.Snapshot(), Kind.PseudoClass, pseudoClass);
    assert Rank(Kind.PseudoClass) < Rank(Kind.PseudoElement) && Filled(SlotOf(s.Snapshot(), Kind.PseudoElement));
    r := s.PseudoClass(pseudoClass);
    text := s.Stringify();
  }
}
