/** The builder's entry point: one factory per fragment kind, each seeding a
    fresh selector with one call, a bare stringify, and `combine`, which
    joins two rendered selectors with a combinator. */
module CssSelectorBuilder {
  import opened SelectorParts
  import opened SelectorBuilder

  /** Anything with a stringify: a selector (as a snapshot of its slots) or
      the result of a combine, which holds only its finished text. */
  datatype Renderable = Sel(parts: Parts) | Combined(combineResult: string) {
    function Stringify(): string {
      match this
      case Sel(p) => Render(p)
      case Combined(text) => text
    }
  }

  /** Renders both operands and keeps "<a> <combinator> <b>": a single space
      on each side of the combinator, exactly as supplied. */
  function Combine(a: Renderable, combinator: string, b: Renderable): (r: Renderable)
    ensures r.Combined?
    ensures r.Stringify() == a.Stringify() + " " + combinator + " " + b.Stringify()
  {
    Combined(a.Stringify() + " " + combinator + " " + b.Stringify())
  }

  /** The bare entry point renders a selector with no fragment. */
  function Stringify(): (s: string)
    ensures s == ""
  {
    var empty := Sel(Empty);
    empty.Stringify()
  }

  // ---------------------------------------------------------------------
  // Factories. A fresh selector has no populated slot, so the seeding call
  // always passes both checks.

  method Element(value: string) returns (s: Selector)
    ensures fresh(s) && s.Valid()
    ensures s.Snapshot() == Empty.(element := value)
    ensures s.Stringify() == value
  {
    s := new Selector();
    var r := s.Element(value);
  }

  method Id(value: string) returns (s: Selector)
    ensures fresh(s) && s.Valid()
    ensures s.Snapshot() == Empty.(id := "#" + value)
    ensures s.Stringify() == "#" + value
  {
    s := new Selector();
    var r := s.Id(value);
  }

  method Class(value: string) returns (s: Selector)
    ensures fresh(s) && s.Valid()
    ensures s.Snapshot() == Empty.(classes := ["." + value])
    ensures s.Stringify() == "." + value
  {
    s := new Selector();
    ChecksPass(Empty, Kind.Class, value);
    var r := s.Class(value);
  }

  method Attr(value: string) returns (s: Selector)
    ensures fresh(s) && s.Valid()
    ensures s.Snapshot() == Empty.(attrs := ["[" + value + "]"])
    ensures s.Stringify() == "[" + value + "]"
  {
    s := new Selector();
    ChecksPass(Empty, Kind.Attr, value);
    var r := s.Attr(value);
  }

  method PseudoClass(value: string) returns (s: Selector)
    ensures fresh(s) && s.Valid()
    ensures s.Snapshot() == Empty.(pseudoClasses := [":" + value])
    ensures s.Stringify() == ":" + value
  {
    s := new Selector();
    ChecksPass(Empty, Kind.PseudoClass, value);
    var r := s.PseudoClass(value);
  }

  method PseudoElement(value: string) returns (s: Selector)
    ensures fresh(s) && s.Valid()
    ensures s.Snapshot() == Empty.(pseudoElement := "::" + value)
    ensures s.Stringify() == "::" + value
  {
    s := new Selector();
    var r := s.PseudoElement(value);
  }

  // ---------------------------------------------------------------------
  // Nested combines

  /** A tree of builder expressions: a selector, or a combine of two trees. */
  datatype Expr = Leaf(parts: Parts) | Join(left: Expr, combinator: string, right: Expr)

  /** What the builder returns for an expression tree. */
  function Eval(e: Expr): Renderable {
    match e
    case Leaf(p) => Sel(p)
    case Join(l, c, r) => Combine(Eval(l), c, Eval(r))
  }

  /** The text a tree stands for: each leaf's rendering, with every combinator
      written between its two sides, padded by one space on each side. */
  function Text(e: Expr): string {
    match e
    case Leaf(p) => Render(p)
    case Join(l, c, r) => Text(l) + " " + c + " " + Text(r)
  }

  /** Since a combine keeps only text and stringifies as that text, nested
      combines render as the recursive concatenation of their parts. */
  lemma {:induction false} EvalRendersText(e: Expr)
    ensures Eval(e).Stringify() == Text(e)
  {
    match e
    case Leaf(p) =>
    case Join(l, c, r) =>
      EvalRendersText(l);
      EvalRendersText(r);
  }
}
