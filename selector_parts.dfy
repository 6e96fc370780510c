/** The value side of a CSS selector under construction: its six slots,
    the order check every mutator runs, one mutator call as a function
    from slots to slots, and the rendering of the slots as text. */
module SelectorParts {

  /** The six kinds of selector fragment, listed in canonical order. */
  datatype Kind = Element | Id | Class | Attr | PseudoClass | PseudoElement

  /** Position of a kind in the canonical order. */
  function Rank(k: Kind): nat {
    match k
    case Element => 0
    case Id => 1
    case Class => 2
    case Attr => 3
    case PseudoClass => 4
    case PseudoElement => 5
  }

  /** Kinds that hold at most one token; the others accept repeats. */
  predicate IsSingle(k: Kind) {
    k == Element || k == Id || k == PseudoElement
  }

  /** The two failures a mutator reports (thrown as errors by the builder). */
  datatype Error = OrderError | DuplicateError

  datatype Result<T> = Ok(value: T) | Err(error: Error)

  /** A slot as the order check sees it: a single token, or a list of tokens. */
  datatype Slot = Single(token: string) | Many(tokens: seq<string>)

  /** A slot is populated when it is truthy: a single token that is not the
      empty string, or a list whose first token is not the empty string. */
  predicate Filled(s: Slot) {
    match s
    case Single(t) => t != ""
    case Many(ts) => |ts| > 0 && ts[0] != ""
  }

  /** The six slots of a selector. An absent single-valued slot is "", which
      is falsy just as the builder's initial `undefined` is. */
  datatype Parts = Parts(
    element: string,
    id: string,
    classes: seq<string>,
    attrs: seq<string>,
    pseudoClasses: seq<string>,
    pseudoElement: string)

  /** The slots of a freshly constructed selector. */
  const Empty := Parts("", "", [], [], [], "")

  function SlotOf(p: Parts, k: Kind): Slot {
    match k
    case Element => Single(p.element)
    case Id => Single(p.id)
    case Class => Many(p.classes)
    case Attr => Many(p.attrs)
    case PseudoClass => Many(p.pseudoClasses)
    case PseudoElement => Single(p.pseudoElement)
  }

  /** The slots that a mutator of kind k hands to the order check, in the
      order it lists them. The pseudo-element mutator runs no order check,
      which is the same as checking no slot at all. */
  function SlotsAfter(p: Parts, k: Kind): seq<Slot> {
    match k
    case Element =>
      [Single(p.id), Many(p.classes), Many(p.attrs), Many(p.pseudoClasses), Single(p.pseudoElement)]
    case Id => [Many(p.classes), Many(p.attrs), Many(p.pseudoClasses), Single(p.pseudoElement)]
    case Class => [Many(p.attrs), Many(p.pseudoClasses), Single(p.pseudoElement)]
    case Attr => [Many(p.pseudoClasses), Single(p.pseudoElement)]
    case PseudoClass => [Single(p.pseudoElement)]
    case PseudoElement => []
  }

  /** The order check passes when none of the listed slots is populated. */
  predicate NoneFilled(slots: seq<Slot>) {
    forall i :: 0 <= i < |slots| ==> !Filled(slots[i])
  }

  /** Some slot of a kind ranked strictly after k is populated. */
  predicate LaterFilled(p: Parts, k: Kind) {
    exists k2 :: Rank(k) < Rank(k2) && Filled(SlotOf(p, k2))
  }

  /** The token stored for value v by the mutator of kind k. */
  function Token(k: Kind, v: string): string {
    match k
    case Element => v
    case Id => "#" + v
    case Class => "." + v
    case Attr => "[" + v + "]"
    case PseudoClass => ":" + v
    case PseudoElement => "::" + v
  }

  /** Assign token t to the slot of kind k, or append it when the kind repeats. */
  function Store(p: Parts, k: Kind, t: string): Parts {
    match k
    case Element => p.(element := t)
    case Id => p.(id := t)
    case Class => p.(classes := p.classes + [t])
    case Attr => p.(attrs := p.attrs + [t])
    case PseudoClass => p.(pseudoClasses := p.pseudoClasses + [t])
    case PseudoElement => p.(pseudoElement := t)
  }

  /** One mutator call of kind k with value v: the order check first, then,
      for a single-valued kind, the duplicate check, then the store. */
  function Step(p: Parts, k: Kind, v: string): Result<Parts> {
    if !NoneFilled(SlotsAfter(p, k)) then Err(OrderError)
    else if IsSingle(k) && Filled(SlotOf(p, k)) then Err(DuplicateError)
    else Ok(Store(p, k, Token(k, v)))
  }

  /** Left-to-right concatenation of tokens with no separator, as the
      builder's `reduce` over an array starting from ''. */
  function Concat(ts: seq<string>): string {
    if ts == [] then "" else Concat(ts[..|ts| - 1]) + ts[|ts| - 1]
  }

  /** The text of a selector: its slots in canonical order. A list slot
      contributes only when its first token is truthy. */
  function Render(p: Parts): string {
    p.element + p.id + ListPart(p.classes) + ListPart(p.attrs) + ListPart(p.pseudoClasses) + p.pseudoElement
  }

  /** A list slot's share of the rendering: its tokens concatenated when its
      first token is truthy, and nothing otherwise. */
  function ListPart(ts: seq<string>): string {
    if Filled(Many(ts)) then Concat(ts) else ""
  }

  /** Token t carries the wrapper of kind k: an id starts with '#', a class
      with '.', an attribute is enclosed in '[' and ']', a pseudo-class starts
      with ':' and a pseudo-element with "::". An element is stored raw. */
  predicate Wrapped(k: Kind, t: string) {
    match k
    case Element => true
    case Id => |t| >= 1 && t[0] == '#'
    case Class => |t| >= 1 && t[0] == '.'
    case Attr => |t| >= 2 && t[0] == '[' && t[|t| - 1] == ']'
    case PseudoClass => |t| >= 1 && t[0] == ':'
    case PseudoElement => |t| >= 2 && t[..2] == "::"
  }

  /** Every stored token carries the wrapper of its kind. */
  predicate WellFormed(p: Parts) {
    (p.id == "" || Wrapped(Id, p.id)) &&
    (forall i :: 0 <= i < |p.classes| ==> Wrapped(Class, p.classes[i])) &&
    (forall i :: 0 <= i < |p.attrs| ==> Wrapped(Attr, p.attrs[i])) &&
    (forall i :: 0 <= i < |p.pseudoClasses| ==> Wrapped(PseudoClass, p.pseudoClasses[i])) &&
    (p.pseudoElement == "" || Wrapped(PseudoElement, p.pseudoElement))
  }

  // ---------------------------------------------------------------------
  // The order check

  /** The list a mutator hands to the order check holds exactly the slots
      ranked after its own kind, so the check fails exactly when one of
      those slots is populated. */
  lemma OrderCheckMeansLaterFilled(p: Parts, k: Kind)
    ensures !NoneFilled(SlotsAfter(p, k)) <==> LaterFilled(p, k)
  {
    var s := SlotsAfter(p, k);
    if !NoneFilled(s) {
      var i :| 0 <= i < |s| && Filled(s[i]);
      var later := [Id, Class, Attr, PseudoClass, PseudoElement][Rank(k)..];
      assert SlotOf(p, later[i]) == s[i];
      assert Rank(k) < Rank(later[i]);
    }
    if LaterFilled(p, k) {
      var k2 :| Rank(k) < Rank(k2) && Filled(SlotOf(p, k2));
      assert s[Rank(k2) - Rank(k) - 1] == SlotOf(p, k2);
    }
  }

  // ---------------------------------------------------------------------
  // One mutator call

  /** A call fails with the order error exactly when a slot ranked after its
      kind is populated, and with the duplicate error exactly when that is not
      so and its kind is single-valued and already populated; otherwise it
      succeeds. The order check takes precedence over the duplicate check. */
  lemma StepOutcome(p: Parts, k: Kind, v: string)
    ensures Step(p, k, v) == Err(OrderError) <==> LaterFilled(p, k)
    ensures Step(p, k, v) == Err(DuplicateError) <==>
              !LaterFilled(p, k) && IsSingle(k) && Filled(SlotOf(p, k))
    ensures Step(p, k, v).Ok? <==>
              !LaterFilled(p, k) && !(IsSingle(k) && Filled(SlotOf(p, k)))
  {
    OrderCheckMeansLaterFilled(p, k);
  }

  /** A successful call changes only the slot of its own kind: a single-valued
      slot now holds the token, a list slot has grown by exactly the token at
      its end, and every other slot is as before. */
  lemma StepChangesOnlyItsSlot(p: Parts, k: Kind, v: string)
    requires Step(p, k, v).Ok?
    ensures var q := Step(p, k, v).value;
      (forall k2 :: k2 != k ==> SlotOf(q, k2) == SlotOf(p, k2)) &&
      (IsSingle(k) ==> SlotOf(q, k) == Single(Token(k, v))) &&
      (!IsSingle(k) ==> SlotOf(q, k) == Many(SlotOf(p, k).tokens + [Token(k, v)]))
  {
  }

  /** After a successful call a slot is populated exactly when it was
      before, or when it is the call's own slot and the call did not store an
      empty element: no call ever empties a populated slot. */
  lemma StepKeepsFilled(p: Parts, k: Kind, v: string)
    requires WellFormed(p)
    requires Step(p, k, v).Ok?
    ensures forall k2 :: Filled(SlotOf(Step(p, k, v).value, k2)) <==>
      Filled(SlotOf(p, k2)) || (k2 == k && (k != Element || v != ""))
  {
    var q := Step(p, k, v).value;
    StepChangesOnlyItsSlot(p, k, v);
    if !IsSingle(k) {
      var ts := SlotOf(p, k).tokens;
      assert SlotOf(q, k).tokens[0] == (ts + [Token(k, v)])[0];
    }
  }

  /** The class, attribute and pseudo-class mutators accept any number of
      repeats as long as no later kind is populated. */
  lemma RepeatableAcceptsRepeats(p: Parts, k: Kind, v: string)
    requires !IsSingle(k)
    ensures Step(p, k, v).Ok? <==> !LaterFilled(p, k)
  {
    StepOutcome(p, k, v);
  }

  /** Every call keeps each stored token wrapped as its kind demands. */
  lemma StepKeepsWellFormed(p: Parts, k: Kind, v: string)
    requires WellFormed(p)
    requires Step(p, k, v).Ok?
    ensures WellFormed(Step(p, k, v).value)
  {
    var q := Step(p, k, v).value;
    match k
    case PseudoElement =>
      assert q.pseudoElement[..2] == "::";
    case Attr =>
      var n := |p.attrs|;
      forall i | 0 <= i < |q.attrs|
        ensures |q.attrs[i]| >= 2 && q.attrs[i][0] == '[' && q.attrs[i][|q.attrs[i]| - 1] == ']'
      {
        if i < n { assert q.attrs[i] == p.attrs[i]; }
      }
    case _ =>
  }

  // ---------------------------------------------------------------------
  // Rendering

  lemma ConcatAppend(ts: seq<string>, t: string)
    ensures Concat(ts + [t]) == Concat(ts) + t
  {
    assert (ts + [t])[..|ts|] == ts;
  }

  /** In a well-formed selector a list slot is populated exactly when it is
      not empty, so the rendering is the plain concatenation of all six slots
      in canonical order, with no separator anywhere. */
  lemma RenderIsConcatenation(p: Parts)
    requires WellFormed(p)
    ensures Render(p) ==
      p.element + p.id + Concat(p.classes) + Concat(p.attrs) + Concat(p.pseudoClasses) + p.pseudoElement
  {
  }

  /** A selector with no fragment renders as the empty string. */
  lemma RenderEmpty()
    ensures Render(Empty) == ""
  {
  }

  /** In a well-formed selector whose slots after kind k are all unpopulated,
      those slots are empty. */
  lemma NothingLater(p: Parts, k: Kind)
    requires WellFormed(p)
    requires !LaterFilled(p, k)
    ensures Rank(k) < 5 ==> p.pseudoElement == ""
    ensures Rank(k) < 4 ==> p.pseudoClasses == []
    ensures Rank(k) < 3 ==> p.attrs == []
    ensures Rank(k) < 2 ==> p.classes == []
    ensures Rank(k) < 1 ==> p.id == ""
  {
    assert Rank(k) < 5 ==> !Filled(SlotOf(p, PseudoElement));
    assert Rank(k) < 4 ==> !Filled(SlotOf(p, PseudoClass));
    assert Rank(k) < 3 ==> !Filled(SlotOf(p, Attr));
    assert Rank(k) < 2 ==> !Filled(SlotOf(p, Class));
    assert Rank(k) < 1 ==> !Filled(SlotOf(p, Id));
  }

  /** A list slot's share of the rendering grows by exactly a non-empty
      appended token, as long as its earlier tokens are non-empty too. */
  lemma ListPartAppend(ts: seq<string>, t: string)
    requires forall i :: 0 <= i < |ts| ==> ts[i] != ""
    requires t != ""
    ensures ListPart(ts + [t]) == ListPart(ts) + t
  {
    ConcatAppend(ts, t);
    assert (ts + [t])[0] != "";
  }

  /** Each successful call appends exactly its token to the rendering:
      the order check guarantees that nothing rendered after its slot is
      populated yet. */
  lemma StepAppendsToken(p: Parts, k: Kind, v: string)
    requires WellFormed(p)
    requires Step(p, k, v).Ok?
    ensures Render(Step(p, k, v).value) == Render(p) + Token(k, v)
  {
    StepOutcome(p, k, v);
    NothingLater(p, k);
    if IsSingle(k) {
      SingleStepAppends(p, k, v);
    } else {
      ListStepAppends(p, k, v);
    }
  }

  /** A call whose order and duplicate checks both pass stores its token
      and appends it to the rendering. */
  lemma ChecksPass(p: Parts, k: Kind, v: string)
    requires WellFormed(p)
    requires NoneFilled(SlotsAfter(p, k))
    requires !(IsSingle(k) && Filled(SlotOf(p, k)))
    ensures Step(p, k, v) == Ok(Store(p, k, Token(k, v)))
    ensures Render(Store(p, k, Token(k, v))) == Render(p) + Token(k, v)
  {
    StepAppendsToken(p, k, v);
  }

  lemma SingleStepAppends(p: Parts, k: Kind, v: string)
    requires IsSingle(k)
    requires !Filled(SlotOf(p, k))
    requires Rank(k) < 5 ==> p.pseudoElement == ""
    requires Rank(k) < 4 ==> p.pseudoClasses == []
    requires Rank(k) < 3 ==> p.attrs == []
    requires Rank(k) < 2 ==> p.classes == []
    requires Rank(k) < 1 ==> p.id == ""
    ensures Render(Store(p, k, Token(k, v))) == Render(p) + Token(k, v)
  {
  }

  lemma ListStepAppends(p: Parts, k: Kind, v: string)
    requires !IsSingle(k)
    requires WellFormed(p)
    requires Rank(k) < 5 ==> p.pseudoElement == ""
    requires Rank(k) < 4 ==> p.pseudoClasses == []
    requires Rank(k) < 3 ==> p.attrs == []
    ensures Render(Store(p, k, Token(k, v))) == Render(p) + Token(k, v)
  {
    var t := Token(k, v);
    match k
    case Class =>
      ListPartAppend(p.classes, t);
      ClassAppends(p, t);
    case Attr =>
      ListPartAppend(p.attrs, t);
      AttrAppends(p, t);
    case PseudoClass =>
      ListPartAppend(p.pseudoClasses, t);
      PseudoClassAppends(p, t);
  }

  lemma ClassAppends(p: Parts, t: string)
    requires ListPart(p.classes + [t]) == ListPart(p.classes) + t
    requires p.attrs == [] && p.pseudoClasses == [] && p.pseudoElement == ""
    ensures Render(p.(classes := p.classes + [t])) == Render(p) + t
  {
    var head, c := p.element + p.id, ListPart(p.classes);
    assert ListPart([]) == "";
    assert Render(p) == head + c + "" + "" + "";
    assert Render(p.(classes := p.classes + [t])) == head + (c + t) + "" + "" + "";
  }

  lemma AttrAppends(p: Parts, t: string)
    requires ListPart(p.attrs + [t]) == ListPart(p.attrs) + t
    requires p.pseudoClasses == [] && p.pseudoElement == ""
    ensures Render(p.(attrs := p.attrs + [t])) == Render(p) + t
  {
    var head, a := p.element + p.id + ListPart(p.classes), ListPart(p.attrs);
    assert ListPart([]) == "";
    assert Render(p) == head + a + "" + "";
    assert Render(p.(attrs := p.attrs + [t])) == head + (a + t) + "" + "";
  }

  lemma PseudoClassAppends(p: Parts, t: string)
    requires ListPart(p.pseudoClasses + [t]) == ListPart(p.pseudoClasses) + t
    requires p.pseudoElement == ""
    ensures Render(p.(pseudoClasses := p.pseudoClasses + [t])) == Render(p) + t
  {
    var head, pc := p.element + p.id + ListPart(p.classes) + ListPart(p.attrs), ListPart(p.pseudoClasses);
    assert Render(p) == head + pc + "";
    assert Render(p.(pseudoClasses := p.pseudoClasses + [t])) == head + (pc + t) + "";
  }
}
