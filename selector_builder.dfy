/** The mutable selector: six slots updated in place by six chainable
    mutators, each of which validates before it changes anything. */
module SelectorBuilder {
  import opened SelectorParts

  /** The order check: walks the listed slots in order and stops at the
      first populated one, where the builder throws. Returns false there
      instead of throwing. */
  method CheckCorrectOrder(items: seq<Slot>) returns (ok: bool)
    ensures ok <==> forall i :: 0 <= i < |items| ==> !Filled(items[i])
  {
    var i := 0;
    while i < |items|
      invariant 0 <= i <= |items|
      invariant forall j :: 0 <= j < i ==> !Filled(items[j])
    {
      if Filled(items[i]) {
        return false;
      }
      i := i + 1;
    }
    return true;
  }

  class Selector {
    var element: string
    var id: string
    var classes: seq<string>
    var attrs: seq<string>
    var pseudoClasses: seq<string>
    var pseudoElement: string

    /** The current slots as a value. */
    function Snapshot(): Parts
      reads this
    {
      Parts(element, id, classes, attrs, pseudoClasses, pseudoElement)
    }

    /** Object invariant: every stored token carries its kind's wrapper. */
    ghost predicate Valid()
      reads this
    {
      WellFormed(Snapshot())
    }

    /** What a mutator promises: on success it returns this same selector and
        the slots are those the step computes; on failure it returns the
        step's error and the slots are as they were. */
    ghost predicate Reflects(r: Result<Selector>, step: Result<Parts>, before: Parts)
      reads this
    {
      match step
      case Ok(after) => r == Ok(this) && Snapshot() == after
      case Err(e) => r == Err(e) && Snapshot() == before
    }

    constructor ()
      ensures Valid()
      ensures Snapshot() == Empty
    {
      element, id, pseudoElement := "", "", "";
      classes, attrs, pseudoClasses := [], [], [];
    }

    method Element(value: string) returns (r: Result<Selector>)
      requires Valid()
      modifies this
      ensures Valid()
      ensures Reflects(r, Step(old(Snapshot()), Kind.Element, value), old(Snapshot()))
    {
      var ok := CheckCorrectOrder([Single(id), Many(classes), Many(attrs), Many(pseudoClasses), Single(pseudoElement)]);
      if !ok {
        return Err(OrderError);
      }
      if element != "" {
        return Err(DuplicateError);
      }
      element := value;
      return Ok(this);
    }

    method Id(value: string) returns (r: Result<Selector>)
      requires Valid()
      modifies this
      ensures Valid()
      ensures Reflects(r, Step(old(Snapshot()), Kind.Id, value), old(Snapshot()))
    {
      var ok := CheckCorrectOrder([Many(classes), Many(attrs), Many(pseudoClasses), Single(pseudoElement)]);
      if !ok {
        return Err(OrderError);
      }
      if id != "" {
        return Err(DuplicateError);
      }
      id := "#" + value;
      return Ok(this);
    }

    method Class(value: string) returns (r: Result<Selector>)
      requires Valid()
      modifies this
      ensures Valid()
      ensures Reflects(r, Step(old(Snapshot()), Kind.Class, value), old(Snapshot()))
    {
      var ok := CheckCorrectOrder([Many(attrs), Many(pseudoClasses), Single(pseudoElement)]);
      if !ok {
        return Err(OrderError);
      }
      classes := classes + ["." + value];
      return Ok(this);
    }

    method Attr(value: string) returns (r: Result<Selector>)
      requires Valid()
      modifies this
      ensures Valid()
      ensures Reflects(r, Step(old(Snapshot()), Kind.Attr, value), old(Snapshot()))
    {
      var ok := CheckCorrectOrder([Many(pseudoClasses), Single(pseudoElement)]);
      if !ok {
        return Err(OrderError);
      }
      attrs := attrs + ["[" + value + "]"];
      StepKeepsWellFormed(old(Snapshot()), Kind.Attr, value);
      return Ok(this);
    }

    method PseudoClass(value: string) returns (r: Result<Selector>)
      requires Valid()
      modifies this
      ensures Valid()
      ensures Reflects(r, Step(old(Snapshot()), Kind.PseudoClass, value), old(Snapshot()))
    {
      var ok := CheckCorrectOrder([Single(pseudoElement)]);
      if !ok {
        return Err(OrderError);
      }
      pseudoClasses := pseudoClasses + [":" + value];
      return Ok(this);
    }

    /** The terminal kind: no order check, only the duplicate check. */
    method PseudoElement(value: string) returns (r: Result<Selector>)
      requires Valid()
      modifies this
      ensures Valid()
      ensures Reflects(r, Step(old(Snapshot()), Kind.PseudoElement, value), old(Snapshot()))
    {
      if pseudoElement != "" {
        return Err(DuplicateError);
      }
      pseudoElement := "::" + value;
      StepKeepsWellFormed(old(Snapshot()), Kind.PseudoElement, value);
      return Ok(this);
    }

    /** The selector's text. It reads the slots and changes nothing, so two
        calls in a row give the same text; in a valid selector it is the six
        slots concatenated in canonical order with no separator. */
    function Stringify(): string
      reads this
    {
      Render(Snapshot())
    }
  }
}
