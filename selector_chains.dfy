/** Chains of mutator calls on one fresh selector, as in
    `builder.id('main').class('container').class('editable')`, and which
    chains the builder accepts. */
module SelectorChains {
  import opened SelectorParts

  /** One mutator call in a chain: its kind and its argument. */
  datatype Call = Call(kind: Kind, value: string)

  /** The slots after running the calls in order on a fresh selector, or the
      error of the first call that fails (a thrown error ends the chain). */
  function Run(calls: seq<Call>): Result<Parts> {
    if calls == [] then Ok(Empty)
    else
      var last := calls[|calls| - 1];
      match Run(calls[..|calls| - 1])
      case Err(e) => Err(e)
      case Ok(p) => Step(p, last.kind, last.value)
  }

  /** The tokens of the calls, concatenated in call order. */
  function Tokens(calls: seq<Call>): string {
    if calls == [] then ""
    else Tokens(calls[..|calls| - 1]) + Token(calls[|calls| - 1].kind, calls[|calls| - 1].value)
  }

  /** A call populates its slot unless it stores an empty element, which
      stays falsy. */
  predicate Populates(c: Call) {
    c.kind != Element || c.value != ""
  }

  /** Some call of the chain populated the slot of kind k. */
  predicate Mentions(calls: seq<Call>, k: Kind) {
    exists i :: 0 <= i < |calls| && calls[i].kind == k && Populates(calls[i])
  }

  /** The calls come in non-decreasing canonical rank. */
  predicate InOrder(calls: seq<Call>) {
    forall i, j :: 0 <= i < j < |calls| ==> Rank(calls[i].kind) <= Rank(calls[j].kind)
  }

  /** A single-valued kind is only called again after calls that left its
      slot falsy: an element may follow only empty elements. */
  predicate SinglesOnce(calls: seq<Call>) {
    forall i, j :: 0 <= i < j < |calls| && calls[i].kind == calls[j].kind && IsSingle(calls[j].kind) ==>
      !Populates(calls[i])
  }

  lemma MentionsSnoc(init: seq<Call>, c: Call, k: Kind)
    ensures Mentions(init + [c], k) <==> Mentions(init, k) || (k == c.kind && Populates(c))
  {
    var calls := init + [c];
    if Mentions(init, k) {
      var i :| 0 <= i < |init| && init[i].kind == k && Populates(init[i]);
      assert calls[i] == init[i];
    }
    if Mentions(calls, k) {
      var i :| 0 <= i < |calls| && calls[i].kind == k && Populates(calls[i]);
      if i < |init| {
        assert init[i] == calls[i];
      }
    }
    if k == c.kind && Populates(c) {
      assert calls[|init|] == c;
    }
  }

  lemma InOrderSnoc(init: seq<Call>, c: Call)
    ensures InOrder(init + [c]) <==>
      InOrder(init) && forall i :: 0 <= i < |init| ==> Rank(init[i].kind) <= Rank(c.kind)
  {
    var calls := init + [c];
    assert forall i :: 0 <= i < |init| ==> calls[i] == init[i];
    assert calls[|init|] == c;
  }

  lemma SinglesOnceSnoc(init: seq<Call>, c: Call)
    ensures SinglesOnce(init + [c]) <==>
      SinglesOnce(init) &&
      forall i :: 0 <= i < |init| && init[i].kind == c.kind && IsSingle(c.kind) ==> !Populates(init[i])
  {
    var calls := init + [c];
    assert forall i :: 0 <= i < |init| ==> calls[i] == init[i];
    assert calls[|init|] == c;
  }

  /** After a successful chain the selector is well formed, renders as the
      calls' tokens in call order, and a slot is populated exactly when some
      call populated it. */
  lemma {:induction false} RunState(calls: seq<Call>)
    requires Run(calls).Ok?
    ensures WellFormed(Run(calls).value)
    ensures Render(Run(calls).value) == Tokens(calls)
    ensures forall k :: Filled(SlotOf(Run(calls).value, k)) <==> Mentions(calls, k)
  {
    if calls == [] {
      forall k ensures !Filled(SlotOf(Empty, k)) { }
    } else {
      var n := |calls| - 1;
      var init, c := calls[..n], calls[n];
      assert calls == init + [c];
      RunState(init);
      var p := Run(init).value;
      StepKeepsWellFormed(p, c.kind, c.value);
      StepAppendsToken(p, c.kind, c.value);
      StepKeepsFilled(p, c.kind, c.value);
      forall k ensures Filled(SlotOf(Run(calls).value, k)) <==> Mentions(calls, k) {
        MentionsSnoc(init, c, k);
      }
    }
  }

  /** A chain of calls on a fresh selector succeeds exactly when its calls
      come in canonical order and no single-valued slot is set twice. */
  lemma {:induction false} RunSucceedsIff(calls: seq<Call>)
    ensures Run(calls).Ok? <==> InOrder(calls) && SinglesOnce(calls)
  {
    if calls != [] {
      var n := |calls| - 1;
      var init, c := calls[..n], calls[n];
      assert calls == init + [c];
      RunSucceedsIff(init);
      InOrderSnoc(init, c);
      SinglesOnceSnoc(init, c);
      if Run(init).Ok? {
        var p := Run(init).value;
        RunState(init);
        StepOutcome(p, c.kind, c.value);
        LastCallOrder(init, p, c);
        LastCallDuplicate(init, p, c);
      }
    }
  }

  /** The order check on the last call fails exactly when an earlier call
      has a higher rank. */
  lemma LastCallOrder(init: seq<Call>, p: Parts, c: Call)
    requires forall k :: Filled(SlotOf(p, k)) <==> Mentions(init, k)
    ensures LaterFilled(p, c.kind) <==> exists i :: 0 <= i < |init| && Rank(c.kind) < Rank(init[i].kind)
  {
    if LaterFilled(p, c.kind) {
      var k2 :| Rank(c.kind) < Rank(k2) && Filled(SlotOf(p, k2));
      var i :| 0 <= i < |init| && init[i].kind == k2 && Populates(init[i]);
    }
    if exists i :: 0 <= i < |init| && Rank(c.kind) < Rank(init[i].kind) {
      var i :| 0 <= i < |init| && Rank(c.kind) < Rank(init[i].kind);
      assert Mentions(init, init[i].kind);
    }
  }

  /** The duplicate check on the last call fails exactly when an earlier
      call of the same single-valued kind populated its slot. */
  lemma LastCallDuplicate(init: seq<Call>, p: Parts, c: Call)
    requires forall k :: Filled(SlotOf(p, k)) <==> Mentions(init, k)
    ensures IsSingle(c.kind) && Filled(SlotOf(p, c.kind)) <==>
      exists i :: 0 <= i < |init| && init[i].kind == c.kind && IsSingle(c.kind) && Populates(init[i])
  {
  }

  /** Every chain in canonical order that sets no single-valued slot twice
      succeeds and renders as the concatenation of its tokens. */
  lemma AcceptedChainRenders(calls: seq<Call>)
    requires InOrder(calls) && SinglesOnce(calls)
    ensures Run(calls).Ok?
    ensures Render(Run(calls).value) == Tokens(calls)
  {
    RunSucceedsIff(calls);
    RunState(calls);
  }
}
