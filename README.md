# CSS selector builder

This is a model of the CSS selector builder in `src/06-objects-tasks.js`. The builder has three parts:

- **`Selector`** is a mutable object with six slots: element, id, classes, attributes, pseudo-classes and pseudo-element.
  - Six chainable mutators fill the slots.
  - Before it changes anything, each mutator checks that no slot of a later kind in the canonical order is populated (`checkCorrectOrder`).
  - The element, id and pseudo-element mutators also check that their own slot is still empty.
  - `stringify` concatenates the slots in canonical order.
- **`Combainer`** holds the text of `<a> <combinator> <b>`.
- **`cssSelectorBuilder`** is the facade. It has one factory per kind, a bare `stringify`, and `combine`.

The files:

- `selector_parts.dfy` (module `SelectorParts`) holds the value side:
  - the slots as a `Parts` value;
  - JavaScript truthiness of a slot (`Filled`);
  - the order check as a predicate;
  - one mutator call as the pure function `Step`, the specification of the mutators;
  - the rendering as `Render`.
- `selector_builder.dfy` (module `SelectorBuilder`) has `checkCorrectOrder` as a loop and `Selector` as a class whose fields the mutators update in place.
  - Every mutator is proved to do what `Step` computes.
  - Every mutator keeps the class invariant: each stored token carries its kind's wrapper.
- `selector_chains.dfy` (module `SelectorChains`) covers chains of calls on a fresh selector. It characterises exactly which chains the builder accepts and what they render.
- `css_selector_builder.dfy` (module `CssSelectorBuilder`) holds the facade, `combine`, and nested combines.
- `selector_examples.dfy` (module `SelectorExamples`) holds the documented chains, the documented nested combine, and the failures the rules call for.

How the model represents the source:

- A thrown error becomes a `Result`: `Ok(this)`, `Err(OrderError)` or `Err(DuplicateError)`.
- A slot the source leaves `undefined` is the empty string. Both are falsy, and the source treats them alike.
- The element is stored raw. So `element('')` leaves the slot falsy, and a later `element(...)` is accepted.

## Model

| member | source | states |
|---|---|---|
| SelectorBuilder.CheckCorrectOrder | src/06-objects-tasks.js:121-127 | passes exactly when no listed item is truthy: no non-empty single value, and no list with a truthy first entry |
| SelectorBuilder.Selector.constructor | src/06-objects-tasks.js:130-136 | a new selector has every slot empty and satisfies the wrapper invariant |
| SelectorBuilder.Selector.Element | src/06-objects-tasks.js:138-148 | if a later kind is populated: order error. Else if the element is truthy: duplicate error. Else stores the value raw and returns the same selector. A failed call changes nothing. Keeps the invariant |
| SelectorBuilder.Selector.Id | src/06-objects-tasks.js:150-159 | checks classes, attributes, pseudo-classes and pseudo-element, then for a duplicate id; stores `#value`; a failed call changes nothing |
| SelectorBuilder.Selector.Class | src/06-objects-tasks.js:161-168 | checks attributes, pseudo-classes and pseudo-element; appends `.value`; no duplicate check |
| SelectorBuilder.Selector.Attr | src/06-objects-tasks.js:170-176 | checks pseudo-classes and pseudo-element; appends `[value]` |
| SelectorBuilder.Selector.PseudoClass | src/06-objects-tasks.js:178-183 | checks the pseudo-element; appends `:value` |
| SelectorBuilder.Selector.PseudoElement | src/06-objects-tasks.js:185-189 | no order check, only the duplicate check; stores `::value` |
| SelectorParts.OrderCheckMeansLaterFilled | src/06-objects-tasks.js:139-180 | each mutator's argument list to the order check holds exactly the slots ranked after it. The check fails if and only if some later-ranked slot is populated |
| SelectorParts.StepOutcome | src/06-objects-tasks.js:138-189 | a call fails with an order error if and only if a later kind is populated. It fails with a duplicate error if and only if the order is fine and a single-valued slot is already populated. Otherwise it succeeds |
| SelectorParts.StepChangesOnlyItsSlot | src/06-objects-tasks.js:146-187 | a successful call sets or extends only its own slot, by exactly its token; every other slot is unchanged |
| SelectorParts.StepKeepsFilled | src/06-objects-tasks.js:146-187 | after a successful call a slot is populated if and only if it was before, or it is the call's own slot and the call did not store an empty element |
| SelectorParts.RepeatableAcceptsRepeats | src/06-objects-tasks.js:161-183 | class, attribute and pseudo-class calls succeed if and only if no later kind is populated, however often they repeat |
| SelectorParts.StepKeepsWellFormed | src/06-objects-tasks.js:157-187 | every successful call keeps each stored id, class, attribute, pseudo-class and pseudo-element token wrapped as its kind demands |
| SelectorParts.ConcatAppend | src/06-objects-tasks.js:194-196 | the `reduce` concatenation of a list extended by one token is the old concatenation followed by that token |
| SelectorParts.RenderIsConcatenation | src/06-objects-tasks.js:191-199 | for a selector that keeps the invariant, `stringify` is the six slots concatenated in canonical order, with no separator |
| SelectorParts.RenderEmpty | src/06-objects-tasks.js:191-199 | a selector with no fragment renders as the empty string |
| SelectorParts.StepAppendsToken | src/06-objects-tasks.js:138-199 | because of the order check, a successful call extends the rendered text by exactly its token: mutators only ever append |
| SelectorChains.RunState | src/06-objects-tasks.js:138-199 | after a successful chain the selector is well formed. It renders as the calls' tokens in call order. A slot is populated if and only if some call populated it |
| SelectorChains.RunSucceedsIff | src/06-objects-tasks.js:121-189 | a chain succeeds if and only if it is in non-decreasing canonical order and no element, id or pseudo-element is set twice. A truthy element counts as set; an empty element does not |
| SelectorChains.LastCallOrder | src/06-objects-tasks.js:121-127 | the last call's order check fails if and only if an earlier call of the chain has a higher rank |
| SelectorChains.LastCallDuplicate | src/06-objects-tasks.js:145-186 | the last call's duplicate check fails if and only if an earlier call populated the same single-valued slot |
| SelectorChains.AcceptedChainRenders | src/06-objects-tasks.js:97-101 | every chain in order with no repeated single-valued kind succeeds and renders as its tokens concatenated |
| CssSelectorBuilder.Combine | src/06-objects-tasks.js:239-242 | the result is a combine result whose text is both operands' texts with the combinator between them, padded by one space on each side |
| CssSelectorBuilder.Stringify | src/06-objects-tasks.js:235-237 | the bare `stringify` of the facade yields the empty string |
| CssSelectorBuilder.Element | src/06-objects-tasks.js:211-213 | a fresh, valid selector holding only the element, rendering as the value |
| CssSelectorBuilder.Id | src/06-objects-tasks.js:215-217 | a fresh selector holding only `#value` |
| CssSelectorBuilder.Class | src/06-objects-tasks.js:219-221 | a fresh selector holding only the class `.value` |
| CssSelectorBuilder.Attr | src/06-objects-tasks.js:223-225 | a fresh selector holding only the attribute `[value]` |
| CssSelectorBuilder.PseudoClass | src/06-objects-tasks.js:227-229 | a fresh selector holding only `:value` |
| CssSelectorBuilder.PseudoElement | src/06-objects-tasks.js:231-233 | a fresh selector holding only `::value` |
| CssSelectorBuilder.EvalRendersText | src/06-objects-tasks.js:202-207 | a combine result stringifies as its stored text. So a tree of nested combines renders as its leaves' texts joined by space-padded combinators |
| SelectorExamples.IdAndClasses | src/06-objects-tasks.js:97-98 | `id(a).class(b).class(c)` renders as `#a.b.c` for any a, b, c |
| SelectorExamples.MainContainerEditable | src/06-objects-tasks.js:97-98 | the documented chain renders as `#main.container.editable` |
| SelectorExamples.ElementAttrPseudoClass | src/06-objects-tasks.js:100-101 | `element(a).attr(b).pseudoClass(c)` renders as `a[b]:c` |
| SelectorExamples.PngLinkFocus | src/06-objects-tasks.js:100-101 | the documented chain renders as `a[href$=".png"]:focus` |
| SelectorExamples.ElementIdClasses | src/06-objects-tasks.js:104 | `element(a).id(b).class(c).class(d)` renders as `a#b.c.d` |
| SelectorExamples.ElementId | src/06-objects-tasks.js:107 | `element(a).id(b)` renders as `a#b` |
| SelectorExamples.ElementPseudoClass | src/06-objects-tasks.js:110 | `element(a).pseudoClass(b)` renders as `a:b` |
| SelectorExamples.NestedCombine | src/06-objects-tasks.js:103-116 | the documented nested combine renders as `div#main.container.draggable + table#data ~ tr:nth-of-type(even)   td:nth-of-type(even)`, with three spaces for the descendant combinator |
| SelectorExamples.ElementTwice | src/06-objects-tasks.js:145 | a second element after a non-empty one is a duplicate error, and the first element is kept |
| SelectorExamples.EmptyElementThenElement | src/06-objects-tasks.js:145-146 | after `element('')` the slot is falsy, so a second element is accepted and replaces it |
| SelectorExamples.ClassAfterAttr | src/06-objects-tasks.js:162-165 | a class after an attribute is an order error, and the attribute is kept |
| SelectorExamples.AttrAfterClass | src/06-objects-tasks.js:171-174 | an attribute after a class is accepted and renders after it |
| SelectorExamples.IdAfterClass | src/06-objects-tasks.js:151-155 | an id after a class is an order error |
| SelectorExamples.PseudoElementTwice | src/06-objects-tasks.js:186 | a second pseudo-element is always a duplicate error, because a stored `::value` is never empty |
| SelectorExamples.PseudoClassAfterPseudoElement | src/06-objects-tasks.js:179-180 | a pseudo-class after a pseudo-element is an order error |

## Left out

- The other exports of `src/06-objects-tasks.js` are not part of this model: `Rectangle`, `getJSON`, `fromJSON` and the task comments before line 121.
- Error message texts: the two thrown messages become the two constructors of `Error`, with no text.
- Exceptions: they become `Err` results. A failed call leaves the selector unchanged, exactly as a throw before the update does. Unwinding through a chain is modelled by `SelectorChains.Run`, which stops at the first error.
- Duck typing in `combine`: its operands are a `Renderable`, either a selector's slots or a combine result. A selector is passed as a snapshot of its slots, so later mutation of that selector after the combine is not modelled. This matches the source, which renders the operands at once.
- Values that are not strings, and the template-literal coercion of `undefined`, `null` or numbers: every value is a string.
- The object wrapping `this.selector`: it is flattened into six fields of the class.
- SelectorBuilder.Selector.Stringify: the function carries no postcondition of its own. Its meaning is stated on `Render`, which it returns: see `RenderIsConcatenation`, `StepAppendsToken` and `RunState`.
- SelectorExamples.NestedCombine: the postcondition states the documented text as a concatenation of its four rendered selectors and the padded combinators, not as one string literal.
- Aliasing: two references to one selector object, and a combine result used as a selector, are not modelled. The facade always creates a fresh selector.
