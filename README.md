# ProdSys product screen: a Dafny model of its client-side state

ProdSys is a single-page screen for managing product records (name,
description, price, amount) held by a remote REST service. This project
models the part of the screen's `App` component that is logic rather than
layout: the component state and the event handlers that move it, together
with the numeric coercion that turns the form's texts into request bodies.

- `wrappers.dfy` (module `Wrappers`): `Option` (the nullable selection) and
  `Reply` (a request's outcome: success with its content, or a remote failure).
- `coercion.dfy` (module `Coercion`): `parseInt(s, 10) || 0` modelled exactly
  as section 19.2.5 of ECMA-262 defines parseInt (skip white space and line
  terminators, at most one sign, the longest run of decimal digits, NaN when
  there is none), and `parseFloat(s) || 0`, where parseFloat is an abstract
  function of a `NumberRuntime`; the predicate `ParsesPer262` pins down
  exactly the texts on which parseFloat gives NaN (those without a
  StrDecimalLiteral prefix, section 19.2.4 of ECMA-262).
- `entities.dfy` (module `Entities`): the listed `Product`, the four-field
  text `Draft`, the coerced `Payload`, and the four `Request`s the screen
  sends (list page 0 of size 10, save, update, delete).
- `screen.dfy` (module `Screen`): class `App` with the component's six pieces
  of state as fields (`products`, `openCreateModal`, `openUpdateModal`,
  `openDeleteModal`, `selectedProduct`, `formData`) and one method per
  handler. Each method's frame names exactly the fields the handler sets,
  and its postconditions give the new value of each of them on the success
  and on the failure path. The request a handler sends is an out-parameter;
  the remote outcome is an in-parameter. A handler that calls `fetchProducts`
  after a success returns `refresh == true`, and the refresh is a separate
  call of `FetchProducts`. Every handler preserves `SelectionBacksModals`
  (an open update or delete modal has a selection). `EditSession` and
  `DeleteSession` are two client methods that show what a caller can
  conclude from the handlers' contracts alone.

The model follows the code as written: the three modal flags are independent booleans (no handler looks at the
other two, so nothing stops two from being raised), the selection is never
cleared after an update or a delete, closing or cancelling a modal does not
reset the draft, and the list refresh after a mutation is not awaited. The
delete request is the `DELETE` variant whose body is the selected product's
five fields copied as they are.

## Model

| member | source | states |
|---|---|---|
| `Coercion.SkipWhiteSpace` | ProdSys/src/App.jsx:67 | the first position at or after `i` that is not white space or a line terminator; everything skipped is white space |
| `Coercion.DigitsEnd` | ProdSys/src/App.jsx:67 | the end of the longest run of decimal digits from `i`: all skipped characters are digits and the one after is not |
| `Coercion.ParseIntDecimal` | ProdSys/src/App.jsx:67 | parseInt with radix 10 is NaN exactly when no digit follows the white space and the optional sign; otherwise its sign is that of the text |
| `Coercion.CoerceAmount` | ProdSys/src/App.jsx:67 | parseInt with radix 10, with the fallback to 0, is 0 when the text has no leading digits, and parseInt's value otherwise |
| `Coercion.CoerceAmountAt` | ProdSys/src/App.jsx:67 | given white space, an optional sign and a digit run ending before a non-digit, the coerced amount is the signed value of that digit run |
| `Coercion.CoerceAmountOfDecimalText` | ProdSys/src/App.jsx:86 | the same for a text written as white space + sign + digits + rest, where rest does not start with a digit; a hexadecimal prefix is not stripped |
| `Coercion.AmountFallbackExamples` | ProdSys/src/App.jsx:67 | `""`, `"abc"` and `"0x1A"` all coerce to amount 0 |
| `Coercion.AmountOfDigitsThenLetters` | ProdSys/src/App.jsx:67 | `"12abc"` coerces to 12 |
| `Coercion.AmountOfSingleDigit` | ProdSys/src/App.jsx:67 | `"2"` coerces to 2 |
| `Coercion.AmountOfSpacedNegative` | ProdSys/src/App.jsx:86 | `" -7"` coerces to -7: white space skipped, sign applied |
| `Coercion.NatText` | ProdSys/src/App.jsx:127 | the decimal text of an amount is a non-empty digit run that denotes the amount |
| `Coercion.AmountRoundTrip` | ProdSys/src/App.jsx:127 | coercing the text `amount.toString()` gives back the amount, negative amounts included |
| `Coercion.OrZero` | ProdSys/src/App.jsx:66 | the fallback to 0 on a Number is never NaN, maps NaN and 0 to 0 and leaves every other Number unchanged |
| `Coercion.CoercePrice` | ProdSys/src/App.jsx:66 | parseFloat with the fallback to 0 is never NaN, is 0 on empty text and on text without a numeric prefix, and is parseFloat's value whenever the text has a numeric prefix |
| `Coercion.PriceFallback` | ProdSys/src/App.jsx:85 | an empty or unparsable price text makes parseFloat give NaN and is sent as price 0 |
| `Entities.Draft.With` | ProdSys/src/App.jsx:58 | the draft with one named input replaced: that input holds the new text and the other three are unchanged |
| `Entities.ToPayload` | ProdSys/src/App.jsx:64-68 | the body copies name and description, its price is never NaN and is 0 for an unparsable price text, its amount is 0 for text without leading digits |
| `Entities.ToDraft` | ProdSys/src/App.jsx:123-128 | the seeded draft holds the product's name, description and price text, and its amount text (`AmountText`, the model of `amount.toString()`) reads back as the product's amount |
| `Entities.ResetThenSet` | ProdSys/src/App.jsx:133-136 | resetting the draft and then typing into one input leaves the other three inputs empty |
| `Entities.CreatePayloadExample` | ProdSys/src/App.jsx:64-68 | creating with name "A", empty description, empty price and amount "2" sends name "A", description "", price 0 and amount 2 |
| `Entities.SeededDraftResubmits` | ProdSys/src/App.jsx:121-130 | opening a product for editing and submitting the seeded draft unchanged sends the product's own name, description, price (after the fallback to 0) and amount, for a price whose text parseFloat reads back as the price |
| `Entities.SeedExample` | ProdSys/src/App.jsx:123-128 | product 7 "Widget" with amount 3 seeds amount text "3" and the price's text |
| `Screen.App.constructor` | ProdSys/src/App.jsx:26-36 | the initial state: no products, all three modals closed, no selection, an empty draft |
| `Screen.App.FetchProducts` | ProdSys/src/App.jsx:43-53 | requests page 0 of size 10; on success the list becomes the response content wholesale, on failure it is unchanged; nothing else changes |
| `Screen.App.HandleInputChange` | ProdSys/src/App.jsx:56-59 | exactly the named draft input becomes the new text; the other inputs, the list, the flags and the selection are unchanged |
| `Screen.App.HandleCreate` | ProdSys/src/App.jsx:62-76 | sends the coerced draft; on success lowers the create flag, resets the draft and asks for a refresh; on failure changes nothing; never touches the selection, the list or the other flags |
| `Screen.App.HandleUpdate` | ProdSys/src/App.jsx:79-95 | with no selection sends nothing and changes nothing, which cannot happen while the update modal is open; otherwise sends the selection's id with the coerced draft, and on success lowers the update flag, resets the draft and asks for a refresh, keeping the selection; on failure changes nothing |
| `Screen.App.HandleDelete` | ProdSys/src/App.jsx:98-118 | with no selection sends nothing and changes nothing, which cannot happen while the delete modal is open; otherwise sends the selected product's five fields verbatim, and on success lowers only the delete flag and asks for a refresh; on failure changes nothing |
| `Screen.App.HandleOpenUpdateModal` | ProdSys/src/App.jsx:121-130 | selects the product, seeds the draft from it and raises the update flag; from the all-closed state only that flag is up |
| `Screen.App.HandleOpenCreateModal` | ProdSys/src/App.jsx:133-136 | resets the draft and raises the create flag, keeping the selection and the list; from the all-closed state only that flag is up |
| `Screen.App.OpenDeleteForRow` | ProdSys/src/App.jsx:199-202 | selects the row's product and raises the delete flag without touching the draft; from the all-closed state only that flag is up |
| `Screen.App.CloseCreateModal` | ProdSys/src/App.jsx:214 | lowers the create flag only; the draft and the selection stay |
| `Screen.App.CloseUpdateModal` | ProdSys/src/App.jsx:233 | lowers the update flag only; the draft and the selection stay |
| `Screen.App.CloseDeleteModal` | ProdSys/src/App.jsx:252-261 | the modal's close and its cancel button both lower the delete flag only; the selection stays |

## Left out

- Rendering: the JSX tree, the MUI components, styling and `modalStyle` (ProdSys/src/App.jsx:13-23, 138-271) are presentation; only the callbacks wired into it are modelled.
- HTTP: axios, the URLs, host and port are replaced by a `Request` out-parameter and a `Reply` in-parameter; the `console.error` logging on failure has no effect on the state and is not modelled.
- The mount hook `useEffect(() => fetchProducts(), [])` (ProdSys/src/App.jsx:39-41) is not modelled; a caller performs the first `FetchProducts` itself.
- Asynchrony: each handler runs as one atomic step, so events that arrive while a request is pending are not modelled; the un-awaited `fetchProducts()` after a mutation is a separate call made by the caller when `refresh` is true, with no ordering guarantee between the two.
- A response body without `content` (which the code would store as `undefined`) is treated as a remote failure.
- Coercion.CoercePrice: parseFloat's value is abstract (a function of `NumberRuntime`); only when it is NaN is pinned down, because its value depends on binary floating point.
- Coercion.CoerceAmount: the amount is an unbounded integer; the rounding of parseInt's result to a double (inexact beyond 2^53, Infinity for very long digit runs, the optional zeroing after 20 significant digits) and the sign of zero are not modelled.
- Coercion.AmountRoundTrip: the model writes every integer amount as plain decimal digits, which Number.prototype.toString does only below 1e21; above that the source writes exponent form.
- Entities.ToDraft: the text of a price is abstract (`NumberRuntime.toString`); `toFixed(2)` in the price column (ProdSys/src/App.jsx:193) is display only and is not modelled.
- Entities.SeededDraftResubmits: requires that parseFloat reads the product's price text back as that price; JavaScript guarantees this for every Number except -0, but the model keeps toString and parseFloat abstract and does not derive it.
- Products are assumed to carry a Number price and an integer amount; a product whose price is null or text (on which `toString` behaves otherwise or throws) is not modelled.
- Strings are sequences of Unicode scalar values, not UTF-16 code units, so lone surrogates are not modelled.
- `handleInputChange` is modelled for the four input names the forms use (`name`, `description`, `price`, `amount`); an event from an input with another name would add a key, which cannot happen in this screen.
