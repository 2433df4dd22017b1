/**
 The values the product screen works with: the product records the service
 lists, the four-field text draft behind the create and update forms, the
 coerced payload, and the requests sent to the service.
 */
module Entities {
  import opened Wrappers
  import opened Coercion

  /** A product as the service lists it. The identifier is assigned by the
      service and only copied by the screen. */
  datatype Product = Product(id: int, name: string, description: string, price: JsNumber, amount: int)

  /** The names of the form's four text inputs. */
  datatype Field = Name | Description | Price | Amount

  /** The form's text draft. */
  datatype Draft = Draft(name: string, description: string, price: string, amount: string) {

    function Get(f: Field): string {
      match f
      case Name => name
      case Description => description
      case Price => price
      case Amount => amount
    }

    /** `{ ...this, [f]: v }`: the draft with one input replaced. */
    function With(f: Field, v: string): (d: Draft)
      ensures d.Get(f) == v
      ensures forall g :: g != f ==> d.Get(g) == Get(g)
    {
      match f
      case Name => this.(name := v)
      case Description => this.(description := v)
      case Price => this.(price := v)
      case Amount => this.(amount := v)
    }
  }

  /** The draft with every input empty, the form's initial and reset value. */
  const EmptyDraft := Draft("", "", "", "")

  /** The request body of a create, and the part of an update body after the id. */
  datatype Payload = Payload(name: string, description: string, price: JsNumber, amount: int)

  /** Requests the screen sends to the product service. */
  datatype Request =
    | FindAll(page: nat, size: nat)   // GET /products/findall with query parameters
    | Save(body: Payload)              // POST /products/save
    | Update(id: int, body: Payload)   // PUT /products/update, body { id, ...payload }
    | Delete(product: Product)         // DELETE /products/delete, body the product's five fields

  /** The listing always asks for the first page of ten products. */
  const ListPage: nat := 0
  const ListPageSize: nat := 10

  /** `{ ...draft, price: parseFloat(price) || 0, amount: parseInt(amount, 10) || 0 }`. */
  function ToPayload(rt: NumberRuntime, d: Draft): (p: Payload)
    requires ParsesPer262(rt)
    ensures p.name == d.name && p.description == d.description
    ensures !p.price.NaN?
    ensures !HasFloatPrefix(d.price) ==> p.price == Finite(0.0)
    ensures !HasLeadingDigits(d.amount) ==> p.amount == 0
  {
    Payload(d.name, d.description, CoercePrice(rt, d.price), CoerceAmount(d.amount))
  }

  /** The draft seeded from a product opened for editing; its amount text
      reads back as the product's amount. */
  function ToDraft(rt: NumberRuntime, p: Product): (d: Draft)
    ensures d.name == p.name && d.description == p.description
    ensures d.price == rt.toString(p.price)
    ensures CoerceAmount(d.amount) == p.amount
  {
    AmountRoundTrip(p.amount);
    Draft(p.name, p.description, rt.toString(p.price), AmountText(p.amount))
  }

  /** Resetting the draft and then typing into one input leaves the other
      three inputs empty. */
  lemma ResetThenSet(f: Field, v: string, g: Field)
    ensures EmptyDraft.With(f, v).Get(g) == if g == f then v else ""
  {
  }

  /** Creating with name "A", an empty description, an empty price and
      amount "2" sends name "A", description "", price 0 and amount 2. */
  lemma {:induction false} CreatePayloadExample(rt: NumberRuntime)
    requires ParsesPer262(rt)
    ensures ToPayload(rt, Draft("A", "", "", "2")) == Payload("A", "", Finite(0.0), 2)
  {
    AmountOfSingleDigit();
  }

  /** Opening a product for editing and submitting the seeded draft unchanged
      sends the product's own fields back, its price through `|| 0`, whenever
      parseFloat reads the price's text back as the price. */
  lemma {:induction false} SeededDraftResubmits(rt: NumberRuntime, p: Product)
    requires ParsesPer262(rt)
    requires rt.parseFloat(rt.toString(p.price)) == p.price
    ensures ToPayload(rt, ToDraft(rt, p)) == Payload(p.name, p.description, OrZero(p.price), p.amount)
  {
  }

  /** Opening product 7 "Widget" with amount 3 for editing seeds the amount
      input with "3" and the price input with the price's text. */
  lemma SeedExample(rt: NumberRuntime, description: string)
    ensures ToDraft(rt, Product(7, "Widget", description, Finite(12.5), 3))
         == Draft("Widget", description, rt.toString(Finite(12.5)), "3")
  {
  }
}
