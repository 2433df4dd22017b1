/**
 The state of the product screen and the handlers that move it. Each field
 of `App` is one piece of the component's state; each method is one event
 handler and performs that handler's updates in order. A request to the
 product service is returned as an out-parameter, and its outcome is a
 parameter of the handler that waits for it. A handler that asks for the
 list to be refreshed says so through `refresh`; the refresh itself is a
 separate call of `FetchProducts`.
 */
module Screen {
  import opened Wrappers
  import opened Coercion
  import opened Entities

  class App {
    var products: seq<Product>
    var openCreateModal: bool
    var openUpdateModal: bool
    var openDeleteModal: bool
    var selectedProduct: Option<Product>
    var formData: Draft

    /** No modal is open. */
    predicate AllClosed()
      reads this
    {
      !openCreateModal && !openUpdateModal && !openDeleteModal
    }

    /** An open update or delete modal always has a product selected: both
        are opened only together with a selection, and no handler clears it.
        Hence the early returns of HandleUpdate and HandleDelete are never
        taken while their modal is open (see their postconditions). */
    predicate SelectionBacksModals()
      reads this
    {
      (openUpdateModal || openDeleteModal) ==> selectedProduct.Some?
    }

    /** The initial state: no products, every modal closed, nothing selected
        and an empty draft. */
    constructor ()
      ensures products == [] && AllClosed()
      ensures selectedProduct == None && formData == EmptyDraft
      ensures SelectionBacksModals()
    {
      products := [];
      openCreateModal, openUpdateModal, openDeleteModal := false, false, false;
      selectedProduct := None;
      formData := EmptyDraft;
    }

    /** Asks for the first page of ten products; on success the list is
        replaced wholesale by the response content, on failure it is kept. */
    method FetchProducts(response: Reply<seq<Product>>) returns (request: Request)
      modifies this`products
      ensures old(SelectionBacksModals()) ==> SelectionBacksModals()
      ensures request == FindAll(ListPage, ListPageSize)
      ensures products == if response.Success? then response.value else old(products)
    {
      request := FindAll(ListPage, ListPageSize);
      match response {
        case Success(content) => products := content;
        case RemoteFailure =>
      }
    }

    /** Typing into one input replaces that input's text and nothing else. */
    method HandleInputChange(field: Field, value: string)
      modifies this`formData
      ensures old(SelectionBacksModals()) ==> SelectionBacksModals()
      ensures formData == old(formData).With(field, value)
      ensures formData.Get(field) == value
      ensures forall g :: g != field ==> formData.Get(g) == old(formData).Get(g)
    {
      formData := formData.With(field, value);
    }

    /** Sends the coerced draft as a new product. On success the create modal
        closes, the draft is reset and a refresh is asked for; on failure
        nothing changes. */
    method HandleCreate(rt: NumberRuntime, reply: Reply<()>) returns (request: Request, refresh: bool)
      requires ParsesPer262(rt)
      modifies this`openCreateModal, this`formData
      ensures old(SelectionBacksModals()) ==> SelectionBacksModals()
      ensures request == Save(ToPayload(rt, old(formData)))
      ensures refresh <==> reply.Success?
      ensures refresh ==> !openCreateModal && formData == EmptyDraft
      ensures !refresh ==> openCreateModal == old(openCreateModal) && formData == old(formData)
    {
      request := Save(ToPayload(rt, formData));
      refresh := false;
      if reply.Success? {
        openCreateModal := false;
        formData := EmptyDraft;
        refresh := true;
      }
    }

    /** With no selection, returns at once: no request, no change. Otherwise
        sends the selection's id with the coerced draft; on success the update
        modal closes, the draft is reset and a refresh is asked for, while the
        selection stays; on failure nothing changes. */
    method HandleUpdate(rt: NumberRuntime, reply: Reply<()>) returns (request: Option<Request>, refresh: bool)
      requires ParsesPer262(rt)
      modifies this`openUpdateModal, this`formData
      ensures old(SelectionBacksModals()) ==> SelectionBacksModals()
      ensures selectedProduct.None? ==> request == None
      ensures old(openUpdateModal && SelectionBacksModals()) ==> request.Some?
      ensures selectedProduct.Some? ==>
                request == Some(Update(selectedProduct.value.id, ToPayload(rt, old(formData))))
      ensures refresh <==> selectedProduct.Some? && reply.Success?
      ensures refresh ==> !openUpdateModal && formData == EmptyDraft
      ensures !refresh ==> openUpdateModal == old(openUpdateModal) && formData == old(formData)
    {
      request, refresh := None, false;
      if selectedProduct.None? {
        return;
      }
      request := Some(Update(selectedProduct.value.id, ToPayload(rt, formData)));
      if reply.Success? {
        openUpdateModal := false;
        formData := EmptyDraft;
        refresh := true;
      }
    }

    /** With no selection, returns at once: no request, no change. Otherwise
        sends the selected product's five fields as they are; on success only
        the delete modal closes and a refresh is asked for (the selection and
        the draft stay); on failure nothing changes. */
    method HandleDelete(reply: Reply<()>) returns (request: Option<Request>, refresh: bool)
      modifies this`openDeleteModal
      ensures old(SelectionBacksModals()) ==> SelectionBacksModals()
      ensures selectedProduct.None? ==> request == None
      ensures old(openDeleteModal && SelectionBacksModals()) ==> request.Some?
      ensures selectedProduct.Some? ==> request == Some(Delete(selectedProduct.value))
      ensures refresh <==> selectedProduct.Some? && reply.Success?
      ensures refresh ==> !openDeleteModal
      ensures !refresh ==> openDeleteModal == old(openDeleteModal)
    {
      request, refresh := None, false;
      if selectedProduct.None? {
        return;
      }
      request := Some(Delete(selectedProduct.value));
      if reply.Success? {
        openDeleteModal := false;
        refresh := true;
      }
    }

    /** The edit button of a row: selects the product, seeds the draft from
        it and opens the update modal. */
    method HandleOpenUpdateModal(rt: NumberRuntime, product: Product)
      modifies this`selectedProduct, this`formData, this`openUpdateModal
      ensures old(SelectionBacksModals()) ==> SelectionBacksModals()
      ensures selectedProduct == Some(product) && openUpdateModal
      ensures formData == ToDraft(rt, product)
      ensures old(AllClosed()) ==> !openCreateModal && !openDeleteModal
    {
      selectedProduct := Some(product);
      formData := ToDraft(rt, product);
      openUpdateModal := true;
    }

    /** The add button: resets the draft and opens the create modal; the
        selection is kept. */
    method HandleOpenCreateModal()
      modifies this`formData, this`openCreateModal
      ensures old(SelectionBacksModals()) ==> SelectionBacksModals()
      ensures formData == EmptyDraft && openCreateModal
      ensures old(AllClosed()) ==> !openUpdateModal && !openDeleteModal
    {
      formData := EmptyDraft;
      openCreateModal := true;
    }

    /** The delete button of a row: selects the product and opens the delete
        modal; the draft is kept. */
    method OpenDeleteForRow(product: Product)
      modifies this`selectedProduct, this`openDeleteModal
      ensures old(SelectionBacksModals()) ==> SelectionBacksModals()
      ensures selectedProduct == Some(product) && openDeleteModal
      ensures old(AllClosed()) ==> !openCreateModal && !openUpdateModal
    {
      selectedProduct := Some(product);
      openDeleteModal := true;
    }

    /** Closing the create modal lowers its flag only; the draft is kept. */
    method CloseCreateModal()
      modifies this`openCreateModal
      ensures old(SelectionBacksModals()) ==> SelectionBacksModals()
      ensures !openCreateModal
    {
      openCreateModal := false;
    }

    /** Closing the update modal lowers its flag only; the draft and the
        selection are kept. */
    method CloseUpdateModal()
      modifies this`openUpdateModal
      ensures old(SelectionBacksModals()) ==> SelectionBacksModals()
      ensures !openUpdateModal
    {
      openUpdateModal := false;
    }

    /** Closing or cancelling the delete modal lowers its flag only; the
        selection is kept. */
    method CloseDeleteModal()
      modifies this`openDeleteModal
      ensures old(SelectionBacksModals()) ==> SelectionBacksModals()
      ensures !openDeleteModal
    {
      openDeleteModal := false;
    }
  }

  /** What a caller can conclude from the handlers' contracts alone: an edit
      whose first submission fails keeps the modal and the typed text, a
      second submission that succeeds resets the form, the refresh replaces
      the list, and the selection outlives it all. */
  method EditSession(rt: NumberRuntime, p: Product, newName: string, listing: seq<Product>)
    requires ParsesPer262(rt)
  {
    var app := new App();
    app.HandleOpenUpdateModal(rt, p);
    assert app.openUpdateModal && !app.openCreateModal && !app.openDeleteModal;
    app.HandleInputChange(Name, newName);
    var typed := app.formData;
    assert typed.Get(Name) == newName && typed.Get(Description) == p.description;

    var request, refresh := app.HandleUpdate(rt, RemoteFailure);
    assert request.Some? && request.value.Update? && request.value.id == p.id && !refresh;
    assert app.openUpdateModal && app.formData == typed;

    request, refresh := app.HandleUpdate(rt, Success(()));
    assert refresh && !app.openUpdateModal && app.formData == EmptyDraft;
    var listRequest := app.FetchProducts(Success(listing));
    assert listRequest == FindAll(0, 10) && app.products == listing;
    assert app.selectedProduct == Some(p);
  }

  /** A delete that succeeds, followed by a refresh that succeeds, leaves
      exactly the listed products visible; cancelling instead keeps the
      selection and the list. */
  method DeleteSession(p: Product, before: seq<Product>, listing: seq<Product>)
  {
    var app := new App();
    var _ := app.FetchProducts(Success(before));
    app.OpenDeleteForRow(p);
    app.CloseDeleteModal();
    assert app.AllClosed() && app.selectedProduct == Some(p) && app.products == before;

    app.OpenDeleteForRow(p);
    var request, refresh := app.HandleDelete(Success(()));
    assert request == Some(Delete(p)) && refresh && !app.openDeleteModal;
    var _ := app.FetchProducts(Success(listing));
    assert app.products == listing;
  }
}
