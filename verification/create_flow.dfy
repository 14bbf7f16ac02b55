/**
 * POST /payphone/create: validate the cart, create a draft order in the
 * commerce backend, and answer with the payment page's query parameters
 * carrying the minted transaction identifier and the amount in cents.
 */
module CreateFlow {
  import opened Wrappers
  import opened Text
  import opened Http
  import TransactionId

  const EmptyCartText: string := "Carrito vacío"
  const CreateErrorsText: string := "Shopify draftOrderCreate"
  const NoDraftText: string := "No se pudo crear DraftOrder"
  const BadTotalText: string := "Total del pedido inválido (0)"
  const VariantGidPrefix: string := "gid://shopify/ProductVariant/"
  const Tag: string := "payphone"

  /** One cart entry as posted; a missing field is None. */
  datatype CartItem = CartItem(variantId: Option<string>, quantity: Option<int>)

  /** The `items` field of the request body: absent, not an array, or an array of entries. */
  datatype ItemsField = Missing | NotAnArray | Items(entries: seq<CartItem>)

  /** A line of the draft-order input: a quantity and a product-variant gid. */
  datatype LineItem = LineItem(quantity: int, variantId: string)

  /** The `DraftOrderInput` sent to `draftOrderCreate`. */
  datatype DraftOrderInput = DraftOrderInput(email: Option<string>, lineItems: seq<LineItem>, tags: seq<string>)

  /**
   * The created draft: its gid and its subtotal already converted to cents
   * (`Math.round(parseFloat(amount) * 100)`, which may be NaN).
   */
  datatype Draft = Draft(id: string, amountCents: JsInt)

  /** What `draftOrderCreate` answered, or a thrown error with its message. */
  datatype CreateReply =
    | CreateFault(message: string)
    | CreateData(userErrors: seq<UserError>, draft: Option<Draft>)

  /** The JSON response: an error with its HTTP status, or the payment page's query. */
  datatype CreateOutcome =
    | Rejected(status: nat, error: string, details: seq<UserError>)
    | PayPage(query: seq<QueryParam>)

  /** The response together with the draft-order request sent, if any. */
  datatype CreateRun = CreateRun(outcome: CreateOutcome, draftRequest: Option<DraftOrderInput>)

  /** `${i.variant_id}` renders an absent id as "undefined". */
  function VariantText(v: Option<string>): (t: string)
    ensures v.Some? ==> t == v.value
    // an absent id cannot be told apart from the text "undefined"
    ensures t == "undefined" <==> v.None? || v.value == "undefined"
  {
    v.GetOr("undefined")
  }

  /** One cart entry as a line item: `Number(i.quantity || 0)` and the variant gid. */
  function ToLineItem(item: CartItem): (line: LineItem)
    ensures item.quantity.Some? ==> line.quantity == item.quantity.value
    ensures item.quantity.None? ==> line.quantity == 0
    ensures |line.variantId| >= |VariantGidPrefix| && line.variantId[..|VariantGidPrefix|] == VariantGidPrefix
    ensures item.variantId.Some? ==> line.variantId[|VariantGidPrefix|..] == item.variantId.value
    ensures item.variantId.None? ==> line.variantId[|VariantGidPrefix|..] == "undefined"
  {
    LineItem(item.quantity.GetOr(0), VariantGidPrefix + VariantText(item.variantId))
  }

  /** The variant id is recovered from its line item's gid when it has no slash. */
  lemma VariantRecovered(item: CartItem)
    requires item.variantId.Some? && '/' !in item.variantId.value
    ensures LastSegment(ToLineItem(item).variantId) == item.variantId.value
  {
    LastSegmentOf(VariantGidPrefix, item.variantId.value);
  }

  /** `items.map(...)`: one line item per cart entry, in order. */
  function LineItems(items: seq<CartItem>): (lines: seq<LineItem>)
    ensures |lines| == |items|
    ensures forall k :: 0 <= k < |items| ==> lines[k] == ToLineItem(items[k])
  {
    seq(|items|, k requires 0 <= k < |items| => ToLineItem(items[k]))
  }

  /** The draft order input: `email || undefined`, the line items and the fixed tag. */
  function DraftInput(items: seq<CartItem>, email: Option<string>): (input: DraftOrderInput)
    ensures |input.lineItems| == |items|
    ensures forall k :: 0 <= k < |items| ==> input.lineItems[k] == ToLineItem(items[k])
    ensures input.tags == [Tag]
    // an absent or empty email is left out of the input, any other is sent as given
    ensures input.email.Some? <==> OrElse(email, "") != ""
    ensures input.email.Some? ==> input.email == email
  {
    DraftOrderInput(if OrElse(email, "") == "" then None else email, LineItems(items), [Tag])
  }

  /**
   * Each line of the draft request gives back its cart entry: the quantity
   * (0 when absent) and, for a slash-free variant id, that id as the gid's
   * last segment.
   */
  lemma DraftInputRecovers(items: seq<CartItem>, email: Option<string>, k: nat)
    requires k < |items|
    ensures DraftInput(items, email).lineItems[k].quantity == items[k].quantity.GetOr(0)
    ensures items[k].variantId.Some? && '/' !in items[k].variantId.value
        ==> LastSegment(DraftInput(items, email).lineItems[k].variantId) == items[k].variantId.value
  {
    if items[k].variantId.Some? && '/' !in items[k].variantId.value {
      VariantRecovered(items[k]);
    }
  }

  /** The cart check of the handler: an array with at least one entry. */
  function CartAccepted(items: ItemsField): (ok: bool)
    // the handler's guard on `items`, which defaults to [] when absent
    ensures !ok <==> items.Missing? || items.NotAnArray? || items.entries == []
  {
    items.Items? && |items.entries| > 0
  }

  /** A backend answer the handler turns into a payment page. */
  function DraftUsable(reply: CreateReply): (ok: bool)
    // no thrown error, no user errors, a draft, and `amountCents > 0` (false for NaN)
    ensures ok ==> reply.CreateData? && reply.userErrors == [] && reply.draft.Some?
    ensures ok ==> reply.draft.value.amountCents.Truthy() && reply.draft.value.amountCents.value >= 1
    ensures reply.CreateData? && reply.userErrors == [] && reply.draft.Some? && reply.draft.value.amountCents.NaN? ==> !ok
    // and every answer that passes all three guards is usable
    ensures (reply.CreateData? && reply.userErrors == [] && reply.draft.Some?
             && reply.draft.value.amountCents.Truthy() && reply.draft.value.amountCents.value > 0) ==> ok
  {
    && reply.CreateData?
    && |reply.userErrors| == 0
    && reply.draft.Some?
    && reply.draft.value.amountCents.Int?
    && reply.draft.value.amountCents.value > 0
  }

  /** The payment page's parameters: the identifier and the amount three ways, tax zero. */
  function PayQuery(tid: string, cents: nat): (query: seq<QueryParam>)
    ensures |query| == 4 && query[0] == QueryParam("tid", tid)
    ensures query[1].key == "amount_cents" && query[2].key == "amount_with_tax_cents"
    ensures query[1].value == query[2].value && Canonical(query[1].value)
    ensures query[3] == QueryParam("tax_cents", "0")
    // the amount text reads back as the amount
    ensures ValueOf(query[1].value) == cents
  {
    DecimalValue(cents);
    [ QueryParam("tid", tid),
      QueryParam("amount_cents", Decimal(cents)),
      QueryParam("amount_with_tax_cents", Decimal(cents)),
      QueryParam("tax_cents", "0") ]
  }

  /** The handler after `draftOrderCreate` has answered; `now` is `Date.now()`. */
  function AfterCreate(reply: CreateReply, now: nat): (outcome: CreateOutcome)
    ensures outcome.PayPage? <==> DraftUsable(reply)
  {
    match reply
    case CreateFault(message) => Rejected(500, message, [])
    case CreateData(errs, draft) =>
      if |errs| > 0 then Rejected(400, CreateErrorsText, errs)
      else if draft.None? then Rejected(500, NoDraftText, [])
      else
        var cents := draft.value.amountCents;
        if !(cents.Int? && cents.value > 0) then Rejected(400, BadTotalText, [])
        else
          var tid := TransactionId.Mint(LastSegment(draft.value.id), now);
          PayPage(PayQuery(tid, cents.value))
  }

  /** The whole handler; `createDraft` stands for the `draftOrderCreate` mutation. */
  function Create(items: ItemsField, email: Option<string>,
                  createDraft: DraftOrderInput -> CreateReply, now: nat): (run: CreateRun)
    ensures run.draftRequest.Some? <==> CartAccepted(items)
    // the request carries one line item per cart entry, in order, the tag and the email when given
    ensures run.draftRequest.Some? ==> |run.draftRequest.value.lineItems| == |items.entries|
    ensures run.draftRequest.Some? ==>
      forall k :: 0 <= k < |items.entries| ==> run.draftRequest.value.lineItems[k] == ToLineItem(items.entries[k])
    ensures run.draftRequest.Some? ==> run.draftRequest.value.tags == [Tag]
    ensures run.draftRequest.Some? ==> (run.draftRequest.value.email.Some? <==> OrElse(email, "") != "")
    ensures run.draftRequest.Some? && run.draftRequest.value.email.Some? ==> run.draftRequest.value.email == email
    ensures run.outcome.PayPage? <==> run.draftRequest.Some? && DraftUsable(createDraft(run.draftRequest.value))
  {
    if !CartAccepted(items) then CreateRun(Rejected(400, EmptyCartText, []), None)
    else
      var input := DraftInput(items.entries, email);
      CreateRun(AfterCreate(createDraft(input), now), Some(input))
  }

  /** An empty or non-array cart is a 400 and the backend is not called. */
  lemma EmptyCartRejected(items: ItemsField, email: Option<string>,
                          createDraft: DraftOrderInput -> CreateReply, now: nat)
    requires !CartAccepted(items)
    ensures Create(items, email, createDraft, now) == CreateRun(Rejected(400, EmptyCartText, []), None)
  {
  }

  /** Field errors from the backend come back as a 400 carrying them. */
  lemma UserErrorsReported(items: ItemsField, email: Option<string>,
                           createDraft: DraftOrderInput -> CreateReply, now: nat)
    requires CartAccepted(items)
    requires var reply := createDraft(DraftInput(items.entries, email));
      reply.CreateData? && |reply.userErrors| > 0
    ensures Create(items, email, createDraft, now).outcome
         == Rejected(400, CreateErrorsText, createDraft(DraftInput(items.entries, email)).userErrors)
  {
  }

  /** No draft in an error-free answer is a 500. */
  lemma MissingDraftRejected(items: ItemsField, email: Option<string>,
                             createDraft: DraftOrderInput -> CreateReply, now: nat)
    requires CartAccepted(items)
    requires createDraft(DraftInput(items.entries, email)) == CreateData([], None)
    ensures Create(items, email, createDraft, now).outcome == Rejected(500, NoDraftText, [])
  {
  }

  /**
   * A non-positive (or NaN) total is a 400, but only after the draft order
   * was created: the request was sent and the draft is left behind.
   */
  lemma BadTotalRejected(items: ItemsField, email: Option<string>,
                         createDraft: DraftOrderInput -> CreateReply, now: nat, draft: Draft)
    requires CartAccepted(items)
    requires createDraft(DraftInput(items.entries, email)) == CreateData([], Some(draft))
    requires !(draft.amountCents.Int? && draft.amountCents.value > 0)
    ensures Create(items, email, createDraft, now).outcome == Rejected(400, BadTotalText, [])
    ensures Create(items, email, createDraft, now).draftRequest.Some?
  {
  }

  /** An accepted cart and a usable draft give the payment page for that draft's id and total. */
  lemma CreatesPayPage(items: ItemsField, email: Option<string>,
                       createDraft: DraftOrderInput -> CreateReply, now: nat, draft: Draft)
    requires CartAccepted(items)
    requires createDraft(DraftInput(items.entries, email)) == CreateData([], Some(draft))
    requires draft.amountCents.Int? && draft.amountCents.value > 0
    ensures Create(items, email, createDraft, now).outcome
         == PayPage(PayQuery(TransactionId.Mint(LastSegment(draft.id), now), draft.amountCents.value))
  {
  }

  /**
   * On success the page gets the identifier for the draft, `amount_cents`
   * and `amount_with_tax_cents` both the decimal rendering of the total in
   * cents (reading it back gives that total), and `tax_cents=0`.
   */
  lemma PayPageAmounts(items: ItemsField, email: Option<string>,
                       createDraft: DraftOrderInput -> CreateReply, now: nat, draft: Draft)
    requires CartAccepted(items)
    requires createDraft(DraftInput(items.entries, email)) == CreateData([], Some(draft))
    requires draft.amountCents.Int? && draft.amountCents.value > 0
    ensures var run := Create(items, email, createDraft, now);
      && run.outcome.PayPage?
      && |run.outcome.query| == 4
      && run.outcome.query[0] == QueryParam("tid", TransactionId.Mint(LastSegment(draft.id), now))
      && run.outcome.query[1].key == "amount_cents"
      && run.outcome.query[2].key == "amount_with_tax_cents"
      && run.outcome.query[1].value == run.outcome.query[2].value
      && Canonical(run.outcome.query[1].value)
      && ValueOf(run.outcome.query[1].value) == draft.amountCents.value
      && run.outcome.query[3] == QueryParam("tax_cents", "0")
  {
    var cents := draft.amountCents.value;
    var q := PayQuery(TransactionId.Mint(LastSegment(draft.id), now), cents);
    CreatesPayPage(items, email, createDraft, now, draft);
    assert Create(items, email, createDraft, now).outcome.query == q;
    DecimalValue(cents);
    assert q[1].value == Decimal(cents);
  }

  /**
   * When the backend's draft gid is `gid://shopify/DraftOrder/<digits>`, the
   * identifier on the payment page parses back to those digits and so to the
   * same gid.
   */
  lemma PayPageIdentifier(items: ItemsField, email: Option<string>,
                          createDraft: DraftOrderInput -> CreateReply, now: nat,
                          digits: string, cents: nat)
    requires CartAccepted(items)
    requires |digits| > 0 && AllDigits(digits)
    requires cents > 0
    requires createDraft(DraftInput(items.entries, email))
          == CreateData([], Some(Draft(TransactionId.DraftGid(digits), Int(cents))))
    ensures var run := Create(items, email, createDraft, now);
      && run.outcome.PayPage?
      && run.outcome.query[0].key == "tid"
      && TransactionId.Parse(run.outcome.query[0].value) == Some(digits)
  {
    TransactionId.GidRoundTrip(digits, now);
  }
}
