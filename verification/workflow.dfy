/**
 * The two handlers composed through the browser: the identifier put on the
 * payment page by create is the one confirm receives back, and it leads
 * confirm to the draft order create made. Also the worked examples.
 */
module Workflow {
  import opened Wrappers
  import opened Text
  import opened Http
  import opened CreateFlow
  import opened ConfirmFlow
  import TransactionId

  /**
   * End to end: when the backend creates `gid://shopify/DraftOrder/<digits>`
   * with a positive total, create hands out `do<digits>_<now>`, and a confirm
   * carrying it back with a valid id and an approved payment finalizes that
   * very gid.
   */
  lemma CreateThenConfirm(items: ItemsField, email: Option<string>,
                          createDraft: DraftOrderInput -> CreateReply, now: nat,
                          digits: string, cents: nat,
                          idParam: Option<string>,
                          gateway: GatewayRequest -> GatewayReply,
                          finalize: string -> FinalizeReply)
    requires CartAccepted(items)
    requires |digits| > 0 && AllDigits(digits)
    requires cents > 0
    requires createDraft(DraftInput(items.entries, email))
          == CreateData([], Some(Draft(TransactionId.DraftGid(digits), Int(cents))))
    requires ParamsValid(idParam, Some(TransactionId.Mint(digits, now)))
    requires Approved(gateway(GatewayRequest(IdOf(idParam).value, TransactionId.Mint(digits, now))))
    ensures Create(items, email, createDraft, now).outcome.PayPage?
    ensures Create(items, email, createDraft, now).outcome.query[0]
         == QueryParam("tid", TransactionId.Mint(digits, now))
    ensures Confirm(idParam, Some(TransactionId.Mint(digits, now)), gateway, finalize).finalizeCall
         == Some(TransactionId.DraftGid(digits))
  {
    TransactionId.GidRoundTrip(digits, now);
    PayPageAmounts(items, email, createDraft, now, Draft(TransactionId.DraftGid(digits), Int(cents)));
  }

  // ----- worked examples -----

  const ScenarioDraftGid: string := TransactionId.DraftGid("987")

  lemma Decimal1999()
    ensures Decimal(1999) == "1999"
  {
    assert Decimal(1) == "1";
    assert Decimal(19) == "19";
    assert Decimal(199) == "199";
  }

  lemma ParseInt55()
    ensures ParseInt("55") == Int(55)
  {
    assert Decimal(5) == "5";
    assert Decimal(55) == "55";
    ParseIntDecimal(55, "");
  }

  /** The identifier create hands out for draft 987 at time `now`. */
  function ScenarioTid(now: nat): string
  {
    TransactionId.Mint("987", now)
  }

  lemma ParseScenarioTid(now: nat)
    ensures ScenarioTid(now) == "do987_" + Decimal(now)
    ensures TransactionId.Parse(ScenarioTid(now)) == Some("987")
  {
    TransactionId.ParseMint("987", now);
  }

  /**
   * A cart of two units of variant 123 whose draft totals 1999 cents gives a
   * payment page with `tid=do987_<now>` and
   * `amount_cents=1999&amount_with_tax_cents=1999&tax_cents=0`.
   */
  lemma CreateScenario(createDraft: DraftOrderInput -> CreateReply, now: nat)
    requires createDraft(DraftOrderInput(None, [LineItem(2, "gid://shopify/ProductVariant/123")], ["payphone"]))
          == CreateData([], Some(Draft(ScenarioDraftGid, Int(1999))))
    ensures Create(Items([CartItem(Some("123"), Some(2))]), None, createDraft, now)
         == CreateRun(PayPage([ QueryParam("tid", "do987_" + Decimal(now)),
                                QueryParam("amount_cents", "1999"),
                                QueryParam("amount_with_tax_cents", "1999"),
                                QueryParam("tax_cents", "0") ]),
                      Some(DraftOrderInput(None, [LineItem(2, "gid://shopify/ProductVariant/123")], ["payphone"])))
  {
    var items := [CartItem(Some("123"), Some(2))];
    assert ToLineItem(items[0]) == LineItem(2, "gid://shopify/ProductVariant/123");
    assert LineItems(items) == [LineItem(2, "gid://shopify/ProductVariant/123")];
    assert DraftInput(items, None)
        == DraftOrderInput(None, [LineItem(2, "gid://shopify/ProductVariant/123")], ["payphone"]);
    LastSegmentOf(TransactionId.DraftGidPrefix, "987");
    ParseScenarioTid(now);
    Decimal1999();
  }

  /**
   * An id text read as 55 (`ParseInt55`: "55" is one) with an identifier
   * naming draft 987 (`ParseScenarioTid`: the one create hands out does),
   * approved with code ABC123 and finalized as order #1042: success redirect
   * with the order, the identifier and the code, after asking the gateway
   * once and finalizing draft 987.
   */
  lemma ConfirmApprovedScenario(gateway: GatewayRequest -> GatewayReply, finalize: string -> FinalizeReply,
                                idText: string, tx: string)
    requires idText != "" && ParseInt(idText) == Int(55)
    requires TransactionId.Parse(tx) == Some("987")
    requires gateway(GatewayRequest(55, tx)) == GatewayBody(Some(3), None, Some("ABC123"))
    requires finalize(ScenarioDraftGid) == FinalizeData([], Some("#1042"))
    ensures Confirm(Some(idText), Some(tx), gateway, finalize)
         == ConfirmRun(Redirect([ QueryParam("status", "success"),
                                  QueryParam("order", "#1042"),
                                  QueryParam("tid", tx),
                                  QueryParam("auth", "ABC123") ]),
                       Some(GatewayRequest(55, tx)),
                       Some(ScenarioDraftGid))
  {
    IdTextAccepted(idText, tx);
    IdOfText(idText);
    assert TxOf(Some(tx)) == tx;
    FinalizedRun(Some(idText), Some(tx), gateway, finalize);
    assert OrElse(Some("#1042"), "") == "#1042";
    assert OrElse(Some("ABC123"), "") == "ABC123";
  }

  /** The same confirm, but the gateway answers "Cancelado" without approval: failed, nothing finalized. */
  lemma ConfirmCancelledScenario(gateway: GatewayRequest -> GatewayReply, finalize: string -> FinalizeReply,
                                 idText: string, tx: string, status: int)
    requires idText != "" && ParseInt(idText) == Int(55)
    requires TransactionId.Parse(tx) == Some("987")
    requires status != 3
    requires gateway(GatewayRequest(55, tx)) == GatewayBody(Some(status), Some("Cancelado"), None)
    ensures Confirm(Some(idText), Some(tx), gateway, finalize)
         == ConfirmRun(Redirect([ QueryParam("status", "failed"),
                                  QueryParam("tid", tx),
                                  QueryParam("msg", "Cancelado") ]),
                       Some(GatewayRequest(55, tx)),
                       None)
  {
    IdTextAccepted(idText, tx);
    IdOfText(idText);
    NotApprovedFails(Some(idText), Some(tx), gateway, finalize);
  }
}
