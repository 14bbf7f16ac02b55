/**
 * GET /payphone/confirm: validate the query, confirm the payment with the
 * gateway, and only for an approved payment with a well-formed transaction
 * identifier finalize the referenced draft order; every later outcome is a
 * redirect to the result page.
 */
module ConfirmFlow {
  import opened Wrappers
  import opened Text
  import opened Http
  import TransactionId

  const InvalidParamsText: string := "Parámetros inválidos"
  const CancelledText: string := "Pago cancelado"
  /** The gateway's status code for an approved payment. */
  const ApprovedStatus: int := 3

  /** The body posted to the gateway's Confirm endpoint. */
  datatype GatewayRequest = GatewayRequest(id: int, clientTxId: string)

  /** The gateway's answer, or a thrown error (network failure, unreadable JSON). */
  datatype GatewayReply =
    | GatewayFault
    | GatewayBody(statusCode: Option<int>, message: Option<string>, authorizationCode: Option<string>)

  /** What `draftOrderComplete` answered, or a thrown error. */
  datatype FinalizeReply =
    | FinalizeFault
    | FinalizeData(userErrors: seq<UserError>, orderName: Option<string>)

  /** The response: a plain 400, or a redirect to the result page with these parameters. */
  datatype ConfirmOutcome = BadRequest(text: string) | Redirect(query: seq<QueryParam>)

  /** The response together with the calls made: the gateway request and the finalized gid. */
  datatype ConfirmRun = ConfirmRun(
    outcome: ConfirmOutcome,
    gatewayCall: Option<GatewayRequest>,
    finalizeCall: Option<string>)

  /** The redirect of the catch-all error path. */
  const ErrorRedirect: ConfirmOutcome := Redirect([QueryParam("status", "error")])

  /** A redirect whose first parameter is `status=<status>`. */
  predicate HasStatus(outcome: ConfirmOutcome, status: string)
  {
    outcome.Redirect? && |outcome.query| > 0 && outcome.query[0] == QueryParam("status", status)
  }

  /**
   * `parseInt(req.query.id || "0", 10)`, with the fallback "0" already read
   * as 0 (`IdOfDefault` shows this is the same reading).
   */
  function IdOf(idParam: Option<string>): (id: JsInt)
    // only a present, non-empty parameter can give a truthy id
    ensures id.Truthy() ==> idParam.Some? && idParam.value != ""
    ensures idParam.Some? && idParam.value != "" ==> id == ParseInt(idParam.value)
  {
    if idParam.Some? && idParam.value != "" then ParseInt(idParam.value) else Int(0)
  }

  /** The id is `parseInt` of the parameter, or of "0" when it is absent or empty. */
  lemma IdOfDefault(idParam: Option<string>)
    ensures IdOf(idParam) == ParseInt(OrElse(idParam, "0"))
  {
    ParseIntZero();
  }

  /** `req.query.clientTransactionId || ""`. */
  function TxOf(txParam: Option<string>): (tx: string)
    ensures tx == "" <==> txParam.None? || txParam.value == ""
    ensures tx != "" ==> tx == txParam.value
  {
    OrElse(txParam, "")
  }

  /** The handler's parameter check `!id || !clientTxId` fails: id is non-zero and the identifier non-empty. */
  function ParamsValid(idParam: Option<string>, txParam: Option<string>): (ok: bool)
    // the check as written: `parseInt(id || "0", 10)` truthy and `clientTransactionId || ""` non-empty
    ensures ok <==> ParseInt(OrElse(idParam, "0")).Truthy() && OrElse(txParam, "") != ""
    // so both parameters were given, and neither is empty
    ensures ok ==> idParam.Some? && idParam.value != "" && txParam.Some? && txParam.value != ""
  {
    IdOfDefault(idParam);
    IdOf(idParam).Truthy() && TxOf(txParam) != ""
  }

  /** `conf?.statusCode === 3`. */
  function Approved(reply: GatewayReply): (ok: bool)
    // a thrown call leaves `conf` undefined, and `undefined?.statusCode === 3` is false
    ensures reply.GatewayFault? ==> !ok
    // strict equality: only a present status code of exactly 3
    ensures reply.GatewayBody? ==> (ok <==> reply.statusCode.Some? && reply.statusCode.value == ApprovedStatus)
  {
    reply.GatewayBody? && reply.statusCode == Some(ApprovedStatus)
  }

  /** The handler after `draftOrderComplete` has answered. */
  function AfterFinalize(done: FinalizeReply, tx: string, auth: Option<string>): (outcome: ConfirmOutcome)
    ensures outcome.Redirect? && |outcome.query| > 0
    ensures HasStatus(outcome, "success") <==> done.FinalizeData? && |done.userErrors| == 0
  {
    match done
    case FinalizeFault => ErrorRedirect
    case FinalizeData(errs, name) =>
      if |errs| > 0 then Redirect([QueryParam("status", "error"), QueryParam("reason", "complete_userErrors")])
      else Redirect([ QueryParam("status", "success"),
                      QueryParam("order", OrElse(name, "")),
                      QueryParam("tid", tx),
                      QueryParam("auth", OrElse(auth, "")) ])
  }

  /**
   * The whole handler. `gateway` stands for the Confirm call and `finalize`
   * for the `draftOrderComplete` mutation on a draft gid.
   */
  function Confirm(idParam: Option<string>, txParam: Option<string>,
                   gateway: GatewayRequest -> GatewayReply,
                   finalize: string -> FinalizeReply): (run: ConfirmRun)
    // the gateway is asked exactly when the parameters are valid, with those parameters
    ensures run.gatewayCall.Some? <==> ParamsValid(idParam, txParam)
    ensures run.outcome.BadRequest? <==> !ParamsValid(idParam, txParam)
    ensures run.gatewayCall.Some? ==> run.gatewayCall.value == GatewayRequest(IdOf(idParam).value, TxOf(txParam))
    // finalize is reached only after validation, approval and a successful parse
    ensures run.finalizeCall.Some?
        <==> && run.gatewayCall.Some?
             && Approved(gateway(run.gatewayCall.value))
             && TransactionId.Parse(TxOf(txParam)).Some?
    // and it finalizes the draft the identifier names
    ensures run.finalizeCall.Some? ==> run.finalizeCall.value == TransactionId.DraftGid(TransactionId.Parse(TxOf(txParam)).value)
    // success is reported only for a finalized draft without field errors
    ensures HasStatus(run.outcome, "success")
        ==> run.finalizeCall.Some? && finalize(run.finalizeCall.value).FinalizeData?
            && |finalize(run.finalizeCall.value).userErrors| == 0
  {
    var id, tx := IdOf(idParam), TxOf(txParam);
    if !id.Truthy() || tx == "" then ConfirmRun(BadRequest(InvalidParamsText), None, None)
    else
      var request := GatewayRequest(id.value, tx);
      var conf := gateway(request);
      if conf.GatewayFault? then ConfirmRun(ErrorRedirect, Some(request), None)
      else if !Approved(conf) then
        var failed := Redirect([ QueryParam("status", "failed"),
                                 QueryParam("tid", tx),
                                 QueryParam("msg", OrElse(conf.message, CancelledText)) ]);
        ConfirmRun(failed, Some(request), None)
      else match TransactionId.Parse(tx)
        case None =>
          ConfirmRun(Redirect([QueryParam("status", "error"), QueryParam("reason", "bad_tid")]), Some(request), None)
        case Some(digits) =>
          var gid := TransactionId.DraftGid(digits);
          ConfirmRun(AfterFinalize(finalize(gid), tx, conf.authorizationCode), Some(request), Some(gid))
  }

  /** Missing, zero or unreadable id, or an empty identifier: a 400, and nothing is called. */
  lemma InvalidParamsRejected(idParam: Option<string>, txParam: Option<string>,
                              gateway: GatewayRequest -> GatewayReply, finalize: string -> FinalizeReply)
    requires !ParamsValid(idParam, txParam)
    ensures Confirm(idParam, txParam, gateway, finalize) == ConfirmRun(BadRequest(InvalidParamsText), None, None)
  {
  }

  /** The id check is only `!id`: an absent, empty or zero id fails it. */
  lemma ZeroIdRejected(tx: string)
    ensures !ParamsValid(None, Some(tx))
    ensures !ParamsValid(Some(""), Some(tx))
    ensures !ParamsValid(Some("0"), Some(tx))
  {
    ParseIntZero();
  }

  /**
   * Every spelling of zero that `parseInt` reads ("00", " 0", "0x1", ...)
   * gives a falsy id and fails the check, like "0".
   */
  lemma ZeroSpellingsRejected(ws: string, d: string, rest: string, tx: string)
    requires forall i :: 0 <= i < |ws| ==> IsJsSpace(ws[i])
    requires |d| > 0 && AllDigits(d) && ValueOf(d) == 0
    requires |rest| == 0 || !IsDigit(rest[0])
    ensures !ParamsValid(Some(ws + d + rest), Some(tx))
  {
    ParseIntOf(ws, d, rest);
    assert |ws + d + rest| > 0;
  }

  /**
   * So does a signed zero ("-0", "+00", ...): a sign in front of text whose
   * digit reading is 0, which `Text.ReadDigitsOf` gives for any run of zeros.
   */
  lemma SignedZeroRejected(ws: string, sign: char, u: string, tx: string)
    requires forall i :: 0 <= i < |ws| ==> IsJsSpace(ws[i])
    requires sign == '-' || sign == '+'
    requires ReadDigits(u) == Int(0)
    ensures !ParamsValid(Some(ws + [sign] + u), Some(tx))
  {
    ParseIntSignedOf(ws, sign, u, 0);
    assert ws + [sign] + u == ws + ([sign] + u);
    assert |ws + [sign] + u| > 0;
  }

  /** A non-empty id text is read as it stands. */
  lemma IdOfText(s: string)
    requires s != ""
    ensures IdOf(Some(s)) == ParseInt(s)
  {
  }

  /** An id text that `parseInt` reads as a non-zero number passes the check. */
  lemma IdTextAccepted(s: string, tx: string)
    requires s != "" && tx != "" && ParseInt(s).Truthy()
    ensures ParamsValid(Some(s), Some(tx))
  {
  }

  /** The id check is only `!id`: any non-zero id passes it, a negative one included. */
  lemma SignedIdAccepted(n: nat, tx: string)
    requires n > 0 && tx != ""
    ensures ParamsValid(Some(Decimal(n)), Some(tx))
    ensures ParamsValid(Some("-" + Decimal(n)), Some(tx))
  {
    var d := Decimal(n);
    ParseIntDecimal(n, "");
    IdTextAccepted(d, tx);
    ParseIntSignedDecimal('-', n, "");
    assert "-" + d == ['-'] + d;
    IdTextAccepted("-" + d, tx);
  }

  /** A thrown gateway call ends in `status=error`, and nothing is finalized. */
  lemma GatewayFaultRedirect(idParam: Option<string>, txParam: Option<string>,
                             gateway: GatewayRequest -> GatewayReply, finalize: string -> FinalizeReply)
    requires ParamsValid(idParam, txParam)
    requires gateway(GatewayRequest(IdOf(idParam).value, TxOf(txParam))).GatewayFault?
    ensures Confirm(idParam, txParam, gateway, finalize).outcome == ErrorRedirect
    ensures Confirm(idParam, txParam, gateway, finalize).finalizeCall.None?
  {
  }

  /**
   * A payment the gateway did not approve redirects with `status=failed`,
   * the identifier and the gateway's message (or the default), and nothing
   * is finalized.
   */
  lemma NotApprovedFails(idParam: Option<string>, txParam: Option<string>,
                         gateway: GatewayRequest -> GatewayReply, finalize: string -> FinalizeReply)
    requires ParamsValid(idParam, txParam)
    requires var conf := gateway(GatewayRequest(IdOf(idParam).value, TxOf(txParam)));
      conf.GatewayBody? && conf.statusCode != Some(ApprovedStatus)
    ensures var conf := gateway(GatewayRequest(IdOf(idParam).value, TxOf(txParam)));
      Confirm(idParam, txParam, gateway, finalize).outcome
      == Redirect([ QueryParam("status", "failed"),
                    QueryParam("tid", TxOf(txParam)),
                    QueryParam("msg", OrElse(conf.message, CancelledText)) ])
    ensures Confirm(idParam, txParam, gateway, finalize).finalizeCall.None?
  {
  }

  /** An approved payment whose identifier does not match `^do(\d+)_` redirects with `reason=bad_tid`, unfinalized. */
  lemma BadTidError(idParam: Option<string>, txParam: Option<string>,
                    gateway: GatewayRequest -> GatewayReply, finalize: string -> FinalizeReply)
    requires ParamsValid(idParam, txParam)
    requires Approved(gateway(GatewayRequest(IdOf(idParam).value, TxOf(txParam))))
    requires TransactionId.Parse(TxOf(txParam)).None?
    ensures Confirm(idParam, txParam, gateway, finalize).outcome
         == Redirect([QueryParam("status", "error"), QueryParam("reason", "bad_tid")])
    ensures Confirm(idParam, txParam, gateway, finalize).finalizeCall.None?
  {
  }

  /** Past validation, approval and a successful parse, the run is the finalize step on the identifier's draft. */
  lemma FinalizedRun(idParam: Option<string>, txParam: Option<string>,
                     gateway: GatewayRequest -> GatewayReply, finalize: string -> FinalizeReply)
    requires ParamsValid(idParam, txParam)
    requires Approved(gateway(GatewayRequest(IdOf(idParam).value, TxOf(txParam))))
    requires TransactionId.Parse(TxOf(txParam)).Some?
    ensures var request := GatewayRequest(IdOf(idParam).value, TxOf(txParam));
      var gid := TransactionId.DraftGid(TransactionId.Parse(TxOf(txParam)).value);
      Confirm(idParam, txParam, gateway, finalize)
      == ConfirmRun(AfterFinalize(finalize(gid), TxOf(txParam), gateway(request).authorizationCode),
                    Some(request), Some(gid))
  {
  }

  /** Field errors from finalize redirect with `reason=complete_userErrors`, not `bad_tid`. */
  lemma FinalizeErrorsReported(idParam: Option<string>, txParam: Option<string>,
                               gateway: GatewayRequest -> GatewayReply, finalize: string -> FinalizeReply)
    requires ParamsValid(idParam, txParam)
    requires Approved(gateway(GatewayRequest(IdOf(idParam).value, TxOf(txParam))))
    requires TransactionId.Parse(TxOf(txParam)).Some?
    requires var done := finalize(TransactionId.DraftGid(TransactionId.Parse(TxOf(txParam)).value));
      done.FinalizeData? && |done.userErrors| > 0
    ensures Confirm(idParam, txParam, gateway, finalize).outcome
         == Redirect([QueryParam("status", "error"), QueryParam("reason", "complete_userErrors")])
    ensures Confirm(idParam, txParam, gateway, finalize).outcome
         != Redirect([QueryParam("status", "error"), QueryParam("reason", "bad_tid")])
    ensures Confirm(idParam, txParam, gateway, finalize).finalizeCall.Some?
  {
    FinalizedRun(idParam, txParam, gateway, finalize);
  }

  /**
   * A finalized draft redirects with `status=success`, the order name, the
   * original identifier and the authorization code; a missing name or code
   * becomes "".
   */
  lemma SuccessRedirect(idParam: Option<string>, txParam: Option<string>,
                        gateway: GatewayRequest -> GatewayReply, finalize: string -> FinalizeReply)
    requires ParamsValid(idParam, txParam)
    requires Approved(gateway(GatewayRequest(IdOf(idParam).value, TxOf(txParam))))
    requires TransactionId.Parse(TxOf(txParam)).Some?
    requires var done := finalize(TransactionId.DraftGid(TransactionId.Parse(TxOf(txParam)).value));
      done.FinalizeData? && |done.userErrors| == 0
    ensures var conf := gateway(GatewayRequest(IdOf(idParam).value, TxOf(txParam)));
      var done := finalize(TransactionId.DraftGid(TransactionId.Parse(TxOf(txParam)).value));
      Confirm(idParam, txParam, gateway, finalize).outcome
      == Redirect([ QueryParam("status", "success"),
                    QueryParam("order", OrElse(done.orderName, "")),
                    QueryParam("tid", TxOf(txParam)),
                    QueryParam("auth", OrElse(conf.authorizationCode, "")) ])
  {
    FinalizedRun(idParam, txParam, gateway, finalize);
  }

  /** A thrown finalize call ends in `status=error` after the finalize request was sent. */
  lemma FinalizeFaultRedirect(idParam: Option<string>, txParam: Option<string>,
                              gateway: GatewayRequest -> GatewayReply, finalize: string -> FinalizeReply)
    requires ParamsValid(idParam, txParam)
    requires Approved(gateway(GatewayRequest(IdOf(idParam).value, TxOf(txParam))))
    requires TransactionId.Parse(TxOf(txParam)).Some?
    requires finalize(TransactionId.DraftGid(TransactionId.Parse(TxOf(txParam)).value)).FinalizeFault?
    ensures Confirm(idParam, txParam, gateway, finalize).outcome == ErrorRedirect
    ensures Confirm(idParam, txParam, gateway, finalize).finalizeCall.Some?
  {
    FinalizedRun(idParam, txParam, gateway, finalize);
  }
}
