/**
 * PushinPay token configuration of a user's bot (`ZENYX/user_bot/payment.py`):
 * the callback that opens the token prompt and the handler that stores the
 * token. `bot_data` is the dict the router passes; constructing the PushinPay
 * client is an outcome parameter (`clientRaises`).
 */
module UserBotPayment {

  import opened Wrappers
  import opened Text
  import opened Json
  import opened Store
  import opened ModelsUserBot
  import opened MessageConfig

  const WaitingForToken: string := "PaymentConfig:waiting_for_token"

  /** `user_id != bot_data["user_id"]` is false: Python's `==` between an int
      and a stored id (booleans compare as 0 and 1). */
  predicate IsOwner(userId: int, ownerId: Value)
  {
    Numeric(ownerId) == Some(userId)
  }

  /** The line of the prompt saying whether a token is configured. */
  function TokenStatus(b: UserBot): (status: string)
    ensures status == "Configurado" <==> Truthy(b.pushinToken)
    ensures status != "Configurado" ==> status == "Nenhum token configurado."
  {
    if Truthy(b.pushinToken) then "Configurado" else "Nenhum token configurado."
  }

  datatype PromptOutcome =
    | Forbidden                 // "Você não tem permissão"
    | NoSuchBot                 // "Bot não encontrado"
    | Prompted(status: string)  // the prompt was sent and the token awaited
    | PromptRaised              // a lookup raised

  /** `config_payment_callback`. */
  method ConfigPaymentCallback(fsm: FsmContext, db: Database, userId: int, botData: Record, now: int)
    returns (r: PromptOutcome)
    modifies fsm
    ensures "user_id" in botData && !IsOwner(userId, botData["user_id"]) <==> r == Forbidden
    ensures r == NoSuchBot <==>
      "user_id" in botData && IsOwner(userId, botData["user_id"]) && "bot_id" in botData &&
      Load(db.ks, botData["bot_id"], now).Missing?
    ensures r.Prompted? <==>
      "user_id" in botData && IsOwner(userId, botData["user_id"]) && "bot_id" in botData &&
      Load(db.ks, botData["bot_id"], now).Fetched?
    ensures r.Prompted? ==> r.status == TokenStatus(Load(db.ks, botData["bot_id"], now).value)
    ensures r.Prompted? ==> fsm.state == Some(WaitingForToken) && fsm.data == old(fsm.data)
    ensures !r.Prompted? ==> fsm.state == old(fsm.state) && fsm.data == old(fsm.data)
  {
    if "user_id" !in botData {
      return PromptRaised;
    }
    if !IsOwner(userId, botData["user_id"]) {
      return Forbidden;
    }
    if "bot_id" !in botData {
      return PromptRaised;
    }
    var loaded := Load(db.ks, botData["bot_id"], now);
    if loaded.Missing? {
      return NoSuchBot;
    }
    if loaded.KeyError? {
      return PromptRaised;
    }
    fsm.state := Some(WaitingForToken);
    return Prompted(TokenStatus(loaded.value));
  }

  /** The token check of `receive_token`: at least ten characters once
      stripped (which also rules out the empty token). */
  predicate AcceptableToken(text: string)
  {
    |Strip(text)| >= 10
  }

  /** An accepted token is non-empty and has no whitespace at either end;
      whitespace before what was typed changes nothing, and fewer than ten
      characters typed are always refused. */
  lemma AcceptableTokenSpec(text: string)
    ensures AcceptableToken(text) ==>
      Strip(text) != [] && !IsSpace(Strip(text)[0]) && !IsSpace(Strip(text)[|Strip(text)| - 1])
    ensures AcceptableToken(" " + text) == AcceptableToken(text)
    ensures |text| < 10 ==> !AcceptableToken(text)
  {
    var a, b := StripSpec(text);
    var s := " " + text;
    assert s[0] == ' ' && s[1..] == text;
    assert LStrip(s) == LStrip(text);
  }

  datatype TokenOutcome =
    | Invalid        // "Token inválido": nothing else happens
    | NoBot          // "Bot não encontrado", state finished
    | ClientFailed   // "Erro ao configurar token", state finished
    | Configured(bot: UserBot)
    | TokenRaised    // a lookup raised

  /** `receive_token`. */
  method ReceiveToken(fsm: FsmContext, db: Database, botData: Record, text: string, clientRaises: bool, now: int)
    returns (r: TokenOutcome)
    modifies fsm, db
    ensures r == Invalid <==> !AcceptableToken(text)
    ensures r == NoBot <==> AcceptableToken(text) && "bot_id" in botData && Load(old(db.ks), botData["bot_id"], now).Missing?
    ensures r.Configured? <==>
      AcceptableToken(text) && "bot_id" in botData && Load(old(db.ks), botData["bot_id"], now).Fetched? && !clientRaises
    ensures r.Configured? ==>
      r.bot == Load(old(db.ks), botData["bot_id"], now).value.(pushinToken := Str(Strip(text))) &&
      forall n :: Load(db.ks, r.bot.botId, n) == Fetched(r.bot)
    ensures r.Configured? ==> db.ks == Saved(old(db.ks), r.bot)
    ensures !r.Configured? ==> db.ks == old(db.ks)
    ensures r == Invalid || r == TokenRaised ==> fsm.state == old(fsm.state) && fsm.data == old(fsm.data)
    ensures r == NoBot || r == ClientFailed || r.Configured? ==> fsm.state == None && fsm.data == map[]
  {
    var token := Strip(text);
    if token == [] || |token| < 10 {
      return Invalid;
    }
    if "bot_id" !in botData {
      return TokenRaised;
    }
    var loaded := Load(db.ks, botData["bot_id"], now);
    if loaded.Missing? {
      fsm.Finish();
      return NoBot;
    }
    if loaded.KeyError? {
      return TokenRaised;
    }
    if clientRaises {
      fsm.Finish();
      return ClientFailed;
    }
    var b := loaded.value.(pushinToken := Str(token));
    Save(b, db);
    fsm.Finish();
    return Configured(b);
  }
}
