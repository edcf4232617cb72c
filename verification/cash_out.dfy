/**
 * The PushinPay cash-out client (`ZENYX/integrations/pushin_pay/cash_out.py`):
 * its construction from the configured token and API URL, the requests it
 * builds, and the PIX key check. The HTTP calls themselves are not modelled.
 */
module PushinPayCashOut {

  import opened Wrappers
  import opened Text
  import opened Json

  /** A constructed client: its request headers and base URL. */
  datatype Client = Client(headers: map<string, string>, baseUrl: string)

  /** The constructor: `None` (it raises `ValueError`) when the token or the
      API URL is not configured. */
  function Connect(token: Option<string>, apiUrl: Option<string>): (c: Option<Client>)
    ensures c.Some? <==> token.Some? && token.value != "" && apiUrl.Some? && apiUrl.value != ""
    ensures c.Some? ==> c.value.baseUrl == apiUrl.value
    ensures c.Some? ==> "Authorization" in c.value.headers && c.value.headers["Authorization"] == "Bearer " + token.value
  {
    if token.None? || token.value == "" || apiUrl.None? || apiUrl.value == "" then None
    else Some(Client(map["Authorization" := "Bearer " + token.value, "Content-Type" := "application/json"], apiUrl.value))
  }

  /** A request: the URL and the JSON body. */
  datatype Request = Request(url: string, payload: Record)

  /** The request `send_pix` posts: the amount in cents, the key and its type,
      and the webhook only when one is given (an empty one counts as none). */
  function SendPix(c: Client, value: int, pixKey: string, pixKeyType: string, webhookUrl: Option<string>): Request
  {
    var payload := map["value" := Int(value), "pix_key" := Str(pixKey), "pix_key_type" := Str(pixKeyType)];
    Request(c.baseUrl + "/api/pix/cashOut",
            if webhookUrl.Some? && webhookUrl.value != "" then payload["webhook_url" := Str(webhookUrl.value)] else payload)
  }

  lemma SendPixSpec(c: Client, value: int, pixKey: string, pixKeyType: string, webhookUrl: Option<string>)
    ensures var p := SendPix(c, value, pixKey, pixKeyType, webhookUrl).payload;
      && p["value"] == Int(value) && p["pix_key"] == Str(pixKey) && p["pix_key_type"] == Str(pixKeyType)
      && ("webhook_url" in p <==> webhookUrl.Some? && webhookUrl.value != "")
      && ("webhook_url" in p ==> p["webhook_url"] == Str(webhookUrl.value))
      && p.Keys <= {"value", "pix_key", "pix_key_type", "webhook_url"}
  {
  }

  /** The URL `get_transaction_status` queries. */
  function TransactionStatusUrl(c: Client, transactionId: string): (url: string)
    ensures StartsWith(url, c.baseUrl)
    ensures |url| >= |transactionId| && url[|url| - |transactionId|..] == transactionId
  {
    c.baseUrl + "/api/transactions/" + transactionId
  }

  const ValidKeyTypes: seq<string> := ["evp", "national_registration", "phone", "email"]

  /** `validate_pix_key`. */
  predicate ValidatePixKey(pixKey: string, pixKeyType: string)
  {
    pixKeyType in ValidKeyTypes && pixKey != ""
  }

  /** A key is refused exactly when its type is not one of the four known
      types or the key is empty; every other key is accepted as it is. */
  lemma ValidatePixKeySpec(pixKey: string, pixKeyType: string)
    ensures pixKeyType !in ValidKeyTypes ==> !ValidatePixKey(pixKey, pixKeyType)
    ensures pixKey == "" ==> !ValidatePixKey(pixKey, pixKeyType)
    ensures pixKeyType in ValidKeyTypes && pixKey != "" ==> ValidatePixKey(pixKey, pixKeyType)
    ensures ValidatePixKey(pixKey, "email") <==> pixKey != ""
    ensures !ValidatePixKey(pixKey, "cpf")
  {
  }
}
