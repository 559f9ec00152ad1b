/** API-key credentials (`classes/init.py`): `Auth.api_key` trims the value
    it is given and refuses one that is empty once trimmed. */
module Auth {
  import opened Wrappers
  import opened Text

  /** The frozen `ApiKeyAuth` record holding an accepted key. */
  datatype ApiKeyAuth = ApiKeyAuth(key: string)

  /** The message of the `ValueError` raised for a blank key. */
  const EmptyKeyMessage: string := "API key cannot be empty"

  /** `Auth.api_key(value)`: the credential for the trimmed value, or the
      `ValueError` when nothing but whitespace was given. */
  function ApiKey(value: Option<string>): (r: Result<ApiKeyAuth, string>)
    ensures r.Err? <==> All(OrEmpty(value), IsSpace)
    ensures r.Err? ==> r.error == EmptyKeyMessage
    ensures r.Ok? ==> r.value.key == Strip(OrEmpty(value))
    ensures r.Ok? ==> r.value.key != []
                      && !IsSpace(r.value.key[0])
                      && !IsSpace(r.value.key[|r.value.key| - 1])
  {
    var token := Strip(OrEmpty(value));
    StripEmptyIff(OrEmpty(value));
    if token == [] then Err(EmptyKeyMessage) else Ok(ApiKeyAuth(token))
  }

  /** Validating an accepted key again accepts the very same key. */
  lemma ApiKeyIdempotent(value: Option<string>)
    requires ApiKey(value).Ok?
    ensures ApiKey(Some(ApiKey(value).value.key)) == ApiKey(value)
  {
    StripIdempotent(OrEmpty(value));
  }
}
