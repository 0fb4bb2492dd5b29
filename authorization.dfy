/// The two entry points: check the credentials, validate the request,
/// render its canonical string, sign. Each step runs only when the one
/// before it succeeded, and the first failure is returned as it is.
module Authorization {
  import opened Requests
  import opened Validation
  import opened Formatting
  import opened Signing

  predicate CredentialsPresent(apiKey: string, secretKey: string, rnd: string) {
    apiKey != "" && secretKey != "" && rnd != ""
  }

  /** Signs a BKM initialization request. The canonical string is
      InitializeBkmText, which the buffer writer FormatInitializeBkm is
      proved to produce. */
  function GenerateAuthorizationAndPkiString(
    apiKey: string, secretKey: string, request: InitializeBkmRequest, rnd: string,
    digest: string -> string): (r: Result<Signature>)
    ensures !CredentialsPresent(apiKey, secretKey, rnd) ==> r == Failure(EmptyCredentials)
    ensures CredentialsPresent(apiKey, secretKey, rnd) && ValidateInitializeBkmRequest(request).Fail? ==>
      r == Failure(ValidateInitializeBkmRequest(request).error)
    ensures r.Success? <==>
      CredentialsPresent(apiKey, secretKey, rnd) && ValidateInitializeBkmRequest(request).Pass?
    ensures r.Success? ==>
      && r.value.pkiString == apiKey + rnd + secretKey + InitializeBkmText(request)
      && r.value.authorization == "IYZWS " + apiKey + ":" + digest(r.value.pkiString)
  {
    if apiKey == "" || secretKey == "" || rnd == "" then Failure(EmptyCredentials)
    else
      var v := ValidateInitializeBkmRequest(request);
      if v.Fail? then Failure(v.error)
      else
        var requestString := InitializeBkmText(request);
        InitializeBkmTextBracketed(request);
        GetAuthorizationAndPkiString(apiKey, rnd, secretKey, requestString, digest)
  }

  /** Signs a direct payment request. */
  function GenerateAuthorizationAndPkiStringForCreatePayment(
    apiKey: string, secretKey: string, request: CreatePaymentRequest, rnd: string,
    digest: string -> string): (r: Result<Signature>)
    ensures !CredentialsPresent(apiKey, secretKey, rnd) ==> r == Failure(EmptyCredentials)
    ensures CredentialsPresent(apiKey, secretKey, rnd) && ValidateCreatePaymentRequest(request).Fail? ==>
      r == Failure(ValidateCreatePaymentRequest(request).error)
    ensures r.Success? <==>
      CredentialsPresent(apiKey, secretKey, rnd) && ValidateCreatePaymentRequest(request).Pass?
    ensures r.Success? ==>
      && r.value.pkiString == apiKey + rnd + secretKey + CreatePaymentText(request)
      && r.value.authorization == "IYZWS " + apiKey + ":" + digest(r.value.pkiString)
  {
    if apiKey == "" || secretKey == "" || rnd == "" then Failure(EmptyCredentials)
    else
      var v := ValidateCreatePaymentRequest(request);
      if v.Fail? then Failure(v.error)
      else
        var requestString := CreatePaymentText(request);
        CreatePaymentTextBracketed(request);
        GetAuthorizationAndPkiString(apiKey, rnd, secretKey, requestString, digest)
  }

  // ---- what the entry points promise -------------------------------------

  /** The signer's own emptiness check never fires behind an entry point: every
      failure is a credentials failure or a validation failure. */
  lemma EntryPointsNeverReportEmptyInput(
    apiKey: string, secretKey: string, rnd: string, digest: string -> string,
    bkm: InitializeBkmRequest, payment: CreatePaymentRequest)
    ensures GenerateAuthorizationAndPkiString(apiKey, secretKey, bkm, rnd, digest)
         != Failure(EmptyInput)
    ensures GenerateAuthorizationAndPkiStringForCreatePayment(apiKey, secretKey, payment, rnd, digest)
         != Failure(EmptyInput)
  {
    if CredentialsPresent(apiKey, secretKey, rnd) {
      if ValidateInitializeBkmRequest(bkm).Fail? {
        ValidateInitializeBkmRequestBlames(bkm);
      }
      if ValidateCreatePaymentRequest(payment).Fail? {
        ValidateCreatePaymentRequestBlames(payment);
      }
    }
  }

  /** On failure nothing is hashed: the result does not depend on the digest. */
  lemma FailureIndependentOfDigest(
    apiKey: string, secretKey: string, rnd: string, d1: string -> string, d2: string -> string,
    bkm: InitializeBkmRequest, payment: CreatePaymentRequest)
    ensures GenerateAuthorizationAndPkiString(apiKey, secretKey, bkm, rnd, d1).Failure? ==>
      GenerateAuthorizationAndPkiString(apiKey, secretKey, bkm, rnd, d1)
      == GenerateAuthorizationAndPkiString(apiKey, secretKey, bkm, rnd, d2)
    ensures GenerateAuthorizationAndPkiStringForCreatePayment(apiKey, secretKey, payment, rnd, d1).Failure? ==>
      GenerateAuthorizationAndPkiStringForCreatePayment(apiKey, secretKey, payment, rnd, d1)
      == GenerateAuthorizationAndPkiStringForCreatePayment(apiKey, secretKey, payment, rnd, d2)
  {
  }

  /** A signed BKM request carries its canonical string at the end of the pki
      string, opened by '[' and closed by ']', and the header names the key. */
  lemma BkmSignatureShape(
    apiKey: string, secretKey: string, request: InitializeBkmRequest, rnd: string,
    digest: string -> string)
    requires ':' !in apiKey
    requires GenerateAuthorizationAndPkiString(apiKey, secretKey, request, rnd, digest).Success?
    ensures var s := GenerateAuthorizationAndPkiString(apiKey, secretKey, request, rnd, digest).value;
      && HeaderApiKey(s.authorization) == apiKey
      && s.pkiString[|apiKey| + |rnd| + |secretKey|] == '['
      && s.pkiString[|s.pkiString| - 1] == ']'
  {
    var text := InitializeBkmText(request);
    InitializeBkmTextBracketed(request);
    AuthorizationReadsBack(apiKey, rnd, secretKey, text, digest);
    PkiStringEndsWithRequest(apiKey, rnd, secretKey, text, digest);
  }

  lemma CreatePaymentSignatureShape(
    apiKey: string, secretKey: string, request: CreatePaymentRequest, rnd: string,
    digest: string -> string)
    requires ':' !in apiKey
    requires GenerateAuthorizationAndPkiStringForCreatePayment(apiKey, secretKey, request, rnd, digest).Success?
    ensures var s := GenerateAuthorizationAndPkiStringForCreatePayment(apiKey, secretKey, request, rnd, digest).value;
      && HeaderApiKey(s.authorization) == apiKey
      && s.pkiString[|apiKey| + |rnd| + |secretKey|] == '['
      && s.pkiString[|s.pkiString| - 1] == ']'
  {
    var text := CreatePaymentText(request);
    CreatePaymentTextBracketed(request);
    AuthorizationReadsBack(apiKey, rnd, secretKey, text, digest);
    PkiStringEndsWithRequest(apiKey, rnd, secretKey, text, digest);
  }
}
