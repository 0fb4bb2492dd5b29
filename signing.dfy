/// The signer: the pki string is the plain concatenation of the API key, the
/// random string, the secret key and the canonical request string, and the
/// authorization header is "IYZWS <apiKey>:<digest of the pki string>". The
/// digest (SHA-1 followed by standard base64) is a parameter of the model.
module Signing {
  import opened Requests

  /** The two strings the Go signer returns. */
  datatype Signature = Signature(authorization: string, pkiString: string)

  const Scheme: string := "IYZWS "

  function GetAuthorizationAndPkiString(
    apiKey: string, rnd: string, secretKey: string, requestString: string,
    digest: string -> string): (r: Result<Signature>)
    ensures r.Failure? <==> apiKey == "" || rnd == "" || secretKey == "" || requestString == ""
    ensures r.Failure? ==> r.error == EmptyInput
    ensures r.Success? ==> r.value.pkiString == apiKey + rnd + secretKey + requestString
    ensures r.Success? ==> r.value.authorization == Scheme + apiKey + ":" + digest(r.value.pkiString)
  {
    if apiKey == "" || rnd == "" || secretKey == "" || requestString == "" then
      Failure(EmptyInput)
    else
      var pkiString := apiKey + rnd + secretKey + requestString;
      Success(Signature(Scheme + apiKey + ":" + digest(pkiString), pkiString))
  }

  // ---- reading a header back ---------------------------------------------

  /** The text of `s` before the first `c`, or all of `s` when there is none. */
  function Before(s: string, c: char): (t: string)
    ensures |t| <= |s| && t == s[..|t|]
    ensures c !in t
  {
    if s == [] || s[0] == c then [] else [s[0]] + Before(s[1..], c)
  }

  lemma {:induction false} BeforeSeparator(x: string, c: char, y: string)
    requires c !in x
    ensures Before(x + [c] + y, c) == x
  {
    if x != [] {
      assert (x + [c] + y)[1..] == x[1..] + [c] + y;
      BeforeSeparator(x[1..], c, y);
    }
  }

  /** The API key a receiver reads from an authorization header: the text
      between the scheme and the first ':'. */
  function HeaderApiKey(header: string): (key: string)
    ensures |key| <= |header|
  {
    if |header| >= |Scheme| && header[..|Scheme|] == Scheme then Before(header[|Scheme|..], ':')
    else []
  }

  // ---- what a signature promises -----------------------------------------

  /** A header always opens with the scheme, and the API key in it reads back
      whenever the key holds no ':'. */
  lemma AuthorizationReadsBack(apiKey: string, rnd: string, secretKey: string,
                               requestString: string, digest: string -> string)
    requires ':' !in apiKey
    requires GetAuthorizationAndPkiString(apiKey, rnd, secretKey, requestString, digest).Success?
    ensures var h := GetAuthorizationAndPkiString(apiKey, rnd, secretKey, requestString, digest).value.authorization;
      |h| > |Scheme| && h[..|Scheme|] == Scheme && HeaderApiKey(h) == apiKey
  {
    var s := GetAuthorizationAndPkiString(apiKey, rnd, secretKey, requestString, digest).value;
    var h := s.authorization;
    var d := digest(s.pkiString);
    assert h[..|Scheme|] == Scheme;
    assert h[|Scheme|..] == apiKey + [':'] + d;
    BeforeSeparator(apiKey, ':', d);
  }

  /** The pki string ends with the request string, after the three secrets. */
  lemma PkiStringEndsWithRequest(apiKey: string, rnd: string, secretKey: string,
                                 requestString: string, digest: string -> string)
    requires GetAuthorizationAndPkiString(apiKey, rnd, secretKey, requestString, digest).Success?
    ensures var p := GetAuthorizationAndPkiString(apiKey, rnd, secretKey, requestString, digest).value.pkiString;
      |p| == |apiKey| + |rnd| + |secretKey| + |requestString|
      && p[|apiKey| + |rnd| + |secretKey|..] == requestString
      && p[..|apiKey|] == apiKey
  {
  }

  /** The signature depends on the API key and the concatenation only: moving
      the border between the random string and the secret key changes nothing. */
  lemma SignatureOfConcatenation(apiKey: string, rnd: string, secretKey: string,
                                 requestString: string, digest: string -> string, c: char)
    requires apiKey != "" && rnd != "" && secretKey != "" && requestString != ""
    ensures GetAuthorizationAndPkiString(apiKey, rnd + [c], secretKey, requestString, digest)
         == GetAuthorizationAndPkiString(apiKey, rnd, [c] + secretKey, requestString, digest)
  {
    assert apiKey + (rnd + [c]) + secretKey + requestString == apiKey + rnd + ([c] + secretKey) + requestString;
  }

  /** The known vector: key "key1", random string "123456789", secret
      "secret1", request "[locale=tr]". */
  lemma SignatureExample(digest: string -> string)
    ensures GetAuthorizationAndPkiString("key1", "123456789", "secret1", "[locale=tr]", digest)
         == Success(Signature("IYZWS key1:" + digest("key1123456789secret1[locale=tr]"),
                              "key1123456789secret1[locale=tr]"))
  {
    assert "key1" + "123456789" == "key1123456789";
    assert "key1123456789" + "secret1" == "key1123456789secret1";
    assert "key1123456789secret1" + "[locale=tr]" == "key1123456789secret1[locale=tr]";
    assert Scheme + "key1" + ":" == "IYZWS key1:";
  }
}
