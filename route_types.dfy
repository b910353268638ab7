/** `RouteTypesAPI.get_route_types`: the one request with neither a variable
    path nor parameters; the config flow uses it to test the credentials. */
module RouteTypesApi {
  import opened Wrappers
  import opened Text
  import opened Hex
  import opened PtvClient

  /** The constant path, and no parameter dictionary. */
  function GetRouteTypes(): (call: Call)
    ensures call.params == None
  {
    Call("/v3/route_types", None)
  }

  /** The signed text is exactly `/v3/route_types?devid=<dev id>`, and the URL is
      the host, that text, and its signature, provided the host text does not
      recur inside the developer id. */
  lemma RouteTypesUrl(c: Client, hmac: Hmac)
    requires !Occurs(BaseUrl, "/v3/route_types?devid=" + c.devId)
    ensures var call := GetRouteTypes();
            var signed := "/v3/route_types?devid=" + c.devId;
            && SigningInput(UnsignedUrl(c, call.path, call.params)) == signed
            && BuildUrl(c, call.path, call.params, hmac) == BaseUrl + signed + "&signature=" + HexDigest(hmac(c.apiKey, signed))
  {
    var call := GetRouteTypes();
    var signed := "/v3/route_types?devid=" + c.devId;
    assert '?' !in call.path;
    assert SignedText(c, call.path, call.params) == "/v3/route_types" + "?devid=" + c.devId;
    assert "/v3/route_types" + "?devid=" == "/v3/route_types?devid=";
    assert SignedText(c, call.path, call.params) == signed;
    BuildUrlLayout(c, call.path, call.params, hmac);
    UnsignedLayout(c, call.path, call.params);
    SplitAfterSeparator(BaseUrl, signed);
    SplitWithoutOccurrence(signed, BaseUrl);
  }
}
