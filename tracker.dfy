/** The `GoogleAnalytics` object: a trimmed account id and the custom variables
    registered so far, in registration order. The init-code methods build their
    code step by step, as the PHP methods do, and are proved to return what
    Snippets.BasicInitCode and Snippets.ManualCampaignInitCode describe. */
module Tracker {
  import opened Results
  import opened PhpStrings
  import opened Snippets
  import opened TrackingProperties

  class GoogleAnalytics {
    var gatId: string
    var customVars: seq<CustomVar>

    /** The id is stored trimmed, and only variables that passed the checks
        of `SetCustomVar` are registered. */
    ghost predicate Valid()
      reads this
    {
      IsTrimmed(gatId) && AllValidVars(customVars)
    }

    /** The part of `__construct` after the emptiness check. */
    constructor (gatId: string)
      requires !EmptyStr(gatId)
      ensures Valid()
      ensures Ok(this.gatId) == AccountId(gatId)
      ensures customVars == []
    {
      this.gatId := Trim(gatId);
      customVars := [];
    }

    /** `new GoogleAnalytics($gatId)`: fails when `empty()` rejects the raw id,
        so a whitespace-only id is accepted and stored as "". */
    static method Create(gatId: string) returns (r: Result<GoogleAnalytics>)
      ensures r.Err? <==> AccountId(gatId).Err?
      ensures r.Err? ==> r.error == AccountId(gatId).error
      ensures r.Ok? ==> fresh(r.value) && r.value.Valid()
      ensures r.Ok? ==> Ok(r.value.gatId) == AccountId(gatId) && r.value.customVars == []
    {
      if EmptyStr(gatId) {
        return Err(InvalidArgument(ProfileId));
      }
      var ga := new GoogleAnalytics(gatId);
      return Ok(ga);
    }

    /** `setCustomVar`: checks index, name and value in that order; on success
        appends exactly one record at the end and changes nothing else. */
    method SetCustomVar(index: int, name: string, value: string, scope: int := 3) returns (o: Outcome)
      requires Valid()
      modifies this
      ensures Valid()
      ensures o.Fail? <==> !ValidCustomVar(index, name, value)
      ensures o.Fail? ==> o.error == InvalidArgument(CustomVarError(index, name, value))
      ensures gatId == old(gatId)
      ensures customVars == if o.Pass? then old(customVars) + [CustomVar(index, name, value, scope)] else old(customVars)
    {
      if EmptyInt(index) {
        return Fail(InvalidArgument(Index));
      }
      if EmptyStr(name) {
        return Fail(InvalidArgument(Name));
      }
      if EmptyStr(value) {
        return Fail(InvalidArgument(Value));
      }
      customVars := customVars + [CustomVar(index, name, value, scope)];
      return Pass;
    }

    /** The `foreach` over the custom variables that both init methods run:
        appends the code of each variable in order, stopping at the first
        variable whose code throws. */
    method AppendCustomVarCode(code: string) returns (r: Result<string>)
      ensures r.Ok? <==> CustomVarsCode(customVars).Ok?
      ensures r.Err? ==> r.error == CustomVarsCode(customVars).error
      ensures r.Ok? ==> r.value == code + CustomVarsCode(customVars).value
    {
      var vars := customVars;
      var acc := code;
      var i := 0;
      while i < |vars|
        invariant 0 <= i <= |vars|
        invariant AllValidVars(vars[..i])
        invariant acc == code + CustomVarCalls(vars[..i])
      {
        var v := vars[i];
        var call := CustomVarCode(v.index, v.name, v.value, v.scope);
        if call.Err? {
          CustomVarsCodeFirstError(vars, i);
          return Err(call.error);
        }
        CustomVarsPrefixStep(vars, i);
        AppendAssoc(code, CustomVarCalls(vars[..i]), call.value);
        acc := acc + call.value;
        i := i + 1;
      }
      assert vars[..i] == vars;
      return Ok(acc);
    }

    /** `getBasicInitCode`. It reads the object and changes nothing; on a valid
        object it never fails. */
    method GetBasicInitCode() returns (r: Result<string>)
      ensures r == BasicInitCode(gatId, customVars)
      ensures Valid() ==> r.Ok?
    {
      var code := GaqInitCode(gatId);
      code :- AppendCustomVarCode(code);
      code := code + TrackPageViewCode("");
      code := code + GA_JS_CODE;
      r := WrapCodeInScriptTags(code);
    }

    /** `getManualCampaignInitCode`, with `referrer` defaulting to "". */
    method GetManualCampaignInitCode(utmSource: string, utmMedium: string, utmCampaign: string, utmContent: string,
                                     utmTerm: string, referrer: string := "") returns (r: Result<string>)
      ensures r == ManualCampaignInitCode(gatId, customVars, utmSource, utmMedium, utmCampaign, utmContent, utmTerm, referrer)
      ensures Valid() ==>
        (r.Ok? <==> ReferrerAccepted(referrer) && CampaignCheck(utmSource, utmMedium, utmCampaign, utmContent).None?)
    {
      var code := GaqInitCode(gatId);
      if !EmptyStr(referrer) {
        var referrerCode :- ReferrerOverrideCode(referrer);
        code := code + referrerCode;
      } else {
        AppendEmpty(code);
      }
      code :- AppendCustomVarCode(code);
      var campaignCode :- SetCampaignVarsCode(utmSource, utmMedium, utmCampaign, utmContent, utmTerm);
      code := code + campaignCode;
      code := code + TrackPageViewCode("");
      code := code + GA_JS_CODE;
      r := WrapCodeInScriptTags(code);
    }
  }
}
