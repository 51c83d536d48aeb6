/** What the generated code looks like and when generating it fails, stated
    over the functions of Snippets for all inputs. */
module TrackingProperties {
  import opened Results
  import opened PhpStrings
  import opened Decimal
  import opened Snippets

  /** The page-view call, the loader and the closing tag that end both init codes. */
  const INIT_CODE_TAIL: string := TRACK_PAGEVIEW_CALL + GA_JS_CODE + SCRIPT_CLOSE_TAG

  /** `getBasicInitCode` fails exactly when a registered variable fails its
      checks, and otherwise emits, in this order: the script tag, the queue and
      account set-up, one `_setCustomVar` call per variable in registration
      order, the page view without a url, the loader and the closing tag. */
  lemma BasicInitLayout(gatId: string, vars: seq<CustomVar>)
    ensures BasicInitCode(gatId, vars).Ok? <==> AllValidVars(vars)
    ensures AllValidVars(vars) ==>
      BasicInitCode(gatId, vars).value ==
        SCRIPT_OPEN_TAG + QUEUE_INIT + "_gaq.push(['_setAccount', '" + gatId + "']);"
        + CustomVarCalls(vars) + TRACK_PAGEVIEW_CALL + GA_JS_CODE + SCRIPT_CLOSE_TAG
  {
    if AllValidVars(vars) {
      var account := QUEUE_INIT + "_gaq.push(['_setAccount', '" + gatId + "']);";
      var calls := CustomVarCalls(vars);
      var code := account + calls + TRACK_PAGEVIEW_CALL + GA_JS_CODE;
      assert BasicInitCode(gatId, vars) == Ok(SCRIPT_OPEN_TAG + code + SCRIPT_CLOSE_TAG);
      AppendAssoc(SCRIPT_OPEN_TAG, account + calls + TRACK_PAGEVIEW_CALL, GA_JS_CODE);
      AppendAssoc(SCRIPT_OPEN_TAG, account + calls, TRACK_PAGEVIEW_CALL);
      AppendAssoc(SCRIPT_OPEN_TAG, account, calls);
      AppendAssoc(SCRIPT_OPEN_TAG, QUEUE_INIT + "_gaq.push(['_setAccount', '" + gatId, "']);");
      AppendAssoc(SCRIPT_OPEN_TAG, QUEUE_INIT + "_gaq.push(['_setAccount', '", gatId);
      AppendAssoc(SCRIPT_OPEN_TAG, QUEUE_INIT, "_gaq.push(['_setAccount', '");
    }
  }

  /** The error of `getBasicInitCode` is the one of the first invalid variable. */
  lemma BasicInitFirstError(gatId: string, vars: seq<CustomVar>, k: int)
    requires FirstInvalidVar(vars, k)
    ensures BasicInitCode(gatId, vars) == Err(InvalidArgument(CustomVarError(vars[k].index, vars[k].name, vars[k].value)))
  {
    CustomVarsCodeFirstError(vars, k);
  }

  /** Registering one more valid variable inserts exactly its `_setCustomVar`
      call after the calls of the earlier variables, just before the page view. */
  lemma BasicInitAfterRegistration(gatId: string, vars: seq<CustomVar>, v: CustomVar)
    requires AllValidVars(vars) && IsValidVar(v)
    ensures BasicInitCode(gatId, vars).Ok? && BasicInitCode(gatId, vars + [v]).Ok?
    ensures var before := BasicInitCode(gatId, vars).value;
            |INIT_CODE_TAIL| <= |before| &&
            BasicInitCode(gatId, vars + [v]).value == before[..|before| - |INIT_CODE_TAIL|] + CustomVarCall(v) + INIT_CODE_TAIL
  {
    var more := vars + [v];
    assert more[..|vars|] == vars && more[..|vars| + 1] == more;
    CustomVarsPrefixStep(more, |vars|);
    BasicInitLayout(gatId, vars);
    BasicInitLayout(gatId, more);
    var account := SCRIPT_OPEN_TAG + QUEUE_INIT + "_gaq.push(['_setAccount', '" + gatId + "']);";
    var head := account + CustomVarCalls(vars);
    var call := CustomVarCall(v);
    var before := BasicInitCode(gatId, vars).value;
    var after := BasicInitCode(gatId, more).value;
    assert before == head + TRACK_PAGEVIEW_CALL + GA_JS_CODE + SCRIPT_CLOSE_TAG;
    assert after == account + (CustomVarCalls(vars) + call) + TRACK_PAGEVIEW_CALL + GA_JS_CODE + SCRIPT_CLOSE_TAG;
    AppendAssoc(account, CustomVarCalls(vars), call);
    TailSplit(head, before);
    TailSplit(head + call, after);
  }

  lemma TailSplit(head: string, s: string)
    requires s == head + TRACK_PAGEVIEW_CALL + GA_JS_CODE + SCRIPT_CLOSE_TAG
    ensures s == head + INIT_CODE_TAIL
    ensures |INIT_CODE_TAIL| <= |s| && s[..|s| - |INIT_CODE_TAIL|] == head
  {
    AppendAssoc(head, TRACK_PAGEVIEW_CALL, GA_JS_CODE);
    AppendAssoc(head, TRACK_PAGEVIEW_CALL + GA_JS_CODE, SCRIPT_CLOSE_TAG);
    AppendAssoc(TRACK_PAGEVIEW_CALL, GA_JS_CODE, SCRIPT_CLOSE_TAG);
  }

  /** A variable accepted by `setCustomVar` cannot make `getCustomVarCode`
      throw, whatever its scope. */
  lemma RegisteredVarEmits(index: int, name: string, value: string, scope: int)
    requires ValidCustomVar(index, name, value)
    ensures CustomVarCode(index, name, value, scope) == Ok(CustomVarCall(CustomVar(index, name, value, scope)))
  {
  }

  lemma AccountLayout(open: string, gatId: string)
    ensures open + GaqInitCode(gatId) == open + QUEUE_INIT + "_gaq.push(['_setAccount', '" + gatId + "']);"
  {
    AppendAssoc(open, QUEUE_INIT + "_gaq.push(['_setAccount', '" + gatId, "']);");
    AppendAssoc(open, QUEUE_INIT + "_gaq.push(['_setAccount', '", gatId);
    AppendAssoc(open, QUEUE_INIT, "_gaq.push(['_setAccount', '");
  }

  /** Wrapping the pieces of the campaign init code, whatever they are. */
  lemma CampaignWrapLayout(gatId: string, ref: string, cv: string, camp: string)
    ensures WrapCodeInScriptTags(GaqInitCode(gatId) + ref + cv + camp + TrackPageViewCode("") + GA_JS_CODE)
         == Ok(SCRIPT_OPEN_TAG + QUEUE_INIT + "_gaq.push(['_setAccount', '" + gatId + "']);"
               + ref + cv + camp + TRACK_PAGEVIEW_CALL + GA_JS_CODE + SCRIPT_CLOSE_TAG)
  {
    var g := GaqInitCode(gatId);
    var code := g + ref + cv + camp + TRACK_PAGEVIEW_CALL + GA_JS_CODE;
    assert |code| >= |QUEUE_INIT|;
    assert WrapCodeInScriptTags(code) == Ok(SCRIPT_OPEN_TAG + code + SCRIPT_CLOSE_TAG);
    AppendAssoc(SCRIPT_OPEN_TAG, g + ref + cv + camp + TRACK_PAGEVIEW_CALL, GA_JS_CODE);
    AppendAssoc(SCRIPT_OPEN_TAG, g + ref + cv + camp, TRACK_PAGEVIEW_CALL);
    AppendAssoc(SCRIPT_OPEN_TAG, g + ref + cv, camp);
    AppendAssoc(SCRIPT_OPEN_TAG, g + ref, cv);
    AppendAssoc(SCRIPT_OPEN_TAG, g, ref);
    AccountLayout(SCRIPT_OPEN_TAG, gatId);
  }

  /** When `getManualCampaignInitCode` succeeds, its code holds, in this order:
      the script tag, the queue and account set-up, the referrer override (for
      the trimmed referrer, and only for a referrer `empty()` accepts), the
      custom-variable calls, the campaign block (the cookie library, then the
      setter with the values in the order source, medium, campaign, term,
      content), the page view, the loader and the closing tag. */
  lemma ManualCampaignLayout(gatId: string, vars: seq<CustomVar>, utmSource: string, utmMedium: string,
                             utmCampaign: string, utmContent: string, utmTerm: string, referrer: string)
    ensures var code := ManualCampaignInitCode(gatId, vars, utmSource, utmMedium, utmCampaign, utmContent, utmTerm, referrer);
            var ref := if EmptyStr(referrer) then "" else "_gaq.push(['_setReferrerOverride', '" + Trim(referrer) + "']);";
            var camp := COOKIE_MODIFICATION_CODE + SetCampValuesCall(
              [CampaignValue(utmSource), CampaignValue(utmMedium), CampaignValue(utmCampaign), CampaignValue(utmTerm), CampaignValue(utmContent)]);
            code.Ok? ==>
              code.value == SCRIPT_OPEN_TAG + QUEUE_INIT + "_gaq.push(['_setAccount', '" + gatId + "']);"
                            + ref + CustomVarCalls(vars) + camp + TRACK_PAGEVIEW_CALL + GA_JS_CODE + SCRIPT_CLOSE_TAG
  {
    var ref := if EmptyStr(referrer) then "" else "_gaq.push(['_setReferrerOverride', '" + Trim(referrer) + "']);";
    var camp := COOKIE_MODIFICATION_CODE + SetCampValuesCall(
      [CampaignValue(utmSource), CampaignValue(utmMedium), CampaignValue(utmCampaign), CampaignValue(utmTerm), CampaignValue(utmContent)]);
    ManualCampaignPieces(gatId, vars, utmSource, utmMedium, utmCampaign, utmContent, utmTerm, referrer);
    if ManualCampaignInitCode(gatId, vars, utmSource, utmMedium, utmCampaign, utmContent, utmTerm, referrer).Ok? {
      CampaignWrapLayout(gatId, ref, CustomVarCalls(vars), camp);
    }
  }

  /** A successful campaign init code wraps the referrer part, the
      custom-variable calls and the campaign block. */
  lemma ManualCampaignPieces(gatId: string, vars: seq<CustomVar>, utmSource: string, utmMedium: string,
                             utmCampaign: string, utmContent: string, utmTerm: string, referrer: string)
    ensures var code := ManualCampaignInitCode(gatId, vars, utmSource, utmMedium, utmCampaign, utmContent, utmTerm, referrer);
            var ref := if EmptyStr(referrer) then "" else "_gaq.push(['_setReferrerOverride', '" + Trim(referrer) + "']);";
            var camp := COOKIE_MODIFICATION_CODE + SetCampValuesCall(
              [CampaignValue(utmSource), CampaignValue(utmMedium), CampaignValue(utmCampaign), CampaignValue(utmTerm), CampaignValue(utmContent)]);
            code.Ok? ==>
              code == WrapCodeInScriptTags(GaqInitCode(gatId) + ref + CustomVarCalls(vars) + camp + TrackPageViewCode("") + GA_JS_CODE)
  {
    if ManualCampaignInitCode(gatId, vars, utmSource, utmMedium, utmCampaign, utmContent, utmTerm, referrer).Ok? {
      assert OptionalReferrerCode(referrer).Ok?;
    }
  }

  /** The checks of `getManualCampaignInitCode` run in the order of the code it
      emits: the referrer first, then the registered variables, then the
      campaign values. */
  lemma ManualCampaignErrors(gatId: string, vars: seq<CustomVar>, utmSource: string, utmMedium: string,
                             utmCampaign: string, utmContent: string, utmTerm: string, referrer: string, k: int)
    ensures !ReferrerAccepted(referrer) ==>
      ManualCampaignInitCode(gatId, vars, utmSource, utmMedium, utmCampaign, utmContent, utmTerm, referrer)
        == Err(InvalidArgument(Referrer))
    ensures ReferrerAccepted(referrer) && FirstInvalidVar(vars, k) ==>
      ManualCampaignInitCode(gatId, vars, utmSource, utmMedium, utmCampaign, utmContent, utmTerm, referrer)
        == Err(InvalidArgument(CustomVarError(vars[k].index, vars[k].name, vars[k].value)))
    ensures ReferrerAccepted(referrer) && AllValidVars(vars) && CampaignCheck(utmSource, utmMedium, utmCampaign, utmContent).Some? ==>
      ManualCampaignInitCode(gatId, vars, utmSource, utmMedium, utmCampaign, utmContent, utmTerm, referrer)
        == Err(InvalidArgument(CampaignCheck(utmSource, utmMedium, utmCampaign, utmContent).value))
  {
    if FirstInvalidVar(vars, k) {
      CustomVarsCodeFirstError(vars, k);
    }
  }

  /** A referrer of whitespace only passes the outer `empty()` test but fails
      once trimmed. */
  lemma WhitespaceReferrerRejected(gatId: string, vars: seq<CustomVar>, utmSource: string, utmMedium: string,
                                   utmCampaign: string, utmContent: string, utmTerm: string, referrer: string)
    requires referrer != "" && AllTrimChars(referrer)
    ensures ManualCampaignInitCode(gatId, vars, utmSource, utmMedium, utmCampaign, utmContent, utmTerm, referrer)
         == Err(InvalidArgument(Referrer))
  {
    assert referrer[0] != '0';
    ManualCampaignErrors(gatId, vars, utmSource, utmMedium, utmCampaign, utmContent, utmTerm, referrer, 0);
  }

  /** The term is never checked: whether the campaign init code succeeds does not depend on it. */
  lemma ManualCampaignTermUnchecked(gatId: string, vars: seq<CustomVar>, utmSource: string, utmMedium: string,
                                    utmCampaign: string, utmContent: string, utmTerm: string, otherTerm: string, referrer: string)
    ensures ManualCampaignInitCode(gatId, vars, utmSource, utmMedium, utmCampaign, utmContent, utmTerm, referrer).Ok?
        ==  ManualCampaignInitCode(gatId, vars, utmSource, utmMedium, utmCampaign, utmContent, otherTerm, referrer).Ok?
  {
  }

  /** Construction checks the raw id before trimming it, so an id of
      whitespace only is accepted and the account is set to "". */
  lemma WhitespaceOnlyIdStoredEmpty(gatId: string)
    requires gatId != "" && AllTrimChars(gatId)
    ensures AccountId(gatId) == Ok("")
  {
    assert gatId[0] != '0';
  }

  /** The four cases of the social-interaction call, by which of the optional
      target and page path are present. */
  lemma TrackSocialTable(network: string, socialAction: string, target: string, pagePath: string)
    requires !EmptyStr(network) && !EmptyStr(socialAction)
    ensures var head := "_gaq.push(['_trackSocial', '" + network + "', '" + socialAction + "'";
            var code := TrackSocialCode(network, socialAction, target, pagePath);
            code.Ok? &&
            (!EmptyStr(target) && EmptyStr(pagePath) ==> code.value == head + ",'" + target + "'" + "]);") &&
            (!EmptyStr(target) && !EmptyStr(pagePath) ==> code.value == head + ",'" + target + "', '" + pagePath + "'" + "]);") &&
            (EmptyStr(target) && !EmptyStr(pagePath) ==> code.value == head + ",'undefined', '" + pagePath + "'" + "]);") &&
            (EmptyStr(target) && EmptyStr(pagePath) ==> code.value == head + "]);")
  {
    var head := "_gaq.push(['_trackSocial', '" + network + "', '" + socialAction + "'";
    var t := if EmptyStr(target) then "undefined" else target;
    AppendEmpty(head);
    AppendEmpty(head + (",'" + target + "'"));
    AppendAssoc(head, ",'" + target, "'");
    AppendAssoc(head, ",'", target);
    AppendAssoc(head, ",'" + t + "', '" + pagePath, "'");
    AppendAssoc(head, ",'" + t + "', '", pagePath);
    AppendAssoc(head, ",'" + t, "', '");
    AppendAssoc(head, ",'", t);
  }

  /** The static `getEventCode` cannot wrap its code: for every input that
      passes its checks, asking for script tags ends in the `$this` error,
      while the intended behaviour is to wrap the same call. Without wrapping
      the two agree. */
  lemma EventCodeAsWrittenCannotWrap(category: string, action: string, eventLabel: string, value: Option<int>)
    requires !EmptyStr(category) && !EmptyStr(action)
    ensures EventCodeAsWritten(category, action, eventLabel, value, true) == Err(NoObjectContext)
    ensures EventCode(category, action, eventLabel, value, true).Ok?
    ensures EventCodeAsWritten(category, action, eventLabel, value, false) == EventCode(category, action, eventLabel, value, false)
  {
  }

  /** One concrete call that shows it: an event with category "Videos" and action "Play". */
  lemma EventCodeAsWrittenExample()
    ensures EventCodeAsWritten("Videos", "Play", "", None, true) == Err(NoObjectContext)
    ensures EventCode("Videos", "Play", "", None, true)
         == Ok(SCRIPT_OPEN_TAG + "_gaq.push(['_trackEvent', 'Videos', 'Play', '']);" + SCRIPT_CLOSE_TAG)
  {
    var call := EventCall("Videos", "Play", "", None);
    assert EventHead("Videos", "Play", "") == "_gaq.push(['_trackEvent', 'Videos', 'Play', ''";
    assert call == EventHead("Videos", "Play", "") + "]);";
    assert call == "_gaq.push(['_trackEvent', 'Videos', 'Play', '']);";
    assert EventCode("Videos", "Play", "", None, true) == WrapCodeInScriptTags(call);
  }
}
