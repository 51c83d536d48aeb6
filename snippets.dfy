/** The JavaScript fragments the builder emits for the `_gaq` command queue of
    the ga.js tag, each as a function of its arguments, and the two init codes
    as functions of the account id and the registered custom variables. The
    class in Tracker computes the init codes step by step and is proved equal
    to the functions here. */
module Snippets {
  import opened Results
  import opened PhpStrings
  import opened Decimal
  import opened UrlEncoding

  /** One registered custom variable: a slot, a name, a value and a scope
      (1 visitor, 2 session, 3 page). */
  datatype CustomVar = CustomVar(index: int, name: string, value: string, scope: int)

  const SCRIPT_OPEN_TAG: string := "<script type=\"text/javascript\">"
  const SCRIPT_CLOSE_TAG: string := "</script>"
  const QUEUE_INIT: string := "var _gaq = _gaq || [];"
  const TRACK_PAGEVIEW_CALL: string := "_gaq.push(['_trackPageview']);"

  /** The asynchronous loader that inserts the ga.js script element; emitted verbatim. */
  const GA_JS_CODE: string := @"(function() {var ga = document.createElement('script'); ga.type = 'text/javascript'; ga.async = true;ga.src = ('https:' == document.location.protocol ? 'https://ssl' : 'http://www') + '.google-analytics.com/ga.js';var s = document.getElementsByTagName('script')[0]; s.parentNode.insertBefore(ga, s);})();"

  /** The `Utmz`/`extga` library that rewrites the `__utmz` campaign cookie; emitted verbatim. */
  const COOKIE_MODIFICATION_CODE: string := @"function Utmz(a){this.v=unescape(a);this.sr=""(direct)"";this.cn=""(direct)"";this.cmd=""(none)"";this.s=""utmcsr=""+this.sr+""|utmccn=""+this.cn+""|utmcmd=""+this.cmd;if(a!=null){this.s=a.replace(/^[0-9\.]*/,"""");a.replace(/utmcsr=([^\|]*)\|utmccn=([^\|]*)\|utmcmd=([^|]*)/,function(){this.sr=arguments[1];this.cn=arguments[2];this.cmd=arguments[3]})}this.sv=function(){extga._sc(""__utmz"",this.v,182)};this.isNew=function(){return this.v==""null""};this._setCampName=function(b){this.v=this.v.replace(/utmccn=([^\|]*)/,""utmccn=""+b);this.sv()};this._setCampSource=function(b){this.v=this.v.replace(/utmcsr=([^\|]*)/,""utmcsr=""+b);this.sv()};this._setCampMedium=function(b){this.v=this.v.replace(/utmcmd=([^\|]*)/,""utmcmd=""+b);this.sv()};this._setCampTerm=function(b){this.v=this.v.match(/utmctr=/)?this.v.replace(/utmctr=([^\|]*)/,""utmctr=""+b):this.v+""|utmctr=""+b;this.sv()};this._setCampContent=function(b){this.v=this.v.match(/utmcct=/)?this.v.replace(/utmcct=([^|]*)/,""utmcct=""+b):this.v+""|utmcct=""+b;this.sv()};this._reset=function(){this.v=this.v.replace(/^([0-9\.]*).*$/,""$1utmcsr=(direct)|utmccn=(direct)|utmcmd=(none)"")}}var extga={_fm:false,_fr:false,_rc:function(b){var c=new RegExp(b+""=([^;]*)"",""i"");var a=document.cookie.match(c);return(a&&a.length==2)?a[1]:null},_Ua:function(a){if(a!=""""){return"" domain=""+a}else{if(document.domain.match(/^www/)!=null){return"" domain=""+document.domain.replace(/^www/,"""")}else{return"" domain=""+document.domain}}},_sc:function(g,i,h){var a=new Date();a.setTime(a.getTime()+(((typeof(h)!=""undefined"")?h:3)*24*60*60*1000));var d=g+""=""+i+""; expires=""+a.toGMTString()+""; path=/;""+this._Ua(this.domain);document.cookie=d},_reset:false,_setCampValues:function(l,d,i,c,j,k){extga.domain=k||"""";extga.outmz=new Utmz(extga._rc(""__utmz""));_gaq.push([""_initData""]);extga.nutmz=new Utmz(extga._rc(""__utmz""));if(extga.outmz.s!=extga.nutmz.s){extga._fr=true;extga.outmz=new Utmz(extga._rc(""__utmz""))}else{if(extga.outmz.isNew()){extga._direct=true}}if(extga._getCampValues().medium==""referral""){extga._fm=true}if(extga._fm||!extga._fr){if(extga._reset){extga.nutmz._reset()}if(l){extga.nutmz._setCampSource(l)}if(d){extga.nutmz._setCampMedium(d)}if(i){extga.nutmz._setCampName(i)}if(c){extga.nutmz._setCampTerm(c)}if(j){extga.nutmz._setCampContent(j)}}},_getCampValues:function(){var b={sr:""source"",cn:""name"",md:""medium"",ct:""content"",tr:""term""};var c=unescape(extga._rc(""__utmz""));var a={source:"""",medium:"""",name:"""",term:"""",content:"""",isDirect:function(){return(a.content==""""&&a.medium==""(none)""&&a.name==""(direct)""&&a.source==""(direct)""&&a.term=="""")},isOrganic:function(){return(a.medium==""organic""&&a.name==""(organic)"")},isCampaign:function(d){var e=new RegExp(""(""+d+"")"");return a.name.match(e)!=null}};if(c!=null){c.replace(/utmc([a-z]{2})=([^\|]*)/g,function(d,f,e){a[b[f]]=e})}return a}};"

  predicate HasPrefix(s: string, p: string) {
    |p| <= |s| && s[..|p|] == p
  }

  predicate HasSuffix(s: string, p: string) {
    |p| <= |s| && s[|s| - |p|..] == p
  }

  /** What `s` holds between `open` and `close`, if it starts with the one and
      ends with the other: the argument read back out of an emitted call. */
  function Enclosed(s: string, open: string, close: string): Option<string> {
    if |open| + |close| <= |s| && HasPrefix(s, open) && HasSuffix(s, close)
    then Some(s[|open|..|s| - |close|])
    else None
  }

  lemma EnclosedConcat(open: string, mid: string, close: string)
    ensures Enclosed(open + mid + close, open, close) == Some(mid)
  {
    var s := open + mid + close;
    assert s[..|open|] == open;
    assert s[|s| - |close|..] == close;
    assert s[|open|..|s| - |close|] == mid;
  }

  /** The code inside a script element, if `s` is one. */
  function UnwrapScript(s: string): Option<string> {
    Enclosed(s, SCRIPT_OPEN_TAG, SCRIPT_CLOSE_TAG)
  }

  /** `wrapCodeInScriptTags`: refuses code that `empty()` rejects and otherwise
      encloses it in a script element. */
  function WrapCodeInScriptTags(code: string): (r: Result<string>)
    ensures r.Err? <==> EmptyStr(code)
    ensures r.Err? ==> r.error == InvalidArgument(Code)
    ensures r.Ok? ==> HasPrefix(r.value, SCRIPT_OPEN_TAG) && HasSuffix(r.value, SCRIPT_CLOSE_TAG)
    ensures r.Ok? ==> UnwrapScript(r.value) == Some(code)
  {
    if EmptyStr(code) then
      Err(InvalidArgument(Code))
    else
      EnclosedConcat(SCRIPT_OPEN_TAG, code, SCRIPT_CLOSE_TAG);
      Ok(SCRIPT_OPEN_TAG + code + SCRIPT_CLOSE_TAG)
  }

  /** `getGaqInitCode`: creates the queue, then sets the account, whose id is
      the argument of the `_setAccount` call. */
  function GaqInitCode(gatId: string): (r: string)
    ensures HasPrefix(r, QUEUE_INIT) && !EmptyStr(r)
    ensures Enclosed(r, QUEUE_INIT + "_gaq.push(['_setAccount', '", "']);") == Some(gatId)
  {
    EnclosedConcat(QUEUE_INIT + "_gaq.push(['_setAccount', '", gatId, "']);");
    QUEUE_INIT + "_gaq.push(['_setAccount', '" + gatId + "']);"
  }

  /** `getReferrerOverrideCode`: the referrer is trimmed first, and a referrer
      that `empty()` then rejects is refused. */
  function ReferrerOverrideCode(referrer: string): (r: Result<string>)
    ensures r.Err? <==> EmptyStr(Trim(referrer))
    ensures r.Err? ==> r.error == InvalidArgument(Referrer)
    ensures r.Ok? ==> r.value == "_gaq.push(['_setReferrerOverride', '" + Trim(referrer) + "']);"
    ensures r.Ok? ==> Enclosed(r.value, "_gaq.push(['_setReferrerOverride', '", "']);") == Some(Trim(referrer))
  {
    var trimmed := Trim(referrer);
    if EmptyStr(trimmed) then Err(InvalidArgument(Referrer))
    else
      EnclosedConcat("_gaq.push(['_setReferrerOverride', '", trimmed, "']);");
      Ok("_gaq.push(['_setReferrerOverride', '" + trimmed + "']);")
  }

  /** The referrer part of the campaign init code is accepted when `empty()`
      rejects the raw referrer (nothing is emitted) or when the trimmed
      referrer is still non-empty. */
  predicate ReferrerAccepted(referrer: string) {
    EmptyStr(referrer) || !EmptyStr(Trim(referrer))
  }

  /** The referrer part of the campaign init code: nothing for a referrer
      `empty()` rejects, the override call for the trimmed referrer otherwise. */
  function OptionalReferrerCode(referrer: string): (r: Result<string>)
    ensures r.Ok? <==> ReferrerAccepted(referrer)
    ensures r.Err? ==> r.error == InvalidArgument(Referrer)
    ensures r.Ok? ==>
      r.value == if EmptyStr(referrer) then "" else "_gaq.push(['_setReferrerOverride', '" + Trim(referrer) + "']);"
  {
    if EmptyStr(referrer) then Ok("") else ReferrerOverrideCode(referrer)
  }

  /** A value in single quotes, as a JavaScript string literal. */
  function Quoted(s: string): string {
    "'" + s + "'"
  }

  /** Values in single quotes separated by commas, as `_setCampValues` takes them. */
  function QuotedList(args: seq<string>): string {
    if args == [] then ""
    else if |args| == 1 then Quoted(args[0])
    else QuotedList(args[..|args| - 1]) + "," + Quoted(args[|args| - 1])
  }

  /** The call that hands the campaign values to the cookie library. */
  function SetCampValuesCall(args: seq<string>): string {
    "_gaq.push(function() {extga._setCampValues(" + QuotedList(args) + ");});"
  }

  /** The value `getSetCampaignVarsCode` emits for one campaign parameter. */
  function CampaignValue(s: string): string {
    UrlEncode(Trim(s))
  }

  /** The setter call on five values is the literal call with the five values
      quoted and separated by commas, in the order given. */
  lemma SetCampValuesCallOfFive(a: string, b: string, c: string, d: string, e: string)
    ensures SetCampValuesCall([a, b, c, d, e])
         == "_gaq.push(function() {extga._setCampValues("
            + (Quoted(a) + "," + Quoted(b) + "," + Quoted(c) + "," + Quoted(d) + "," + Quoted(e))
            + ");});"
  {
    assert [a, b][..1] == [a];
    assert QuotedList([a, b]) == Quoted(a) + "," + Quoted(b);
    assert [a, b, c][..2] == [a, b];
    assert QuotedList([a, b, c]) == QuotedList([a, b]) + "," + Quoted(c);
    assert [a, b, c, d][..3] == [a, b, c];
    assert QuotedList([a, b, c, d]) == QuotedList([a, b, c]) + "," + Quoted(d);
    assert [a, b, c, d, e][..4] == [a, b, c, d];
    assert QuotedList([a, b, c, d, e]) == QuotedList([a, b, c, d]) + "," + Quoted(e);
  }

  /** The first campaign parameter that is empty once trimmed, in the order
      campaign, source, medium, content; the term is not among them. */
  function CampaignCheck(utmSource: string, utmMedium: string, utmCampaign: string, utmContent: string): Option<Param> {
    if EmptyStr(Trim(utmCampaign)) then Some(UtmCampaign)
    else if EmptyStr(Trim(utmSource)) then Some(UtmSource)
    else if EmptyStr(Trim(utmMedium)) then Some(UtmMedium)
    else if EmptyStr(Trim(utmContent)) then Some(UtmContent)
    else None
  }

  /** `getSetCampaignVarsCode`: every value is trimmed and url-encoded, and the
      encoded campaign, source, medium and content are checked in that order;
      the term is not checked at all. Because encoding keeps emptiness, the
      checks reject exactly the values that are empty once trimmed. The cookie
      library comes first, then the setter call, which lists the term BEFORE
      the content. */
  function SetCampaignVarsCode(utmSource: string, utmMedium: string, utmCampaign: string, utmContent: string, utmTerm: string): (r: Result<string>)
    ensures r.Err? <==> CampaignCheck(utmSource, utmMedium, utmCampaign, utmContent).Some?
    ensures r.Err? ==> r.error == InvalidArgument(CampaignCheck(utmSource, utmMedium, utmCampaign, utmContent).value)
    ensures r.Ok? ==> r.value == COOKIE_MODIFICATION_CODE + SetCampValuesCall(
      [CampaignValue(utmSource), CampaignValue(utmMedium), CampaignValue(utmCampaign), CampaignValue(utmTerm), CampaignValue(utmContent)])
  {
    var source := UrlEncode(Trim(utmSource));
    var medium := UrlEncode(Trim(utmMedium));
    var campaign := UrlEncode(Trim(utmCampaign));
    var content := UrlEncode(Trim(utmContent));
    var term := UrlEncode(Trim(utmTerm));
    UrlEncodeKeepsEmptiness(Trim(utmSource));
    UrlEncodeKeepsEmptiness(Trim(utmMedium));
    UrlEncodeKeepsEmptiness(Trim(utmCampaign));
    UrlEncodeKeepsEmptiness(Trim(utmContent));
    if EmptyStr(campaign) then Err(InvalidArgument(UtmCampaign))
    else if EmptyStr(source) then Err(InvalidArgument(UtmSource))
    else if EmptyStr(medium) then Err(InvalidArgument(UtmMedium))
    else if EmptyStr(content) then Err(InvalidArgument(UtmContent))
    else Ok(COOKIE_MODIFICATION_CODE + SetCampValuesCall([source, medium, campaign, term, content]))
  }

  /** `getTrackPageViewCode`: a falsy url ("" stands for null) tracks the
      current location, any other url is passed along. */
  function TrackPageViewCode(url: string := ""): (r: string)
    ensures r == TRACK_PAGEVIEW_CALL <==> EmptyStr(url)
    ensures !EmptyStr(url) ==> Enclosed(r, "_gaq.push(['_trackPageview', '", "']);") == Some(url)
  {
    if EmptyStr(url) then TRACK_PAGEVIEW_CALL
    else
      EnclosedConcat("_gaq.push(['_trackPageview', '", url, "']);");
      "_gaq.push(['_trackPageview', '" + url + "']);"
  }

  /** The checks `setCustomVar` and `getCustomVarCode` both make. */
  predicate ValidCustomVar(index: int, name: string, value: string) {
    !EmptyInt(index) && !EmptyStr(name) && !EmptyStr(value)
  }

  predicate IsValidVar(v: CustomVar) {
    ValidCustomVar(v.index, v.name, v.value)
  }

  predicate AllValidVars(vars: seq<CustomVar>) {
    forall i :: 0 <= i < |vars| ==> IsValidVar(vars[i])
  }

  /** The parameter named by the first of those checks that fails. */
  function CustomVarError(index: int, name: string, value: string): Param
    requires !ValidCustomVar(index, name, value)
  {
    if EmptyInt(index) then Index else if EmptyStr(name) then Name else Value
  }

  /** The `_setCustomVar` call for one variable, without any check: index,
      quoted name, quoted value and scope, in that order. */
  function CustomVarCall(v: CustomVar): (r: string)
    ensures HasPrefix(r, "_gaq.push(['_setCustomVar', " + IntToString(v.index) + ", '")
    ensures HasSuffix(r, "', " + IntToString(v.scope) + "]);")
  {
    var head := "_gaq.push(['_setCustomVar', " + IntToString(v.index) + ", '";
    var tail := "', " + IntToString(v.scope) + "]);";
    var body := head + v.name + "', '" + v.value;
    PrefixOfConcat(head, v.name);
    PrefixExtend(head + v.name, head, "', '");
    PrefixExtend(head + v.name + "', '", head, v.value);
    PrefixExtend(body, head, tail);
    SuffixOfConcat(body, tail);
    AppendAssoc(body + "', ", IntToString(v.scope), "]);");
    AppendAssoc(body, "', ", IntToString(v.scope) + "]);");
    AppendAssoc(body, "', " + IntToString(v.scope), "]);");
    body + tail
  }

  /** The calls for all variables, in registration order; the last one ends the code. */
  function CustomVarCalls(vars: seq<CustomVar>): (r: string)
    ensures vars == [] ==> r == ""
    ensures vars != [] ==> HasSuffix(r, CustomVarCall(vars[|vars| - 1]))
  {
    if vars == [] then ""
    else
      SuffixOfConcat(CustomVarCalls(vars[..|vars| - 1]), CustomVarCall(vars[|vars| - 1]));
      CustomVarCalls(vars[..|vars| - 1]) + CustomVarCall(vars[|vars| - 1])
  }

  /** The calls of two runs of registrations are the calls of the first run
      followed by those of the second. */
  lemma {:induction false} CustomVarCallsConcat(a: seq<CustomVar>, b: seq<CustomVar>)
    ensures CustomVarCalls(a + b) == CustomVarCalls(a) + CustomVarCalls(b)
    decreases |b|
  {
    if b == [] {
      assert a + b == a;
      AppendEmpty(CustomVarCalls(a));
    } else {
      var n := |b| - 1;
      assert (a + b)[..|a + b| - 1] == a + b[..n];
      assert (a + b)[|a + b| - 1] == b[n];
      CustomVarCallsConcat(a, b[..n]);
      AppendAssoc(CustomVarCalls(a), CustomVarCalls(b[..n]), CustomVarCall(b[n]));
    }
  }

  /** `getCustomVarCode`: repeats the checks of `setCustomVar`, in the same
      order, before formatting the call. */
  function CustomVarCode(index: int, name: string, value: string, scope: int): (r: Result<string>)
    ensures r.Ok? <==> ValidCustomVar(index, name, value)
    ensures r.Err? ==> r.error == InvalidArgument(CustomVarError(index, name, value))
    ensures r.Ok? ==> r.value == CustomVarCall(CustomVar(index, name, value, scope))
  {
    if EmptyInt(index) then Err(InvalidArgument(Index))
    else if EmptyStr(name) then Err(InvalidArgument(Name))
    else if EmptyStr(value) then Err(InvalidArgument(Value))
    else Ok("_gaq.push(['_setCustomVar', " + IntToString(index) + ", '" + name + "', '" + value + "', " + IntToString(scope) + "]);")
  }

  /** What the `foreach` over the custom variables appends: the code of each
      variable in turn, or the error of the first variable whose code throws. */
  function CustomVarsCode(vars: seq<CustomVar>): (r: Result<string>)
    ensures r.Ok? <==> AllValidVars(vars)
    ensures r.Ok? ==> r.value == CustomVarCalls(vars)
  {
    if vars == [] then Ok("")
    else
      var n := |vars| - 1;
      var last := vars[n];
      CustomVarsPrefixStep(vars, n);
      assert vars[..n + 1] == vars;
      var code :- CustomVarsCode(vars[..n]);
      var call :- CustomVarCode(last.index, last.name, last.value, last.scope);
      Ok(code + call)
  }

  /** One more loop step: the prefix of length `i + 1` is the prefix of length
      `i` and the variable at `i`. */
  lemma CustomVarsPrefixStep(vars: seq<CustomVar>, i: int)
    requires 0 <= i < |vars|
    ensures CustomVarCalls(vars[..i + 1]) == CustomVarCalls(vars[..i]) + CustomVarCall(vars[i])
    ensures AllValidVars(vars[..i + 1]) <==> AllValidVars(vars[..i]) && IsValidVar(vars[i])
  {
    assert vars[..i + 1][..i] == vars[..i];
    assert vars[..i + 1][i] == vars[i];
    var longer := vars[..i + 1];
    if AllValidVars(vars[..i]) && IsValidVar(vars[i]) {
      forall j | 0 <= j < |longer| ensures IsValidVar(longer[j]) {
        if j < i {
          assert longer[j] == vars[..i][j];
        }
      }
    }
  }

  /** The variable at `k` is the first invalid one. */
  predicate FirstInvalidVar(vars: seq<CustomVar>, k: int) {
    0 <= k < |vars| && !IsValidVar(vars[k]) && AllValidVars(vars[..k])
  }

  /** The error that stops the emission is the one of the first invalid variable. */
  lemma {:induction false} CustomVarsCodeFirstError(vars: seq<CustomVar>, k: int)
    requires FirstInvalidVar(vars, k)
    ensures CustomVarsCode(vars) == Err(InvalidArgument(CustomVarError(vars[k].index, vars[k].name, vars[k].value)))
    decreases |vars|
  {
    var init := vars[..|vars| - 1];
    if k == |vars| - 1 {
      assert init == vars[..k];
    } else {
      assert init[..k] == vars[..k];
      CustomVarsCodeFirstError(init, k);
    }
  }

  /** `getBasicInitCode` as a function of the account id and the registered variables. */
  function BasicInitCode(gatId: string, vars: seq<CustomVar>): (r: Result<string>)
    ensures r.Ok? <==> AllValidVars(vars)
    ensures r.Ok? ==> UnwrapScript(r.value) == Some(GaqInitCode(gatId) + CustomVarCalls(vars) + TRACK_PAGEVIEW_CALL + GA_JS_CODE)
  {
    var customVarCode :- CustomVarsCode(vars);
    WrapCodeInScriptTags(GaqInitCode(gatId) + customVarCode + TrackPageViewCode("") + GA_JS_CODE)
  }

  /** `getManualCampaignInitCode` as a function of the account id, the registered
      variables and its arguments; the checks run in the order the fragments are emitted. */
  function ManualCampaignInitCode(gatId: string, vars: seq<CustomVar>, utmSource: string, utmMedium: string,
                                  utmCampaign: string, utmContent: string, utmTerm: string, referrer: string): (r: Result<string>)
    ensures r.Ok? <==>
      ReferrerAccepted(referrer) && AllValidVars(vars) && CampaignCheck(utmSource, utmMedium, utmCampaign, utmContent).None?
  {
    var referrerCode :- OptionalReferrerCode(referrer);
    var customVarCode :- CustomVarsCode(vars);
    var campaignCode :- SetCampaignVarsCode(utmSource, utmMedium, utmCampaign, utmContent, utmTerm);
    CampaignWrapOk(gatId, referrerCode, customVarCode, campaignCode);
    WrapCodeInScriptTags(GaqInitCode(gatId) + referrerCode + customVarCode + campaignCode + TrackPageViewCode("") + GA_JS_CODE)
  }

  /** The campaign init code always has code to wrap, whatever its pieces. */
  lemma CampaignWrapOk(gatId: string, ref: string, cv: string, camp: string)
    ensures WrapCodeInScriptTags(GaqInitCode(gatId) + ref + cv + camp + TrackPageViewCode("") + GA_JS_CODE).Ok?
  {
    assert |GaqInitCode(gatId) + ref + cv + camp + TrackPageViewCode("") + GA_JS_CODE| >= |QUEUE_INIT|;
  }

  /** The `_trackEvent` call up to and including the quoted label. */
  function EventHead(category: string, action: string, eventLabel: string): string {
    "_gaq.push(['_trackEvent', '" + category + "', '" + action + "', '" + eventLabel + "'"
  }

  /** The `_trackEvent` call: category, action and label always, the value only
      when it is truthy, so an absent value and 0 give the same code, and a
      value that is there can be read back from the code. */
  function EventCall(category: string, action: string, eventLabel: string, value: Option<int>): (r: string)
    ensures HasPrefix(r, EventHead(category, action, eventLabel)) && HasSuffix(r, "]);")
    ensures value.None? || value.value == 0 ==> r == EventHead(category, action, eventLabel) + "]);"
    ensures value.Some? && value.value != 0 ==>
      var head := EventHead(category, action, eventLabel);
      r == head + ", " + IntToString(value.value) + "]);" &&
      ParseInt(r[|head| + 2..|r| - 3]) == value.value
  {
    var head := EventHead(category, action, eventLabel);
    if value.Some? && value.value != 0 then
      var digits := IntToString(value.value);
      var call := head + (", " + digits) + "]);";
      AppendAssoc(head, ", " + digits, "]);");
      AppendAssoc(head, ", ", digits);
      assert call[|head| + 2..|call| - 3] == digits;
      IntToStringRoundTrip(value.value);
      PrefixOfConcat(head, ", " + digits);
      PrefixExtend(head + (", " + digits), head, "]);");
      SuffixOfConcat(head + (", " + digits), "]);");
      call
    else
      AppendEmpty(head);
      PrefixOfConcat(head, "]);");
      SuffixOfConcat(head, "]);");
      head + "" + "]);"
  }

  /** `getEventCode` as its authors intended it: checks category, then action,
      and wraps the call in script tags only when asked to. */
  function EventCode(category: string, action: string, eventLabel: string := "", value: Option<int> := None,
                     wrapInScriptTags: bool := false): (r: Result<string>)
    ensures r.Err? <==> EmptyStr(category) || EmptyStr(action)
    ensures r.Err? ==> r.error == InvalidArgument(if EmptyStr(category) then Category else Action)
    ensures r.Ok? && !wrapInScriptTags ==> r.value == EventCall(category, action, eventLabel, value)
    ensures r.Ok? && wrapInScriptTags ==> UnwrapScript(r.value) == Some(EventCall(category, action, eventLabel, value))
  {
    if EmptyStr(category) then Err(InvalidArgument(Category))
    else if EmptyStr(action) then Err(InvalidArgument(Action))
    else
      var code := EventCall(category, action, eventLabel, value);
      if wrapInScriptTags then WrapCodeInScriptTags(code) else Ok(code)
  }

  /** `getEventCode` as written: a static method, so the `$this` it dereferences
      to wrap the call does not exist and PHP stops with an error. */
  function EventCodeAsWritten(category: string, action: string, eventLabel: string := "", value: Option<int> := None,
                              wrapInScriptTags: bool := false): (r: Result<string>)
    ensures r.Err? <==> EmptyStr(category) || EmptyStr(action) || wrapInScriptTags
  {
    if EmptyStr(category) then Err(InvalidArgument(Category))
    else if EmptyStr(action) then Err(InvalidArgument(Action))
    else if wrapInScriptTags then Err(NoObjectContext)
    else Ok(EventCall(category, action, eventLabel, value))
  }

  /** `getVirtualPageviewCode`: a falsy url is refused; otherwise the page view
      of that url, wrapped when asked to. */
  function VirtualPageviewCode(url: string := "", wrapInScriptTags: bool := false): (r: Result<string>)
    ensures r.Err? <==> EmptyStr(url)
    ensures r.Err? ==> r.error == InvalidArgument(Url)
    ensures r.Ok? && !wrapInScriptTags ==> r.value == "_gaq.push(['_trackPageview', '" + url + "']);"
    ensures r.Ok? && wrapInScriptTags ==> UnwrapScript(r.value) == Some("_gaq.push(['_trackPageview', '" + url + "']);")
  {
    if EmptyStr(url) then Err(InvalidArgument(Url))
    else
      var code := TrackPageViewCode(url);
      if wrapInScriptTags then WrapCodeInScriptTags(code) else Ok(code)
  }

  /** `getTrackSocialCode`: network and action are required; "" stands for an
      absent target or page path. */
  function TrackSocialCode(network: string, socialAction: string, target: string, pagePath: string): (r: Result<string>)
    ensures r.Err? <==> EmptyStr(network) || EmptyStr(socialAction)
    ensures r.Err? ==> r.error == InvalidArgument(if EmptyStr(network) then Network else SocialAction)
    ensures r.Ok? ==> HasPrefix(r.value, "_gaq.push(['_trackSocial', '" + network + "', '" + socialAction + "'")
    ensures r.Ok? ==> HasSuffix(r.value, "]);")
  {
    if EmptyStr(network) then Err(InvalidArgument(Network))
    else if EmptyStr(socialAction) then Err(InvalidArgument(SocialAction))
    else
      var head := "_gaq.push(['_trackSocial', '" + network + "', '" + socialAction + "'";
      var targetPart := if !EmptyStr(target) && EmptyStr(pagePath) then ",'" + target + "'" else "";
      var pathPart :=
        if !EmptyStr(pagePath) then ",'" + (if EmptyStr(target) then "undefined" else target) + "', '" + pagePath + "'"
        else "";
      PrefixOfConcat(head, targetPart);
      PrefixExtend(head + targetPart, head, pathPart);
      PrefixExtend(head + targetPart + pathPart, head, "]);");
      SuffixOfConcat(head + targetPart + pathPart, "]);");
      Ok(head + targetPart + pathPart + "]);")
  }

  lemma PrefixOfConcat(s: string, t: string)
    ensures HasPrefix(s + t, s)
  {
    assert (s + t)[..|s|] == s;
  }

  lemma PrefixExtend(s: string, p: string, t: string)
    requires HasPrefix(s, p)
    ensures HasPrefix(s + t, p)
  {
    assert (s + t)[..|p|] == s[..|p|];
  }

  lemma SuffixOfConcat(s: string, t: string)
    ensures HasSuffix(s + t, t)
  {
    assert (s + t)[|s|..] == t;
  }

  /** `__construct`: the raw id is checked with `empty()` and only then trimmed. */
  function AccountId(gatId: string): (r: Result<string>)
    ensures r.Err? <==> EmptyStr(gatId)
    ensures r.Err? ==> r.error == InvalidArgument(ProfileId)
    ensures r.Ok? ==> r.value == Trim(gatId) && IsTrimmed(r.value)
  {
    if EmptyStr(gatId) then Err(InvalidArgument(ProfileId)) else Ok(Trim(gatId))
  }
}
