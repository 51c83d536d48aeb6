# GoogleAnalytics tracking-code builder, modelled in Dafny

The PHP class `GoogleAnalytics` builds JavaScript for the `_gaq` command queue of
the legacy ga.js tag. An object holds a trimmed account id and the custom
variables registered so far, in order. From these and its arguments it renders:

- the basic init code: account set-up, custom variables, page view, loader, all
  in a script element;
- the manual-campaign init code: the same, plus an optional referrer override
  and a block that rewrites the `__utmz` campaign cookie;
- event, virtual page-view and social-interaction calls.

Whenever a required value is empty in the sense of PHP's `empty()`, it throws.

The model is organised as follows:

- `Results`: the outcome types. `Err(InvalidArgument(p))` stands for the
  exception whose message names parameter `p`.
- `PhpStrings`, `Decimal`, `UrlEncoding`: the PHP built-ins the checks and
  fragments use. These are `empty()` on strings and integers, `trim()` with its
  default character list, integer interpolation, and `urlencode()`.
- `Snippets`: one function per private helper and per stateless public method.
  It also has `BasicInitCode` and `ManualCampaignInitCode`, which give the two
  init codes as functions of the object's state.
- `Tracker.GoogleAnalytics`: the class, with fields `gatId` and `customVars`.
  `SetCustomVar` appends to `customVars`. The two init methods build their code
  step by step, with a loop over the variables, and are proved equal to the
  `Snippets` functions.
- `TrackingProperties`: lemmas over those functions for all inputs. They cover
  the order of the fragments, which input makes a call fail, and how
  registering a variable changes the init code.

An optional string argument that PHP allows to be `null` (url, target, page path,
referrer) is given as `""`. PHP treats `null` and `""` alike in every test the
code makes. `getEventCode`'s `value` is an `Option<int>`.

`__construct` applies `empty()` before `trim()`, so a whitespace-only id is
accepted and stored as `""` (`TrackingProperties.WhitespaceOnlyIdStoredEmpty`).

The model follows the code throughout. There is one exception, `getEventCode`:
its documented `$wrapInScriptTags` parameter cannot work as written, so the
model has both the code as written (`Snippets.EventCodeAsWritten`) and the
intended behaviour (`Snippets.EventCode`), as described under Findings.

## Model

| member | source | states |
|---|---|---|
| `PhpStrings.EmptyStr` | GoogleAnalytics/GoogleAnalytics.php:10 | PHP's `empty()` on a string: true for `""` (which also stands for `null`) and `"0"` |
| `PhpStrings.EmptyInt` | GoogleAnalytics/GoogleAnalytics.php:178 | PHP's `empty()` on an integer: true for 0 |
| `PhpStrings.TrimLeft` | GoogleAnalytics/GoogleAnalytics.php:12 | the result is the suffix left after dropping leading trim characters, and it does not start with one |
| `PhpStrings.TrimRight` | GoogleAnalytics/GoogleAnalytics.php:12 | the result is the prefix left after dropping trailing trim characters, and it does not end with one |
| `PhpStrings.Trim` | GoogleAnalytics/GoogleAnalytics.php:12 | the result has no trim character at either end, and it is empty exactly when the input is all whitespace |
| `PhpStrings.TrimSplit` | GoogleAnalytics/GoogleAnalytics.php:230 | every input is whitespace + `trim(input)` + whitespace |
| `PhpStrings.TrimPadded` | GoogleAnalytics/GoogleAnalytics.php:230 | a trimmed string padded with trim characters trims back to itself, so `trim` removes exactly the surrounding whitespace |
| `PhpStrings.TrimIdempotent` | GoogleAnalytics/GoogleAnalytics.php:12 | trimming twice is trimming once |
| `Decimal.NatToString` | GoogleAnalytics/GoogleAnalytics.php:315 | a non-empty string of digits that starts with '0' only for zero |
| `Decimal.IntToString` | GoogleAnalytics/GoogleAnalytics.php:108 | the rendering of an interpolated integer consists of digits and '-' only |
| `Decimal.IntToStringRoundTrip` | GoogleAnalytics/GoogleAnalytics.php:108 | parsing the rendering gives the integer back |
| `Decimal.IntToStringZero` | GoogleAnalytics/GoogleAnalytics.php:315 | the rendering is "0" exactly for zero |
| `UrlEncoding.Utf8` | GoogleAnalytics/GoogleAnalytics.php:250 | one to four bytes per character, an ASCII character is its own byte |
| `UrlEncoding.PercentEncode` | GoogleAnalytics/GoogleAnalytics.php:250 | three output characters per byte, all from the encoded alphabet |
| `UrlEncoding.EncodeChar` | GoogleAnalytics/GoogleAnalytics.php:250 | non-empty, drawn from the encoded alphabet, a single character only for an unreserved character or a space |
| `UrlEncoding.UrlEncode` | GoogleAnalytics/GoogleAnalytics.php:250-254 | the output contains only letters, digits, "-_.", '+' and '%' |
| `UrlEncoding.UrlEncodeEmpty` | GoogleAnalytics/GoogleAnalytics.php:250-254 | the encoding is empty exactly for the empty string |
| `UrlEncoding.UrlEncodeZero` | GoogleAnalytics/GoogleAnalytics.php:256-270 | the encoding is "0" exactly for "0" |
| `UrlEncoding.UrlEncodeKeepsEmptiness` | GoogleAnalytics/GoogleAnalytics.php:256-270 | `empty()` on the encoded value agrees with `empty()` on the value |
| `UrlEncoding.UrlEncodeHasNoQuote` | GoogleAnalytics/GoogleAnalytics.php:274 | an encoded campaign value contains no quote or backslash, so it cannot leave its JavaScript string |
| `Snippets.WrapCodeInScriptTags` | GoogleAnalytics/GoogleAnalytics.php:200-210 | fails exactly for code `empty()` rejects; otherwise a script element whose content is the code |
| `Snippets.GaqInitCode` | GoogleAnalytics/GoogleAnalytics.php:212-218 | starts with the queue initialisation and is never empty, so wrapping an init code never fails; the argument of the `_setAccount` call that follows reads back as the account id |
| `Snippets.ReferrerOverrideCode` | GoogleAnalytics/GoogleAnalytics.php:228-239 | fails, naming the referrer, exactly when the trimmed referrer is empty; otherwise the `_setReferrerOverride` call, whose argument reads back as the trimmed referrer |
| `Snippets.OptionalReferrerCode` | GoogleAnalytics/GoogleAnalytics.php:32-34 | the referrer part of the campaign code is accepted exactly for a referrer `empty()` rejects or one that is not blank; it is nothing for the former and the override of the trimmed referrer for the latter |
| `Snippets.SetCampValuesCallOfFive` | GoogleAnalytics/GoogleAnalytics.php:274 | the setter call on five values lists them quoted, comma-separated, in the order given |
| `Snippets.SetCampaignVarsCode` | GoogleAnalytics/GoogleAnalytics.php:248-277 | fails with the first of campaign, source, medium, content that is empty once trimmed; the term is never checked; on success the cookie library then the setter with source, medium, campaign, term, content |
| `Snippets.TrackPageViewCode` | GoogleAnalytics/GoogleAnalytics.php:279-289 | the url-less page view exactly for a falsy url; for any other url a `_trackPageview` call whose argument reads back as the url |
| `Snippets.CustomVarCall` | GoogleAnalytics/GoogleAnalytics.php:315 | the `_setCustomVar` call opens with the index and closes with the scope |
| `Snippets.CustomVarCalls` | GoogleAnalytics/GoogleAnalytics.php:68-72 | no variables give no code; otherwise the code ends with the call of the last variable |
| `Snippets.CustomVarCallsConcat` | GoogleAnalytics/GoogleAnalytics.php:68-72 | the calls of two runs of registrations are the calls of the first run followed by those of the second |
| `Snippets.CustomVarCode` | GoogleAnalytics/GoogleAnalytics.php:301-319 | succeeds exactly when the checks of `setCustomVar` pass, with the same error when they fail |
| `Snippets.CustomVarsCode` | GoogleAnalytics/GoogleAnalytics.php:68-72 | succeeds exactly when every variable is valid, and then yields their calls in registration order |
| `Snippets.CustomVarsPrefixStep` | GoogleAnalytics/GoogleAnalytics.php:69-71 | one loop step adds the next variable's call and its validity |
| `Snippets.CustomVarsCodeFirstError` | GoogleAnalytics/GoogleAnalytics.php:38-40 | the error is the one of the first invalid variable |
| `Snippets.BasicInitCode` | GoogleAnalytics/GoogleAnalytics.php:62-84 | succeeds exactly when every registered variable is valid; the code is then a script element holding the account set-up, the custom-variable calls, the url-less page view and the loader |
| `Snippets.ManualCampaignInitCode` | GoogleAnalytics/GoogleAnalytics.php:27-56 | succeeds exactly when the referrer is accepted, every registered variable is valid and the campaign values pass; the term plays no part |
| `Snippets.EventCall` | GoogleAnalytics/GoogleAnalytics.php:105-110 | category, action, label always; the value only when truthy (absent and 0 agree); a present value reads back from the code |
| `Snippets.EventCode` | GoogleAnalytics/GoogleAnalytics.php:95-117 | fails on empty category, then on empty action; otherwise the event call, in a script element exactly when asked |
| `Snippets.EventCodeAsWritten` | GoogleAnalytics/GoogleAnalytics.php:95-117 | as written, the static method fails whenever wrapping is asked for |
| `Snippets.VirtualPageviewCode` | GoogleAnalytics/GoogleAnalytics.php:126-140 | fails exactly for a falsy url; otherwise the page view of that url, wrapped exactly when asked |
| `Snippets.TrackSocialCode` | GoogleAnalytics/GoogleAnalytics.php:342-371 | fails on empty network, then on empty action; otherwise a `_trackSocial` call that starts with network and action |
| `Snippets.AccountId` | GoogleAnalytics/GoogleAnalytics.php:8-13 | fails exactly when `empty()` rejects the raw id; otherwise yields its trimmed form |
| `Tracker.GoogleAnalytics.constructor` | GoogleAnalytics/GoogleAnalytics.php:12 | stores the trimmed id and no variables |
| `Tracker.GoogleAnalytics.Create` | GoogleAnalytics/GoogleAnalytics.php:8-13 | fails exactly when `empty()` rejects the raw id; otherwise a fresh valid object holding the trimmed id and no variables |
| `Tracker.GoogleAnalytics.SetCustomVar` | GoogleAnalytics/GoogleAnalytics.php:176-198 | fails with the first of index, name, value that is empty; otherwise appends exactly one record at the end; the id never changes |
| `Tracker.GoogleAnalytics.AppendCustomVarCode` | GoogleAnalytics/GoogleAnalytics.php:68-72 | the loop appends exactly the code of all registered variables, or stops with the first variable's error |
| `Tracker.GoogleAnalytics.GetBasicInitCode` | GoogleAnalytics/GoogleAnalytics.php:62-84 | returns the basic init code of the current state, and never fails on a valid object |
| `Tracker.GoogleAnalytics.GetManualCampaignInitCode` | GoogleAnalytics/GoogleAnalytics.php:27-56 | returns the campaign init code of the current state; on a valid object it fails exactly for a rejected referrer or campaign value |
| `TrackingProperties.BasicInitLayout` | GoogleAnalytics/GoogleAnalytics.php:62-84 | succeeds exactly when all variables are valid; the code is script tag, queue and account, custom-variable calls in order, page view, loader, closing tag |
| `TrackingProperties.BasicInitFirstError` | GoogleAnalytics/GoogleAnalytics.php:68-72 | the basic init code fails with the first invalid variable's error |
| `TrackingProperties.BasicInitAfterRegistration` | GoogleAnalytics/GoogleAnalytics.php:176-198 | registering a valid variable inserts exactly its call before the page view and leaves the rest of the code unchanged |
| `TrackingProperties.RegisteredVarEmits` | GoogleAnalytics/GoogleAnalytics.php:303-313 | a variable accepted at registration is emitted without error, whatever its scope |
| `TrackingProperties.ManualCampaignPieces` | GoogleAnalytics/GoogleAnalytics.php:30-53 | a successful code wraps the account set-up, the referrer part, the custom-variable calls, the campaign block, the page view and the loader, in that order |
| `TrackingProperties.ManualCampaignLayout` | GoogleAnalytics/GoogleAnalytics.php:27-56 | a successful code is script tag, queue and account, referrer override, custom-variable calls, campaign block, page view, loader, closing tag |
| `TrackingProperties.ManualCampaignErrors` | GoogleAnalytics/GoogleAnalytics.php:27-56 | the referrer is checked before the variables, and the variables before the campaign values |
| `TrackingProperties.WhitespaceReferrerRejected` | GoogleAnalytics/GoogleAnalytics.php:228-234 | a whitespace-only referrer passes the outer test and then fails |
| `TrackingProperties.ManualCampaignTermUnchecked` | GoogleAnalytics/GoogleAnalytics.php:254-270 | success does not depend on the term |
| `TrackingProperties.WhitespaceOnlyIdStoredEmpty` | GoogleAnalytics/GoogleAnalytics.php:8-13 | a whitespace-only id is accepted and stored as "" |
| `TrackingProperties.TrackSocialTable` | GoogleAnalytics/GoogleAnalytics.php:352-367 | the four cases of target and page path: target only, both, 'undefined' and path, neither |
| `TrackingProperties.EventCodeAsWrittenCannotWrap` | GoogleAnalytics/GoogleAnalytics.php:112-114 | for every input that passes the checks, the as-written code fails to wrap where the intended code wraps; unwrapped they agree |
| `TrackingProperties.EventCodeAsWrittenExample` | GoogleAnalytics/GoogleAnalytics.php:112-114 | the event "Videos"/"Play" with wrapping: an error as written, a script element as intended |

## Left out

- `trackVirtualPageview` only `echo`es the virtual page-view code, which is output. It is not modelled.
- The two JavaScript constants are copied byte for byte: the ga.js loader and the `Utmz`/`extga` cookie library. What they do in the browser is not modelled.
- `urlencode()` is a PHP library function. It is modelled after its documented behaviour, and characters are taken as their UTF-8 bytes.
- PHP's loose typing is not modelled beyond `empty()` on strings (`""`, `"0"`) and integers (`0`). This covers an index given as a string, `(int)` applied to a non-integer event value, and arrays or booleans passed as arguments.
- `count($this->customVars) > 0` before each loop is not modelled separately. With no variables the loop runs zero times, so the guard changes nothing.
- Exception message texts are not modelled. Each error keeps only the parameter its message names.
- Calling a method twice with the same arguments and state gives the same output. Dafny functions are deterministic, so no lemma states this.
- `Tracker.GoogleAnalytics.SetCustomVar`: requires the object invariant `Valid()`. Every object built by `Create` or by the constructor has it.

## Findings

| source | as written | input that shows it | evidently intended | confidence | as-written member | corrected member |
|---|---|---|---|---|---|---|
| GoogleAnalytics/GoogleAnalytics.php:95-114 | `getEventCode` is `static` but wraps with `$this->wrapCodeInScriptTags`; a static method has no `$this`, so PHP stops with an error | `getEventCode('Videos', 'Play', '', null, true)` | the event call inside a script element, as the `$wrapInScriptTags` parameter documents | not executed | `Snippets.EventCodeAsWritten` (shown by `TrackingProperties.EventCodeAsWrittenCannotWrap`, `TrackingProperties.EventCodeAsWrittenExample`) | `Snippets.EventCode` |
